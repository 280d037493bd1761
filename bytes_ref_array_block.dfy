/**
 * BytesRefArrayBlock: the byte-sequence block of the compute engine's
 * columnar data model. It holds a backing store of byte sequences and the
 * position metadata its base class keeps (position count, first value
 * indexes, nulls); it never narrows to a vector, filters into a zero-copy
 * view, and leaves equality and hashing to the structural contract of
 * BytesRefBlock.
 *
 * The behaviour of the collaborators (the base class's accessors, the filter
 * view, BytesRefBlock.equals and hash) is given here only as contracts: the
 * accessors and the observable content follow the block data model, and
 * equals and hash are parameters.
 */
module BytesRefBlocks {
  import opened Wrappers
  import IntegerText

  type BytesRef = seq<bv8>

  /** The backing value store, addressed by value index. */
  datatype BytesRefArray = BytesRefArray(entries: seq<BytesRef>)

  function Size(store: BytesRefArray): nat
  {
    |store.entries|
  }

  /** The closed tag of value kinds; a BytesRefArrayBlock always carries BytesRefType. */
  datatype ElementType = BooleanType | IntType | LongType | DoubleType | NullType | BytesRefType | DocType | UnknownType

  /** The fields of a BytesRefArrayBlock, as its constructor receives them. */
  datatype BytesRefArrayBlock = BytesRefArrayBlock(
    values: BytesRefArray,
    positionCount: int,
    firstValueIndexes: Option<seq<int>>,   // null: one value per position
    nulls: Option<set<int>>)               // null: no position is null

  /** The dense single-valued kind a block may narrow to. */
  datatype BytesRefVector = BytesRefVector(values: BytesRefArray, positionCount: int)

  /** Any BytesRefBlock: an array block, or a filter view over another block. */
  datatype BytesRefBlock =
    | ArrayBlock(block: BytesRefArrayBlock)
    | FilterBytesRefBlock(delegate: BytesRefBlock, positions: seq<int>)

  /** The argument of equals: any Java reference. */
  datatype JavaObject = NullReference | BlockObject(block: BytesRefBlock) | OtherObject(className: string)

  // ---------------------------------------------------------------------------
  // The operations of BytesRefArrayBlock
  // ---------------------------------------------------------------------------

  /** The constructor: the store is kept, the metadata goes to the base class unchanged. */
  function NewBytesRefArrayBlock(values: BytesRefArray, positionCount: int, firstValueIndexes: Option<seq<int>>, nulls: Option<set<int>>): (b: BytesRefArrayBlock)
    ensures b.values == values
    ensures GetPositionCount(ArrayBlock(b)) == positionCount
    ensures b.firstValueIndexes == firstValueIndexes && b.nulls == nulls
  {
    BytesRefArrayBlock(values, positionCount, firstValueIndexes, nulls)
  }

  /** asVector: there is never a vector view of this block. */
  function AsVector(b: BytesRefArrayBlock): (r: Option<BytesRefVector>)
    ensures r == None
  {
    None
  }

  /** getBytesRef: the store's entry at a value index (not a position). */
  function GetBytesRef(b: BytesRefArrayBlock, valueIndex: int): (r: BytesRef)
    requires 0 <= valueIndex < Size(b.values)
    ensures r == b.values.entries[valueIndex]
  {
    b.values.entries[valueIndex]
  }

  /** filter: a view over this very block with the positions as given, unchecked. */
  function Filter(b: BytesRefArrayBlock, positions: seq<int>): (r: BytesRefBlock)
    ensures r.FilterBytesRefBlock? && r.delegate == ArrayBlock(b) && r.positions == positions
    ensures GetPositionCount(r) == |positions|
  {
    FilterBytesRefBlock(ArrayBlock(b), positions)
  }

  function ElementTypeOf(b: BytesRefArrayBlock): (t: ElementType)
    ensures t == BytesRefType
  {
    BytesRefType
  }

  /** equals: false unless the other object is a BytesRefBlock, then the structural test. */
  function Equals(b: BytesRefArrayBlock, obj: JavaObject, blockEquals: (BytesRefBlock, BytesRefBlock) -> bool): (r: bool)
    ensures r <==> obj.BlockObject? && blockEquals(ArrayBlock(b), obj.block)
  {
    match obj
    case BlockObject(that) => blockEquals(ArrayBlock(b), that)
    case _ => false
  }

  /** hashCode: the structural hash of BytesRefBlock. */
  function HashCode(b: BytesRefArrayBlock, blockHash: BytesRefBlock -> int): (h: int)
    ensures h == blockHash(ArrayBlock(b))
  {
    blockHash(ArrayBlock(b))
  }

  const ToStringPrefix := "BytesRefArrayBlock[positions="

  /** toString: the class name and the position count. */
  function ToString(b: BytesRefArrayBlock): string
  {
    ToStringPrefix + IntegerText.IntToText(GetPositionCount(ArrayBlock(b))) + "]"
  }

  // ---------------------------------------------------------------------------
  // The block data model: metadata accessors and observable content
  // ---------------------------------------------------------------------------

  /** getPositionCount: a view has as many positions as it selects. */
  function GetPositionCount(b: BytesRefBlock): int
  {
    match b
    case ArrayBlock(a) => a.positionCount
    case FilterBytesRefBlock(_, positions) => |positions|
  }

  /**
   * What the metadata must satisfy: a non-negative position count; either one
   * value per position, or first value indexes that start at or above 0,
   * never decrease, and end within the store.
   */
  predicate WellFormedArrayBlock(a: BytesRefArrayBlock)
  {
    && a.positionCount >= 0
    && (a.firstValueIndexes.None? ==> a.positionCount <= Size(a.values))
    && (a.firstValueIndexes.Some? ==>
          var f := a.firstValueIndexes.value;
          && |f| == a.positionCount + 1
          && 0 <= f[0]
          && (forall i, j :: 0 <= i <= j <= a.positionCount ==> f[i] <= f[j])
          && f[a.positionCount] <= Size(a.values))
  }

  /** A view is well formed when its delegate is and every selected position exists there. */
  predicate WellFormed(b: BytesRefBlock)
    decreases b
  {
    match b
    case ArrayBlock(a) => WellFormedArrayBlock(a)
    case FilterBytesRefBlock(d, positions) =>
      WellFormed(d) && forall i :: 0 <= i < |positions| ==> 0 <= positions[i] < GetPositionCount(d)
  }

  predicate IsNull(a: BytesRefArrayBlock, position: int)
  {
    a.nulls.Some? && position in a.nulls.value
  }

  function FirstValueIndex(a: BytesRefArrayBlock, position: int): int
    requires WellFormedArrayBlock(a) && 0 <= position < a.positionCount
  {
    if a.firstValueIndexes.None? then position else a.firstValueIndexes.value[position]
  }

  /** The length of a position's value range, before nulls are taken into account. */
  function RangeLength(a: BytesRefArrayBlock, position: int): nat
    requires WellFormedArrayBlock(a) && 0 <= position < a.positionCount
  {
    if a.firstValueIndexes.None? then 1
    else a.firstValueIndexes.value[position + 1] - a.firstValueIndexes.value[position]
  }

  /** How many values a position holds: none when null. */
  function ValueCount(a: BytesRefArrayBlock, position: int): nat
    requires WellFormedArrayBlock(a) && 0 <= position < a.positionCount
  {
    if IsNull(a, position) then 0 else RangeLength(a, position)
  }

  /** What one position shows: null, or its values in store order. */
  datatype PositionValues = NullPosition | Values(values: seq<BytesRef>)

  function PositionContent(a: BytesRefArrayBlock, position: int): PositionValues
    requires WellFormedArrayBlock(a) && 0 <= position < a.positionCount
  {
    if IsNull(a, position) then NullPosition
    else
      var first := FirstValueIndex(a, position);
      Values(a.values.entries[first .. first + ValueCount(a, position)])
  }

  /** The observable content of a block, position by position. */
  function Content(b: BytesRefBlock): (c: seq<PositionValues>)
    requires WellFormed(b)
    ensures |c| == GetPositionCount(b)
    decreases b
  {
    match b
    case ArrayBlock(a) => seq(a.positionCount, p requires 0 <= p < a.positionCount => PositionContent(a, p))
    case FilterBytesRefBlock(d, positions) =>
      var inner := Content(d);
      seq(|positions|, i requires 0 <= i < |positions| => inner[positions[i]])
  }

  /** Structural equality as the data model defines it: same observable content. */
  predicate ContentEquals(x: BytesRefBlock, y: BytesRefBlock)
  {
    WellFormed(x) && WellFormed(y) && Content(x) == Content(y)
  }

  function Iota(n: nat): (s: seq<int>)
    ensures |s| == n && forall i :: 0 <= i < n ==> s[i] == i
  {
    seq(n, i => i)
  }

  // ---------------------------------------------------------------------------
  // Properties
  // ---------------------------------------------------------------------------

  /** A non-null position's values are what getBytesRef reads across its range. */
  lemma ContentReadsGetBytesRef(a: BytesRefArrayBlock, position: int, k: int)
    requires WellFormedArrayBlock(a) && 0 <= position < a.positionCount
    requires !IsNull(a, position) && 0 <= k < ValueCount(a, position)
    ensures 0 <= FirstValueIndex(a, position) + k < Size(a.values)
    ensures Content(ArrayBlock(a))[position] == Values(Content(ArrayBlock(a))[position].values)
    ensures Content(ArrayBlock(a))[position].values[k] == GetBytesRef(a, FirstValueIndex(a, position) + k)
  {
    if a.firstValueIndexes.Some? {
      var f := a.firstValueIndexes.value;
      assert f[position + 1] <= f[a.positionCount];
    }
  }

  /** A null position holds no values, whatever its range says. */
  lemma NullPositionHasNoValues(a: BytesRefArrayBlock, position: int)
    requires WellFormedArrayBlock(a) && 0 <= position < a.positionCount
    requires IsNull(a, position)
    ensures ValueCount(a, position) == 0 && Content(ArrayBlock(a))[position] == NullPosition
  {
  }

  /** The sum of the value counts of the first `n` positions. */
  function SumValueCounts(a: BytesRefArrayBlock, n: int): int
    requires WellFormedArrayBlock(a) && 0 <= n <= a.positionCount
    decreases n
  {
    if n == 0 then 0 else SumValueCounts(a, n - 1) + ValueCount(a, n - 1)
  }

  /** How many store entries the metadata addresses in its first `n` positions. */
  function Addressed(a: BytesRefArrayBlock, n: int): int
    requires WellFormedArrayBlock(a) && 0 <= n <= a.positionCount
  {
    if a.firstValueIndexes.None? then n else a.firstValueIndexes.value[n] - a.firstValueIndexes.value[0]
  }

  /**
   * The value counts add up to at most the addressed range, and to exactly it
   * when no null position hides an entry of the range.
   */
  lemma {:induction false} ValueCountsCoverRange(a: BytesRefArrayBlock, n: int)
    requires WellFormedArrayBlock(a) && 0 <= n <= a.positionCount
    ensures SumValueCounts(a, n) <= Addressed(a, n)
    ensures (forall p :: 0 <= p < n && IsNull(a, p) ==> RangeLength(a, p) == 0) ==> SumValueCounts(a, n) == Addressed(a, n)
    decreases n
  {
    if n > 0 {
      ValueCountsCoverRange(a, n - 1);
    }
  }

  /** Filtering by every position in order shows exactly the block's content. */
  lemma FilterIdentity(a: BytesRefArrayBlock)
    requires WellFormedArrayBlock(a)
    ensures WellFormed(Filter(a, Iota(a.positionCount)))
    ensures Content(Filter(a, Iota(a.positionCount))) == Content(ArrayBlock(a))
  {
    var positions := Iota(a.positionCount);
    var view := Filter(a, positions);
    assert WellFormed(ArrayBlock(a));
    assert forall i :: 0 <= i < |positions| ==> 0 <= positions[i] < GetPositionCount(ArrayBlock(a));
    assert WellFormed(view);
    var c, d := Content(view), Content(ArrayBlock(a));
    assert |c| == |d|;
    forall i | 0 <= i < |c|
      ensures c[i] == d[i]
    {
    }
  }

  /** A view reads position `i` of its delegate at `positions[i]`, repeats and order included. */
  lemma FilterReadsThrough(a: BytesRefArrayBlock, positions: seq<int>, i: int)
    requires WellFormed(Filter(a, positions)) && 0 <= i < |positions|
    ensures Content(Filter(a, positions))[i] == Content(ArrayBlock(a))[positions[i]]
  {
  }

  /** The view is well formed exactly when every selected position exists: filter itself checks nothing. */
  lemma FilterWellFormedIff(a: BytesRefArrayBlock, positions: seq<int>)
    ensures WellFormed(Filter(a, positions))
      <==> WellFormedArrayBlock(a) && forall i :: 0 <= i < |positions| ==> 0 <= positions[i] < a.positionCount
  {
  }

  /** A view over a view reads like one view whose positions are composed. */
  lemma FilterComposes(d: BytesRefBlock, inner: seq<int>, outer: seq<int>)
    requires WellFormed(FilterBytesRefBlock(FilterBytesRefBlock(d, inner), outer))
    ensures var composed := seq(|outer|, i requires 0 <= i < |outer| => inner[outer[i]]);
      && WellFormed(FilterBytesRefBlock(d, composed))
      && Content(FilterBytesRefBlock(FilterBytesRefBlock(d, inner), outer)) == Content(FilterBytesRefBlock(d, composed))
  {
    var composed := seq(|outer|, i requires 0 <= i < |outer| => inner[outer[i]]);
    assert WellFormed(FilterBytesRefBlock(d, composed));
    var middle := Content(FilterBytesRefBlock(d, inner));
    var left := Content(FilterBytesRefBlock(FilterBytesRefBlock(d, inner), outer));
    var right := Content(FilterBytesRefBlock(d, composed));
    forall i | 0 <= i < |outer|
      ensures left[i] == right[i]
    {
      assert left[i] == middle[outer[i]];
      assert middle[outer[i]] == Content(d)[inner[outer[i]]];
      assert right[i] == Content(d)[composed[i]];
    }
  }

  /** Two equal blocks hash alike, provided the structural hash respects the structural equality. */
  lemma HashAgreesWithEquals(a: BytesRefArrayBlock, obj: JavaObject,
                             blockEquals: (BytesRefBlock, BytesRefBlock) -> bool, blockHash: BytesRefBlock -> int)
    requires forall x, y :: blockEquals(x, y) ==> blockHash(x) == blockHash(y)
    requires Equals(a, obj, blockEquals)
    ensures obj.BlockObject? && HashCode(a, blockHash) == blockHash(obj.block)
  {
  }

  /**
   * Equality is structural, not by identity: under the data model's
   * structural equality a block equals its identity view, a different
   * representation of the same content, and the two are equal both ways.
   */
  lemma EqualsIdentityView(a: BytesRefArrayBlock)
    requires WellFormedArrayBlock(a)
    ensures Equals(a, BlockObject(Filter(a, Iota(a.positionCount))), ContentEquals)
    ensures ContentEquals(Filter(a, Iota(a.positionCount)), ArrayBlock(a))
  {
    FilterIdentity(a);
  }

  /** toString shows the class name and a text that reads back as the position count. */
  lemma ToStringShowsPositionCount(a: BytesRefArrayBlock)
    ensures var s := ToString(a);
      && |s| > |ToStringPrefix| + 1
      && s[..|ToStringPrefix|] == ToStringPrefix
      && s[|s| - 1] == ']'
      && IntegerText.IsIntegerText(s[|ToStringPrefix| .. |s| - 1])
      && IntegerText.ParseInt(s[|ToStringPrefix| .. |s| - 1]) == a.positionCount
  {
    var s := ToString(a);
    assert s[|ToStringPrefix| .. |s| - 1] == IntegerText.IntToText(a.positionCount);
    IntegerText.IntTextRoundTrip(a.positionCount);
  }

  /**
   * toString is exactly the prefix, the one canonical integer text of the
   * position count (no "-0", no leading zero), and "]".
   */
  lemma ToStringExact(a: BytesRefArrayBlock, count: string)
    requires IntegerText.IsCanonicalIntText(count)
    requires IntegerText.IsIntegerText(count) && IntegerText.ParseInt(count) == a.positionCount
    ensures ToString(a) == ToStringPrefix + count + "]"
  {
    IntegerText.CanonicalIntTextUnique(count);
  }

  /** Blocks with different position counts never print alike. */
  lemma ToStringDistinguishesPositionCounts(a: BytesRefArrayBlock, b: BytesRefArrayBlock)
    requires ToString(a) == ToString(b)
    ensures a.positionCount == b.positionCount
  {
    ToStringShowsPositionCount(a);
    ToStringShowsPositionCount(b);
  }

  /**
   * The three-position example of the data model: ["a", "b"], null, ["c"].
   * Position 0 holds two values, position 1 is null, asVector is absent, and
   * filter([2, 0]) shows ["c"] then ["a", "b"].
   */
  lemma ExampleMultiValuedBlock()
    ensures var a := NewBytesRefArrayBlock(BytesRefArray([[0x61], [0x62], [0x63]]), 3, Some([0, 2, 2, 3]), Some({1}));
      && WellFormedArrayBlock(a)
      && ValueCount(a, 0) == 2 && IsNull(a, 1) && AsVector(a) == None
      && Content(ArrayBlock(a)) == [Values([[0x61], [0x62]]), NullPosition, Values([[0x63]])]
      && WellFormed(Filter(a, [2, 0]))
      && Content(Filter(a, [2, 0])) == [Values([[0x63]]), Values([[0x61], [0x62]])]
  {
    var a := NewBytesRefArrayBlock(BytesRefArray([[0x61], [0x62], [0x63]]), 3, Some([0, 2, 2, 3]), Some({1}));
    assert WellFormedArrayBlock(a);
    assert PositionContent(a, 0) == Values([[0x61], [0x62]]);
    assert PositionContent(a, 2) == Values([[0x63]]);
  }

  /**
   * Even a block whose every position holds exactly one non-null value does
   * not narrow: asVector is absent for it too.
   */
  lemma SingleValuedBlockDoesNotNarrow()
    ensures var a := NewBytesRefArrayBlock(BytesRefArray([[0x61], [0x62]]), 2, None, None);
      && WellFormedArrayBlock(a)
      && (forall p :: 0 <= p < 2 ==> ValueCount(a, p) == 1 && !IsNull(a, p))
      && AsVector(a).None?
  {
  }
}

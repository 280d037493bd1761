/**
 * The retriever envelope parser of RetrieverBuilder, its nested-depth guard,
 * and the pre-filter queries every retriever builder carries.
 *
 * A retriever clause is the object `{ "<name>": { <body> } }`. The parser
 * walks an XContent token stream with a cursor; the body itself is parsed by
 * the named-object registry, which this model keeps opaque: a registry is a
 * function that, given the category, the name, the tokens and the cursor,
 * reports the parsed object and how many tokens it moved the cursor, or that
 * the name is unknown, or that the body failed to parse.
 */
module Retriever {
  import opened Wrappers

  /** The token kinds an XContent parser reports. */
  datatype Token =
    | StartObject
    | EndObject
    | StartArray
    | EndArray
    | FieldName(name: string)
    | ValueString
    | ValueNumber
    | ValueBoolean
    | ValueEmbeddedObject
    | ValueNull

  /** The category class under which a named object is looked up. */
  datatype Category = QueryBuilderCategory | RetrieverBuilderCategory | OtherCategory(className: string)

  /** The object the registry builds; its structure belongs to the registry. */
  datatype ParsedObject = ParsedObject(handle: nat)

  /** What the registry reports for one named-object parse. */
  datatype RegistryResult =
    | Found(parsed: ParsedObject, consumed: nat)   // the cursor moved `consumed` tokens
    | NotFound(consumed: nat)                      // a NamedObjectNotFoundException escaped
    | Failed(consumed: nat)                        // any other exception escaped

  /** The named-object registry: category, name, token stream and cursor. */
  type Registry = (Category, string, seq<Token>, int) -> RegistryResult

  /** The kinds of failure; message texts and locations are not modelled. */
  datatype ParseError =
    | MalformedStart                                      // must start with [START_OBJECT]
    | EmptyClause                                         // empty clause found
    | NoFieldAfterStart                                   // no field after [START_OBJECT]
    | NoStartAfterName(name: string)                      // no [START_OBJECT] after retriever name
    | UnknownRetriever(name: string)                      // unknown retriever [name]
    | ExpectedEndObject(name: string, found: Option<Token>)
    | NestedDepthExceeded(name: string)                   // exceeds the maximum nested depth [2]
    | NamedObjectNotFound(name: string)
    | BodyFailed

  /** The maximum nested depth the guard admits. */
  const MaxNestedDepth := 2

  // ---------------------------------------------------------------------------
  // The token cursor
  // ---------------------------------------------------------------------------

  /** The current token: absent before the first token and after the last. */
  function TokenAt(ts: seq<Token>, cursor: int): Option<Token>
  {
    if 0 <= cursor < |ts| then Some(ts[cursor]) else None
  }

  /** Where nextToken() leaves the cursor: one further, but never past the end. */
  function Advance(ts: seq<Token>, cursor: int): (c: int)
    requires -1 <= cursor <= |ts|
    ensures -1 <= c <= |ts|
    ensures cursor < |ts| ==> c == cursor + 1
    ensures cursor == |ts| ==> c == cursor
  {
    if cursor < |ts| then cursor + 1 else cursor
  }

  /** Where the cursor is after a parse that moved it `consumed` tokens. */
  function Skip(ts: seq<Token>, cursor: int, consumed: nat): (c: int)
    requires -1 <= cursor <= |ts|
    ensures cursor <= c <= |ts|
    ensures cursor + consumed <= |ts| ==> c == cursor + consumed
  {
    if cursor + consumed <= |ts| then cursor + consumed else |ts|
  }

  predicate IsFieldName(t: Option<Token>)
  {
    t.Some? && t.value.FieldName?
  }

  // ---------------------------------------------------------------------------
  // The nested-depth guard of the parser wrapper
  // ---------------------------------------------------------------------------

  /** The counter once the lookup has started: only a query lookup raises it. */
  function DepthOnEntry(depth: int, category: Category): int
  {
    if category == QueryBuilderCategory then depth + 1 else depth
  }

  /** The guard refuses a query lookup whose raised counter exceeds the maximum. */
  predicate DepthRejected(entered: int, category: Category)
  {
    category == QueryBuilderCategory && entered > MaxNestedDepth
  }

  /** The counter after a successful lookup: only a retriever lookup lowers it. */
  function DepthOnExit(entered: int, category: Category): int
  {
    if category == RetrieverBuilderCategory then entered - 1 else entered
  }

  /** Result, cursor and counter after one named-object lookup. */
  datatype Lookup = Lookup(result: Result<ParsedObject, ParseError>, cursor: int, depth: int)

  /** One call of the wrapper's namedObject. */
  function LookupSpec(registry: Registry, category: Category, name: string, ts: seq<Token>, cursor: int, depth: int): Lookup
    requires -1 <= cursor <= |ts|
  {
    var entered := DepthOnEntry(depth, category);
    if DepthRejected(entered, category) then
      Lookup(Failure(NestedDepthExceeded(name)), cursor, entered)
    else
      match registry(category, name, ts, cursor)
      case NotFound(k) => Lookup(Failure(NamedObjectNotFound(name)), Skip(ts, cursor, k), entered)
      case Failed(k) => Lookup(Failure(BodyFailed), Skip(ts, cursor, k), entered)
      case Found(obj, k) => Lookup(Success(obj), Skip(ts, cursor, k), DepthOnExit(entered, category))
  }

  /** The counter only moves for the two categories the guard knows about. */
  lemma LookupDepth(registry: Registry, category: Category, name: string, ts: seq<Token>, cursor: int, depth: int)
    requires -1 <= cursor <= |ts|
    ensures var l := LookupSpec(registry, category, name, ts, cursor, depth);
      && (category == QueryBuilderCategory ==> l.depth == depth + 1)
      && (category == RetrieverBuilderCategory ==> l.depth == if l.result.Success? then depth - 1 else depth)
      && (category.OtherCategory? ==> l.depth == depth)
  {
  }

  /**
   * A query lookup that takes the counter past the maximum fails before the
   * registry is consulted: nothing is consumed and any registry gives the
   * same outcome.
   */
  lemma DepthRejectedBeforeParse(registry: Registry, other: Registry, name: string, ts: seq<Token>, cursor: int, depth: int)
    requires -1 <= cursor <= |ts|
    ensures var l := LookupSpec(registry, QueryBuilderCategory, name, ts, cursor, depth);
      && (l.result == Failure(NestedDepthExceeded(name)) <==> depth + 1 > MaxNestedDepth)
      && (depth + 1 > MaxNestedDepth ==>
            l.cursor == cursor && l == LookupSpec(other, QueryBuilderCategory, name, ts, cursor, depth))
  {
  }

  /** A lookup never moves the cursor backwards. */
  lemma LookupAdvances(registry: Registry, category: Category, name: string, ts: seq<Token>, cursor: int, depth: int)
    requires -1 <= cursor <= |ts|
    ensures cursor <= LookupSpec(registry, category, name, ts, cursor, depth).cursor <= |ts|
  {
  }

  /**
   * A run of successful lookups through one wrapper, given by their
   * categories: the final counter, or None once the guard refuses one.
   */
  function RunGuard(depth: int, categories: seq<Category>): Option<int>
    decreases categories
  {
    if categories == [] then Some(depth)
    else
      var entered := DepthOnEntry(depth, categories[0]);
      if DepthRejected(entered, categories[0]) then None
      else RunGuard(DepthOnExit(entered, categories[0]), categories[1..])
  }

  /** How many lookups of a run are of the given category. */
  function CountOf(category: Category, categories: seq<Category>): nat
  {
    if categories == [] then 0
    else (if categories[0] == category then 1 else 0) + CountOf(category, categories[1..])
  }

  /** The counter is the number of query lookups minus the retriever lookups. */
  lemma {:induction false} RunGuardCounts(depth: int, categories: seq<Category>)
    requires RunGuard(depth, categories).Some?
    ensures RunGuard(depth, categories).value
      == depth + CountOf(QueryBuilderCategory, categories) - CountOf(RetrieverBuilderCategory, categories)
    decreases categories
  {
    if categories != [] {
      var entered := DepthOnEntry(depth, categories[0]);
      RunGuardCounts(DepthOnExit(entered, categories[0]), categories[1..]);
    }
  }

  /** A run the guard admits never leaves the counter above the maximum. */
  lemma {:induction false} RunGuardBounded(depth: int, categories: seq<Category>)
    requires RunGuard(depth, categories).Some?
    ensures RunGuard(depth, categories).value <= if depth > MaxNestedDepth then depth else MaxNestedDepth
    decreases categories
  {
    if categories != [] {
      var entered := DepthOnEntry(depth, categories[0]);
      RunGuardBounded(DepthOnExit(entered, categories[0]), categories[1..]);
    }
  }

  /**
   * One successful registry parse advances a run exactly as the wrapper's
   * namedObject moves the counter, and a lookup the guard refuses ends the run.
   */
  lemma RunGuardStep(registry: Registry, category: Category, name: string, ts: seq<Token>, cursor: int,
                     depth: int, rest: seq<Category>)
    requires -1 <= cursor <= |ts|
    requires registry(category, name, ts, cursor).Found?
    ensures var l := LookupSpec(registry, category, name, ts, cursor, depth);
      && (l.result.Success? ==> RunGuard(depth, [category] + rest) == RunGuard(l.depth, rest))
      && (l.result.Failure? ==> RunGuard(depth, [category] + rest) == None)
  {
    assert ([category] + rest)[1..] == rest;
  }

  /**
   * Without a retriever lookup in between, more query lookups than the
   * counter has room for are refused, whether they are nested or siblings.
   */
  lemma {:induction false} QueriesWithoutRetrieverRejected(depth: int, categories: seq<Category>)
    requires CountOf(RetrieverBuilderCategory, categories) == 0
    requires CountOf(QueryBuilderCategory, categories) > 0
    requires depth + CountOf(QueryBuilderCategory, categories) > MaxNestedDepth
    ensures RunGuard(depth, categories) == None
    decreases categories
  {
    if categories != [] {
      var entered := DepthOnEntry(depth, categories[0]);
      if !DepthRejected(entered, categories[0]) {
        QueriesWithoutRetrieverRejected(DepthOnExit(entered, categories[0]), categories[1..]);
      }
    }
  }

  // ---------------------------------------------------------------------------
  // The envelope grammar
  // ---------------------------------------------------------------------------

  /** Result, cursor, counter and tracked sections after parseInnerRetrieverBuilder. */
  datatype InnerParse = InnerParse(result: Result<ParsedObject, ParseError>, cursor: int, depth: int, tracked: seq<string>)

  /** Where the opening START_OBJECT is: the current token, or else the next one. */
  function OpenAt(ts: seq<Token>, cursor: int): int
    requires -1 <= cursor <= |ts|
  {
    if TokenAt(ts, cursor) == Some(StartObject) then cursor else Advance(ts, cursor)
  }

  /** parseInnerRetrieverBuilder, step by step as the cursor moves. */
  function InnerSpec(registry: Registry, ts: seq<Token>, cursor: int, depth: int): InnerParse
    requires -1 <= cursor <= |ts|
  {
    var open := OpenAt(ts, cursor);
    if TokenAt(ts, open) != Some(StartObject) then InnerParse(Failure(MalformedStart), open, depth, [])
    else
      var field := Advance(ts, open);
      if TokenAt(ts, field) == Some(EndObject) then InnerParse(Failure(EmptyClause), field, depth, [])
      else if !IsFieldName(TokenAt(ts, field)) then InnerParse(Failure(NoFieldAfterStart), field, depth, [])
      else
        var name := ts[field].name;
        var body := Advance(ts, field);
        if TokenAt(ts, body) != Some(StartObject) then InnerParse(Failure(NoStartAfterName(name)), body, depth, [])
        else
          var l := LookupSpec(registry, RetrieverBuilderCategory, name, ts, body, depth);
          if l.result.Failure? then
            var e := if l.result.error.NamedObjectNotFound? then UnknownRetriever(name) else l.result.error;
            InnerParse(Failure(e), l.cursor, l.depth, [])
          else if TokenAt(ts, l.cursor) != Some(EndObject) then
            InnerParse(Failure(ExpectedEndObject(name, TokenAt(ts, l.cursor))), l.cursor, l.depth, [name])
          else
            var close := Advance(ts, l.cursor);
            if TokenAt(ts, close) != Some(EndObject) then
              InnerParse(Failure(ExpectedEndObject(name, TokenAt(ts, close))), close, l.depth, [name])
            else
              InnerParse(l.result, close, l.depth, [name])
  }

  /** The opening START_OBJECT, a FIELD_NAME carrying `name`, and the body's START_OBJECT. */
  predicate Header(ts: seq<Token>, cursor: int, name: string)
    requires -1 <= cursor <= |ts|
  {
    var open := OpenAt(ts, cursor);
    TokenAt(ts, open) == Some(StartObject)
    && TokenAt(ts, open + 1) == Some(FieldName(name))
    && TokenAt(ts, open + 2) == Some(StartObject)
  }

  /**
   * The whole envelope, stated on token positions: the header, a body the
   * registry parses into `obj` ending on an END_OBJECT, and a closing
   * END_OBJECT right after it.
   */
  predicate Envelope(registry: Registry, ts: seq<Token>, cursor: int, name: string, obj: ParsedObject)
    requires -1 <= cursor <= |ts|
  {
    var open := OpenAt(ts, cursor);
    Header(ts, cursor, name)
    && var r := registry(RetrieverBuilderCategory, name, ts, open + 2);
    && r == Found(obj, r.consumed)
    && TokenAt(ts, open + 2 + r.consumed) == Some(EndObject)
    && TokenAt(ts, open + 3 + r.consumed) == Some(EndObject)
  }

  /** Parsing only starts at a START_OBJECT, the current one or the next one. */
  lemma MustStartWithStartObject(registry: Registry, ts: seq<Token>, cursor: int, depth: int)
    requires -1 <= cursor <= |ts|
    ensures var p := InnerSpec(registry, ts, cursor, depth);
      && (p.result == Failure(MalformedStart)
          <==> TokenAt(ts, cursor) != Some(StartObject) && TokenAt(ts, Advance(ts, cursor)) != Some(StartObject))
      && (p.result == Failure(MalformedStart) ==> p.cursor <= cursor + 1 && p.depth == depth && p.tracked == [])
  {
  }

  /** `{` immediately followed by `}` is an empty clause. */
  lemma EmptyClauseRejected(registry: Registry, ts: seq<Token>, cursor: int, depth: int)
    requires -1 <= cursor <= |ts|
    ensures var open := OpenAt(ts, cursor);
      InnerSpec(registry, ts, cursor, depth).result == Failure(EmptyClause)
      <==> TokenAt(ts, open) == Some(StartObject) && TokenAt(ts, open + 1) == Some(EndObject)
  {
  }

  /** The token after the opening must be a FIELD_NAME, then a START_OBJECT. */
  lemma HeaderShape(registry: Registry, ts: seq<Token>, cursor: int, depth: int, name: string)
    requires -1 <= cursor <= |ts|
    ensures var open := OpenAt(ts, cursor);
      var p := InnerSpec(registry, ts, cursor, depth);
      && (p.result == Failure(NoFieldAfterStart)
          <==> TokenAt(ts, open) == Some(StartObject) && TokenAt(ts, open + 1) != Some(EndObject)
               && !IsFieldName(TokenAt(ts, open + 1)))
      && (p.result == Failure(NoStartAfterName(name))
          <==> TokenAt(ts, open) == Some(StartObject) && TokenAt(ts, open + 1) == Some(FieldName(name))
               && TokenAt(ts, open + 2) != Some(StartObject))
  {
  }

  /**
   * An unknown retriever name is reported under the retriever's own name and
   * is not tracked as section usage.
   */
  lemma UnknownRetrieverNotTracked(registry: Registry, ts: seq<Token>, cursor: int, depth: int, name: string)
    requires -1 <= cursor <= |ts|
    ensures var open := OpenAt(ts, cursor);
      var p := InnerSpec(registry, ts, cursor, depth);
      && (p.result == Failure(UnknownRetriever(name))
          <==> Header(ts, cursor, name) && registry(RetrieverBuilderCategory, name, ts, open + 2).NotFound?)
      && (p.result == Failure(UnknownRetriever(name)) ==> p.tracked == [] && p.depth == depth)
  {
  }

  /**
   * The retriever name is tracked exactly once when, and only when, the
   * registry built the retriever; a parse that succeeds has tracked it.
   */
  lemma TrackedOnceOnLookup(registry: Registry, ts: seq<Token>, cursor: int, depth: int, name: string)
    requires -1 <= cursor <= |ts|
    ensures var open := OpenAt(ts, cursor);
      var p := InnerSpec(registry, ts, cursor, depth);
      && (p.tracked == [name]
          <==> Header(ts, cursor, name) && registry(RetrieverBuilderCategory, name, ts, open + 2).Found?)
      && (p.tracked == [] || |p.tracked| == 1)
      && (p.result.Success? ==> p.tracked == [ts[open + 1].name])
  {
  }

  /**
   * The parse returns `obj` exactly on a complete envelope, and then leaves
   * the cursor on the closing END_OBJECT and the counter one lower.
   */
  lemma AcceptsExactlyEnvelopes(registry: Registry, ts: seq<Token>, cursor: int, depth: int, obj: ParsedObject)
    requires -1 <= cursor <= |ts|
    ensures var open := OpenAt(ts, cursor);
      var p := InnerSpec(registry, ts, cursor, depth);
      && (p.result == Success(obj) <==> IsFieldName(TokenAt(ts, open + 1)) && Envelope(registry, ts, cursor, ts[open + 1].name, obj))
      && (p.result == Success(obj) ==>
            p.cursor == open + 3 + registry(RetrieverBuilderCategory, ts[open + 1].name, ts, open + 2).consumed
            && p.depth == depth - 1)
  {
  }

  /** A body that does not end on END_OBJECT, or a missing outer END_OBJECT, is refused. */
  lemma MissingEndObjectRejected(registry: Registry, ts: seq<Token>, cursor: int, depth: int, name: string, obj: ParsedObject, k: nat)
    requires -1 <= cursor <= |ts|
    requires Header(ts, cursor, name)
    requires registry(RetrieverBuilderCategory, name, ts, OpenAt(ts, cursor) + 2) == Found(obj, k)
    ensures var open := OpenAt(ts, cursor);
      var p := InnerSpec(registry, ts, cursor, depth);
      && (TokenAt(ts, open + 2 + k) != Some(EndObject) ==>
            p.result == Failure(ExpectedEndObject(name, TokenAt(ts, open + 2 + k))))
      && (TokenAt(ts, open + 2 + k) == Some(EndObject) && TokenAt(ts, open + 3 + k) != Some(EndObject) ==>
            p.result == Failure(ExpectedEndObject(name, TokenAt(ts, open + 3 + k))))
  {
  }

  /** `{"standard": {}}` read from a fresh parser, with a registry that knows it. */
  lemma ExampleStandardRetriever()
    ensures var ts := [StartObject, FieldName("standard"), StartObject, EndObject, EndObject];
      var known: Registry := (c, n, s, k) => if n == "standard" then Found(ParsedObject(7), 1) else NotFound(0);
      var p := InnerSpec(known, ts, -1, 0);
      && p == InnerParse(Success(ParsedObject(7)), 4, -1, ["standard"])
      && InnerSpec(known, [StartObject, FieldName("knn"), StartObject, EndObject, EndObject], -1, 0).result
         == Failure(UnknownRetriever("knn"))
      && InnerSpec(known, [StartObject, EndObject], -1, 0).result == Failure(EmptyClause)
  {
  }

  // ---------------------------------------------------------------------------
  // The parser state and the context
  // ---------------------------------------------------------------------------

  /** The parser context; only its section-usage record is modelled. */
  class RetrieverParserContext {
    var sectionUsage: seq<string>

    constructor ()
      ensures sectionUsage == []
    {
      sectionUsage := [];
    }

    method TrackSectionUsage(section: string)
      modifies this
      ensures sectionUsage == old(sectionUsage) + [section]
    {
      sectionUsage := sectionUsage + [section];
    }
  }

  /**
   * The parser as parseTopLevelRetrieverBuilder wraps it: the token stream,
   * the cursor (-1 before the first token), the registry behind
   * namedObject, and the wrapper's nestedDepth counter.
   */
  class RetrieverParser {
    const tokens: array<Token>
    const registry: Registry
    var cursor: int
    var depth: int

    ghost predicate Valid()
      reads this
    {
      -1 <= cursor <= tokens.Length
    }

    constructor (ts: seq<Token>, registry: Registry)
      ensures Valid() && fresh(tokens)
      ensures tokens[..] == ts && this.registry == registry && cursor == -1 && depth == 0
    {
      tokens := new Token[|ts|](i requires 0 <= i < |ts| => ts[i]);
      this.registry := registry;
      cursor := -1;
      depth := 0;
    }

    /** currentToken(): the token under the cursor, or null before the first and after the last. */
    function CurrentToken(): (t: Option<Token>)
      reads this, tokens
      ensures t.Some? <==> 0 <= cursor < tokens.Length
      ensures t.Some? ==> t.value == tokens[cursor]
    {
      TokenAt(tokens[..], cursor)
    }

    method NextToken() returns (t: Option<Token>)
      requires Valid()
      modifies this`cursor
      ensures Valid()
      ensures cursor == Advance(tokens[..], old(cursor)) && t == CurrentToken()
    {
      if cursor < tokens.Length {
        cursor := cursor + 1;
      }
      t := CurrentToken();
    }

    /** The wrapper's namedObject: the depth guard around the registry parse. */
    method NamedObject(category: Category, name: string) returns (r: Result<ParsedObject, ParseError>)
      requires Valid()
      modifies this`cursor, this`depth
      ensures Valid()
      ensures Lookup(r, cursor, depth) == LookupSpec(registry, category, name, tokens[..], old(cursor), old(depth))
    {
      if category == QueryBuilderCategory {
        depth := depth + 1;
        if depth > MaxNestedDepth {
          return Failure(NestedDepthExceeded(name));
        }
      }
      var parsed := registry(category, name, tokens[..], cursor);
      match parsed
      case NotFound(k) =>
        cursor := Skip(tokens[..], cursor, k);
        return Failure(NamedObjectNotFound(name));
      case Failed(k) =>
        cursor := Skip(tokens[..], cursor, k);
        return Failure(BodyFailed);
      case Found(obj, k) =>
        cursor := Skip(tokens[..], cursor, k);
        if category == RetrieverBuilderCategory {
          depth := depth - 1;
        }
        r := Success(obj);
    }

    method ParseInnerRetrieverBuilder(context: RetrieverParserContext) returns (r: Result<ParsedObject, ParseError>)
      requires Valid()
      modifies this`cursor, this`depth, context
      ensures Valid()
      ensures var p := InnerSpec(registry, tokens[..], old(cursor), old(depth));
        && r == p.result && cursor == p.cursor && depth == p.depth
        && context.sectionUsage == old(context.sectionUsage) + p.tracked
    {
      var t := CurrentToken();
      if t != Some(StartObject) {
        t := NextToken();
        if t != Some(StartObject) {
          return Failure(MalformedStart);
        }
      }
      t := NextToken();
      if t == Some(EndObject) {
        return Failure(EmptyClause);
      }
      t := CurrentToken();
      if !IsFieldName(t) {
        return Failure(NoFieldAfterStart);
      }
      var name := t.value.name;
      t := NextToken();
      if t != Some(StartObject) {
        return Failure(NoStartAfterName(name));
      }
      var built := NamedObject(RetrieverBuilderCategory, name);
      if built.Failure? {
        if built.error.NamedObjectNotFound? {
          return Failure(UnknownRetriever(name));
        }
        return built;
      }
      context.TrackSectionUsage(name);
      t := CurrentToken();
      if t != Some(EndObject) {
        return Failure(ExpectedEndObject(name, t));
      }
      t := NextToken();
      if t != Some(EndObject) {
        return Failure(ExpectedEndObject(name, t));
      }
      r := built;
    }

    /** parseTopLevelRetrieverBuilder: a fresh wrapper, so the counter starts at 0. */
    method ParseTopLevelRetrieverBuilder(context: RetrieverParserContext) returns (r: Result<ParsedObject, ParseError>)
      requires Valid()
      modifies this`cursor, this`depth, context
      ensures Valid()
      ensures var p := InnerSpec(registry, tokens[..], old(cursor), 0);
        && r == p.result && cursor == p.cursor && depth == p.depth
        && context.sectionUsage == old(context.sectionUsage) + p.tracked
    {
      depth := 0;
      r := ParseInnerRetrieverBuilder(context);
    }
  }

  // ---------------------------------------------------------------------------
  // Pre-filter queries
  // ---------------------------------------------------------------------------

  /** A query builder, opaque here. */
  datatype QueryBuilder = QueryBuilder(name: string)

  /** The state every retriever builder carries: its pre-filter queries. */
  class RetrieverBuilder {
    var preFilterQueryBuilders: seq<QueryBuilder>

    constructor ()
      ensures preFilterQueryBuilders == []
    {
      preFilterQueryBuilders := [];
    }

    /** The getter hands back the list held now. */
    function PreFilterQueryBuilders(): (queries: seq<QueryBuilder>)
      reads this
      ensures queries == preFilterQueryBuilders
    {
      preFilterQueryBuilders
    }

    /** Replaces the list wholesale and returns the same builder. */
    method SetPreFilterQueryBuilders(queries: seq<QueryBuilder>) returns (self: RetrieverBuilder)
      modifies this
      ensures self == this
      ensures PreFilterQueryBuilders() == queries
    {
      preFilterQueryBuilders := queries;
      self := this;
    }
  }

  /**
   * A fresh builder has no pre-filter queries; after two sets the getter
   * returns the list set last, and every set returned the same builder.
   */
  method PreFilterQueryBuildersLastSetWins(first: seq<QueryBuilder>, second: seq<QueryBuilder>)
    returns (initial: seq<QueryBuilder>, afterFirst: seq<QueryBuilder>, afterSecond: seq<QueryBuilder>, sameBuilder: bool)
    ensures initial == [] && afterFirst == first && afterSecond == second
    ensures sameBuilder
  {
    var b := new RetrieverBuilder();
    initial := b.PreFilterQueryBuilders();
    var same := b.SetPreFilterQueryBuilders(first);
    afterFirst := b.PreFilterQueryBuilders();
    sameBuilder := same == b;
    same := same.SetPreFilterQueryBuilders(second);
    afterSecond := b.PreFilterQueryBuilders();
    sameBuilder := sameBuilder && same == b;
  }
}

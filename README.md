# Retriever envelope parsing and the byte-sequence block

This Dafny project models two small parts of Elasticsearch. It proves properties about both.

1. **The retriever parser** (`RetrieverBuilder`). A retriever clause in a search request is the object
   `{ "<name>": { <body> } }`. `parseInnerRetrieverBuilder` checks this envelope token by token with a parser
   cursor. It hands the body to the named-object registry and then expects the two closing `END_OBJECT`s.
   `parseTopLevelRetrieverBuilder` wraps the parser in a filter, and that filter's `namedObject` keeps a
   `nestedDepth` counter. Every retriever builder also carries a list of pre-filter queries, with a getter and a setter.
   The module `Retriever` (`retriever_builder.dfy`) has these parts:
   - the class `RetrieverParser`: a token array, a cursor (`-1` before the first token, as `currentToken()` is
     null there), the registry and the depth counter;
   - its methods `NextToken`, `NamedObject`, `ParseInnerRetrieverBuilder` and `ParseTopLevelRetrieverBuilder`.
     Each is proved against a pure function: `NextToken` against `Advance`, `NamedObject` against `LookupSpec`,
     and the two parse methods against `InnerSpec`;
   - lemmas about those functions, one for each accept or reject condition;
   - the class `RetrieverParserContext`, which records section usage;
   - the class `RetrieverBuilder`, which holds the pre-filter queries.

   The registry stays opaque. It is a function-typed field: given the category, the name, the tokens and the
   cursor, it reports one of three things, each with how far it moved the cursor:
   - the parsed object;
   - not found (a `NamedObjectNotFoundException` escaped);
   - failed (any other exception escaped).

2. **`BytesRefArrayBlock`**, the byte-sequence column block of the ES|QL compute engine. The module
   `BytesRefBlocks` (`bytes_ref_array_block.dfy`) models it as an immutable record. The record holds:
   - the backing store as `seq<seq<bv8>>`;
   - the position count;
   - the optional first value indexes;
   - the optional nulls set.

   `Filter` returns a `FilterBytesRefBlock` value that holds the delegate and the positions. `Equals` and `HashCode`
   take `BytesRefBlock.equals` and `BytesRefBlock.hash` as uninterpreted function parameters. The base class's
   accessors are not part of this model. Their meaning (value count, first value index, nulls) and the observable
   content of a block or view are stated from the block data model. They serve as the reference for the lemmas on
   filtering and structural equality. `IntegerText` (`integer_text.dfy`) is Java's decimal text of an `int`, which
   `toString` needs, together with the parse that reads it back.

The depth guard is modelled as written. The counter goes up for every `QueryBuilder` lookup, before the parse. It
is not restored when that lookup throws. It goes down only after a successful `RetrieverBuilder` lookup. So the
count is "query lookups minus completed retriever lookups" (`RunGuardCounts`), not a nesting depth: three query
lookups with no retriever lookup between them are refused even when they are siblings
(`QueriesWithoutRetrieverRejected`). At the top level, the envelope's own retriever lookup leaves the counter at -1.

The block data model says that a single-valued, non-null block narrows to a vector. `BytesRefArrayBlock.asVector`
always returns null, and the model follows the code (`AsVector`, `SingleValuedBlockDoesNotNarrow`).

## Model

| member | source | states |
|---|---|---|
| `Retriever.RetrieverParser.constructor` | server/src/main/java/org/elasticsearch/search/retriever/RetrieverBuilder.java:46-48 | a freshly opened parser over the token stream (cursor before the first token) together with the wrapper's counter of line 48 at 0; wrapping itself does not move the cursor, which `ParseTopLevelRetrieverBuilder` keeps |
| `Retriever.RetrieverParser.CurrentToken` | server/src/main/java/org/elasticsearch/search/retriever/RetrieverBuilder.java:79-90 | `currentToken()`: present exactly when the cursor is on a token of the stream, and then that token |
| `Retriever.RetrieverParser.NextToken` | server/src/main/java/org/elasticsearch/search/retriever/RetrieverBuilder.java:86 | `nextToken()` moves the cursor one token further, stays at the end once there, and returns the new current token |
| `Retriever.RetrieverParser.NamedObject` | server/src/main/java/org/elasticsearch/search/retriever/RetrieverBuilder.java:51-69 | the wrapper's `namedObject`: result, cursor and counter are those of `LookupSpec` (guard, then registry parse, then decrement) |
| `Retriever.LookupDepth` | server/src/main/java/org/elasticsearch/search/retriever/RetrieverBuilder.java:51-69 | after a lookup the counter is one higher for a query category (whatever the outcome), one lower for a retriever category after a successful parse and unchanged otherwise, and unchanged for every other category |
| `Retriever.DepthRejectedBeforeParse` | server/src/main/java/org/elasticsearch/search/retriever/RetrieverBuilder.java:53-62 | a query lookup fails with the depth error if and only if the raised counter exceeds 2; it then consumes nothing and its outcome does not depend on the registry |
| `Retriever.LookupAdvances` | server/src/main/java/org/elasticsearch/search/retriever/RetrieverBuilder.java:62 | a lookup never moves the cursor backwards or past the end of the stream |
| `Retriever.RunGuardCounts` | server/src/main/java/org/elasticsearch/search/retriever/RetrieverBuilder.java:48-66 | along a run of lookups the guard admits, the counter is its start plus the query lookups minus the retriever lookups |
| `Retriever.RunGuardBounded` | server/src/main/java/org/elasticsearch/search/retriever/RetrieverBuilder.java:53-60 | a run the guard admits never ends with the counter above 2 (or above its start, if that was higher) |
| `Retriever.RunGuardStep` | server/src/main/java/org/elasticsearch/search/retriever/RetrieverBuilder.java:51-69 | one successful registry parse moves a run of lookups exactly as `namedObject` moves the counter, and a lookup the guard refuses ends the run |
| `Retriever.QueriesWithoutRetrieverRejected` | server/src/main/java/org/elasticsearch/search/retriever/RetrieverBuilder.java:52-66 | with no retriever lookup in a run, more query lookups than the counter has room for below 2 make the guard refuse the run |
| `Retriever.RetrieverParser.ParseInnerRetrieverBuilder` | server/src/main/java/org/elasticsearch/search/retriever/RetrieverBuilder.java:75-149 | result, cursor, counter and tracked sections are those of `InnerSpec`, the envelope read token by token |
| `Retriever.RetrieverParser.ParseTopLevelRetrieverBuilder` | server/src/main/java/org/elasticsearch/search/retriever/RetrieverBuilder.java:44-73 | the envelope parse run with the counter reset to 0, as for a freshly made wrapper |
| `Retriever.MustStartWithStartObject` | server/src/main/java/org/elasticsearch/search/retriever/RetrieverBuilder.java:79-84 | the parse fails with "must start with START_OBJECT" if and only if neither the current nor the next token is `START_OBJECT`; it then has moved at most one token and tracked nothing |
| `Retriever.EmptyClauseRejected` | server/src/main/java/org/elasticsearch/search/retriever/RetrieverBuilder.java:86-88 | the parse fails with "empty clause" if and only if the opening `START_OBJECT` is directly followed by `END_OBJECT` |
| `Retriever.HeaderShape` | server/src/main/java/org/elasticsearch/search/retriever/RetrieverBuilder.java:90-104 | "no field after START_OBJECT" if and only if the next token is neither `END_OBJECT` nor a `FIELD_NAME`; "no START_OBJECT after retriever name" for exactly the name of that field when the token after it is not `START_OBJECT` |
| `Retriever.UnknownRetrieverNotTracked` | server/src/main/java/org/elasticsearch/search/retriever/RetrieverBuilder.java:108-120 | "unknown retriever [name]" if and only if the header is well formed and the registry reports not found; nothing is tracked and the counter is unchanged |
| `Retriever.TrackedOnceOnLookup` | server/src/main/java/org/elasticsearch/search/retriever/RetrieverBuilder.java:108-110 | the retriever name is tracked exactly once if and only if the registry built the retriever, and never more than once; a successful parse has tracked the name found in the field |
| `Retriever.AcceptsExactlyEnvelopes` | server/src/main/java/org/elasticsearch/search/retriever/RetrieverBuilder.java:79-148 | the parse returns `obj` if and only if the tokens are `START_OBJECT`, `FIELD_NAME`, `START_OBJECT`, a body the registry parses into `obj`, `END_OBJECT`, `END_OBJECT`; it then leaves the cursor on the last `END_OBJECT` and the counter one lower |
| `Retriever.MissingEndObjectRejected` | server/src/main/java/org/elasticsearch/search/retriever/RetrieverBuilder.java:122-146 | after a successful body parse, a body not ending on `END_OBJECT`, or a missing closing `END_OBJECT`, fails with "expected END_OBJECT" carrying the retriever name and the token found at that point |
| `Retriever.ExampleStandardRetriever` | server/src/main/java/org/elasticsearch/search/retriever/RetrieverBuilder.java:75-148 | `{"standard":{}}` from a fresh parser returns the registry's object and tracks "standard"; `{"knn":{}}` with a registry that does not know it is an unknown retriever; `{}` is an empty clause |
| `Retriever.RetrieverParserContext.constructor` | server/src/main/java/org/elasticsearch/search/retriever/RetrieverBuilder.java:110 | a fresh context has recorded no section usage |
| `Retriever.RetrieverParserContext.TrackSectionUsage` | server/src/main/java/org/elasticsearch/search/retriever/RetrieverBuilder.java:110 | appends one section name to the usage record |
| `Retriever.RetrieverBuilder.constructor` | server/src/main/java/org/elasticsearch/search/retriever/RetrieverBuilder.java:151 | a new builder's pre-filter list is empty |
| `Retriever.RetrieverBuilder.PreFilterQueryBuilders` | server/src/main/java/org/elasticsearch/search/retriever/RetrieverBuilder.java:153-155 | the getter returns the list the builder holds now |
| `Retriever.RetrieverBuilder.SetPreFilterQueryBuilders` | server/src/main/java/org/elasticsearch/search/retriever/RetrieverBuilder.java:157-161 | replaces the list wholesale and returns the same builder |
| `Retriever.PreFilterQueryBuildersLastSetWins` | server/src/main/java/org/elasticsearch/search/retriever/RetrieverBuilder.java:151-161 | the getter returns the empty list before any set, and afterwards the list set last; each set returns the builder it was called on |
| `BytesRefBlocks.NewBytesRefArrayBlock` | x-pack/plugin/esql/compute/src/main/generated-src/org/elasticsearch/compute/data/BytesRefArrayBlock.java:23-26 | the store is kept as given, and the position count, first value indexes and nulls reach the base class unchanged |
| `BytesRefBlocks.AsVector` | x-pack/plugin/esql/compute/src/main/generated-src/org/elasticsearch/compute/data/BytesRefArrayBlock.java:28-31 | there is never a vector, whatever the block holds |
| `BytesRefBlocks.SingleValuedBlockDoesNotNarrow` | x-pack/plugin/esql/compute/src/main/generated-src/org/elasticsearch/compute/data/BytesRefArrayBlock.java:28-31 | a well formed block whose every position holds one non-null value still has no vector |
| `BytesRefBlocks.GetBytesRef` | x-pack/plugin/esql/compute/src/main/generated-src/org/elasticsearch/compute/data/BytesRefArrayBlock.java:33-36 | the entry of the backing store at the value index, for any index in the store |
| `BytesRefBlocks.ContentReadsGetBytesRef` | x-pack/plugin/esql/compute/src/main/generated-src/org/elasticsearch/compute/data/BytesRefArrayBlock.java:33-36 | the k-th value of a non-null position is what `getBytesRef` reads at its first value index plus k, and that index lies in the store |
| `BytesRefBlocks.Filter` | x-pack/plugin/esql/compute/src/main/generated-src/org/elasticsearch/compute/data/BytesRefArrayBlock.java:38-41 | a view whose delegate is this very block and whose positions are the argument, with one position per entry |
| `BytesRefBlocks.FilterWellFormedIff` | x-pack/plugin/esql/compute/src/main/generated-src/org/elasticsearch/compute/data/BytesRefArrayBlock.java:38-41 | filter checks nothing: the view is well formed if and only if the block is and every selected position exists in it |
| `BytesRefBlocks.FilterReadsThrough` | x-pack/plugin/esql/compute/src/main/generated-src/org/elasticsearch/compute/data/BytesRefArrayBlock.java:38-41 | position i of the view shows the block's position `positions[i]`, so order and repeats are kept |
| `BytesRefBlocks.FilterIdentity` | x-pack/plugin/esql/compute/src/main/generated-src/org/elasticsearch/compute/data/BytesRefArrayBlock.java:38-41 | filtering by 0, 1, …, positionCount-1 gives a well formed view with exactly the block's content |
| `BytesRefBlocks.FilterComposes` | x-pack/plugin/esql/compute/src/main/generated-src/org/elasticsearch/compute/data/BytesRefArrayBlock.java:38-41 | a view over a view shows the same content as one view whose positions are the composed selection |
| `BytesRefBlocks.Content` | x-pack/plugin/esql/compute/src/main/generated-src/org/elasticsearch/compute/data/BytesRefArrayBlock.java:23-41 | the observable content of a well formed block or view has one entry per position |
| `BytesRefBlocks.NullPositionHasNoValues` | x-pack/plugin/esql/compute/src/main/generated-src/org/elasticsearch/compute/data/BytesRefArrayBlock.java:23-26 | a null position has value count 0 and shows as null |
| `BytesRefBlocks.ValueCountsCoverRange` | x-pack/plugin/esql/compute/src/main/generated-src/org/elasticsearch/compute/data/BytesRefArrayBlock.java:23-26 | the value counts add up to at most the store range the metadata addresses, and to exactly that range when no null position hides entries |
| `BytesRefBlocks.ElementTypeOf` | x-pack/plugin/esql/compute/src/main/generated-src/org/elasticsearch/compute/data/BytesRefArrayBlock.java:43-46 | always `BYTES_REF` |
| `BytesRefBlocks.Equals` | x-pack/plugin/esql/compute/src/main/generated-src/org/elasticsearch/compute/data/BytesRefArrayBlock.java:48-54 | true if and only if the object is a `BytesRefBlock` and the structural `BytesRefBlock.equals` holds of this block and it; false for null and for any other class |
| `BytesRefBlocks.EqualsIdentityView` | x-pack/plugin/esql/compute/src/main/generated-src/org/elasticsearch/compute/data/BytesRefArrayBlock.java:48-54 | equality is not identity: with structural equality standing in for `BytesRefBlock.equals`, a block equals its identity filter view, in both directions |
| `BytesRefBlocks.HashCode` | x-pack/plugin/esql/compute/src/main/generated-src/org/elasticsearch/compute/data/BytesRefArrayBlock.java:56-59 | the structural `BytesRefBlock.hash` of this block |
| `BytesRefBlocks.HashAgreesWithEquals` | x-pack/plugin/esql/compute/src/main/generated-src/org/elasticsearch/compute/data/BytesRefArrayBlock.java:48-59 | when `hash` respects `equals`, a block and any object it equals hash alike |
| `BytesRefBlocks.ToString` | x-pack/plugin/esql/compute/src/main/generated-src/org/elasticsearch/compute/data/BytesRefArrayBlock.java:61-64 | its body is the exact text: "BytesRefArrayBlock[positions=", the int text of the position count, and "]" (the simple class name is a constant because the class is final) |
| `BytesRefBlocks.ToStringExact` | x-pack/plugin/esql/compute/src/main/generated-src/org/elasticsearch/compute/data/BytesRefArrayBlock.java:61-64 | for any canonical integer text that reads as the position count, toString is exactly the prefix, that text and "]" |
| `BytesRefBlocks.ToStringShowsPositionCount` | x-pack/plugin/esql/compute/src/main/generated-src/org/elasticsearch/compute/data/BytesRefArrayBlock.java:61-64 | the text is "BytesRefArrayBlock[positions=", then integer text that reads back as the position count, then "]" |
| `BytesRefBlocks.ToStringDistinguishesPositionCounts` | x-pack/plugin/esql/compute/src/main/generated-src/org/elasticsearch/compute/data/BytesRefArrayBlock.java:61-64 | two blocks with the same text have the same position count |
| `BytesRefBlocks.ExampleMultiValuedBlock` | x-pack/plugin/esql/compute/src/main/generated-src/org/elasticsearch/compute/data/BytesRefArrayBlock.java:23-41 | ["a","b"], null, ["c"] with indexes [0,2,2,3] and nulls {1}: position 0 holds 2 values, position 1 is null, there is no vector, and filter([2,0]) shows ["c"] then ["a","b"] |
| `IntegerText.NatToDecimal` | x-pack/plugin/esql/compute/src/main/generated-src/org/elasticsearch/compute/data/BytesRefArrayBlock.java:63 | the decimal text of a non-negative count is non-empty, all digits, and has no leading zero |
| `IntegerText.DecimalRoundTrip` | x-pack/plugin/esql/compute/src/main/generated-src/org/elasticsearch/compute/data/BytesRefArrayBlock.java:63 | decimal text reads back as the number written |
| `IntegerText.IntToText` | x-pack/plugin/esql/compute/src/main/generated-src/org/elasticsearch/compute/data/BytesRefArrayBlock.java:63 | the text appended for an int is canonical: digits without a leading zero, with a '-' only before a positive number's digits |
| `IntegerText.CanonicalDecimalUnique` | x-pack/plugin/esql/compute/src/main/generated-src/org/elasticsearch/compute/data/BytesRefArrayBlock.java:63 | digits without a leading zero are the decimal text of their own value |
| `IntegerText.CanonicalIntTextUnique` | x-pack/plugin/esql/compute/src/main/generated-src/org/elasticsearch/compute/data/BytesRefArrayBlock.java:63 | canonical integer text is the int text of the integer it reads as, so it is unique |
| `IntegerText.IntTextRoundTrip` | x-pack/plugin/esql/compute/src/main/generated-src/org/elasticsearch/compute/data/BytesRefArrayBlock.java:63 | the text of any int, with a sign for negatives, reads back as that int |

## Left out

- `XContentParser`, `FilterXContentParserWrapper` and the named-object registry are not part of this model. The token
  stream is a given array. The registry is an uninterpreted function that reports its outcome and how far it moved
  the cursor.
- The registry cannot call back into the wrapper's `namedObject`. So queries and retrievers nested in a body do not
  move the counter within one envelope parse. The counter's behaviour over any sequence of lookups is stated
  separately (`RunGuard` and its lemmas).
- `NamedObject` models `namedObject` only with the wrapper in place. `parseInnerRetrieverBuilder` called on an
  unwrapped parser would keep no counter. In the model the counter still moves, and nothing else changes.
- A `NamedObjectNotFoundException` from inside a body is reported as not found, as the registry's own can be. The
  code catches both alike and reports the retriever's name.
- `declareBaseParserFields` and `AbstractQueryBuilder.parseTopLevelQuery` (lines 33-42) are not modelled. They only
  register declarations with a library object parser.
- `extractToSearchSourceBuilder` and `doExtractToSearchSourceBuilder` are not modelled. Both are abstract hooks with
  no logic here.
- Exception message texts, `SuggestingErrorOnUnknown` suggestions and token locations are not modelled. Only the
  error kind is kept, with the retriever name and the token found where the message shows them.
- `Objects.requireNonNull(context)` is not modelled separately. Dafny's non-null reference types already enforce it.
- The pre-filter list is a value (`seq`), so aliasing of the list object between the caller and the builder is not
  modelled.
- `BytesRefArray`, `AbstractBlock`, `FilterBytesRefBlock` and the bodies of `BytesRefBlock.equals` and
  `BytesRefBlock.hash` are not part of this model. Accessors, well-formedness and content follow the block data model.
- `getBytesRef`'s `dest` buffer reuse is not modelled. Nor are memory accounting and reference counting of shared
  stores. An out-of-range value index is a programming error, modelled as a precondition.
- `BytesRefBlock` stands for an open Java interface. Here it is a datatype with two cases, the array block and the
  filter view. Other implementors (vector blocks, constant blocks and the like) are not modelled. So `Equals` can
  only be handed one of these two as a `BytesRefBlock`.
- The caller's `int[] positions` given to `filter`, and the `int[] firstValueIndexes` and `BitSet nulls` given to the
  constructor, are kept by reference in Java. Here they are values (`seq` and `set`), so aliasing with the caller's
  arrays, and any later change the caller makes to them, is not modelled.
- Java `int` width is not modelled. Position counts, indexes and hashes are unbounded integers.
- ElementType tags other than `BYTES_REF` are listed only to make the enumeration closed. The full enumeration is
  not part of this model.
- A position with zero values that is not null counts as a distinct, empty state. It is not read as null.

# OSIAM query builder, modelled in Dafny

This project models the SCIM filter-query builder of the OSIAM Java client
(`QueryBuilder` and its inner `Filter`). Client code builds a search query
through a fluent call sequence:

- `query(a)`, `and(a)` and `or(a)` check that the attribute name `a` is a
  field of the resource type, then append it to a text buffer. `and` and
  `or` first append their connective.
- A `Filter` comparison (`equalTo`, `contains`, `startsWith`, `present`,
  `greaterThan`, `greaterEquals`, `lessThan`, `lessEquals`) appends an
  operator token and, for a non-empty value, the value in double quotes.
- `withSortOrder`, `startIndex` and `countPerPage` overwrite the paging
  and sorting fields.
- `build` appends `&sortOrder=`, `&count=` and `&startIndex=`, each only
  when its value differs from the default. It then returns the buffer's
  text as a `Query`.

The filter text loosely follows the filter syntax of section 3.2.2.2 of
RFC 7644 (SCIM protocol). It has no precedence, no parentheses and no
escaping.

Modules:

- `Strings`: the `java.lang.String` operations used, with `equalsIgnoreCase` as an ASCII case fold.
- `Decimal`: `Integer.toString` and a parser that inverts it.
- `Attributes`: the recursive `isAttributeValid` over an explicit schema. The schema maps each type (`Root`, `Meta`, `MultiValuedAttribute`, `Name`) to the names of its private fields; the Java `QueryBuilder` finds them by reflection.
- `QueryParams`: the parameter suffix `build` appends, and a reader that recovers the three values from it.
- `QueryBuilding`: the `QueryBuilder` class (buffer, sort order, start index, page size) and the `Filter` class. `Filter` holds only a reference back to its builder.
- `FilterChains`: whole call chains on a fresh builder, and a pure rendering of a chain that the imperative runs are proved equal to.
- `Scenarios`: fluent call sequences as client code writes them, each with the exact text it produces.

Modelling choices:

- A null condition is `None`. A null sort order is `None`.
- `InvalidAttributeException` is the `Err` side of a `Result`. The exception is raised after `and`/`or` have already changed the buffer, and the model keeps that change.
- The `int` fields are a 32-bit `Int32` newtype.

## Model

| member | source | states |
|---|---|---|
| QueryBuilding.QueryBuilder.constructor | src/main/java/org/osiam/client/query/QueryBuilder.java:16-32 | a fresh builder has an empty buffer, no sort order, start index 0 and page size 100, for the given type |
| QueryBuilding.QueryBuilder.Query | src/main/java/org/osiam/client/query/QueryBuilder.java:41-48 | succeeds exactly when the name is valid for the builder's type; then the buffer grows by exactly the name, and the returned Filter refers back to this builder; otherwise InvalidAttribute with the buffer unchanged; no other field changes |
| QueryBuilding.QueryBuilder.And | src/main/java/org/osiam/client/query/QueryBuilder.java:57-60 | succeeds exactly when the name is valid; the buffer grows by " and " plus the name, or by " and " alone when the name is rejected |
| QueryBuilding.QueryBuilder.Or | src/main/java/org/osiam/client/query/QueryBuilder.java:69-72 | as `And`, with " or " |
| QueryBuilding.QueryBuilder.WithSortOrder | src/main/java/org/osiam/client/query/QueryBuilder.java:80-83 | sets the sort order to the given value, None included; buffer, start index and page size unchanged; returns the same builder |
| QueryBuilding.QueryBuilder.StartIndex | src/main/java/org/osiam/client/query/QueryBuilder.java:91-94 | sets the start index to any 32-bit value, negative included; everything else unchanged; returns the same builder |
| QueryBuilding.QueryBuilder.CountPerPage | src/main/java/org/osiam/client/query/QueryBuilder.java:102-105 | sets the page size to any 32-bit value; everything else unchanged; returns the same builder |
| QueryBuilding.QueryBuilder.Build | src/main/java/org/osiam/client/query/QueryBuilder.java:112-127 | the builder's own buffer grows by the parameter suffix, and the query holds the whole buffer |
| QueryParams.ParamsSuffix | src/main/java/org/osiam/client/query/QueryBuilder.java:113-125 | no contract of its own: the three parameters in the order `build` writes them; `ParamsRoundTrip` and `ParamsSuffixEmptyIffDefaults` state what it means |
| QueryParams.SortOrderParam | src/main/java/org/osiam/client/query/QueryBuilder.java:113-117 | no contract of its own: `&sortOrder=` and the value when one is set; `TakeSortOrder` and `SortOrderThenPaging` state what it means |
| QueryParams.CountParam | src/main/java/org/osiam/client/query/QueryBuilder.java:118-121 | no contract of its own: `&count=` and the number when it is not 100; `TakeCount` and `ReadNumberRoundTrip` state what it means |
| QueryParams.StartIndexParam | src/main/java/org/osiam/client/query/QueryBuilder.java:122-125 | no contract of its own: `&startIndex=` and the number when it is not 0; `TakeStartIndex` and `ReadNumberRoundTrip` state what it means |
| QueryParams.ParamsSuffixEmptyIffDefaults | src/main/java/org/osiam/client/query/QueryBuilder.java:113-125 | build appends nothing exactly when the sort order is unset, the page size is 100 and the start index is 0; anything appended starts with '&' |
| QueryParams.ParamsRoundTrip | src/main/java/org/osiam/client/query/QueryBuilder.java:112-127 | reading the suffix back gives the sort order, page size and start index that produced it, so each parameter's presence, order and value are determined (when the sort order holds no '&') |
| QueryParams.PagingRoundTrip | src/main/java/org/osiam/client/query/QueryBuilder.java:118-125 | the page-size and start-index part of the suffix reads back as its two values |
| QueryParams.SortOrderThenPaging | src/main/java/org/osiam/client/query/QueryBuilder.java:113-117 | the sort order, written first, is read off the front and leaves the paging parameters intact |
| QueryParams.ReadNumberRoundTrip | src/main/java/org/osiam/client/query/QueryBuilder.java:118-125 | a number written only when it differs from its default reads back as that number |
| QueryParams.TakeSortOrder | src/main/java/org/osiam/client/query/QueryBuilder.java:113-117 | `&sortOrder=` followed by the value is recognised before a `&count=` or `&startIndex=`; an absent sort order is not mistaken for one |
| QueryParams.TakeCount | src/main/java/org/osiam/client/query/QueryBuilder.java:118-121 | `&count=` is read exactly when the page size is not 100, and the start-index parameter is left behind |
| QueryParams.TakeStartIndex | src/main/java/org/osiam/client/query/QueryBuilder.java:122-125 | `&startIndex=` is read exactly when the start index is not 0 |
| QueryParams.PagingParamsShape | src/main/java/org/osiam/client/query/QueryBuilder.java:118-125 | the paging part is empty or starts with one of its two keys |
| QueryParams.DecimalHasNoAmp | src/main/java/org/osiam/client/query/QueryBuilder.java:120 | a rendered number never contains '&', so it cannot run into the next parameter |
| Decimal.IntToDecimal | src/main/java/org/osiam/client/query/QueryBuilder.java:120 | Integer.toString: a leading '-' exactly for negative numbers, then at least one digit and only digits, with no leading zero except for 0 itself |
| Decimal.NatToDecimal | src/main/java/org/osiam/client/query/QueryBuilder.java:124 | the digits of a natural number, with no leading zero except for 0 itself |
| Decimal.NatToDecimalValue | src/main/java/org/osiam/client/query/QueryBuilder.java:124 | the digits denote the number they were made from |
| Decimal.DecimalRoundTrip | src/main/java/org/osiam/client/query/QueryBuilder.java:118-125 | parsing the rendered text of any integer gives that integer back |
| Decimal.IntToDecimalInjective | src/main/java/org/osiam/client/query/QueryBuilder.java:118-125 | different numbers are rendered differently |
| Attributes.IsAttributeValid | src/main/java/org/osiam/client/query/QueryBuilder.java:129-150 | no contract of its own: the recursive two-argument `isAttributeValid`; `ValidIffPath`, `PrefixedValidity` and `UnprefixedValidity` state what it means |
| Attributes.MatchesField | src/main/java/org/osiam/client/query/QueryBuilder.java:144-149 | no contract of its own: some private field of the type equals the name ignoring case; `UnprefixedValidity` and `ValidityIgnoresCase` state what it means |
| Attributes.CompositeField | src/main/java/org/osiam/client/query/QueryBuilder.java:130-133 | the text after the first dot, or empty when there is no dot |
| Attributes.CompositeFieldAfterPrefix | src/main/java/org/osiam/client/query/QueryBuilder.java:130-142 | under a recognised prefix, the composite field is exactly the text after the prefix |
| Attributes.PrefixedValidity | src/main/java/org/osiam/client/query/QueryBuilder.java:134-142 | a name under `meta.`, `emails.` or `name.` is valid for any type exactly when its rest is valid for Meta, MultiValuedAttribute or Name |
| Attributes.UnprefixedValidity | src/main/java/org/osiam/client/query/QueryBuilder.java:144-149 | a name without a recognised prefix is valid exactly when some field of the type equals it ignoring case |
| Attributes.ValidityIgnoresCase | src/main/java/org/osiam/client/query/QueryBuilder.java:145 | two unprefixed names that differ only in letter case are both valid or both invalid |
| Attributes.UnknownDottedNameInvalid | src/main/java/org/osiam/client/query/QueryBuilder.java:131-149 | a dotted name outside the three prefixes is compared whole, so with dot-free field names it is always rejected |
| Attributes.PrefixIsKnown | src/main/java/org/osiam/client/query/QueryBuilder.java:134-142 | the three prefix tests are mutually exclusive, so the branch taken is the prefix's own |
| Attributes.ValidGivesPath | src/main/java/org/osiam/client/query/QueryBuilder.java:129-150 | every valid name is a chain of recognised prefixes followed by a field of the type the chain leads to |
| Attributes.PathGivesValid | src/main/java/org/osiam/client/query/QueryBuilder.java:129-150 | every such chain followed by a matching field is valid, at any depth (for instance `name.meta.x`) |
| Attributes.ValidIffPath | src/main/java/org/osiam/client/query/QueryBuilder.java:129-154 | the recursive check agrees with the prefix-chain description in both directions |
| Attributes.PathCons | src/main/java/org/osiam/client/query/QueryBuilder.java:134-142 | a chain for the rest of a prefixed name extends, with that prefix in front, to a chain for the whole name |
| Attributes.JoinSplits | src/main/java/org/osiam/client/query/QueryBuilder.java:134-142 | a name that starts with a chain of prefixes starts with the first prefix, and its rest starts with the remaining chain |
| Strings.StartsWith | src/main/java/org/osiam/client/query/QueryBuilder.java:134-142 | no contract of its own: case-sensitive `startsWith`; `PrefixIsKnown` and `CompositeFieldAfterPrefix` state what it means for the three prefixes |
| Strings.IndexOf | src/main/java/org/osiam/client/query/QueryBuilder.java:132 | indexOf: the first position of the character, or -1 exactly when it does not occur |
| Strings.EqualsIgnoreCase | src/main/java/org/osiam/client/query/QueryBuilder.java:145 | no contract of its own: `equalsIgnoreCase` over ASCII letters; `EqualsIgnoreCaseIffFoldEqual` and `EqualsIgnoreCaseIsEquivalence` state what it means |
| Strings.EqualsIgnoreCaseIffFoldEqual | src/main/java/org/osiam/client/query/QueryBuilder.java:145 | equalsIgnoreCase holds exactly when the case-folded texts are equal |
| Strings.EqualsIgnoreCaseIsEquivalence | src/main/java/org/osiam/client/query/QueryBuilder.java:145 | equalsIgnoreCase is reflexive, symmetric and transitive |
| Strings.EqualsIgnoreCaseKeepsNonLetters | src/main/java/org/osiam/client/query/QueryBuilder.java:145 | equalsIgnoreCase matches a character that is not a letter only with itself |
| Strings.EqualsIgnoreCaseKeepsDot | src/main/java/org/osiam/client/query/QueryBuilder.java:145 | two names equal ignoring case both contain a dot or neither does |
| Strings.FoldCaseAt | src/main/java/org/osiam/client/query/QueryBuilder.java:145 | folding a text folds each character in place |
| Strings.ToLower | src/main/java/org/osiam/client/query/QueryBuilder.java:145 | ASCII upper-case letters map to their lower-case letters, everything else is kept |
| QueryBuilding.QueryBuilder.IsAttributeValid | src/main/java/org/osiam/client/query/QueryBuilder.java:152-154 | no contract of its own: the one-argument `isAttributeValid`, which validates against the builder's own type; `Query`, `And` and `Or` state that each succeeds exactly when it holds |
| QueryBuilding.Filter.constructor | src/main/java/org/osiam/client/query/QueryBuilder.java:164-166 | a Filter refers to the builder that made it |
| QueryBuilding.Filter.AddFilter | src/main/java/org/osiam/client/query/QueryBuilder.java:168-177 | the builder's buffer grows by the token and the value in quotes, the quotes only for a non-null, non-empty value; returns the builder |
| QueryBuilding.Filter.EqualTo | src/main/java/org/osiam/client/query/QueryBuilder.java:185-187 | appends " eq " and the quoted value |
| QueryBuilding.Filter.Contains | src/main/java/org/osiam/client/query/QueryBuilder.java:195-197 | appends " co " and the quoted value |
| QueryBuilding.Filter.StartsWith | src/main/java/org/osiam/client/query/QueryBuilder.java:205-207 | appends " sw " and the quoted value |
| QueryBuilding.Filter.Present | src/main/java/org/osiam/client/query/QueryBuilder.java:214-216 | appends " pr " and nothing else |
| QueryBuilding.Filter.GreaterThan | src/main/java/org/osiam/client/query/QueryBuilder.java:224-226 | appends " gt " and the quoted value |
| QueryBuilding.Filter.GreaterEquals | src/main/java/org/osiam/client/query/QueryBuilder.java:234-236 | appends " ge " and the quoted value |
| QueryBuilding.Filter.LessThan | src/main/java/org/osiam/client/query/QueryBuilder.java:244-246 | appends " lt " and the quoted value |
| QueryBuilding.Filter.LessEquals | src/main/java/org/osiam/client/query/QueryBuilder.java:254-256 | appends " le " and the quoted value |
| QueryBuilding.Token | src/main/java/org/osiam/client/query/QueryBuilder.java:185-256 | no contract of its own: the fixed text each comparison method passes to `addFilter`; `TokenShape` states what it means |
| QueryBuilding.QuotedCondition | src/main/java/org/osiam/client/query/QueryBuilder.java:171-175 | no contract of its own: what `addFilter` writes after the token; `QuotedConditionShape` and `ComparisonRoundTrip` state what it means |
| QueryBuilding.TokenShape | src/main/java/org/osiam/client/query/QueryBuilder.java:185-256 | every token is four characters, a space, two letters and a space, and names its operator uniquely |
| QueryBuilding.QuotedConditionShape | src/main/java/org/osiam/client/query/QueryBuilder.java:171-175 | the quoted part is empty exactly for a null or empty value; otherwise it is the value verbatim between two quotes |
| QueryBuilding.ComparisonRoundTrip | src/main/java/org/osiam/client/query/QueryBuilder.java:168-256 | a comparison's text gives back its operator and its value, except that an empty value reads as null |
| FilterChains.Compare | src/main/java/org/osiam/client/query/QueryBuilder.java:185-256 | calling the Filter method for an operator appends that comparison's text |
| FilterChains.CallConnective | src/main/java/org/osiam/client/query/QueryBuilder.java:41-72 | `query`, `and` or `or` succeeds exactly for a valid name, and then appends the connective and the name; a rejected name leaves the connective alone in the buffer (nothing for `query`) |
| FilterChains.AddClause | src/main/java/org/osiam/client/query/QueryBuilder.java:41-72 | one clause's calls succeed exactly for a valid name and then append the clause's text; on a rejected name only the connective has been appended |
| FilterChains.RunChain | src/main/java/org/osiam/client/query/QueryBuilder.java:29-127 | a whole call chain with its parameters succeeds exactly when every name is valid; the query is then the clauses' texts in call order followed by the parameter suffix; otherwise InvalidAttribute |
| FilterChains.RenderAppend | src/main/java/org/osiam/client/query/QueryBuilder.java:41-72 | the text of a longer chain extends the text of its beginning: nothing is reordered or grouped |
| FilterChains.RenderOne | src/main/java/org/osiam/client/query/QueryBuilder.java:41-48 | a chain of one clause is that clause's text |
| FilterChains.RenderTwo | src/main/java/org/osiam/client/query/QueryBuilder.java:57-72 | a chain of two clauses is their texts in call order |
| FilterChains.EqClauseText | src/main/java/org/osiam/client/query/QueryBuilder.java:168-187 | an `eq` clause with a non-empty value is connective, name, " eq " and the quoted value |
| FilterChains.AmbiguousClauseTexts | src/main/java/org/osiam/client/query/QueryBuilder.java:171-175 | a value holding `" and b eq "` gives one clause the same text as two clauses |
| FilterChains.UnescapedQuoteAmbiguity | src/main/java/org/osiam/client/query/QueryBuilder.java:171-175 | values are not escaped, so for any names and non-empty values two different chains render to the same filter text |
| Scenarios.EqualToQuery | src/main/java/org/osiam/client/query/QueryBuilder.java:41-48 | `query(userName).equalTo("bjensen").build()` with default parameters is exactly `userName eq "bjensen"` |
| Scenarios.CaseInsensitiveQuery | src/main/java/org/osiam/client/query/QueryBuilder.java:144-149 | a field name in any letter case is accepted and written as spelled, e.g. `USERNAME pr ` |
| Scenarios.SpellingIsValid | src/main/java/org/osiam/client/query/QueryBuilder.java:144-149 | a field name spelled in another letter case is valid |
| Scenarios.NestedAndQuery | src/main/java/org/osiam/client/query/QueryBuilder.java:57-60 | `query("name." + f).equalTo("Doe").and(a).equalTo("true")` gives `name.f eq "Doe" and a eq "true"` |
| Scenarios.NestedAndValid | src/main/java/org/osiam/client/query/QueryBuilder.java:140-141 | `name.` followed by a field of Name is valid for the root type |
| Scenarios.PrefixedNameValid | src/main/java/org/osiam/client/query/QueryBuilder.java:134-142 | a field of a companion type is valid for any type behind that type's prefix |
| Scenarios.PresentQuery | src/main/java/org/osiam/client/query/QueryBuilder.java:214-216 | `query("emails." + v).present()` gives `emails.v pr ` with no value |
| Scenarios.PagingQuery | src/main/java/org/osiam/client/query/QueryBuilder.java:118-125 | page size 20 and start index 40 without a sort order append exactly `&count=20&startIndex=40` |
| Scenarios.SortedQuery | src/main/java/org/osiam/client/query/QueryBuilder.java:113-125 | a sort order is written first, then the page size, then the start index |
| Scenarios.SortedSuffix | src/main/java/org/osiam/client/query/QueryBuilder.java:113-125 | the suffix for a sort order, page size 10 and start index 7 is `&sortOrder=` + order + `&count=10&startIndex=7` |
| Scenarios.RejectedAndQuery | src/main/java/org/osiam/client/query/QueryBuilder.java:57-60 | after `and` rejects a name, its ` and ` stays, and a later `build` returns it before the parameters |
| Scenarios.BuildTwiceQuery | src/main/java/org/osiam/client/query/QueryBuilder.java:112-127 | a second `build` appends the parameters a second time: the builder is not frozen |

## Left out

- `OsiamUserService` (HTTP requests, JSON mapping and the service base class it delegates to) is not part of this model. It is transport glue around the builder.
- Reflection over the resource classes (`getDeclaredFields`, `Modifier.isPrivate`) is replaced by the schema. The schema is a parameter: the names of each type's private fields.
- A null attribute name makes the Java `QueryBuilder` fail with a NullPointerException. The model's names are never null, so that failure is not modelled.
- `SortOrder` and its `toString` are not part of this model. A sort order is an opaque string, and `ParamsRoundTrip` is stated only for sort orders without '&'.
- `Query` is not part of this model beyond being a wrapper around its text.
- Strings.EqualsIgnoreCase: folds ASCII letters only. Java's Unicode case mapping for other letters is not modelled.
- Concurrent use of one builder from several threads is not modelled.
- FilterChains.RunChain: sets the sort order, start index and page size after the clauses. The setters touch neither the buffer nor each other, so the order of setter calls does not affect the result. `Scenarios.SortedQuery` and `Scenarios.PagingQuery` go through it, and the direct-call scenarios cover setters called before the clauses.

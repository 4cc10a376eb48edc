/**
 * Fluent call sequences written out as in client code, each on a fresh
 * builder, with the exact query text they produce. The schema and the
 * attribute names are parameters: each scenario holds for every name the
 * schema accepts, and the familiar examples (`userName`, `name.familyName`,
 * `emails.value`) are instances of it.
 */
module Scenarios {

  import opened Wrappers
  import opened QueryParams
  import opened QueryBuilding
  import opened FilterChains
  import Attributes
  import Strings

  /** A name valid for a companion type is valid, behind that type's prefix, for any type. */
  lemma PrefixedNameValid(schema: Attributes.Schema, p: Attributes.Prefix, rest: string, tag: Attributes.TypeTag)
    requires Attributes.IsAttributeValid(schema, rest, Attributes.PrefixType(p))
    ensures Attributes.IsAttributeValid(schema, Attributes.PrefixText(p) + rest, tag)
  {
    var attribute := Attributes.PrefixText(p) + rest;
    assert attribute[..|Attributes.PrefixText(p)|] == Attributes.PrefixText(p);
    assert attribute[|Attributes.PrefixText(p)|..] == rest;
    Attributes.PrefixedValidity(schema, attribute, tag, p);
  }

  /** A chain of one clause, built with default parameters, is that clause's text alone. */
  lemma SingleClauseText(c: Clause)
    ensures Render([c]) + ParamsSuffix(None, 100, 0) == ClauseText(c)
  {
    RenderOne(c);
    ParamsSuffixEmptyIffDefaults(None, 100, 0);
  }

  /** A chain of two clauses, built with default parameters, is their texts in call order. */
  lemma TwoClauseText(c1: Clause, c2: Clause)
    ensures Render([c1, c2]) + ParamsSuffix(None, 100, 0) == ClauseText(c1) + ClauseText(c2)
  {
    RenderTwo(c1, c2);
    ParamsSuffixEmptyIffDefaults(None, 100, 0);
  }

  // query(userName).equalTo("bjensen").build()

  lemma EqualToText(userName: string)
    ensures ClauseText(Clause(Start, userName, Eq, Some("bjensen"))) == userName + " eq \"bjensen\""
  {
  }

  /** With default parameters nothing follows the filter text. */
  method EqualToQuery(schema: Attributes.Schema, userName: string) returns (r: Result<Query>)
    requires Attributes.IsAttributeValid(schema, userName, Attributes.Root)
    ensures r == Ok(QueryOf(userName + " eq \"bjensen\""))
  {
    var c := Clause(Start, userName, Eq, Some("bjensen"));
    SingleClauseText(c);
    EqualToText(userName);
    r := RunChain(schema, Attributes.Root, [c], None, 100, 0);
  }

  // query("USERNAME").present(): matched ignoring case, written as spelled

  /** A field name spelled in any letter case, and carrying no recognised prefix, is accepted. */
  lemma SpellingIsValid(schema: Attributes.Schema, field: string, spelled: string, tag: Attributes.TypeTag)
    requires field in Attributes.Fields(schema, tag)
    requires Strings.EqualsIgnoreCase(field, spelled) && !Attributes.HasKnownPrefix(spelled)
    ensures Attributes.IsAttributeValid(schema, spelled, tag)
  {
  }

  lemma PresentText(attribute: string)
    ensures ClauseText(Clause(Start, attribute, Pr, None)) == attribute + " pr "
  {
  }

  method CaseInsensitiveQuery(schema: Attributes.Schema, field: string, spelled: string) returns (r: Result<Query>)
    requires field in Attributes.Fields(schema, Attributes.Root)
    requires Strings.EqualsIgnoreCase(field, spelled) && !Attributes.HasKnownPrefix(spelled)
    ensures r == Ok(QueryOf(spelled + " pr "))
  {
    SpellingIsValid(schema, field, spelled, Attributes.Root);
    var c := Clause(Start, spelled, Pr, None);
    SingleClauseText(c);
    PresentText(spelled);
    r := RunChain(schema, Attributes.Root, [c], None, 100, 0);
  }

  // query("name." + familyName).equalTo("Doe").and(active).equalTo("true")

  lemma NestedAndText(familyName: string, active: string)
    ensures ClauseText(Clause(Start, "name." + familyName, Eq, Some("Doe")))
            + ClauseText(Clause(AndThen, active, Eq, Some("true")))
         == "name." + familyName + " eq \"Doe\" and " + active + " eq \"true\""
  {
  }

  lemma PairValid(schema: Attributes.Schema, c1: Clause, c2: Clause)
    requires Attributes.IsAttributeValid(schema, c1.attribute, Attributes.Root)
    requires Attributes.IsAttributeValid(schema, c2.attribute, Attributes.Root)
    ensures AllValid(schema, Attributes.Root, [c1, c2])
  {
  }

  lemma PrefixedPairValid(schema: Attributes.Schema, p: Attributes.Prefix, rest: string, active: string)
    requires Attributes.IsAttributeValid(schema, rest, Attributes.PrefixType(p))
    requires Attributes.IsAttributeValid(schema, active, Attributes.Root)
    ensures AllValid(schema, Attributes.Root, [Clause(Start, Attributes.PrefixText(p) + rest, Eq, Some("Doe")),
                                               Clause(AndThen, active, Eq, Some("true"))])
  {
    PrefixedNameValid(schema, p, rest, Attributes.Root);
    PairValid(schema, Clause(Start, Attributes.PrefixText(p) + rest, Eq, Some("Doe")), Clause(AndThen, active, Eq, Some("true")));
  }

  lemma NestedAndValid(schema: Attributes.Schema, familyName: string, active: string)
    requires Attributes.IsAttributeValid(schema, familyName, Attributes.Name)
    requires Attributes.IsAttributeValid(schema, active, Attributes.Root)
    ensures AllValid(schema, Attributes.Root, [Clause(Start, "name." + familyName, Eq, Some("Doe")),
                                               Clause(AndThen, active, Eq, Some("true"))])
  {
    PrefixedPairValid(schema, Attributes.NamePrefix, familyName, active);
  }

  lemma NestedAndRender(familyName: string, active: string)
    ensures Render([Clause(Start, "name." + familyName, Eq, Some("Doe")),
                    Clause(AndThen, active, Eq, Some("true"))]) + ParamsSuffix(None, 100, 0)
         == "name." + familyName + " eq \"Doe\" and " + active + " eq \"true\""
  {
    TwoClauseText(Clause(Start, "name." + familyName, Eq, Some("Doe")), Clause(AndThen, active, Eq, Some("true")));
    NestedAndText(familyName, active);
  }

  /** A clause on a nested name and a clause on a root name, joined by `and` in call order. */
  method NestedAndQuery(schema: Attributes.Schema, familyName: string, active: string) returns (r: Result<Query>)
    requires Attributes.IsAttributeValid(schema, familyName, Attributes.Name)
    requires Attributes.IsAttributeValid(schema, active, Attributes.Root)
    ensures r == Ok(QueryOf("name." + familyName + " eq \"Doe\" and " + active + " eq \"true\""))
  {
    NestedAndValid(schema, familyName, active);
    NestedAndRender(familyName, active);
    r := RunChain(schema, Attributes.Root, [Clause(Start, "name." + familyName, Eq, Some("Doe")),
                                            Clause(AndThen, active, Eq, Some("true"))], None, 100, 0);
  }

  // query("emails." + value).present()

  lemma EmailsPresentValid(schema: Attributes.Schema, value: string)
    requires Attributes.IsAttributeValid(schema, value, Attributes.MultiValuedAttribute)
    ensures AllValid(schema, Attributes.Root, [Clause(Start, "emails." + value, Pr, None)])
  {
    PrefixedNameValid(schema, Attributes.EmailsPrefix, value, Attributes.Root);
  }

  /** `present` writes its token and no value. */
  method PresentQuery(schema: Attributes.Schema, value: string) returns (r: Result<Query>)
    requires Attributes.IsAttributeValid(schema, value, Attributes.MultiValuedAttribute)
    ensures r == Ok(QueryOf("emails." + value + " pr "))
  {
    EmailsPresentValid(schema, value);
    var c := Clause(Start, "emails." + value, Pr, None);
    SingleClauseText(c);
    PresentText("emails." + value);
    r := RunChain(schema, Attributes.Root, [c], None, 100, 0);
  }

  // Paging and sorting parameters

  lemma PagingSuffix()
    ensures ParamsSuffix(None, 20, 40) == "&count=20&startIndex=40"
  {
  }

  lemma PagingText(attribute: string)
    ensures Render([Clause(Start, attribute, Eq, Some("bjensen"))]) + ParamsSuffix(None, 20, 40)
         == attribute + " eq \"bjensen\"" + "&count=20&startIndex=40"
  {
    var c := Clause(Start, attribute, Eq, Some("bjensen"));
    RenderOne(c);
    EqualToText(attribute);
    PagingSuffix();
  }

  /** Page size 20 and start index 40 without a sort order: both parameters, in that order. */
  method PagingQuery(schema: Attributes.Schema, attribute: string) returns (r: Result<Query>)
    requires Attributes.IsAttributeValid(schema, attribute, Attributes.Root)
    ensures r == Ok(QueryOf(attribute + " eq \"bjensen\"" + "&count=20&startIndex=40"))
  {
    PagingText(attribute);
    r := RunChain(schema, Attributes.Root, [Clause(Start, attribute, Eq, Some("bjensen"))], None, 20, 40);
  }

  lemma PagingTenFromSeven()
    ensures CountParam(10) + StartIndexParam(7) == "&count=10&startIndex=7"
  {
  }

  lemma SortedSuffix(order: string)
    ensures ParamsSuffix(Some(order), 10, 7) == "&sortOrder=" + order + "&count=10&startIndex=7"
  {
    PagingTenFromSeven();
    Strings.AppendAssoc(SortOrderParam(Some(order)), CountParam(10), StartIndexParam(7));
  }

  lemma SortedText(attribute: string, order: string)
    ensures Render([Clause(Start, attribute, Pr, None)]) + ParamsSuffix(Some(order), 10, 7)
         == attribute + " pr " + ("&sortOrder=" + order + "&count=10&startIndex=7")
  {
    var c := Clause(Start, attribute, Pr, None);
    RenderOne(c);
    PresentText(attribute);
    SortedSuffix(order);
  }

  /** A sort order comes first, before the page size and the start index. */
  method SortedQuery(schema: Attributes.Schema, attribute: string, order: string) returns (r: Result<Query>)
    requires Attributes.IsAttributeValid(schema, attribute, Attributes.Root)
    ensures r == Ok(QueryOf(attribute + " pr " + ("&sortOrder=" + order + "&count=10&startIndex=7")))
  {
    SortedText(attribute, order);
    r := RunChain(schema, Attributes.Root, [Clause(Start, attribute, Pr, None)], Some(order), 10, 7);
  }

  // Direct calls on one builder: failures and reuse

  /** The text `equalTo("bjensen")` appends. */
  lemma BjensenText(before: string)
    ensures before + Token(Eq) + QuotedCondition(Some("bjensen")) == before + " eq \"bjensen\""
  {
  }

  lemma CountSuffix()
    ensures ParamsSuffix(None, 20, 0) == "&count=20"
  {
  }

  /**
   * A rejected `and` keeps its connective, and a later `build` returns it:
   * the query has a dangling ` and ` before its parameters.
   */
  method RejectedAndQuery(schema: Attributes.Schema, attribute: string, rejected: string)
    returns (e: Result<Filter>, q: Query)
    requires Attributes.IsAttributeValid(schema, attribute, Attributes.Root)
    requires !Attributes.IsAttributeValid(schema, rejected, Attributes.Root)
    ensures e == Err(InvalidAttribute(NOT_SUPPORTED))
    ensures q.text == attribute + " and " + "&count=20"
  {
    var qb := new QueryBuilder(schema, Attributes.Root);
    var b := qb.CountPerPage(20);
    var f := qb.Query(attribute);
    assert qb.buffer == attribute;
    e := qb.And(rejected);
    CountSuffix();
    q := qb.Build();
  }

  /** Building twice appends the parameters twice: `build` does not freeze the builder. */
  method BuildTwiceQuery(schema: Attributes.Schema, attribute: string) returns (first: Query, second: Query)
    requires Attributes.IsAttributeValid(schema, attribute, Attributes.Root)
    ensures first.text == attribute + " eq \"bjensen\"" + "&count=20"
    ensures second.text == first.text + "&count=20"
  {
    var qb := new QueryBuilder(schema, Attributes.Root);
    var f := qb.Query(attribute);
    assert qb.buffer == attribute;
    var b := f.value.EqualTo(Some("bjensen"));
    BjensenText(attribute);
    b := qb.CountPerPage(20);
    CountSuffix();
    first := qb.Build();
    second := qb.Build();
  }
}

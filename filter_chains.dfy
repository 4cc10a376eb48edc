/**
 * Whole call sequences on a fresh builder. A chain of clauses, each made by
 * `query`, `and` or `or` followed by one comparison, renders as its clauses'
 * texts in call order, with no precedence, grouping or escaping.
 */
module FilterChains {

  import opened Wrappers
  import opened QueryParams
  import opened QueryBuilding
  import Attributes
  import Strings

  /** How a clause is attached: `query` adds nothing, `and` and `or` add their connective. */
  datatype Connective = Start | AndThen | OrThen

  /** One attribute with its comparison; the condition of `present` is ignored, as that method takes none. */
  datatype Clause = Clause(conn: Connective, attribute: string, op: Operator, condition: Option<string>)

  function ConnectiveText(c: Connective): string
  {
    match c
    case Start => ""
    case AndThen => " and "
    case OrThen => " or "
  }

  /** The text of a comparison as the Filter method for `op` appends it. */
  function ComparisonText(op: Operator, condition: Option<string>): string
  {
    Token(op) + (if op == Pr then "" else QuotedCondition(condition))
  }

  function ClauseText(c: Clause): string
  {
    ConnectiveText(c.conn) + c.attribute + ComparisonText(c.op, c.condition)
  }

  /** The filter text of a chain: the clause texts, concatenated in call order. */
  function Render(clauses: seq<Clause>): string
  {
    if clauses == [] then "" else Render(clauses[..|clauses| - 1]) + ClauseText(clauses[|clauses| - 1])
  }

  /** The text of a longer chain extends the text of its beginning: nothing is reordered. */
  lemma {:induction false} RenderAppend(a: seq<Clause>, b: seq<Clause>)
    ensures Render(a + b) == Render(a) + Render(b)
    decreases |b|
  {
    if b == [] {
      assert a + b == a;
    } else {
      var b', last := b[..|b| - 1], b[|b| - 1];
      assert (a + b)[..|a + b| - 1] == a + b' && (a + b)[|a + b| - 1] == last;
      assert Render(a + b) == Render(a + b') + ClauseText(last);
      RenderAppend(a, b');
      assert Render(b) == Render(b') + ClauseText(last);
      Strings.AppendAssoc(Render(a), Render(b'), ClauseText(last));
    }
  }

  lemma RenderStep(clauses: seq<Clause>, i: int)
    requires 0 <= i < |clauses|
    ensures Render(clauses[..i + 1]) == Render(clauses[..i]) + ClauseText(clauses[i])
  {
    assert clauses[..i + 1][..i] == clauses[..i];
  }

  lemma AllValidAt(schema: Attributes.Schema, clazz: Attributes.TypeTag, clauses: seq<Clause>, i: int)
    requires 0 <= i < |clauses| && !Attributes.IsAttributeValid(schema, clauses[i].attribute, clazz)
    ensures !AllValid(schema, clazz, clauses)
  {
  }

  lemma AllValidStep(schema: Attributes.Schema, clazz: Attributes.TypeTag, clauses: seq<Clause>, i: int)
    requires 0 <= i < |clauses| && AllValid(schema, clazz, clauses[..i])
    requires Attributes.IsAttributeValid(schema, clauses[i].attribute, clazz)
    ensures AllValid(schema, clazz, clauses[..i + 1])
  {
    forall j | 0 <= j <= i ensures Attributes.IsAttributeValid(schema, clauses[j].attribute, clazz) {
      if j < i {
        assert clauses[..i][j] == clauses[j];
      }
    }
  }

  predicate AllValid(schema: Attributes.Schema, clazz: Attributes.TypeTag, clauses: seq<Clause>)
  {
    forall i :: 0 <= i < |clauses| ==> Attributes.IsAttributeValid(schema, clauses[i].attribute, clazz)
  }

  /** Calls the Filter method that `op` names. */
  method Compare(filter: Filter, op: Operator, condition: Option<string>)
    modifies filter.qb`buffer
    ensures filter.qb.buffer == old(filter.qb.buffer) + ComparisonText(op, condition)
  {
    ghost var before := filter.qb.buffer;
    var b: QueryBuilder;
    match op {
      case Eq => b := filter.EqualTo(condition);
      case Co => b := filter.Contains(condition);
      case Sw => b := filter.StartsWith(condition);
      case Pr => b := filter.Present();
      case Gt => b := filter.GreaterThan(condition);
      case Ge => b := filter.GreaterEquals(condition);
      case Lt => b := filter.LessThan(condition);
      case Le => b := filter.LessEquals(condition);
    }
    if op == Pr {
      assert ComparisonText(op, condition) == Token(Pr) + "" == Token(Pr);
    } else {
      Strings.AppendAssoc(before, Token(op), QuotedCondition(condition));
    }
  }

  /** Calls `query`, `and` or `or`, as the connective says. */
  method CallConnective(qb: QueryBuilder, conn: Connective, attribute: string) returns (f: Result<Filter>)
    modifies qb`buffer
    ensures f.Ok? <==> Attributes.IsAttributeValid(qb.schema, attribute, qb.clazz)
    ensures f.Ok? ==> qb.buffer == old(qb.buffer) + (ConnectiveText(conn) + attribute) && f.value.qb == qb
    ensures f.Err? ==> qb.buffer == old(qb.buffer) + ConnectiveText(conn) && f.error == InvalidAttribute(NOT_SUPPORTED)
  {
    ghost var before := qb.buffer;
    match conn {
      case Start =>
        f := qb.Query(attribute);
        assert f.Ok? ==> qb.buffer == before + ("" + attribute);
      case AndThen =>
        f := qb.And(attribute);
        Strings.AppendAssoc(before, " and ", attribute);
      case OrThen =>
        f := qb.Or(attribute);
        Strings.AppendAssoc(before, " or ", attribute);
    }
  }

  /** Calls `query`, `and` or `or` for one clause and, when the name is accepted, its comparison. */
  method AddClause(qb: QueryBuilder, c: Clause) returns (r: Result<QueryBuilder>)
    modifies qb`buffer
    ensures r.Ok? <==> Attributes.IsAttributeValid(qb.schema, c.attribute, qb.clazz)
    ensures r.Ok? ==> qb.buffer == old(qb.buffer) + ClauseText(c)
    ensures r.Err? ==> qb.buffer == old(qb.buffer) + ConnectiveText(c.conn) && r.error == InvalidAttribute(NOT_SUPPORTED)
  {
    ghost var before := qb.buffer;
    var f := CallConnective(qb, c.conn, c.attribute);
    if f.Err? {
      return Err(f.error);
    }
    Compare(f.value, c.op, c.condition);
    Strings.AppendAssoc(before, ConnectiveText(c.conn) + c.attribute, ComparisonText(c.op, c.condition));
    return Ok(qb);
  }

  /**
   * Performs the chain's calls on a fresh builder, sets the three parameters
   * and builds. The first invalid attribute raises InvalidAttribute; otherwise
   * the query is the rendered chain followed by the non-default parameters.
   */
  method RunChain(schema: Attributes.Schema, clazz: Attributes.TypeTag, clauses: seq<Clause>,
                  sortOrder: Option<string>, countPerPage: Int32, startIndex: Int32)
    returns (r: Result<Query>)
    ensures r.Ok? <==> AllValid(schema, clazz, clauses)
    ensures r.Ok? ==> r.value.text == Render(clauses) + ParamsSuffix(sortOrder, countPerPage as int, startIndex as int)
    ensures r.Err? ==> r.error == InvalidAttribute(NOT_SUPPORTED)
  {
    var qb := new QueryBuilder(schema, clazz);
    var i := 0;
    while i < |clauses|
      invariant 0 <= i <= |clauses|
      invariant qb.buffer == Render(clauses[..i])
      invariant AllValid(schema, clazz, clauses[..i])
    {
      var added := AddClause(qb, clauses[i]);
      if added.Err? {
        AllValidAt(schema, clazz, clauses, i);
        return Err(added.error);
      }
      AllValidStep(schema, clazz, clauses, i);
      RenderStep(clauses, i);
      i := i + 1;
    }
    assert clauses[..i] == clauses;
    var b := qb.WithSortOrder(sortOrder);
    b := qb.CountPerPage(countPerPage);
    b := qb.StartIndex(startIndex);
    var q := qb.Build();
    return Ok(q);
  }

  /** A quoted value that holds `" and b eq "` reads as two quoted values joined by ` and b eq `. */
  lemma QuoteSplits(x: string, b: string, y: string)
    ensures "\"" + (x + "\" and " + b + " eq \"" + y) + "\""
         == ("\"" + x + "\"") + (" and " + b + (" eq " + ("\"" + y + "\"")))
  {
    var q := "\"";
    var s, t := q + " and ", " eq " + q;
    assert "\" and " == s && " eq \"" == t;
    calc {
      q + (x + s + b + t + y) + q;
      q + x + s + b + t + y + q;
      q + x + q + " and " + b + " eq " + q + y + q;
      (q + x + q) + (" and " + b + (" eq " + (q + y + q)));
    }
  }

  /** The text of an `eq` clause with a non-empty value. */
  lemma EqClauseText(conn: Connective, attribute: string, v: string)
    requires |v| > 0
    ensures ClauseText(Clause(conn, attribute, Eq, Some(v)))
         == ConnectiveText(conn) + attribute + (" eq " + ("\"" + v + "\""))
  {
  }

  lemma RenderOne(c: Clause)
    ensures Render([c]) == ClauseText(c)
  {
    assert [c][..0] == [];
  }

  lemma RenderTwo(c1: Clause, c2: Clause)
    ensures Render([c1, c2]) == ClauseText(c1) + ClauseText(c2)
  {
    assert [c1, c2][..1] == [c1];
    RenderOne(c1);
  }

  /** The text of the single clause, regrouped as the texts of the two clauses. */
  lemma JoinedClauses(a: string, b: string, x: string, y: string)
    ensures "" + a + (" eq " + ("\"" + (x + "\" and " + b + " eq \"" + y) + "\""))
         == "" + a + (" eq " + ("\"" + x + "\"")) + (" and " + b + (" eq " + ("\"" + y + "\"")))
  {
    var q := "\"";
    var w := " and " + b + (" eq " + (q + y + q));
    QuoteSplits(x, b, y);
    Strings.AppendAssoc(" eq ", q + x + q, w);
    Strings.AppendAssoc("" + a, " eq " + (q + x + q), w);
  }

  /** The single clause's text is the two clauses' texts run together. */
  lemma AmbiguousClauseTexts(a: string, b: string, x: string, y: string)
    requires |x| > 0 && |y| > 0
    ensures ClauseText(Clause(Start, a, Eq, Some(x + "\" and " + b + " eq \"" + y)))
         == ClauseText(Clause(Start, a, Eq, Some(x))) + ClauseText(Clause(AndThen, b, Eq, Some(y)))
  {
    EqClauseText(Start, a, x + "\" and " + b + " eq \"" + y);
    EqClauseText(Start, a, x);
    EqClauseText(AndThen, b, y);
    JoinedClauses(a, b, x, y);
  }

  /**
   * Conditions are not escaped, so a condition holding a quote can imitate
   * a further clause: for any names and any non-empty values, one clause
   * and two clauses give the same filter text.
   */
  lemma UnescapedQuoteAmbiguity(a: string, b: string, x: string, y: string)
    requires |x| > 0 && |y| > 0
    ensures var one := [Clause(Start, a, Eq, Some(x + "\" and " + b + " eq \"" + y))];
            var two := [Clause(Start, a, Eq, Some(x)), Clause(AndThen, b, Eq, Some(y))];
            one != two && Render(one) == Render(two)
  {
    RenderOne(Clause(Start, a, Eq, Some(x + "\" and " + b + " eq \"" + y)));
    RenderTwo(Clause(Start, a, Eq, Some(x)), Clause(AndThen, b, Eq, Some(y)));
    AmbiguousClauseTexts(a, b, x, y);
  }
}

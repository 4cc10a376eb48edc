/**
 * The fluent query builder: a text buffer that `query`, `and`, `or` and the
 * comparison methods of a Filter append to, three paging and sorting fields
 * that setters overwrite, and a terminal `build` that appends the non-default
 * parameters and wraps the buffer's contents in a Query.
 */
module QueryBuilding {

  import opened Wrappers
  import opened QueryParams
  import opened Decimal
  import Attributes
  import Strings

  /** The failures the builder reports; InvalidAttributeException in the Java `QueryBuilder`. */
  datatype Error = InvalidAttribute(message: string)

  const NOT_SUPPORTED := "Querying for this attribute is not supported"

  datatype Result<+T> = Ok(value: T) | Err(error: Error)

  /** A finished query: an immutable wrapper around the query text. */
  datatype Query = QueryOf(text: string)

  /** The comparisons a Filter offers, one per method. */
  datatype Operator = Eq | Co | Sw | Pr | Gt | Ge | Lt | Le

  /** The fixed token each comparison appends: a two-letter operator between spaces. */
  function Token(op: Operator): string
  {
    match op
    case Eq => " eq "
    case Co => " co "
    case Sw => " sw "
    case Pr => " pr "
    case Gt => " gt "
    case Ge => " ge "
    case Lt => " lt "
    case Le => " le "
  }

  /** What `addFilter` writes after the token: the condition in double quotes, unescaped, unless it is null or empty. */
  function QuotedCondition(condition: Option<string>): string
  {
    if condition.Some? && |condition.value| > 0 then "\"" + condition.value + "\"" else ""
  }

  /** Every token is four characters: a space, the two-letter operator, a space. */
  lemma TokenShape(op: Operator)
    ensures var t := Token(op); |t| == 4 && t[0] == ' ' && t[3] == ' ' && TokenOperator(t) == Some(op)
  {
  }

  /** The quoted form is empty exactly for a null or empty condition, and otherwise holds it verbatim between quotes. */
  lemma QuotedConditionShape(condition: Option<string>)
    ensures var r := QuotedCondition(condition);
      (r == "" <==> condition.None? || condition.value == "") &&
      (r != "" ==> |r| == |condition.value| + 2 && r[0] == '"' && r[|r| - 1] == '"'
                   && r[1..|r| - 1] == condition.value)
  {
  }

  function TokenOperator(t: string): Option<Operator>
  {
    if t == " eq " then Some(Eq)
    else if t == " co " then Some(Co)
    else if t == " sw " then Some(Sw)
    else if t == " pr " then Some(Pr)
    else if t == " gt " then Some(Gt)
    else if t == " ge " then Some(Ge)
    else if t == " lt " then Some(Lt)
    else if t == " le " then Some(Le)
    else None
  }

  /** Reads back one comparison: a token and, optionally, a quoted condition that runs to the end. */
  function ParseComparison(text: string): Option<(Operator, Option<string>)>
  {
    if |text| < 4 || TokenOperator(text[..4]).None? then None
    else
      var op := TokenOperator(text[..4]).value;
      var rest := text[4..];
      if rest == [] then Some((op, None))
      else if |rest| >= 2 && rest[0] == '"' && rest[|rest| - 1] == '"' then Some((op, Some(rest[1..|rest| - 1])))
      else None
  }

  /** A null condition and an empty one both leave the value out. */
  function Normalized(condition: Option<string>): Option<string>
  {
    if condition.Some? && condition.value == "" then None else condition
  }

  /**
   * A comparison's text determines its operator and its condition, up to the
   * empty condition, which cannot be told from a null one.
   */
  lemma ComparisonRoundTrip(op: Operator, condition: Option<string>)
    ensures ParseComparison(Token(op) + QuotedCondition(condition)) == Some((op, Normalized(condition)))
  {
    var text := Token(op) + QuotedCondition(condition);
    TokenShape(op);
    QuotedConditionShape(condition);
    assert text[..4] == Token(op);
    assert text[4..] == QuotedCondition(condition);
  }

  class QueryBuilder {
    /** The field names of each type, standing in for reflection over the classes. */
    const schema: Attributes.Schema
    /** The type of resources the query is for. */
    const clazz: Attributes.TypeTag
    var buffer: string
    var sortOrder: Option<string>
    var startIndex: Int32
    var countPerPage: Int32

    /** A fresh builder: empty text, no sort order, start index 0, 100 results per page. */
    constructor (schema: Attributes.Schema, clazz: Attributes.TypeTag)
      ensures this.schema == schema && this.clazz == clazz
      ensures buffer == "" && sortOrder == None
      ensures startIndex as int == DEFAULT_START_INDEX && countPerPage as int == DEFAULT_COUNT_PER_PAGE
    {
      this.schema := schema;
      this.clazz := clazz;
      buffer := "";
      sortOrder := None;
      startIndex := DEFAULT_START_INDEX as Int32;
      countPerPage := DEFAULT_COUNT_PER_PAGE as Int32;
    }

    /** The one-argument `isAttributeValid`: validation against the builder's own resource type. */
    predicate IsAttributeValid(attribute: string)
    {
      Attributes.IsAttributeValid(schema, attribute, clazz)
    }

    /** `query`: rejects an invalid name and leaves the text alone; otherwise appends the name. */
    method Query(attributeName: string) returns (r: Result<Filter>)
      modifies this`buffer
      ensures r.Ok? <==> IsAttributeValid(attributeName)
      ensures r.Ok? ==> buffer == old(buffer) + attributeName && fresh(r.value) && r.value.qb == this
      ensures r.Err? ==> buffer == old(buffer) && r.error == InvalidAttribute(NOT_SUPPORTED)
    {
      if !IsAttributeValid(attributeName) {
        return Err(InvalidAttribute(NOT_SUPPORTED));
      }
      buffer := buffer + attributeName;
      var filter := new Filter(this);
      return Ok(filter);
    }

    /** `and`: appends " and " first, so the connective stays even when the name is then rejected. */
    method And(attributeName: string) returns (r: Result<Filter>)
      modifies this`buffer
      ensures r.Ok? <==> IsAttributeValid(attributeName)
      ensures r.Ok? ==> buffer == old(buffer) + " and " + attributeName && fresh(r.value) && r.value.qb == this
      ensures r.Err? ==> buffer == old(buffer) + " and " && r.error == InvalidAttribute(NOT_SUPPORTED)
    {
      buffer := buffer + " and ";
      r := Query(attributeName);
    }

    /** `or`: appends " or " first, so the connective stays even when the name is then rejected. */
    method Or(attributeName: string) returns (r: Result<Filter>)
      modifies this`buffer
      ensures r.Ok? <==> IsAttributeValid(attributeName)
      ensures r.Ok? ==> buffer == old(buffer) + " or " + attributeName && fresh(r.value) && r.value.qb == this
      ensures r.Err? ==> buffer == old(buffer) + " or " && r.error == InvalidAttribute(NOT_SUPPORTED)
    {
      buffer := buffer + " or ";
      r := Query(attributeName);
    }

    /** `withSortOrder`: None stands for a null sort order, which switches sorting off. */
    method WithSortOrder(order: Option<string>) returns (b: QueryBuilder)
      modifies this`sortOrder
      ensures b == this && sortOrder == order
      ensures buffer == old(buffer) && startIndex == old(startIndex) && countPerPage == old(countPerPage)
    {
      sortOrder := order;
      return this;
    }

    /** `startIndex`: any 32-bit value is taken as it is. */
    method StartIndex(index: Int32) returns (b: QueryBuilder)
      modifies this`startIndex
      ensures b == this && startIndex == index
      ensures buffer == old(buffer) && sortOrder == old(sortOrder) && countPerPage == old(countPerPage)
    {
      startIndex := index;
      return this;
    }

    /** `countPerPage`: any 32-bit value is taken as it is. */
    method CountPerPage(count: Int32) returns (b: QueryBuilder)
      modifies this`countPerPage
      ensures b == this && countPerPage == count
      ensures buffer == old(buffer) && sortOrder == old(sortOrder) && startIndex == old(startIndex)
    {
      countPerPage := count;
      return this;
    }

    /**
     * `build`: appends the non-default parameters to the builder's own text
     * and returns all of that text; the builder stays usable, so a second
     * call appends the parameters again.
     */
    method Build() returns (q: Query)
      modifies this`buffer
      ensures buffer == old(buffer) + ParamsSuffix(sortOrder, countPerPage as int, startIndex as int)
      ensures q.text == buffer
    {
      ghost var filter := buffer;
      if sortOrder.Some? {
        buffer := buffer + (SORT_ORDER_KEY + sortOrder.value);
      }
      assert buffer == filter + SortOrderParam(sortOrder);
      ghost var sorted := buffer;
      if countPerPage as int != DEFAULT_COUNT_PER_PAGE {
        buffer := buffer + (COUNT_KEY + IntToDecimal(countPerPage as int));
      }
      assert buffer == sorted + CountParam(countPerPage as int);
      ghost var counted := buffer;
      if startIndex as int != DEFAULT_START_INDEX {
        buffer := buffer + (START_INDEX_KEY + IntToDecimal(startIndex as int));
      }
      assert buffer == counted + StartIndexParam(startIndex as int);
      Strings.AppendAssoc(filter + SortOrderParam(sortOrder), CountParam(countPerPage as int),
                          StartIndexParam(startIndex as int));
      Strings.AppendAssoc(filter, SortOrderParam(sortOrder),
                          CountParam(countPerPage as int) + StartIndexParam(startIndex as int));
      Strings.AppendAssoc(SortOrderParam(sortOrder), CountParam(countPerPage as int),
                          StartIndexParam(startIndex as int));
      q := QueryOf(buffer);
    }
  }

  /**
   * The state between naming an attribute and choosing its comparison. It
   * only refers back to its builder, so every comparison method appends to
   * that builder's text and returns the builder.
   */
  class Filter {
    const qb: QueryBuilder

    constructor (queryBuilder: QueryBuilder)
      ensures qb == queryBuilder
    {
      qb := queryBuilder;
    }

    method AddFilter(filter: string, condition: Option<string>) returns (b: QueryBuilder)
      modifies qb`buffer
      ensures b == qb && qb.buffer == old(qb.buffer) + filter + QuotedCondition(condition)
    {
      qb.buffer := qb.buffer + filter;
      if condition.Some? && |condition.value| > 0 {
        qb.buffer := qb.buffer + "\"" + condition.value + "\"";
      }
      return qb;
    }

    method EqualTo(condition: Option<string>) returns (b: QueryBuilder)
      modifies qb`buffer
      ensures b == qb && qb.buffer == old(qb.buffer) + Token(Eq) + QuotedCondition(condition)
    {
      b := AddFilter(" eq ", condition);
    }

    method Contains(condition: Option<string>) returns (b: QueryBuilder)
      modifies qb`buffer
      ensures b == qb && qb.buffer == old(qb.buffer) + Token(Co) + QuotedCondition(condition)
    {
      b := AddFilter(" co ", condition);
    }

    method StartsWith(condition: Option<string>) returns (b: QueryBuilder)
      modifies qb`buffer
      ensures b == qb && qb.buffer == old(qb.buffer) + Token(Sw) + QuotedCondition(condition)
    {
      b := AddFilter(" sw ", condition);
    }

    /** `present`: the token alone, since its condition is the empty string. */
    method Present() returns (b: QueryBuilder)
      modifies qb`buffer
      ensures b == qb && qb.buffer == old(qb.buffer) + Token(Pr)
    {
      b := AddFilter(" pr ", Some(""));
    }

    method GreaterThan(condition: Option<string>) returns (b: QueryBuilder)
      modifies qb`buffer
      ensures b == qb && qb.buffer == old(qb.buffer) + Token(Gt) + QuotedCondition(condition)
    {
      b := AddFilter(" gt ", condition);
    }

    method GreaterEquals(condition: Option<string>) returns (b: QueryBuilder)
      modifies qb`buffer
      ensures b == qb && qb.buffer == old(qb.buffer) + Token(Ge) + QuotedCondition(condition)
    {
      b := AddFilter(" ge ", condition);
    }

    method LessThan(condition: Option<string>) returns (b: QueryBuilder)
      modifies qb`buffer
      ensures b == qb && qb.buffer == old(qb.buffer) + Token(Lt) + QuotedCondition(condition)
    {
      b := AddFilter(" lt ", condition);
    }

    method LessEquals(condition: Option<string>) returns (b: QueryBuilder)
      modifies qb`buffer
      ensures b == qb && qb.buffer == old(qb.buffer) + Token(Le) + QuotedCondition(condition)
    {
      b := AddFilter(" le ", condition);
    }
  }
}

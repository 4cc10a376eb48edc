/**
 * The paging and sorting parameters that `build` appends to the filter text,
 * and a reader that recovers them from the appended text.
 */
module QueryParams {

  import opened Wrappers
  import opened Strings
  import opened Decimal

  /** Java's `int`: the start index and the page size are 32-bit values. */
  newtype Int32 = x: int | -0x8000_0000 <= x < 0x8000_0000

  const DEFAULT_START_INDEX: int := 0
  const DEFAULT_COUNT_PER_PAGE: int := 100

  const SORT_ORDER_KEY := "&sortOrder="
  const COUNT_KEY := "&count="
  const START_INDEX_KEY := "&startIndex="

  /**
   * What `build` appends: the sort order when one is set, then the page size
   * when it is not 100, then the start index when it is not 0.
   */
  function ParamsSuffix(sortOrder: Option<string>, countPerPage: int, startIndex: int): string
  {
    SortOrderParam(sortOrder) + CountParam(countPerPage) + StartIndexParam(startIndex)
  }

  /** Nothing is appended exactly when all three values are the defaults; anything appended opens a parameter. */
  lemma ParamsSuffixEmptyIffDefaults(sortOrder: Option<string>, countPerPage: int, startIndex: int)
    ensures var r := ParamsSuffix(sortOrder, countPerPage, startIndex);
      (r == "" <==> sortOrder.None? && countPerPage == DEFAULT_COUNT_PER_PAGE && startIndex == DEFAULT_START_INDEX)
      && (r != "" ==> r[0] == '&')
  {
  }

  function SortOrderParam(sortOrder: Option<string>): string
  {
    if sortOrder.Some? then SORT_ORDER_KEY + sortOrder.value else ""
  }

  function CountParam(countPerPage: int): string
  {
    if countPerPage != DEFAULT_COUNT_PER_PAGE then COUNT_KEY + IntToDecimal(countPerPage) else ""
  }

  function StartIndexParam(startIndex: int): string
  {
    if startIndex != DEFAULT_START_INDEX then START_INDEX_KEY + IntToDecimal(startIndex) else ""
  }

  /** The three values a builder carries besides its filter text. */
  datatype Params = Params(sortOrder: Option<string>, countPerPage: int, startIndex: int)

  /** Splits a text before its first '&'. */
  function SplitAtAmp(s: string): (string, string)
  {
    if s == [] then ("", "")
    else if s[0] == '&' then ("", s)
    else var (v, r) := SplitAtAmp(s[1..]); ([s[0]] + v, r)
  }

  /** Reads `key` and the value after it up to the next '&', if the text starts with `key`. */
  function TakeParam(key: string, s: string): (Option<string>, string)
  {
    if StartsWith(s, key) then var (v, r) := SplitAtAmp(s[|key|..]); (Some(v), r) else (None, s)
  }

  /** The number a parameter's value denotes, or `default` when the parameter is absent. */
  function ReadNumber(value: Option<string>, default: int): Option<int>
  {
    if value.Some? then ParseDecimal(value.value) else Some(default)
  }

  /** A parameter written only when its value differs from the default reads back as that value. */
  lemma ReadNumberRoundTrip(n: int, default: int)
    ensures ReadNumber(if n != default then Some(IntToDecimal(n)) else None, default) == Some(n)
  {
    if n != default {
      DecimalRoundTrip(n);
    }
  }

  /** Reads a parameter suffix; a parameter that is absent takes its default. */
  function ParseParams(s: string): Option<Params>
  {
    var (sortOrder, afterSort) := TakeParam(SORT_ORDER_KEY, s);
    ParsePaging(sortOrder, afterSort)
  }

  /** Reads the page size and the start index that follow the sort order; nothing may follow them. */
  function ParsePaging(sortOrder: Option<string>, s: string): Option<Params>
  {
    var (count, afterCount) := TakeParam(COUNT_KEY, s);
    var (start, rest) := TakeParam(START_INDEX_KEY, afterCount);
    var countPerPage := ReadNumber(count, DEFAULT_COUNT_PER_PAGE);
    var startIndex := ReadNumber(start, DEFAULT_START_INDEX);
    if rest == [] && countPerPage.Some? && startIndex.Some? then
      Some(Params(sortOrder, countPerPage.value, startIndex.value))
    else None
  }

  lemma {:induction false} SplitAtAmpOf(v: string, r: string)
    requires '&' !in v && (r == [] || r[0] == '&')
    ensures SplitAtAmp(v + r) == (v, r)
  {
    if v == [] {
      assert v + r == r;
    } else {
      assert (v + r)[0] == v[0] != '&';
      assert (v + r)[1..] == v[1..] + r;
      assert '&' !in v[1..] by { assert forall x :: x in v[1..] ==> x in v; }
      SplitAtAmpOf(v[1..], r);
      assert [v[0]] + v[1..] == v;
    }
  }

  lemma TakePresent(key: string, v: string, r: string)
    requires '&' !in v && (r == [] || r[0] == '&')
    ensures TakeParam(key, key + v + r) == (Some(v), r)
  {
    assert (key + v + r)[..|key|] == key;
    assert (key + v + r)[|key|..] == v + r;
    SplitAtAmpOf(v, r);
  }

  lemma DecimalHasNoAmp(n: int)
    ensures '&' !in IntToDecimal(n)
  {
    var s := IntToDecimal(n);
    forall i | 0 <= i < |s| ensures s[i] != '&' {
      if i == 0 && n >= 0 {
        assert s == NatToDecimal(n);
      }
    }
  }

  /** Two keys that differ at some position cannot both start the same text. */
  lemma KeysExclude(s: string, k1: string, k2: string, i: nat)
    requires StartsWith(s, k1) && i < |k1| && i < |k2| && k1[i] != k2[i]
    ensures !StartsWith(s, k2)
  {
    assert s[i] == s[..|k1|][i];
  }

  lemma TakeStartIndex(startIndex: int)
    ensures TakeParam(START_INDEX_KEY, StartIndexParam(startIndex))
         == (if startIndex != DEFAULT_START_INDEX then Some(IntToDecimal(startIndex)) else None, "")
  {
    if startIndex != DEFAULT_START_INDEX {
      DecimalHasNoAmp(startIndex);
      assert START_INDEX_KEY + IntToDecimal(startIndex) == START_INDEX_KEY + IntToDecimal(startIndex) + "";
      TakePresent(START_INDEX_KEY, IntToDecimal(startIndex), "");
    }
  }

  lemma TakeCount(countPerPage: int, startIndex: int)
    ensures TakeParam(COUNT_KEY, CountParam(countPerPage) + StartIndexParam(startIndex))
         == (if countPerPage != DEFAULT_COUNT_PER_PAGE then Some(IntToDecimal(countPerPage)) else None,
             StartIndexParam(startIndex))
  {
    var t := StartIndexParam(startIndex);
    if countPerPage != DEFAULT_COUNT_PER_PAGE {
      DecimalHasNoAmp(countPerPage);
      TakePresent(COUNT_KEY, IntToDecimal(countPerPage), t);
    } else {
      assert CountParam(countPerPage) + t == t;
      if t != [] {
        assert t[..|START_INDEX_KEY|] == START_INDEX_KEY;
        KeysExclude(t, START_INDEX_KEY, COUNT_KEY, 1);
      }
    }
  }

  lemma TakeSortOrder(sortOrder: Option<string>, rest: string)
    requires sortOrder.Some? ==> '&' !in sortOrder.value
    requires rest == [] || StartsWith(rest, COUNT_KEY) || StartsWith(rest, START_INDEX_KEY)
    ensures TakeParam(SORT_ORDER_KEY, SortOrderParam(sortOrder) + rest) == (sortOrder, rest)
  {
    if sortOrder.Some? {
      TakePresent(SORT_ORDER_KEY, sortOrder.value, rest);
    } else {
      assert SortOrderParam(sortOrder) + rest == rest;
      if StartsWith(rest, COUNT_KEY) {
        KeysExclude(rest, COUNT_KEY, SORT_ORDER_KEY, 1);
      } else if StartsWith(rest, START_INDEX_KEY) {
        KeysExclude(rest, START_INDEX_KEY, SORT_ORDER_KEY, 2);
      }
    }
  }

  lemma PagingParamsShape(countPerPage: int, startIndex: int)
    ensures var rest := CountParam(countPerPage) + StartIndexParam(startIndex);
      rest == [] || StartsWith(rest, COUNT_KEY) || StartsWith(rest, START_INDEX_KEY)
  {
    var rest := CountParam(countPerPage) + StartIndexParam(startIndex);
    if CountParam(countPerPage) != "" {
      assert rest[..|COUNT_KEY|] == COUNT_KEY;
    } else if rest != [] {
      assert rest == StartIndexParam(startIndex);
      assert rest[..|START_INDEX_KEY|] == START_INDEX_KEY;
    }
  }

  lemma PagingRoundTrip(sortOrder: Option<string>, countPerPage: int, startIndex: int)
    ensures ParsePaging(sortOrder, CountParam(countPerPage) + StartIndexParam(startIndex))
         == Some(Params(sortOrder, countPerPage, startIndex))
  {
    TakeCount(countPerPage, startIndex);
    TakeStartIndex(startIndex);
    ReadNumberRoundTrip(countPerPage, DEFAULT_COUNT_PER_PAGE);
    ReadNumberRoundTrip(startIndex, DEFAULT_START_INDEX);
  }

  /** The sort order is read off the front, and the rest is left to `ParsePaging`. */
  lemma SortOrderThenPaging(sortOrder: Option<string>, rest: string)
    requires sortOrder.Some? ==> '&' !in sortOrder.value
    requires rest == [] || StartsWith(rest, COUNT_KEY) || StartsWith(rest, START_INDEX_KEY)
    ensures ParseParams(SortOrderParam(sortOrder) + rest) == ParsePaging(sortOrder, rest)
  {
    TakeSortOrder(sortOrder, rest);
  }

  /** Reading the suffix `build` appends gives back the three values, provided the sort order holds no '&'. */
  lemma ParamsRoundTrip(sortOrder: Option<string>, countPerPage: int, startIndex: int)
    requires sortOrder.Some? ==> '&' !in sortOrder.value
    ensures ParseParams(ParamsSuffix(sortOrder, countPerPage, startIndex))
         == Some(Params(sortOrder, countPerPage, startIndex))
  {
    var rest := CountParam(countPerPage) + StartIndexParam(startIndex);
    AppendAssoc(SortOrderParam(sortOrder), CountParam(countPerPage), StartIndexParam(startIndex));
    PagingParamsShape(countPerPage, startIndex);
    SortOrderThenPaging(sortOrder, rest);
    PagingRoundTrip(sortOrder, countPerPage, startIndex);
  }
}

/**
 * The feeds page: the filter record it builds from the query string and hands
 * to the grid. The query is a list of name/value pairs read with the
 * `get` and `getAll` operations of URLSearchParams (section 6.2 of the WHATWG
 * URL Standard).
 */
module FeedsPage {
  import opened Wrappers

  /** A parsed query string: its name/value pairs in order of appearance. */
  type SearchParams = seq<(string, string)>

  /** `getAll(name)`: the values of every pair named `name`, in order. */
  function GetAll(params: SearchParams, name: string): (r: seq<string>)
    ensures forall v :: v in r <==> (name, v) in params
    ensures |r| <= |params|
  {
    if params == [] then []
    else (if params[0].0 == name then [params[0].1] else []) + GetAll(params[1..], name)
  }

  /** `get(name)`: the value of the first pair named `name`, or null (None) when there is none. */
  function Get(params: SearchParams, name: string): (r: Option<string>)
    ensures r.None? <==> forall i :: 0 <= i < |params| ==> params[i].0 != name
    ensures r.Some? ==> exists i :: 0 <= i < |params| && params[i] == (name, r.value)
                                    && forall j :: 0 <= j < i ==> params[j].0 != name
  {
    if params == [] then None
    else if params[0].0 == name then Some(params[0].1)
    else
      var r := Get(params[1..], name);
      assert forall i :: 1 <= i < |params| ==> params[i] == params[1..][i - 1];
      r
  }

  /** `get(name)` is the head of `getAll(name)`. */
  lemma {:induction false} GetIsFirstOfGetAll(params: SearchParams, name: string)
    ensures Get(params, name) == if GetAll(params, name) == [] then None else Some(GetAll(params, name)[0])
  {
    if params != [] && params[0].0 != name {
      GetIsFirstOfGetAll(params[1..], name);
    }
  }

  /** `getAll(name)` lists each value as often as it is paired with `name`. */
  lemma {:induction false} GetAllCounts(params: SearchParams, name: string, v: string)
    ensures multiset(GetAll(params, name))[v] == multiset(params)[(name, v)]
  {
    if params != [] {
      GetAllCounts(params[1..], name, v);
      assert params == [params[0]] + params[1..];
    }
  }

  lemma {:induction false} GetAllAppend(a: SearchParams, b: SearchParams, name: string)
    ensures GetAll(a + b, name) == GetAll(a, name) + GetAll(b, name)
  {
    if a == [] {
      assert a + b == b;
    } else {
      assert (a + b)[1..] == a[1..] + b;
      GetAllAppend(a[1..], b, name);
    }
  }

  /** `value || fallback` on a string-or-null: the fallback replaces null and "". */
  function OrElse(value: Option<string>, fallback: string): (r: string)
    ensures value.Some? && value.value != "" ==> r == value.value
    ensures value.None? || value.value == "" ==> r == fallback
  {
    if value.Some? && value.value != "" then value.value else fallback
  }

  /** The first of `values` when it is non-empty, else `fallback`: what `get(name) || fallback` yields. */
  function FirstOr(values: seq<string>, fallback: string): string {
    if values != [] && values[0] != "" then values[0] else fallback
  }

  const TechTagKey := "tech_tag"
  const DomainTagKey := "domain_tag"
  const SearchKey := "search"
  const FromDateKey := "from_date"
  const ToDateKey := "to_date"
  const StatusKey := "status"
  const SortKey := "sort"
  const DefaultSort := "trending"

  /** The names the page reads; every other pair is ignored. */
  predicate IsFilterKey(name: string) {
    name in [TechTagKey, DomainTagKey, SearchKey, FromDateKey, ToDateKey, StatusKey, SortKey]
  }

  /** The filters handed to the grid; every field is a string or a list of strings, never null. */
  datatype UrlFilters = UrlFilters(
    techTags: seq<string>,
    domainTags: seq<string>,
    search: string,
    fromDate: string,
    toDate: string,
    status: seq<string>,
    sort: string)

  /** `urlFilters` as the page builds it from its search parameters. */
  function ExtractUrlFilters(params: SearchParams): (r: UrlFilters)
    ensures forall v :: v in r.techTags <==> (TechTagKey, v) in params
    ensures forall v :: v in r.domainTags <==> (DomainTagKey, v) in params
    ensures forall v :: v in r.status <==> (StatusKey, v) in params
    ensures r.search == "" || (SearchKey, r.search) in params
    ensures r.fromDate == "" || (FromDateKey, r.fromDate) in params
    ensures r.toDate == "" || (ToDateKey, r.toDate) in params
    ensures r.sort != ""
    ensures r.sort == DefaultSort || (SortKey, r.sort) in params
    ensures r.search == FirstOr(GetAll(params, SearchKey), "")
    ensures r.fromDate == FirstOr(GetAll(params, FromDateKey), "")
    ensures r.toDate == FirstOr(GetAll(params, ToDateKey), "")
    ensures r.sort == FirstOr(GetAll(params, SortKey), DefaultSort)
  {
    GetIsFirstOfGetAll(params, SearchKey);
    GetIsFirstOfGetAll(params, FromDateKey);
    GetIsFirstOfGetAll(params, ToDateKey);
    GetIsFirstOfGetAll(params, SortKey);
    UrlFilters(
      GetAll(params, TechTagKey),
      GetAll(params, DomainTagKey),
      OrElse(Get(params, SearchKey), ""),
      OrElse(Get(params, FromDateKey), ""),
      OrElse(Get(params, ToDateKey), ""),
      GetAll(params, StatusKey),
      OrElse(Get(params, SortKey), DefaultSort))
  }

  /**
   * The single-valued fields take the first value of their key: a pair
   * added after one already there changes nothing, and with no pair for the
   * key the field is "" ("trending" for `sort`).
   */
  lemma {:induction false} FirstValueWins(params: SearchParams, name: string, v: string)
    requires exists i :: 0 <= i < |params| && params[i].0 == name
    ensures Get(params + [(name, v)], name) == Get(params, name)
  {
    GetAllAppend(params, [(name, v)], name);
    GetIsFirstOfGetAll(params, name);
    GetIsFirstOfGetAll(params + [(name, v)], name);
    var i :| 0 <= i < |params| && params[i].0 == name;
    assert (name, params[i].1) in params;
  }

  /** With no pair for a key, its single-valued field falls back to "" ("trending" for `sort`). */
  lemma AbsentKeyDefaults(params: SearchParams, name: string)
    requires name in [SearchKey, FromDateKey, ToDateKey, SortKey]
    requires forall i :: 0 <= i < |params| ==> params[i].0 != name
    ensures var r := ExtractUrlFilters(params);
      if name == SortKey then r.sort == DefaultSort
      else if name == SearchKey then r.search == ""
      else if name == FromDateKey then r.fromDate == ""
      else r.toDate == ""
  {
  }

  /** The multi-valued fields collect every value in order: one more pair appends one more value. */
  lemma AppendedValueIsListedLast(params: SearchParams, v: string)
    ensures ExtractUrlFilters(params + [(TechTagKey, v)]).techTags == ExtractUrlFilters(params).techTags + [v]
    ensures ExtractUrlFilters(params + [(DomainTagKey, v)]).domainTags == ExtractUrlFilters(params).domainTags + [v]
    ensures ExtractUrlFilters(params + [(StatusKey, v)]).status == ExtractUrlFilters(params).status + [v]
  {
    AppendedPairListedLast(params, TechTagKey, v);
    AppendedPairListedLast(params, DomainTagKey, v);
    AppendedPairListedLast(params, StatusKey, v);
  }

  lemma AppendedPairListedLast(params: SearchParams, name: string, v: string)
    ensures GetAll(params + [(name, v)], name) == GetAll(params, name) + [v]
  {
    var extra: SearchParams := [(name, v)];
    assert extra[1..] == [];
    GetAllAppend(params, extra, name);
  }

  lemma InsertedPairIgnored(before: SearchParams, after: SearchParams, name: string, v: string, key: string)
    requires key != name
    ensures GetAll(before + [(name, v)] + after, key) == GetAll(before + after, key)
    ensures Get(before + [(name, v)] + after, key) == Get(before + after, key)
  {
    var extra: SearchParams := [(name, v)];
    var withPair, without := before + extra + after, before + after;
    assert GetAll(withPair, key) == GetAll(without, key) by {
      assert GetAll(extra, key) == GetAll(extra[1..], key) + [];
      assert extra[1..] == [];
      GetAllAppend(before + extra, after, key);
      GetAllAppend(before, extra, key);
      GetAllAppend(before, after, key);
    }
    GetIsFirstOfGetAll(withPair, key);
    GetIsFirstOfGetAll(without, key);
  }

  /** A pair under a name the page does not read, anywhere in the query, changes nothing. */
  lemma OtherKeysIgnored(before: SearchParams, after: SearchParams, name: string, v: string)
    requires !IsFilterKey(name)
    ensures ExtractUrlFilters(before + [(name, v)] + after) == ExtractUrlFilters(before + after)
  {
    InsertedPairIgnored(before, after, name, v, TechTagKey);
    InsertedPairIgnored(before, after, name, v, DomainTagKey);
    InsertedPairIgnored(before, after, name, v, SearchKey);
    InsertedPairIgnored(before, after, name, v, FromDateKey);
    InsertedPairIgnored(before, after, name, v, ToDateKey);
    InsertedPairIgnored(before, after, name, v, StatusKey);
    InsertedPairIgnored(before, after, name, v, SortKey);
  }
}

/** The search query built by `searchItems`: one `(key, value)` pair per
    non-empty criterion, in the fixed order status, category, location, keyword. */
module Query {
  import opened Wrappers

  /** The four optional filter fields of a search; an empty string means "not given" */
  datatype Criteria = Criteria(status: string, category: string, location: string, keyword: string)

  /** One query parameter, as `URLSearchParams.append` records it (before percent-encoding) */
  type Param = (string, string)

  const StatusKey: string := "status"
  const CategoryKey: string := "category"
  const LocationKey: string := "location"
  const KeywordKey: string := "keyword"

  predicate IsSearchKey(key: string) {
    key == StatusKey || key == CategoryKey || key == LocationKey || key == KeywordKey
  }

  /** Position of a key in the order the parameters are appended */
  function Rank(key: string): nat {
    if key == StatusKey then 0
    else if key == CategoryKey then 1
    else if key == LocationKey then 2
    else 3
  }

  /** The criterion a query key stands for */
  function FieldOf(c: Criteria, key: string): string
    requires IsSearchKey(key)
  {
    if key == StatusKey then c.status
    else if key == CategoryKey then c.category
    else if key == LocationKey then c.location
    else c.keyword
  }

  /** `if (value) params.append(key, value)`: an empty value is not sent */
  function AppendIfGiven(q: seq<Param>, key: string, value: string): seq<Param> {
    if value != "" then q + [(key, value)] else q
  }

  /** The parameters `searchItems` sends for criteria `c` */
  function SearchParams(c: Criteria): (q: seq<Param>)
    ensures |q| <= 4
    ensures forall i :: 0 <= i < |q| ==>
      IsSearchKey(q[i].0) && q[i].1 == FieldOf(c, q[i].0) && q[i].1 != ""
    ensures forall i, j :: 0 <= i < j < |q| ==> Rank(q[i].0) < Rank(q[j].0)
  {
    var q := AppendIfGiven([], StatusKey, c.status);
    var q := AppendIfGiven(q, CategoryKey, c.category);
    var q := AppendIfGiven(q, LocationKey, c.location);
    AppendIfGiven(q, KeywordKey, c.keyword)
  }

  /** The first value sent under `key`, as `URLSearchParams.get` reads it */
  function Get(q: seq<Param>, key: string): (r: Option<string>)
    ensures r.Some? <==> exists i :: 0 <= i < |q| && q[i].0 == key
  {
    if q == [] then None
    else if q[0].0 == key then Some(q[0].1)
    else Get(q[1..], key)
  }

  /** Reads criteria back from a query, an absent key meaning an empty field */
  function CriteriaOf(q: seq<Param>): Criteria {
    Criteria(Get(q, StatusKey).GetOr(""), Get(q, CategoryKey).GetOr(""),
             Get(q, LocationKey).GetOr(""), Get(q, KeywordKey).GetOr(""))
  }

  lemma {:induction false} GetConcat(a: seq<Param>, b: seq<Param>, key: string)
    ensures Get(a + b, key) == if Get(a, key).Some? then Get(a, key) else Get(b, key)
    decreases |a|
  {
    if a == [] {
      assert a + b == b;
    } else {
      assert (a + b)[1..] == a[1..] + b;
      GetConcat(a[1..], b, key);
    }
  }

  lemma GetAppendIfGiven(q: seq<Param>, key: string, value: string, k: string)
    ensures Get(AppendIfGiven(q, key, value), k) ==
      if Get(q, k).Some? then Get(q, k)
      else if k == key && value != "" then Some(value) else None
  {
    if value != "" {
      GetConcat(q, [(key, value)], k);
    }
  }

  /** A key is present in the query exactly when its field is non-empty,
      and then it carries that field's value unchanged. */
  lemma SearchParamsGet(c: Criteria, key: string)
    requires IsSearchKey(key)
    ensures Get(SearchParams(c), key) ==
      if FieldOf(c, key) != "" then Some(FieldOf(c, key)) else None
  {
    var q0 := AppendIfGiven([], StatusKey, c.status);
    var q1 := AppendIfGiven(q0, CategoryKey, c.category);
    var q2 := AppendIfGiven(q1, LocationKey, c.location);
    GetAppendIfGiven([], StatusKey, c.status, key);
    GetAppendIfGiven(q0, CategoryKey, c.category, key);
    GetAppendIfGiven(q1, LocationKey, c.location, key);
    GetAppendIfGiven(q2, KeywordKey, c.keyword, key);
  }

  /** Omitting the empty fields loses nothing: the criteria read back from the
      query are the criteria it was built from. */
  lemma QueryRoundTrip(c: Criteria)
    ensures CriteriaOf(SearchParams(c)) == c
  {
    SearchParamsGet(c, StatusKey);
    SearchParamsGet(c, CategoryKey);
    SearchParamsGet(c, LocationKey);
    SearchParamsGet(c, KeywordKey);
  }
}

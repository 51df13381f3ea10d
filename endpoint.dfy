/**
 * The request path of the product listing (populateAllProducts): page and
 * page size always, then the category filter if the category id is truthy,
 * then the search filter if the query is truthy, in that order.
 *
 * `encodeURIComponent` is the parameter `encode`; the only thing assumed of
 * it is what the parsing lemmas state in their requires: its output contains
 * no '&' (encodeURIComponent escapes that character).
 *
 * A small query-string reader (split the path at the first '?', the query at
 * every '&', each field at its first '=') gives the endpoint a meaning that
 * does not depend on how it was concatenated: the lemmas below read each
 * built endpoint back into its parameters.
 */
module Endpoint {
  import opened Wrappers
  import opened Decimal

  const ProductsPath := "/products"
  const PerPage := "20"

  /** `if (categoryId)`: null, undefined and 0 are falsy. */
  predicate CategoryGiven(categoryId: Option<int>) {
    categoryId.Some? && categoryId.value != 0
  }

  /** `if (searchQuery)`: null, undefined and the empty string are falsy. */
  predicate SearchGiven(searchQuery: Option<string>) {
    searchQuery.Some? && searchQuery.value != ""
  }

  function ProductsEndpoint(page: int, categoryId: Option<int>, searchQuery: Option<string>,
                            encode: string -> string): (endpoint: string)
    ensures ProductsPath + "?page=" + IntToString(page) + "&per_page=" + PerPage <= endpoint
  {
    ProductsPath + "?page=" + IntToString(page) + "&per_page=" + PerPage
    + CategoryFilter(categoryId) + SearchFilter(searchQuery, encode)
  }

  /** `endpoint += `&category_id=...`` when the category id is truthy. */
  function CategoryFilter(categoryId: Option<int>): string {
    if CategoryGiven(categoryId) then "&category_id=" + IntToString(categoryId.value) else ""
  }

  /** `endpoint += `&search=...`` when the query is truthy. */
  function SearchFilter(searchQuery: Option<string>, encode: string -> string): string {
    if SearchGiven(searchQuery) then "&search=" + encode(searchQuery.value) else ""
  }

  // ---------------------------------------------------------------------------
  // Reading a request path back into its parameters

  /** s cut at its first sep, which is dropped; all of s and "" when sep does not occur. */
  function SplitFirst(s: string, sep: char): (string, string)
    decreases |s|
  {
    if s == [] then ("", "")
    else if s[0] == sep then ("", s[1..])
    else var rest := SplitFirst(s[1..], sep); ([s[0]] + rest.0, rest.1)
  }

  /** s cut at every sep, like JavaScript's `split`. */
  function SplitAll(s: string, sep: char): (parts: seq<string>)
    ensures |parts| >= 1
    decreases |s|
  {
    if s == [] then [""]
    else
      var rest := SplitAll(s[1..], sep);
      if s[0] == sep then [""] + rest else [[s[0]] + rest[0]] + rest[1..]
  }

  function PathOf(url: string): string {
    SplitFirst(url, '?').0
  }

  /** The key/value pairs of the query string, in order. */
  function QueryParams(url: string): (params: seq<(string, string)>) {
    var fields := SplitAll(SplitFirst(url, '?').1, '&');
    seq(|fields|, i requires 0 <= i < |fields| => SplitFirst(fields[i], '='))
  }

  function Keys(params: seq<(string, string)>): (keys: seq<string>)
    ensures |keys| == |params|
  {
    seq(|params|, i requires 0 <= i < |params| => params[i].0)
  }

  /** The value of the first parameter named key. */
  function Lookup(params: seq<(string, string)>, key: string): Option<string>
    decreases |params|
  {
    if params == [] then None
    else if params[0].0 == key then Some(params[0].1)
    else Lookup(params[1..], key)
  }

  /** The value of the query parameter key of url, if it has one. */
  function Param(url: string, key: string): Option<string> {
    Lookup(QueryParams(url), key)
  }

  /** The query parameter key of url read as a number. */
  function NumberParam(url: string, key: string): Option<int> {
    var v := Param(url, key);
    if v.Some? then ParseInt(v.value) else None
  }

  lemma {:induction false} SplitFirstAt(a: string, sep: char, b: string)
    requires sep !in a
    ensures SplitFirst(a + [sep] + b, sep) == (a, b)
    decreases |a|
  {
    if a != [] {
      SplitFirstAt(a[1..], sep, b);
      assert (a + [sep] + b)[0] == a[0] != sep;
      assert (a + [sep] + b)[1..] == a[1..] + [sep] + b;
      assert [a[0]] + a[1..] == a;
    } else {
      assert (a + [sep] + b)[1..] == b;
    }
  }

  lemma {:induction false} SplitAllWithout(a: string, sep: char)
    requires sep !in a
    ensures SplitAll(a, sep) == [a]
    decreases |a|
  {
    if a != [] {
      SplitAllWithout(a[1..], sep);
      assert [a[0]] + a[1..] == a;
    }
  }

  lemma {:induction false} SplitAllAt(a: string, sep: char, b: string)
    requires sep !in a
    ensures SplitAll(a + [sep] + b, sep) == [a] + SplitAll(b, sep)
    decreases |a|
  {
    if a == [] {
      assert (a + [sep] + b)[1..] == b;
    } else {
      SplitAllAt(a[1..], sep, b);
      assert (a + [sep] + b)[1..] == a[1..] + [sep] + b;
      assert [a[0]] + a[1..] == a;
    }
  }

  lemma {:induction false} LookupAppend(p: seq<(string, string)>, q: seq<(string, string)>, key: string)
    ensures Lookup(p + q, key) == if key in Keys(p) then Lookup(p, key) else Lookup(q, key)
    decreases |p|
  {
    if p == [] {
      assert p + q == q;
    } else {
      assert (p + q)[0] == p[0];
      assert (p + q)[1..] == p[1..] + q;
      assert Keys(p) == [p[0].0] + Keys(p[1..]);
      if p[0].0 != key {
        LookupAppend(p[1..], q, key);
      }
    }
  }

  // ---------------------------------------------------------------------------
  // The built endpoint, read back

  function CategoryParam(categoryId: Option<int>): seq<(string, string)> {
    if CategoryGiven(categoryId) then [("category_id", IntToString(categoryId.value))] else []
  }

  function SearchParam(searchQuery: Option<string>, encode: string -> string): seq<(string, string)> {
    if SearchGiven(searchQuery) then [("search", encode(searchQuery.value))] else []
  }

  /** The query parameters the listing request carries, in the order they are appended. */
  function ListingParams(page: int, categoryId: Option<int>, searchQuery: Option<string>,
                         encode: string -> string): seq<(string, string)>
  {
    [("page", IntToString(page)), ("per_page", PerPage)] + CategoryParam(categoryId) + SearchParam(searchQuery, encode)
  }

  function Field(p: (string, string)): string {
    p.0 + "=" + p.1
  }

  /** The text a list of parameters adds after a preceding field: "&k=v" for each. */
  function Appended(ps: seq<(string, string)>): string
    decreases |ps|
  {
    if ps == [] then "" else "&" + Field(ps[0]) + Appended(ps[1..])
  }

  function Fields(ps: seq<(string, string)>): seq<string> {
    seq(|ps|, i requires 0 <= i < |ps| => Field(ps[i]))
  }

  predicate Separable(ps: seq<(string, string)>) {
    forall i :: 0 <= i < |ps| ==> '&' !in ps[i].0 && '&' !in ps[i].1 && '=' !in ps[i].0
  }

  lemma NumeralHasNoSeparator(n: int)
    ensures '&' !in IntToString(n) && '=' !in IntToString(n)
  {
  }

  lemma FieldParses(p: (string, string))
    requires '=' !in p.0
    ensures SplitFirst(Field(p), '=') == p
  {
    SplitFirstAt(p.0, '=', p.1);
    assert Field(p) == p.0 + ['='] + p.1;
  }

  lemma SplitAllField(a: string, sep: char, b: string)
    requires sep !in a
    requires b == [] || b[0] == sep
    ensures SplitAll(a + b, sep) == [a] + (if b == [] then [] else SplitAll(b[1..], sep))
  {
    if b == [] {
      assert a + b == a;
      SplitAllWithout(a, sep);
    } else {
      assert a + b == a + [sep] + b[1..];
      SplitAllAt(a, sep, b[1..]);
    }
  }

  /** A field followed by the appended parameters splits into that field and theirs. */
  lemma {:induction false} SplitAppended(first: string, ps: seq<(string, string)>)
    requires '&' !in first && Separable(ps)
    ensures SplitAll(first + Appended(ps), '&') == [first] + Fields(ps)
    decreases |ps|
  {
    var rest := Appended(ps);
    if ps == [] {
      SplitAllField(first, '&', rest);
    } else {
      assert rest == "&" + (Field(ps[0]) + Appended(ps[1..]));
      SplitAllField(first, '&', rest);
      assert rest[1..] == Field(ps[0]) + Appended(ps[1..]);
      SplitAppended(Field(ps[0]), ps[1..]);
      assert Fields(ps) == [Field(ps[0])] + Fields(ps[1..]);
    }
  }

  lemma {:induction false} AppendedConcat(p: seq<(string, string)>, q: seq<(string, string)>)
    ensures Appended(p + q) == Appended(p) + Appended(q)
    decreases |p|
  {
    if p != [] {
      assert (p + q)[0] == p[0];
      assert (p + q)[1..] == p[1..] + q;
      AppendedConcat(p[1..], q);
    } else {
      assert p + q == q;
    }
  }

  lemma CategoryFilterAppends(categoryId: Option<int>)
    ensures CategoryFilter(categoryId) == Appended(CategoryParam(categoryId))
  {
    if CategoryGiven(categoryId) {
      var v := IntToString(categoryId.value);
      AppendedSingle(("category_id", v));
      assert "&category_id=" + v == "&" + ("category_id" + "=" + v);
    }
  }

  lemma SearchFilterAppends(searchQuery: Option<string>, encode: string -> string)
    ensures SearchFilter(searchQuery, encode) == Appended(SearchParam(searchQuery, encode))
  {
    if SearchGiven(searchQuery) {
      var v := encode(searchQuery.value);
      AppendedSingle(("search", v));
      assert "&search=" + v == "&" + ("search" + "=" + v);
    }
  }

  lemma Reassociate(pageText: string, catText: string, searchText: string)
    ensures ProductsPath + ['?'] + (Field(("page", pageText)) + ("&per_page=" + PerPage + (catText + searchText)))
            == ProductsPath + "?page=" + pageText + "&per_page=" + PerPage + catText + searchText
  {
  }

  lemma AppendedCons(p: (string, string), c: seq<(string, string)>, s: seq<(string, string)>)
    ensures Appended([p] + c + s) == "&" + Field(p) + (Appended(c) + Appended(s))
  {
    assert [p] + c + s == [p] + (c + s);
    AppendedConcat([p], c + s);
    AppendedConcat(c, s);
    AppendedSingle(p);
  }

  lemma PerPageField()
    ensures "&" + Field(("per_page", PerPage)) == "&per_page=" + PerPage
  {
  }

  lemma AppendedTail(ps: seq<(string, string)>, c: seq<(string, string)>, s: seq<(string, string)>)
    requires ps == [("per_page", PerPage)] + c + s
    ensures Appended(ps) == "&per_page=" + PerPage + (Appended(c) + Appended(s))
  {
    AppendedCons(("per_page", PerPage), c, s);
    PerPageField();
  }

  lemma AppendedSingle(p: (string, string))
    ensures Appended([p]) == "&" + (p.0 + "=" + p.1)
  {
    assert [p][1..] == [];
  }

  lemma EndpointShape(page: int, categoryId: Option<int>, searchQuery: Option<string>,
                      encode: string -> string)
    ensures var ps := ListingParams(page, categoryId, searchQuery, encode);
      ProductsEndpoint(page, categoryId, searchQuery, encode)
      == ProductsPath + ['?'] + (Field(ps[0]) + Appended(ps[1..]))
  {
    var ps := ListingParams(page, categoryId, searchQuery, encode);
    var catText, searchText := CategoryFilter(categoryId), SearchFilter(searchQuery, encode);
    assert Appended(ps[1..]) == "&per_page=" + PerPage + (catText + searchText) by {
      var c, s := CategoryParam(categoryId), SearchParam(searchQuery, encode);
      CategoryFilterAppends(categoryId);
      SearchFilterAppends(searchQuery, encode);
      assert ps[1..] == [("per_page", PerPage)] + c + s;
      AppendedTail(ps[1..], c, s);
    }
    assert ps[0] == ("page", IntToString(page));
    Reassociate(IntToString(page), catText, searchText);
  }

  /** A parameter list written out as "k=v&k=v..." reads back as the same list. */
  lemma QueryRoundTrip(ps: seq<(string, string)>)
    requires |ps| >= 1 && Separable(ps)
    ensures var fields := SplitAll(Field(ps[0]) + Appended(ps[1..]), '&');
      seq(|fields|, i requires 0 <= i < |fields| => SplitFirst(fields[i], '=')) == ps
  {
    SplitAppended(Field(ps[0]), ps[1..]);
    var fields := SplitAll(Field(ps[0]) + Appended(ps[1..]), '&');
    assert fields == Fields(ps);
    forall i | 0 <= i < |ps| ensures SplitFirst(fields[i], '=') == ps[i] {
      FieldParses(ps[i]);
    }
  }

  lemma ListingParamsSeparable(page: int, categoryId: Option<int>, searchQuery: Option<string>,
                               encode: string -> string)
    requires SearchGiven(searchQuery) ==> '&' !in encode(searchQuery.value)
    ensures Separable(ListingParams(page, categoryId, searchQuery, encode))
  {
    NumeralHasNoSeparator(page);
    if CategoryGiven(categoryId) {
      NumeralHasNoSeparator(categoryId.value);
    }
  }

  /**
   * The listing endpoint reads back as the path /products with exactly the
   * parameters of ListingParams, in that order.
   */
  lemma ProductsEndpointParses(page: int, categoryId: Option<int>, searchQuery: Option<string>,
                               encode: string -> string)
    requires SearchGiven(searchQuery) ==> '&' !in encode(searchQuery.value)
    ensures PathOf(ProductsEndpoint(page, categoryId, searchQuery, encode)) == ProductsPath
    ensures QueryParams(ProductsEndpoint(page, categoryId, searchQuery, encode))
            == ListingParams(page, categoryId, searchQuery, encode)
  {
    var ps := ListingParams(page, categoryId, searchQuery, encode);
    var query := Field(ps[0]) + Appended(ps[1..]);
    EndpointShape(page, categoryId, searchQuery, encode);
    SplitFirstAt(ProductsPath, '?', query);
    ListingParamsSeparable(page, categoryId, searchQuery, encode);
    QueryRoundTrip(ps);
  }

  lemma ListingParamsLookup(page: int, categoryId: Option<int>, searchQuery: Option<string>,
                            encode: string -> string)
    ensures var ps := ListingParams(page, categoryId, searchQuery, encode);
      Lookup(ps, "page") == Some(IntToString(page))
      && Lookup(ps, "per_page") == Some(PerPage)
      && Lookup(ps, "category_id") == (if CategoryGiven(categoryId) then Some(IntToString(categoryId.value)) else None)
      && Lookup(ps, "search") == (if SearchGiven(searchQuery) then Some(encode(searchQuery.value)) else None)
      && Keys(ps) == ["page", "per_page"] + (if CategoryGiven(categoryId) then ["category_id"] else [])
                     + (if SearchGiven(searchQuery) then ["search"] else [])
  {
    var head := [("page", IntToString(page)), ("per_page", PerPage)];
    var c, s := CategoryParam(categoryId), SearchParam(searchQuery, encode);
    var ps := ListingParams(page, categoryId, searchQuery, encode);
    assert ps == head + (c + s);
    assert Keys(head) == ["page", "per_page"];
    LookupAppend(head, c + s, "page");
    LookupAppend(head, c + s, "per_page");
    LookupAppend(head, c + s, "category_id");
    LookupAppend(head, c + s, "search");
    LookupAppend(c, s, "category_id");
    LookupAppend(c, s, "search");
  }

  /**
   * What the server receives from a listing request: the /products path, the
   * page it asked for, 20 per page, a category_id exactly when the category
   * is truthy and a search term exactly when the query is truthy, with the
   * category before the search.
   */
  lemma ProductsEndpointReadsBack(page: int, categoryId: Option<int>, searchQuery: Option<string>,
                                  encode: string -> string)
    requires SearchGiven(searchQuery) ==> '&' !in encode(searchQuery.value)
    ensures var e := ProductsEndpoint(page, categoryId, searchQuery, encode);
      PathOf(e) == ProductsPath
      && NumberParam(e, "page") == Some(page)
      && Param(e, "per_page") == Some(PerPage)
      && (Param(e, "category_id").Some? <==> CategoryGiven(categoryId))
      && NumberParam(e, "category_id") == (if CategoryGiven(categoryId) then categoryId else None)
      && Param(e, "search") == (if SearchGiven(searchQuery) then Some(encode(searchQuery.value)) else None)
      && Keys(QueryParams(e)) == ["page", "per_page"] + (if CategoryGiven(categoryId) then ["category_id"] else [])
                                 + (if SearchGiven(searchQuery) then ["search"] else [])
  {
    ProductsEndpointParses(page, categoryId, searchQuery, encode);
    ListingParamsLookup(page, categoryId, searchQuery, encode);
    IntToStringRoundTrip(page);
    if CategoryGiven(categoryId) {
      IntToStringRoundTrip(categoryId.value);
    }
  }
}

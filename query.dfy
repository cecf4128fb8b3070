/**
 * Query building shared by every tool of the server: a dictionary literal of
 * named parameters whose absent entries are stripped before the GET, and the
 * parameters of one search page.
 */
module Query {
  import opened Wrappers

  /** A value that may stand in a query dictionary: a string, a boolean or None. */
  datatype PyValue = NoneValue | Str(s: string) | Bool(b: bool)

  /** A Python dictionary in insertion order, as its sequence of entries. */
  type Params = seq<(string, PyValue)>

  /** The keys of a dictionary, in insertion order. */
  function Keys(ps: Params): (ks: seq<string>)
    ensures |ks| == |ps|
    ensures forall i :: 0 <= i < |ps| ==> ks[i] == ps[i].0
  {
    if ps == [] then [] else [ps[0].0] + Keys(ps[1..])
  }

  /** No key occurs twice: every dictionary literal of the source has this shape. */
  predicate DistinctKeys(ps: Params)
  {
    forall i, j :: 0 <= i < j < |ps| ==> ps[i].0 != ps[j].0
  }

  /** Key lookup: `Some(d[k])` when `k in d` (the first entry under `k`), None otherwise. A key stored with value None gives `Some(NoneValue)`. */
  function Lookup(ps: Params, k: string): (r: Option<PyValue>)
    ensures r.None? <==> k !in Keys(ps)
    ensures r.Some? ==> (k, r.value) in ps
  {
    if ps == [] then None
    else if ps[0].0 == k then Some(ps[0].1)
    else Lookup(ps[1..], k)
  }

  /** The comprehension `{k: v for k, v in d.items() if v is not None}`. */
  function StripNulls(ps: Params): (r: Params)
    ensures |r| <= |ps|
    ensures forall i :: 0 <= i < |r| ==> r[i].1 != NoneValue
  {
    if ps == [] then []
    else (if ps[0].1 == NoneValue then [] else [ps[0]]) + StripNulls(ps[1..])
  }

  /** The stripped dictionary holds exactly the entries whose value is not None, unchanged. */
  lemma {:induction false} StripNullsMembers(ps: Params)
    ensures forall e :: e in StripNulls(ps) <==> e in ps && e.1 != NoneValue
  {
    if ps != [] {
      StripNullsMembers(ps[1..]);
    }
  }

  /** Stripping works entry by entry: it distributes over concatenation, so the kept entries stay in their order. */
  lemma {:induction false} StripNullsAppend(a: Params, b: Params)
    ensures StripNulls(a + b) == StripNulls(a) + StripNulls(b)
  {
    if a == [] {
      assert a + b == b;
    } else {
      assert (a + b)[1..] == a[1..] + b;
      StripNullsAppend(a[1..], b);
    }
  }

  /** A dictionary without None values comes out unchanged. */
  lemma {:induction false} StripNullsKeepsPresent(ps: Params)
    requires forall i :: 0 <= i < |ps| ==> ps[i].1 != NoneValue
    ensures StripNulls(ps) == ps
  {
    if ps != [] {
      StripNullsKeepsPresent(ps[1..]);
    }
  }

  /** Stripping twice is stripping once. */
  lemma StripNullsIdempotent(ps: Params)
    ensures StripNulls(StripNulls(ps)) == StripNulls(ps)
  {
    var r := StripNulls(ps);
    StripNullsMembers(ps);
    forall i | 0 <= i < |r| ensures r[i].1 != NoneValue {
      assert r[i] in r;
    }
    StripNullsKeepsPresent(r);
  }

  /** Stripping never makes two entries share a key. */
  lemma {:induction false} StripNullsDistinct(ps: Params)
    requires DistinctKeys(ps)
    ensures DistinctKeys(StripNulls(ps))
  {
    if ps != [] {
      var tail := StripNulls(ps[1..]);
      StripNullsDistinct(ps[1..]);
      StripNullsMembers(ps[1..]);
      forall j | 0 <= j < |tail| ensures tail[j].0 != ps[0].0 {
        assert tail[j] in tail;
        var i :| 0 <= i < |ps[1..]| && ps[1..][i] == tail[j];
        assert ps[i + 1] == tail[j];
      }
    }
  }

  /** On distinct keys, looking a key up after stripping gives its value unless that value is None. */
  lemma {:induction false} LookupStripNulls(ps: Params, k: string)
    requires DistinctKeys(ps)
    ensures Lookup(StripNulls(ps), k) == if Lookup(ps, k) == Some(NoneValue) then None else Lookup(ps, k)
  {
    if ps != [] {
      assert DistinctKeys(ps[1..]) by {
        forall i, j | 0 <= i < j < |ps[1..]| ensures ps[1..][i].0 != ps[1..][j].0 {
          assert ps[1..][i] == ps[i + 1] && ps[1..][j] == ps[j + 1];
        }
      }
      LookupStripNulls(ps[1..], k);
      var tail := StripNulls(ps[1..]);
      if ps[0].0 == k {
        assert k !in Keys(ps[1..]) by {
          forall i | 0 <= i < |ps[1..]| ensures Keys(ps[1..])[i] != k {
            assert ps[i + 1].0 != ps[0].0;
          }
        }
      }
      if ps[0].1 == NoneValue {
        assert StripNulls(ps) == tail;
      } else {
        assert StripNulls(ps) == [ps[0]] + tail;
        assert ([ps[0]] + tail)[1..] == tail;
      }
    }
  }

  function Digit(d: nat): (c: char)
    requires d < 10
    ensures '0' <= c <= '9'
  {
    "0123456789"[d]
  }

  /** Python's `str(n)` for a natural number: its shortest decimal spelling. */
  function NatToDecimal(n: nat): (s: string)
    ensures |s| >= 1
    ensures forall i :: 0 <= i < |s| ==> '0' <= s[i] <= '9'
    ensures s[0] == '0' <==> n == 0
  {
    if n < 10 then [Digit(n)] else NatToDecimal(n / 10) + [Digit(n % 10)]
  }

  /** Python's `str(n)` for an integer. */
  function IntToDecimal(n: int): (s: string)
    ensures |s| >= 1
    ensures s[0] == '-' <==> n < 0
    ensures forall i :: 0 < i < |s| ==> '0' <= s[i] <= '9'
    ensures n < 0 ==> s[1..] == NatToDecimal(-n)
    ensures n >= 0 ==> s == NatToDecimal(n)
  {
    if n < 0 then "-" + NatToDecimal(-n) else NatToDecimal(n)
  }

  /** The number a string of decimal digits denotes. */
  function DecimalValue(s: string): nat
    requires forall i :: 0 <= i < |s| ==> '0' <= s[i] <= '9'
  {
    if s == [] then 0 else 10 * DecimalValue(s[..|s| - 1]) + (s[|s| - 1] as int - '0' as int)
  }

  /** `str(page)` spells the page number: reading the digits back gives the page. */
  lemma {:induction false} DecimalRoundTrip(n: nat)
    ensures DecimalValue(NatToDecimal(n)) == n
  {
    var s := NatToDecimal(n);
    if n < 10 {
    } else {
      DecimalRoundTrip(n / 10);
      assert s[..|s| - 1] == NatToDecimal(n / 10);
    }
  }

  /** Two different page numbers are never spelled alike. */
  lemma DecimalInjective(m: nat, n: nat)
    requires NatToDecimal(m) == NatToDecimal(n)
    ensures m == n
  {
    DecimalRoundTrip(m);
    DecimalRoundTrip(n);
  }

  /** `str` spells different integers differently. */
  lemma IntToDecimalInjective(m: int, n: int)
    requires IntToDecimal(m) == IntToDecimal(n)
    ensures m == n
  {
    if m < 0 && n < 0 {
      assert NatToDecimal(-m) == IntToDecimal(m)[1..];
      DecimalInjective(-m, -n);
    } else if m >= 0 && n >= 0 {
      DecimalInjective(m, n);
    }
  }

  /** The arguments of one bulk search (everything but the page). */
  datatype SearchRequest = SearchRequest(
    domainCode: string,
    keyword: string,
    excludeSponsored: Option<string>,
    sortBy: Option<string>,
    withCache: Option<bool>,
    category: Option<string>,
    browseNode: Option<string>,
    nodeHierarchy: Option<string>)

  function OptStr(v: Option<string>): PyValue
  {
    match v
    case None => NoneValue
    case Some(s) => Str(s)
  }

  function OptBool(v: Option<bool>): PyValue
  {
    match v
    case None => NoneValue
    case Some(b) => Bool(b)
  }

  /** The entries of the page literal that always carry a value. */
  function RequiredParams(req: SearchRequest, page: int): Params
  {
    [ ("domainCode", Str(req.domainCode)),
      ("keyword", Str(req.keyword)),
      ("page", Str(IntToDecimal(page))) ]
  }

  /** The entries of the page literal that are None when the caller leaves them out. */
  function OptionalParams(req: SearchRequest): Params
  {
    [ ("excludeSponsored", OptStr(req.excludeSponsored)),
      ("sortBy", OptStr(req.sortBy)),
      ("withCache", OptBool(req.withCache)),
      ("category", OptStr(req.category)),
      ("browseNode", OptStr(req.browseNode)),
      ("nodeHierarchy", OptStr(req.nodeHierarchy)) ]
  }

  /** The dictionary literal of one page request, before stripping. */
  function SearchParams(req: SearchRequest, page: int): Params
  {
    RequiredParams(req, page) + OptionalParams(req)
  }

  /** The query parameters sent for one page. */
  function PageParams(req: SearchRequest, page: int): (r: Params)
    ensures forall i :: 0 <= i < |r| ==> r[i].1 != NoneValue
  {
    StripNulls(SearchParams(req, page))
  }

  function AsParam(v: PyValue): Option<PyValue>
  {
    if v == NoneValue then None else Some(v)
  }

  const PageParamKeys: seq<string> :=
    ["domainCode", "keyword", "page", "excludeSponsored", "sortBy",
     "withCache", "category", "browseNode", "nodeHierarchy"]

  /** On distinct keys, `d.get(k)` finds the value stored under `k` wherever it stands. */
  lemma {:induction false} LookupAt(ps: Params, i: nat)
    requires DistinctKeys(ps) && i < |ps|
    ensures Lookup(ps, ps[i].0) == Some(ps[i].1)
  {
    if i > 0 {
      assert ps[0].0 != ps[i].0;
      assert DistinctKeys(ps[1..]) by {
        forall a, b | 0 <= a < b < |ps[1..]| ensures ps[1..][a].0 != ps[1..][b].0 {
          assert ps[a + 1].0 != ps[b + 1].0;
        }
      }
      LookupAt(ps[1..], i - 1);
    }
  }

  lemma SearchParamsKeys(req: SearchRequest, page: int)
    ensures Keys(SearchParams(req, page)) == PageParamKeys
    ensures DistinctKeys(SearchParams(req, page))
  {
  }

  lemma RequiredParamsPresent(req: SearchRequest, page: int)
    ensures StripNulls(RequiredParams(req, page)) == RequiredParams(req, page)
  {
    var head := RequiredParams(req, page);
    assert forall i :: 0 <= i < |head| ==> head[i].1 != NoneValue;
    StripNullsKeepsPresent(head);
  }

  /** The page query is the three required entries, then the optional ones that were given, in literal order. */
  lemma PageParamsRequired(req: SearchRequest, page: int)
    ensures PageParams(req, page) == RequiredParams(req, page) + StripNulls(OptionalParams(req))
    ensures PageParams(req, page)[..3] ==
      [("domainCode", Str(req.domainCode)), ("keyword", Str(req.keyword)), ("page", Str(IntToDecimal(page)))]
  {
    RequiredParamsPresent(req, page);
    StripNullsAppend(RequiredParams(req, page), OptionalParams(req));
    var r := PageParams(req, page);
    assert r[..3] == RequiredParams(req, page);
  }

  /** Different pages of one search send different queries. */
  lemma PageParamsInjective(req: SearchRequest, p: int, q: int)
    requires PageParams(req, p) == PageParams(req, q)
    ensures p == q
  {
    PageParamsRequired(req, p);
    PageParamsRequired(req, q);
    assert PageParams(req, p)[2] == ("page", Str(IntToDecimal(p)));
    assert PageParams(req, q)[2] == ("page", Str(IntToDecimal(q)));
    IntToDecimalInjective(p, q);
  }

  /** The page query has no key twice. */
  lemma PageParamsDistinct(req: SearchRequest, page: int)
    ensures DistinctKeys(PageParams(req, page))
  {
    SearchParamsKeys(req, page);
    StripNullsDistinct(SearchParams(req, page));
  }

  /** The value a key of the literal carries in the page query. */
  lemma PageParamsLookup(req: SearchRequest, page: int, i: nat)
    requires i < |PageParamKeys|
    ensures Lookup(PageParams(req, page), PageParamKeys[i]) == AsParam(SearchParams(req, page)[i].1)
  {
    var ps := SearchParams(req, page);
    SearchParamsKeys(req, page);
    LookupAt(ps, i);
    LookupStripNulls(ps, ps[i].0);
  }

  /**
   * Each optional filter is in the page query exactly when it is given, with
   * its value, and no key outside the literal is.
   */
  lemma PageParamsOptional(req: SearchRequest, page: int)
    ensures var r := PageParams(req, page);
      && Lookup(r, "excludeSponsored") == AsParam(OptStr(req.excludeSponsored))
      && Lookup(r, "sortBy") == AsParam(OptStr(req.sortBy))
      && Lookup(r, "withCache") == AsParam(OptBool(req.withCache))
      && Lookup(r, "category") == AsParam(OptStr(req.category))
      && Lookup(r, "browseNode") == AsParam(OptStr(req.browseNode))
      && Lookup(r, "nodeHierarchy") == AsParam(OptStr(req.nodeHierarchy))
      && (forall k :: k !in PageParamKeys ==> Lookup(r, k).None?)
  {
    PageParamsLookup(req, page, 3);
    PageParamsLookup(req, page, 4);
    PageParamsLookup(req, page, 5);
    PageParamsLookup(req, page, 6);
    PageParamsLookup(req, page, 7);
    PageParamsLookup(req, page, 8);
    SearchParamsKeys(req, page);
    forall k | k !in PageParamKeys ensures Lookup(PageParams(req, page), k).None? {
      LookupStripNulls(SearchParams(req, page), k);
    }
  }
}

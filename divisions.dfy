/** The logic inside the administrative-division handlers (routes/divisions.js):
    distinct district, tehsil and village lists, the filtered and paginated
    farm list, and per-district and per-tehsil statistics. The farm list is
    passed in; query parameters arrive already parsed, an absent one as "". */
module Divisions {
  import opened Wrappers
  import Seqs
  import opened Farms

  // ---------------------------------------------------------------------------
  // Distinct lists

  /** The position of the first occurrence of `x` in `s`. */
  function IndexOf(s: seq<string>, x: string): (k: nat)
    requires x in s
    ensures k < |s| && s[k] == x
    ensures forall j :: 0 <= j < k ==> s[j] != x
  {
    if s[0] == x then 0 else 1 + IndexOf(s[1..], x)
  }

  /** Appending never moves a first occurrence. */
  lemma IndexOfExtend(s: seq<string>, y: string)
    ensures forall x | x in s :: IndexOf(s + [y], x) == IndexOf(s, x)
    ensures y !in s ==> IndexOf(s + [y], y) == |s|
  {
    forall x | x in s ensures IndexOf(s + [y], x) == IndexOf(s, x) {
      var k, k' := IndexOf(s, x), IndexOf(s + [y], x);
      assert (s + [y])[k] == x;
      if k' < |s| {
        assert (s + [y])[k'] == s[k'];
      }
    }
  }

  /** `[...new Set(s.filter(Boolean))]`: the non-empty strings of `s`, each
      once, in the order in which they first occur. */
  function DistinctNonEmpty(s: seq<string>): (r: seq<string>)
    ensures forall x :: x in r <==> x in s && x != ""
    ensures forall i, j :: 0 <= i < j < |r| ==> r[i] != r[j]
    ensures forall i, j :: 0 <= i < j < |r| ==> IndexOf(s, r[i]) < IndexOf(s, r[j])
  {
    if s == [] then []
    else
      var init := s[..|s| - 1];
      var last := s[|s| - 1];
      var r := DistinctNonEmpty(init);
      assert s == init + [last];
      IndexOfExtend(init, last);
      if last == "" || last in r then r else r + [last]
  }

  function DistrictOf(f: Farm): string { f.admin.district }
  function TehsilOf(f: Farm): string { f.admin.tehsil }
  function VillageOf(f: Farm): string { f.admin.village }

  /** One field of every farm, in farm order (`farms.map(f => f.administrativeData?.district)`). */
  function Column(farms: seq<Farm>, field: Farm -> string): (r: seq<string>)
    ensures |r| == |farms| && forall i :: 0 <= i < |farms| ==> r[i] == field(farms[i])
    ensures forall x :: x in r <==> exists f | f in farms :: field(f) == x
  {
    if farms == [] then []
    else
      var r := Column(farms[..|farms| - 1], field) + [field(farms[|farms| - 1])];
      assert farms == farms[..|farms| - 1] + [farms[|farms| - 1]];
      r
  }

  /** `GET /divisions/districts`: every district some farm names, once each, in
      order of first occurrence. */
  function ListDistricts(farms: seq<Farm>): (r: seq<string>)
    ensures forall d :: d in r <==> d != "" && exists f | f in farms :: f.admin.district == d
    ensures forall i, j :: 0 <= i < j < |r| ==> r[i] != r[j]
    ensures forall d | d in r :: d in Column(farms, DistrictOf)
    ensures forall i, j :: 0 <= i < j < |r| ==> IndexOf(Column(farms, DistrictOf), r[i]) < IndexOf(Column(farms, DistrictOf), r[j])
  {
    DistinctNonEmpty(Column(farms, DistrictOf))
  }

  /** The farms of a district, or all of them when no district is given. */
  function InDistrict(farms: seq<Farm>, district: string): (r: seq<Farm>)
    ensures forall f | f in r :: f in farms && (district == "" || f.admin.district == district)
    ensures forall f | f in farms && (district == "" || f.admin.district == district) :: f in r
  {
    if district != "" then Seqs.Filter(farms, (f: Farm) => f.admin.district == district) else farms
  }

  /** The farms of a tehsil, or all of them when no tehsil is given. */
  function InTehsil(farms: seq<Farm>, tehsil: string): (r: seq<Farm>)
    ensures forall f | f in r :: f in farms && (tehsil == "" || f.admin.tehsil == tehsil)
    ensures forall f | f in farms && (tehsil == "" || f.admin.tehsil == tehsil) :: f in r
  {
    if tehsil != "" then Seqs.Filter(farms, (f: Farm) => f.admin.tehsil == tehsil) else farms
  }

  /** `GET /divisions/tehsils?district=`: the tehsils of the farms in the
      district (of all farms when none is given), once each, in order of
      first occurrence. */
  function ListTehsils(farms: seq<Farm>, district: string): (r: seq<string>)
    ensures forall t :: t in r <==>
      t != "" && exists f | f in farms :: f.admin.tehsil == t && (district == "" || f.admin.district == district)
    ensures forall i, j :: 0 <= i < j < |r| ==> r[i] != r[j]
    ensures forall t | t in r :: t in Column(InDistrict(farms, district), TehsilOf)
    ensures forall i, j :: 0 <= i < j < |r| ==>
      IndexOf(Column(InDistrict(farms, district), TehsilOf), r[i]) < IndexOf(Column(InDistrict(farms, district), TehsilOf), r[j])
  {
    DistinctNonEmpty(Column(InDistrict(farms, district), TehsilOf))
  }

  /** `GET /divisions/villages?tehsil=`: the villages of the farms in the
      tehsil (of all farms when none is given), once each, in order of first
      occurrence. */
  function ListVillages(farms: seq<Farm>, tehsil: string): (r: seq<string>)
    ensures forall v :: v in r <==>
      v != "" && exists f | f in farms :: f.admin.village == v && (tehsil == "" || f.admin.tehsil == tehsil)
    ensures forall i, j :: 0 <= i < j < |r| ==> r[i] != r[j]
    ensures forall v | v in r :: v in Column(InTehsil(farms, tehsil), VillageOf)
    ensures forall i, j :: 0 <= i < j < |r| ==>
      IndexOf(Column(InTehsil(farms, tehsil), VillageOf), r[i]) < IndexOf(Column(InTehsil(farms, tehsil), VillageOf), r[j])
  {
    DistinctNonEmpty(Column(InTehsil(farms, tehsil), VillageOf))
  }

  // ---------------------------------------------------------------------------
  // Filtered, paginated farm list

  /** The `district`, `tehsil`, `village` and `search` query parameters. */
  datatype DivisionQuery = DivisionQuery(district: string, tehsil: string, village: string, search: string)

  /** `toLowerCase` on the ASCII letters. */
  function LowerChar(c: char): char {
    if 'A' <= c <= 'Z' then (c as int + 32) as char else c
  }

  /** `toLowerCase`: no upper-case letter remains, and only upper-case letters change. */
  function ToLower(s: string): (r: string)
    ensures |r| == |s| && forall i :: 0 <= i < |s| ==> r[i] == LowerChar(s[i])
    ensures forall i :: 0 <= i < |r| ==> !('A' <= r[i] <= 'Z')
    ensures forall i :: 0 <= i < |s| && !('A' <= s[i] <= 'Z') ==> r[i] == s[i]
    ensures forall i :: 0 <= i < |s| && 'A' <= s[i] <= 'Z' ==> r[i] as int == s[i] as int + 32
  {
    seq(|s|, i requires 0 <= i < |s| => LowerChar(s[i]))
  }

  /** Lower-casing twice is lower-casing once. */
  lemma ToLowerIdempotent(s: string)
    ensures ToLower(ToLower(s)) == ToLower(s)
  {
    var t := ToLower(s);
    forall i | 0 <= i < |s| ensures ToLower(t)[i] == t[i] {
      assert !('A' <= t[i] <= 'Z');
    }
  }

  /** Strings that differ only in the case of their letters lower-case alike. */
  lemma ToLowerIgnoresCase(s: string, t: string)
    requires |s| == |t| && forall i :: 0 <= i < |s| ==> LowerChar(s[i]) == LowerChar(t[i])
    ensures ToLower(s) == ToLower(t)
  {
  }

  /** `s.includes(sub)`. */
  predicate Contains(s: string, sub: string)
    decreases |s|
  {
    sub <= s || (s != [] && Contains(s[1..], sub))
  }

  /** `sub` occurs in `s` starting at position `k`. */
  predicate OccursAt(s: string, sub: string, k: int) {
    0 <= k && k + |sub| <= |s| && s[k..k + |sub|] == sub
  }

  /** `includes` finds `sub` exactly when it occurs at some position of `s`. */
  lemma {:induction false} ContainsIff(s: string, sub: string)
    ensures Contains(s, sub) <==> exists k :: OccursAt(s, sub, k)
    decreases |s|
  {
    if sub <= s {
      assert OccursAt(s, sub, 0);
    } else if s != [] {
      ContainsIff(s[1..], sub);
      if Contains(s[1..], sub) {
        var k :| OccursAt(s[1..], sub, k);
        assert s[1..][k..k + |sub|] == s[k + 1..k + 1 + |sub|];
        assert OccursAt(s, sub, k + 1);
      } else {
        forall k | 0 < k && k + |sub| <= |s| ensures !OccursAt(s, sub, k) {
          assert s[1..][k - 1..k - 1 + |sub|] == s[k..k + |sub|];
          assert !OccursAt(s[1..], sub, k - 1);
        }
      }
    }
  }

  /** Case-insensitive substring match on the farmer's name. */
  predicate NameMatches(f: Farm, search: string) {
    Contains(ToLower(f.farmerName), ToLower(search))
  }

  /** The lower-cased term occurs somewhere in the lower-cased name; the
      empty term matches every farm. */
  lemma NameMatchesIff(f: Farm, search: string)
    ensures NameMatches(f, search) <==> exists k :: OccursAt(ToLower(f.farmerName), ToLower(search), k)
    ensures search == "" ==> NameMatches(f, search)
  {
    ContainsIff(ToLower(f.farmerName), ToLower(search));
    if search == "" {
      assert OccursAt(ToLower(f.farmerName), ToLower(search), 0);
    }
  }

  /** The match ignores the case of the search term and of the name: a term
      that differs only in letter case from another finds the same farms, and
      so does the lower-cased term. */
  lemma NameMatchesIgnoresCase(f: Farm, search: string, other: string)
    requires |search| == |other| && forall i :: 0 <= i < |search| ==> LowerChar(search[i]) == LowerChar(other[i])
    ensures NameMatches(f, search) <==> NameMatches(f, other)
    ensures NameMatches(f, search) <==> NameMatches(f, ToLower(search))
    ensures NameMatches(f, search) <==> NameMatches(f.(farmerName := ToLower(f.farmerName)), search)
  {
    ToLowerIgnoresCase(search, other);
    ToLowerIdempotent(search);
    ToLowerIdempotent(f.farmerName);
  }

  /** A farm satisfies every supplied parameter; an empty one is not applied. */
  predicate MatchesQuery(q: DivisionQuery, f: Farm) {
    && (q.district == "" || f.admin.district == q.district)
    && (q.tehsil == "" || f.admin.tehsil == q.tehsil)
    && (q.village == "" || f.admin.village == q.village)
    && (q.search == "" || NameMatches(f, q.search))
  }

  /** The `k`-th filter of the handler's chain, as a condition on a farm. */
  predicate Criterion(q: DivisionQuery, k: nat, f: Farm) {
    if k == 0 then q.district == "" || f.admin.district == q.district
    else if k == 1 then q.tehsil == "" || f.admin.tehsil == q.tehsil
    else if k == 2 then q.village == "" || f.admin.village == q.village
    else q.search == "" || NameMatches(f, q.search)
  }

  /** A farm passes the first `n` filters of the chain. */
  predicate PassesFirst(q: DivisionQuery, n: nat, f: Farm) {
    n == 0 || (PassesFirst(q, n - 1, f) && Criterion(q, n - 1, f))
  }

  /** The first `n` filters of the chain, as one filter. */
  function UpTo(q: DivisionQuery, n: nat): Farm -> bool {
    (f: Farm) => PassesFirst(q, n, f)
  }

  function QueryFilter(q: DivisionQuery): Farm -> bool {
    (f: Farm) => MatchesQuery(q, f)
  }

  /** One more step of the chain: an applied filter, or none for an empty parameter. */
  lemma ChainStep(farms: seq<Farm>, s: seq<Farm>, q: DivisionQuery, n: nat, active: bool, p: Farm -> bool)
    requires s == Seqs.Filter(farms, UpTo(q, n))
    requires active ==> forall f :: p(f) == Criterion(q, n, f)
    requires !active ==> forall f :: Criterion(q, n, f)
    ensures active ==> Seqs.Filter(s, p) == Seqs.Filter(farms, UpTo(q, n + 1))
    ensures !active ==> s == Seqs.Filter(farms, UpTo(q, n + 1))
  {
    assert forall f :: UpTo(q, n + 1)(f) == (UpTo(q, n)(f) && Criterion(q, n, f));
    if active {
      Seqs.FilterFilter(farms, UpTo(q, n), p, UpTo(q, n + 1));
    } else {
      Seqs.FilterSame(farms, UpTo(q, n), UpTo(q, n + 1));
    }
  }

  function DistrictIs(district: string): Farm -> bool {
    (f: Farm) => f.admin.district == district
  }

  function TehsilIs(tehsil: string): Farm -> bool {
    (f: Farm) => f.admin.tehsil == tehsil
  }

  function VillageIs(village: string): Farm -> bool {
    (f: Farm) => f.admin.village == village
  }

  /** `farm.farmerName.toLowerCase().includes(searchLower)`. */
  function NameHas(searchLower: string): Farm -> bool {
    (f: Farm) => Contains(ToLower(f.farmerName), searchLower)
  }

  /** Before the first step, every farm is kept. */
  lemma ChainStart(farms: seq<Farm>, q: DivisionQuery)
    ensures farms == Seqs.Filter(farms, UpTo(q, 0))
  {
    assert forall f | f in farms :: UpTo(q, 0)(f);
    Seqs.FilterAll(farms, UpTo(q, 0));
  }

  /** The farms after the district filter. */
  function ByDistrict(farms: seq<Farm>, q: DivisionQuery): (r: seq<Farm>)
    ensures r == Seqs.Filter(farms, UpTo(q, 1))
  {
    ChainStart(farms, q);
    ChainStep(farms, farms, q, 0, q.district != "", DistrictIs(q.district));
    if q.district != "" then Seqs.Filter(farms, DistrictIs(q.district)) else farms
  }

  /** ... then the tehsil filter. */
  function ByTehsil(farms: seq<Farm>, q: DivisionQuery): (r: seq<Farm>)
    ensures r == Seqs.Filter(farms, UpTo(q, 2))
  {
    var s := ByDistrict(farms, q);
    ChainStep(farms, s, q, 1, q.tehsil != "", TehsilIs(q.tehsil));
    if q.tehsil != "" then Seqs.Filter(s, TehsilIs(q.tehsil)) else s
  }

  /** ... then the village filter. */
  function ByVillage(farms: seq<Farm>, q: DivisionQuery): (r: seq<Farm>)
    ensures r == Seqs.Filter(farms, UpTo(q, 3))
  {
    var s := ByTehsil(farms, q);
    ChainStep(farms, s, q, 2, q.village != "", VillageIs(q.village));
    if q.village != "" then Seqs.Filter(s, VillageIs(q.village)) else s
  }

  /** ... then the case-insensitive name search. */
  function BySearch(farms: seq<Farm>, q: DivisionQuery): (r: seq<Farm>)
    ensures r == Seqs.Filter(farms, UpTo(q, 4))
  {
    var s := ByVillage(farms, q);
    var searchLower := ToLower(q.search);
    ChainStep(farms, s, q, 3, q.search != "", NameHas(searchLower));
    if q.search != "" then Seqs.Filter(s, NameHas(searchLower)) else s
  }

  /** The whole chain keeps exactly the farms that satisfy every given parameter. */
  lemma ChainIsQuery(q: DivisionQuery)
    ensures forall f :: UpTo(q, 4)(f) == QueryFilter(q)(f)
  {
    forall f ensures UpTo(q, 4)(f) == QueryFilter(q)(f) {
      assert PassesFirst(q, 4, f) == (PassesFirst(q, 3, f) && Criterion(q, 3, f));
      assert PassesFirst(q, 3, f) == (PassesFirst(q, 2, f) && Criterion(q, 2, f));
      assert PassesFirst(q, 2, f) == (PassesFirst(q, 1, f) && Criterion(q, 1, f));
      assert PassesFirst(q, 1, f) == Criterion(q, 0, f);
    }
  }

  /** The handler's filter chain: district, tehsil, village, then the search,
      each applied only when given. The result is the order-preserving
      subsequence of the farms that satisfy every given parameter. */
  function FilterByDivision(farms: seq<Farm>, q: DivisionQuery): (r: seq<Farm>)
    ensures r == Seqs.Filter(farms, QueryFilter(q))
    ensures forall f | f in r :: f in farms && MatchesQuery(q, f)
    ensures forall f | f in farms && MatchesQuery(q, f) :: f in r
  {
    ChainIsQuery(q);
    Seqs.FilterSame(farms, UpTo(q, 4), QueryFilter(q));
    BySearch(farms, q)
  }

  /** The page count for a positive limit is the ceiling of `total / limit`. */
  lemma CeilingPositive(total: nat, limit: int)
    requires 0 < limit
    ensures var n := (total + limit - 1) / limit; 0 <= n && (n - 1) * limit < total <= n * limit
  {
    var n := (total + limit - 1) / limit;
    assert n * limit <= total + limit - 1 < n * limit + limit;
  }

  /** For a negative limit, `total / limit` is at most 0 and its ceiling is
      minus the floor of `total / -limit`. */
  lemma CeilingNegative(total: nat, limit: int)
    requires limit < 0
    ensures var c := -(total / -limit); c <= 0 && c * limit <= total < (c - 1) * limit
  {
    var L := -limit;
    var q := total / L;
    assert q * L <= total < q * L + L;
    assert -q * limit == q * L && (-q - 1) * limit == q * L + L;
  }

  /** `Math.ceil(total / limit)`; `None` for a zero limit, where the source
      computes `Infinity` or `NaN`. */
  function TotalPages(total: nat, limit: int): (r: Option<int>)
    ensures r.None? <==> limit == 0
    ensures 0 < limit ==> r.Some? && 0 <= r.value && (r.value - 1) * limit < total <= r.value * limit
    ensures limit < 0 ==> r.Some? && r.value <= 0 && r.value * limit <= total < (r.value - 1) * limit
  {
    if limit == 0 then None
    else if limit > 0 then
      CeilingPositive(total, limit);
      Some((total + limit - 1) / limit)
    else
      CeilingNegative(total, limit);
      Some(-(total / -limit))
  }

  /** The positions page `page` of a list of `n` elements starts and ends at. */
  function PageBounds(page: int, limit: int, n: nat): (r: (nat, nat))
    requires 1 <= page && 0 <= limit
    ensures r.0 <= r.1 <= n
    ensures r.0 == Seqs.Min((page - 1) * limit, n) && r.1 == Seqs.Min(page * limit, n)
  {
    var start := (page - 1) * limit;
    assert 0 <= start && start + limit == page * limit;
    (Seqs.Min(start, n), Seqs.Min(start + limit, n))
  }

  /** `filtered.slice((page - 1) * limit, (page - 1) * limit + limit)`. */
  function Page<T>(s: seq<T>, page: int, limit: int): (r: seq<T>)
    ensures 0 <= limit ==> |r| <= limit
    ensures forall x | x in r :: x in s
    ensures 1 <= page && 0 <= limit ==> r == s[PageBounds(page, limit, |s|).0..PageBounds(page, limit, |s|).1]
  {
    var start := (page - 1) * limit;
    if 1 <= page && 0 <= limit then
      var b := PageBounds(page, limit, |s|);
      assert b.0 == Seqs.Min(start, |s|) && b.1 == Seqs.Min(start + limit, |s|);
      Seqs.Slice(s, start, start + limit)
    else
      Seqs.Slice(s, start, start + limit)
  }

  /** Pages 1 to `n` concatenated. */
  function PagesUpTo<T>(s: seq<T>, limit: int, n: nat): seq<T> {
    if n == 0 then [] else PagesUpTo(s, limit, n - 1) + Page(s, n, limit)
  }

  /** With a positive limit, the first `n` pages are the first `n * limit` farms. */
  lemma {:induction false} PagesAreAPrefix<T>(s: seq<T>, limit: int, n: nat)
    requires 1 <= limit
    ensures PagesUpTo(s, limit, n) == s[..Seqs.Min(n * limit, |s|)]
  {
    if n > 0 {
      PagesAreAPrefix(s, limit, n - 1);
      var b := PageBounds(n, limit, |s|);
      assert b.0 == Seqs.Min((n - 1) * limit, |s|) && b.1 == Seqs.Min(n * limit, |s|);
      assert Page(s, n, limit) == s[b.0..b.1];
      assert s[..b.0] + s[b.0..b.1] == s[..b.1];
    }
  }

  /** With a positive limit, pages 1 to `totalPages` put the filtered list back together. */
  lemma PagesCoverList<T>(s: seq<T>, limit: int)
    requires 1 <= limit
    ensures TotalPages(|s|, limit).Some?
    ensures PagesUpTo(s, limit, TotalPages(|s|, limit).value) == s
  {
    var n := TotalPages(|s|, limit).value;
    PagesAreAPrefix(s, limit, n);
  }

  /** The response body of `GET /farms/by-division`. */
  datatype DivisionPage = DivisionPage(
    count: nat,
    total: nat,
    page: int,
    limit: int,
    totalPages: Option<int>,
    data: seq<Farm>,
    filters: DivisionQuery)

  /** `GET /farms/by-division`: one page of the filtered farms. */
  function FarmsByDivision(farms: seq<Farm>, q: DivisionQuery, page: int, limit: int): (r: DivisionPage)
    ensures r.total == |FilterByDivision(farms, q)| && r.count == |r.data|
    ensures forall f | f in r.data :: f in farms && MatchesQuery(q, f)
    ensures 0 <= limit ==> r.count <= limit
    ensures 1 <= page && 0 <= limit ==>
      r.data == FilterByDivision(farms, q)[PageBounds(page, limit, r.total).0..PageBounds(page, limit, r.total).1]
    ensures r.totalPages == TotalPages(r.total, limit)
    ensures r.page == page && r.limit == limit && r.filters == q
  {
    var filtered := FilterByDivision(farms, q);
    var data := Page(filtered, page, limit);
    DivisionPage(|data|, |filtered|, page, limit, TotalPages(|filtered|, limit), data, q)
  }

  // ---------------------------------------------------------------------------
  // Statistics

  /** `administrativeData?.district || "Unknown"`. */
  function DistrictKey(f: Farm): string {
    if f.admin.district != "" then f.admin.district else "Unknown"
  }

  /** `administrativeData?.tehsil || "Unknown"`. */
  function TehsilKey(f: Farm): string {
    if f.admin.tehsil != "" then f.admin.tehsil else "Unknown"
  }

  /** One entry of `stats.district`. The entries are in the order in which the
      names are first met; a JavaScript object would list integer-like names
      (such as "12") first, in ascending order, which this model does not. */
  datatype DistrictEntry = DistrictEntry(name: string, count: nat, area: real)

  /** One entry of `stats.tehsil`, with the district recorded when the entry was created. */
  datatype TehsilEntry = TehsilEntry(name: string, count: nat, area: real, district: string)

  function FindDistrict(e: seq<DistrictEntry>, name: string): (r: Option<nat>)
    ensures r.Some? ==> r.value < |e| && e[r.value].name == name
    ensures r.None? <==> forall i :: 0 <= i < |e| ==> e[i].name != name
  {
    if e == [] then None
    else if e[0].name == name then Some(0)
    else match FindDistrict(e[1..], name)
      case None => None
      case Some(k) => Some(k + 1)
  }

  function FindTehsil(e: seq<TehsilEntry>, name: string): (r: Option<nat>)
    ensures r.Some? ==> r.value < |e| && e[r.value].name == name
    ensures r.None? <==> forall i :: 0 <= i < |e| ==> e[i].name != name
  {
    if e == [] then None
    else if e[0].name == name then Some(0)
    else match FindTehsil(e[1..], name)
      case None => None
      case Some(k) => Some(k + 1)
  }

  /** No two entries share a name. */
  predicate DistinctDistricts(e: seq<DistrictEntry>) {
    forall i, j :: 0 <= i < j < |e| ==> e[i].name != e[j].name
  }

  predicate DistinctTehsils(e: seq<TehsilEntry>) {
    forall i, j :: 0 <= i < j < |e| ==> e[i].name != e[j].name
  }

  /** One farm, of district `name` and the given area, counted into the district
      table: the entry of that name gains the farm, or a new one is appended. */
  function AddToDistricts(e: seq<DistrictEntry>, name: string, area: real): (r: seq<DistrictEntry>)
    ensures |r| == |e| + (if FindDistrict(e, name).None? then 1 else 0)
    ensures forall i :: 0 <= i < |e| ==> r[i].name == e[i].name
    ensures forall i :: 0 <= i < |e| && e[i].name != name ==> r[i] == e[i]
    ensures FindDistrict(e, name).None? ==> r[|e|] == DistrictEntry(name, 1, area)
    ensures FindDistrict(e, name).Some? ==> var k := FindDistrict(e, name).value;
      r[k].count == e[k].count + 1 && r[k].area == e[k].area + area
    ensures DistinctDistricts(e) ==> DistinctDistricts(r)
  {
    match FindDistrict(e, name)
    case None => e + [DistrictEntry(name, 1, area)]
    case Some(k) => e[k := e[k].(count := e[k].count + 1, area := e[k].area + area)]
  }

  /** One farm counted into the tehsil table; a new entry takes the farm's
      district, an existing one keeps the district it was created with. */
  function AddToTehsils(e: seq<TehsilEntry>, name: string, area: real, district: string): (r: seq<TehsilEntry>)
    ensures |r| == |e| + (if FindTehsil(e, name).None? then 1 else 0)
    ensures forall i :: 0 <= i < |e| ==> r[i].name == e[i].name && r[i].district == e[i].district
    ensures forall i :: 0 <= i < |e| && e[i].name != name ==> r[i] == e[i]
    ensures FindTehsil(e, name).None? ==> r[|e|] == TehsilEntry(name, 1, area, district)
    ensures FindTehsil(e, name).Some? ==> var k := FindTehsil(e, name).value;
      r[k].count == e[k].count + 1 && r[k].area == e[k].area + area
    ensures DistinctTehsils(e) ==> DistinctTehsils(r)
  {
    match FindTehsil(e, name)
    case None => e + [TehsilEntry(name, 1, area, district)]
    case Some(k) => e[k := e[k].(count := e[k].count + 1, area := e[k].area + area)]
  }

  /** The district table after the first farms. */
  function DistrictTable(farms: seq<Farm>): seq<DistrictEntry> {
    if farms == [] then []
    else
      var f := farms[|farms| - 1];
      AddToDistricts(DistrictTable(farms[..|farms| - 1]), DistrictKey(f), f.area)
  }

  function TehsilTable(farms: seq<Farm>): seq<TehsilEntry> {
    if farms == [] then []
    else
      var f := farms[|farms| - 1];
      AddToTehsils(TehsilTable(farms[..|farms| - 1]), TehsilKey(f), f.area, DistrictKey(f))
  }

  /** The district table has one entry per district key of the farms: the names are
      distinct and every farm's key has an entry. */
  lemma {:induction false} DistrictTableCovers(farms: seq<Farm>)
    ensures DistinctDistricts(DistrictTable(farms))
    ensures forall i :: 0 <= i < |farms| ==> FindDistrict(DistrictTable(farms), DistrictKey(farms[i])).Some?
  {
    if farms != [] {
      var init, f := farms[..|farms| - 1], farms[|farms| - 1];
      DistrictTableCovers(init);
      var e := DistrictTable(init);
      var r := AddToDistricts(e, DistrictKey(f), f.area);
      assert DistrictTable(farms) == r;
      forall i | 0 <= i < |farms| ensures FindDistrict(r, DistrictKey(farms[i])).Some? {
        if i < |farms| - 1 {
          assert farms[i] == init[i];
          var k := FindDistrict(e, DistrictKey(farms[i])).value;
          assert r[k].name == DistrictKey(farms[i]);
        }
      }
    }
  }

  /** Every entry of the district table is named after some farm's district key. */
  lemma {:induction false} DistrictTableNames(farms: seq<Farm>)
    ensures forall k :: 0 <= k < |DistrictTable(farms)| ==>
      exists i :: 0 <= i < |farms| && DistrictKey(farms[i]) == DistrictTable(farms)[k].name
  {
    if farms != [] {
      var init, f := farms[..|farms| - 1], farms[|farms| - 1];
      DistrictTableNames(init);
      var e := DistrictTable(init);
      var r := AddToDistricts(e, DistrictKey(f), f.area);
      assert DistrictTable(farms) == r;
      forall k | 0 <= k < |DistrictTable(farms)|
        ensures exists i :: 0 <= i < |farms| && DistrictKey(farms[i]) == DistrictTable(farms)[k].name
      {
        if k < |e| {
          assert r[k].name == e[k].name;
          var i :| 0 <= i < |init| && DistrictKey(init[i]) == e[k].name;
          assert farms[i] == init[i];
        } else {
          assert DistrictKey(farms[|farms| - 1]) == r[k].name;
        }
      }
    } else {
      assert DistrictTable(farms) == [];
    }
  }

  /** The tehsil table has one entry per tehsil key of the farms: the names are
      distinct and every farm's key has an entry. */
  lemma {:induction false} TehsilTableCovers(farms: seq<Farm>)
    ensures DistinctTehsils(TehsilTable(farms))
    ensures forall i :: 0 <= i < |farms| ==> FindTehsil(TehsilTable(farms), TehsilKey(farms[i])).Some?
  {
    if farms != [] {
      var init, f := farms[..|farms| - 1], farms[|farms| - 1];
      TehsilTableCovers(init);
      var e := TehsilTable(init);
      var r := AddToTehsils(e, TehsilKey(f), f.area, DistrictKey(f));
      assert TehsilTable(farms) == r;
      forall i | 0 <= i < |farms| ensures FindTehsil(r, TehsilKey(farms[i])).Some? {
        if i < |farms| - 1 {
          assert farms[i] == init[i];
          var k := FindTehsil(e, TehsilKey(farms[i])).value;
          assert r[k].name == TehsilKey(farms[i]);
        }
      }
    }
  }

  function DistrictCountSum(e: seq<DistrictEntry>): nat {
    if e == [] then 0 else DistrictCountSum(e[..|e| - 1]) + e[|e| - 1].count
  }

  function TehsilCountSum(e: seq<TehsilEntry>): nat {
    if e == [] then 0 else TehsilCountSum(e[..|e| - 1]) + e[|e| - 1].count
  }

  /** Raising one entry's count by one raises the sum by one. */
  lemma {:induction false} DistrictSumBump(e: seq<DistrictEntry>, k: nat, x: DistrictEntry)
    requires k < |e| && x.count == e[k].count + 1
    ensures DistrictCountSum(e[k := x]) == DistrictCountSum(e) + 1
  {
    var n := |e| - 1;
    assert e[k := x][..n] == if k < n then e[..n][k := x] else e[..n];
    if k < n {
      DistrictSumBump(e[..n], k, x);
    }
  }

  lemma {:induction false} TehsilSumBump(e: seq<TehsilEntry>, k: nat, x: TehsilEntry)
    requires k < |e| && x.count == e[k].count + 1
    ensures TehsilCountSum(e[k := x]) == TehsilCountSum(e) + 1
  {
    var n := |e| - 1;
    assert e[k := x][..n] == if k < n then e[..n][k := x] else e[..n];
    if k < n {
      TehsilSumBump(e[..n], k, x);
    }
  }

  /** Counting one farm into the district table raises the total count by one. */
  lemma AddToDistrictsCounts(e: seq<DistrictEntry>, name: string, area: real)
    ensures DistrictCountSum(AddToDistricts(e, name, area)) == DistrictCountSum(e) + 1
  {
    var r := AddToDistricts(e, name, area);
    match FindDistrict(e, name) {
      case None =>
        assert r == e + [DistrictEntry(name, 1, area)];
        assert r[..|e|] == e;
      case Some(k) =>
        var x := e[k].(count := e[k].count + 1, area := e[k].area + area);
        assert r == e[k := x];
        DistrictSumBump(e, k, x);
    }
  }

  lemma AddToTehsilsCounts(e: seq<TehsilEntry>, name: string, area: real, district: string)
    ensures TehsilCountSum(AddToTehsils(e, name, area, district)) == TehsilCountSum(e) + 1
  {
    var r := AddToTehsils(e, name, area, district);
    match FindTehsil(e, name) {
      case None =>
        assert r == e + [TehsilEntry(name, 1, area, district)];
        assert r[..|e|] == e;
      case Some(k) =>
        var x := e[k].(count := e[k].count + 1, area := e[k].area + area);
        assert r == e[k := x];
        TehsilSumBump(e, k, x);
    }
  }

  /** Every farm is counted in exactly one district entry. */
  lemma {:induction false} DistrictCountsCover(farms: seq<Farm>)
    ensures DistrictCountSum(DistrictTable(farms)) == |farms|
  {
    if farms != [] {
      var init, f := farms[..|farms| - 1], farms[|farms| - 1];
      DistrictCountsCover(init);
      var name, area := DistrictKey(f), f.area;
      assert DistrictTable(farms) == AddToDistricts(DistrictTable(init), name, area);
      AddToDistrictsCounts(DistrictTable(init), name, area);
    }
  }

  /** Every farm is counted in exactly one tehsil entry. */
  lemma {:induction false} TehsilCountsCover(farms: seq<Farm>)
    ensures TehsilCountSum(TehsilTable(farms)) == |farms|
  {
    if farms != [] {
      var init, f := farms[..|farms| - 1], farms[|farms| - 1];
      TehsilCountsCover(init);
      var name, area, district := TehsilKey(f), f.area, DistrictKey(f);
      assert TehsilTable(farms) == AddToTehsils(TehsilTable(init), name, area, district);
      AddToTehsilsCounts(TehsilTable(init), name, area, district);
    }
  }

  /** How many of the farms have `key` equal to `name`: the reference count an entry should hold. */
  function KeyCount(farms: seq<Farm>, key: Farm -> string, name: string): nat {
    if farms == [] then 0
    else KeyCount(farms[..|farms| - 1], key, name) + if key(farms[|farms| - 1]) == name then 1 else 0
  }

  /** The summed area of the farms whose `key` is `name`. */
  function KeyArea(farms: seq<Farm>, key: Farm -> string, name: string): real {
    if farms == [] then 0.0
    else KeyArea(farms[..|farms| - 1], key, name) + if key(farms[|farms| - 1]) == name then farms[|farms| - 1].area else 0.0
  }

  /** The reference count is the length of the filter of the farms with that key. */
  lemma {:induction false} KeyCountIsFilter(farms: seq<Farm>, key: Farm -> string, name: string)
    ensures KeyCount(farms, key, name) == |Seqs.Filter(farms, (f: Farm) => key(f) == name)|
  {
    var p := (f: Farm) => key(f) == name;
    Seqs.FilterLength(farms, p);
    KeyCountCountsIf(farms, key, name, p);
  }

  lemma {:induction false} KeyCountCountsIf(farms: seq<Farm>, key: Farm -> string, name: string, p: Farm -> bool)
    requires forall f :: p(f) == (key(f) == name)
    ensures KeyCount(farms, key, name) == Seqs.CountIf(farms, p)
  {
    if farms != [] {
      KeyCountCountsIf(farms[..|farms| - 1], key, name, p);
    }
  }

  /** A name no farm has counts nothing and sums no area. */
  lemma {:induction false} KeyAbsent(farms: seq<Farm>, key: Farm -> string, name: string)
    requires forall i :: 0 <= i < |farms| ==> key(farms[i]) != name
    ensures KeyCount(farms, key, name) == 0 && KeyArea(farms, key, name) == 0.0
  {
    if farms != [] {
      var init := farms[..|farms| - 1];
      assert forall i :: 0 <= i < |init| ==> init[i] == farms[i];
      KeyAbsent(init, key, name);
    }
  }

  /** Each district entry holds the number of farms with its district key and their summed area. */
  lemma {:induction false} DistrictEntriesTally(farms: seq<Farm>)
    ensures forall k :: 0 <= k < |DistrictTable(farms)| ==>
      DistrictTable(farms)[k].count == KeyCount(farms, DistrictKey, DistrictTable(farms)[k].name)
      && DistrictTable(farms)[k].area == KeyArea(farms, DistrictKey, DistrictTable(farms)[k].name)
  {
    if farms != [] {
      var init, f := farms[..|farms| - 1], farms[|farms| - 1];
      DistrictEntriesTally(init);
      DistrictTableCovers(init);
      var e := DistrictTable(init);
      var r := AddToDistricts(e, DistrictKey(f), f.area);
      assert DistrictTable(farms) == r;
      forall k | 0 <= k < |r|
        ensures r[k].count == KeyCount(farms, DistrictKey, r[k].name)
        ensures r[k].area == KeyArea(farms, DistrictKey, r[k].name)
      {
        if k < |e| {
          if e[k].name == DistrictKey(f) {
            assert FindDistrict(e, DistrictKey(f)).value == k;
          }
        } else {
          assert forall i :: 0 <= i < |init| ==> DistrictKey(init[i]) != DistrictKey(f);
          KeyAbsent(init, DistrictKey, DistrictKey(f));
        }
      }
    }
  }

  /** Each tehsil entry holds the number of farms with its tehsil key and their summed area. */
  lemma {:induction false} TehsilEntriesTally(farms: seq<Farm>)
    ensures forall k :: 0 <= k < |TehsilTable(farms)| ==>
      TehsilTable(farms)[k].count == KeyCount(farms, TehsilKey, TehsilTable(farms)[k].name)
      && TehsilTable(farms)[k].area == KeyArea(farms, TehsilKey, TehsilTable(farms)[k].name)
  {
    if farms != [] {
      var init, f := farms[..|farms| - 1], farms[|farms| - 1];
      TehsilEntriesTally(init);
      TehsilTableCovers(init);
      var e := TehsilTable(init);
      var r := AddToTehsils(e, TehsilKey(f), f.area, DistrictKey(f));
      assert TehsilTable(farms) == r;
      forall k | 0 <= k < |r|
        ensures r[k].count == KeyCount(farms, TehsilKey, r[k].name)
        ensures r[k].area == KeyArea(farms, TehsilKey, r[k].name)
      {
        if k < |e| {
          if e[k].name == TehsilKey(f) {
            assert FindTehsil(e, TehsilKey(f)).value == k;
          }
        } else {
          assert forall i :: 0 <= i < |init| ==> TehsilKey(init[i]) != TehsilKey(f);
          KeyAbsent(init, TehsilKey, TehsilKey(f));
        }
      }
    }
  }

  /** The position of the first farm in tehsil `name`. */
  function FirstInTehsil(farms: seq<Farm>, name: string): (r: Option<nat>)
    ensures r.Some? ==> r.value < |farms| && TehsilKey(farms[r.value]) == name
    ensures r.Some? ==> forall j :: 0 <= j < r.value ==> TehsilKey(farms[j]) != name
    ensures r.None? <==> forall j :: 0 <= j < |farms| ==> TehsilKey(farms[j]) != name
  {
    if farms == [] then None
    else if TehsilKey(farms[0]) == name then Some(0)
    else match FirstInTehsil(farms[1..], name)
      case None => None
      case Some(k) => Some(k + 1)
  }

  /** A farm in the tehsil with none of the tehsil before it is the first. */
  lemma FirstInTehsilAt(farms: seq<Farm>, name: string, k: nat)
    requires k < |farms| && TehsilKey(farms[k]) == name
    requires forall j :: 0 <= j < k ==> TehsilKey(farms[j]) != name
    ensures FirstInTehsil(farms, name) == Some(k)
  {
    var r := FirstInTehsil(farms, name);
    assert r.Some?;
  }

  /** The first farm of a tehsil stays the first when farms are appended. */
  lemma FirstInTehsilExtend(farms: seq<Farm>, f: Farm, name: string)
    ensures FirstInTehsil(farms, name).Some? ==> FirstInTehsil(farms + [f], name) == FirstInTehsil(farms, name)
    ensures FirstInTehsil(farms, name).None? && TehsilKey(f) == name ==> FirstInTehsil(farms + [f], name) == Some(|farms|)
  {
    var s := farms + [f];
    var r := FirstInTehsil(farms, name);
    if r.Some? {
      assert forall j :: 0 <= j <= r.value ==> s[j] == farms[j];
      FirstInTehsilAt(s, name, r.value);
    } else if TehsilKey(f) == name {
      assert forall j :: 0 <= j < |farms| ==> s[j] == farms[j];
      FirstInTehsilAt(s, name, |farms|);
    }
  }

  /** The entry records the district of the first farm seen in its tehsil. */
  ghost predicate RecordsFirstDistrict(farms: seq<Farm>, e: TehsilEntry) {
    var first := FirstInTehsil(farms, e.name);
    first.Some? && e.district == DistrictKey(farms[first.value])
  }

  /** Appending a farm keeps what an entry records. */
  lemma RecordsFirstDistrictExtend(farms: seq<Farm>, f: Farm, e: TehsilEntry)
    requires RecordsFirstDistrict(farms, e)
    ensures RecordsFirstDistrict(farms + [f], e)
  {
    FirstInTehsilExtend(farms, f, e.name);
    var k := FirstInTehsil(farms, e.name).value;
    assert (farms + [f])[k] == farms[k];
  }

  /** A tehsil the table has no entry for is no earlier farm's tehsil. */
  lemma NewTehsilUnseen(farms: seq<Farm>, name: string, j: nat)
    requires FindTehsil(TehsilTable(farms), name).None? && j < |farms|
    ensures TehsilKey(farms[j]) != name
  {
    TehsilTableCovers(farms);
  }

  /** A farm in a tehsil no earlier farm is in is the first farm of that tehsil. */
  lemma FirstOfNewTehsil(farms: seq<Farm>, f: Farm)
    requires forall j :: 0 <= j < |farms| ==> TehsilKey(farms[j]) != TehsilKey(f)
    ensures FirstInTehsil(farms + [f], TehsilKey(f)) == Some(|farms|)
  {
    FirstInTehsilExtend(farms, f, TehsilKey(f));
  }

  /** Every tehsil entry names a tehsil some farm is in, and records the
      district of the first farm seen in that tehsil. */
  lemma {:induction false} TehsilRecordsFirstDistrict(farms: seq<Farm>)
    ensures forall i :: 0 <= i < |TehsilTable(farms)| ==> RecordsFirstDistrict(farms, TehsilTable(farms)[i])
  {
    if farms != [] {
      var init, f := farms[..|farms| - 1], farms[|farms| - 1];
      assert farms == init + [f];
      TehsilRecordsFirstDistrict(init);
      var t := TehsilTable(init);
      var name, area, district := TehsilKey(f), f.area, DistrictKey(f);
      var t' := AddToTehsils(t, name, area, district);
      assert TehsilTable(farms) == t';
      forall i | 0 <= i < |t'| ensures RecordsFirstDistrict(farms, t'[i]) {
        if i < |t| {
          RecordsFirstDistrictExtend(init, f, t[i]);
        } else {
          forall j | 0 <= j < |init| ensures TehsilKey(init[j]) != name {
            NewTehsilUnseen(init, name, j);
          }
          FirstOfNewTehsil(init, f);
        }
      }
    }
  }

  /** The tables after one more farm. */
  lemma TableStep(farms: seq<Farm>, i: nat)
    requires i < |farms|
    ensures DistrictTable(farms[..i + 1]) == AddToDistricts(DistrictTable(farms[..i]), DistrictKey(farms[i]), farms[i].area)
    ensures TehsilTable(farms[..i + 1]) ==
      AddToTehsils(TehsilTable(farms[..i]), TehsilKey(farms[i]), farms[i].area, DistrictKey(farms[i]))
  {
    assert farms[..i + 1][..i] == farms[..i];
  }

  /** `if (!stats.district[d]) stats.district[d] = { count: 0, area: 0 }`, then
      one more farm and its area: one step of the district table. */
  method CountDistrict(districts: seq<DistrictEntry>, name: string, area: real) returns (r: seq<DistrictEntry>)
    ensures r == AddToDistricts(districts, name, area)
  {
    r := districts;
    var d := FindDistrict(r, name);
    if d.None? {
      r := r + [DistrictEntry(name, 0, 0.0)];
      d := Some(|r| - 1);
    }
    var k := d.value;
    r := r[k := r[k].(count := r[k].count + 1, area := r[k].area + area)];
    if FindDistrict(districts, name).None? {
      assert r == districts + [DistrictEntry(name, 1, area)];
    }
  }

  /** The same for the tehsil table; a created entry records the farm's district. */
  method CountTehsil(tehsils: seq<TehsilEntry>, name: string, area: real, district: string) returns (r: seq<TehsilEntry>)
    ensures r == AddToTehsils(tehsils, name, area, district)
  {
    r := tehsils;
    var t := FindTehsil(r, name);
    if t.None? {
      r := r + [TehsilEntry(name, 0, 0.0, district)];
      t := Some(|r| - 1);
    }
    var k := t.value;
    r := r[k := r[k].(count := r[k].count + 1, area := r[k].area + area)];
    if FindTehsil(tehsils, name).None? {
      assert r == tehsils + [TehsilEntry(name, 1, area, district)];
    }
  }

  /** `GET /divisions/stats`: one pass over the farms, counting each into its
      district's and its tehsil's entry (created on first sight) and adding its area. */
  method DivisionStats(farms: seq<Farm>) returns (districts: seq<DistrictEntry>, tehsils: seq<TehsilEntry>)
    ensures districts == DistrictTable(farms) && tehsils == TehsilTable(farms)
    ensures DistrictCountSum(districts) == |farms| && TehsilCountSum(tehsils) == |farms|
    ensures forall k :: 0 <= k < |districts| ==>
      districts[k].count == KeyCount(farms, DistrictKey, districts[k].name)
      && districts[k].area == KeyArea(farms, DistrictKey, districts[k].name)
    ensures forall k :: 0 <= k < |tehsils| ==>
      tehsils[k].count == KeyCount(farms, TehsilKey, tehsils[k].name)
      && tehsils[k].area == KeyArea(farms, TehsilKey, tehsils[k].name)
  {
    districts, tehsils := [], [];
    var i := 0;
    while i < |farms|
      invariant 0 <= i <= |farms|
      invariant districts == DistrictTable(farms[..i])
      invariant tehsils == TehsilTable(farms[..i])
    {
      var farm := farms[i];
      TableStep(farms, i);
      var dist := DistrictKey(farm);
      var tehsil := TehsilKey(farm);
      districts := CountDistrict(districts, dist, farm.area);
      tehsils := CountTehsil(tehsils, tehsil, farm.area, dist);
      i := i + 1;
    }
    assert farms[..i] == farms;
    DistrictCountsCover(farms);
    TehsilCountsCover(farms);
    DistrictEntriesTally(farms);
    TehsilEntriesTally(farms);
  }
}

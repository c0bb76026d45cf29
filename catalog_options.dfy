/** `filterOptions` of the catalogue page (`src/app/catalogo/page.tsx`): for
    every filter, "Todas" followed by the distinct non-empty values the
    products carry, sorted with `localeCompare`. */
module CatalogOptions {
  import opened Prelude
  import opened Products
  import opened CatalogFilter

  /** `arr.filter(Boolean)`: the present, non-empty strings, in order. */
  function Truthy(arr: seq<Option<string>>): seq<string> {
    if arr == [] then []
    else (if arr[0].Some? && arr[0].value != "" then [arr[0].value] else []) + Truthy(arr[1..])
  }

  /** `Array.from(new Set(s))`: each value once, at its first occurrence. */
  function Dedup(s: seq<string>): seq<string>
    decreases |s|
  {
    if s == [] then []
    else
      var d := Dedup(s[..|s| - 1]);
      if s[|s| - 1] in d then d else d + [s[|s| - 1]]
  }

  /** Inserts `x` before the first element that does not collate before it. */
  function InsertByCollate(loc: Locale, x: string, s: seq<string>): seq<string> {
    if s == [] then [x]
    else if loc.collate(x) <= loc.collate(s[0]) then [x] + s
    else [s[0]] + InsertByCollate(loc, x, s[1..])
  }

  /** `.sort((a, b) => a.localeCompare(b, "es"))` */
  function SortByCollate(loc: Locale, s: seq<string>): seq<string> {
    if s == [] then [] else InsertByCollate(loc, s[0], SortByCollate(loc, s[1..]))
  }

  /** `unique(arr)` */
  function Unique(loc: Locale, arr: seq<Option<string>>): seq<string> {
    [TODAS] + SortByCollate(loc, Dedup(Truthy(arr)))
  }

  /** `arrs.flatMap((a) => a ?? [])`, as the optional strings `unique` takes. */
  function FlatValues(arrs: seq<Option<seq<string>>>): seq<Option<string>> {
    if arrs == [] then []
    else
      var xs := arrs[0].GetOr([]);
      seq(|xs|, k requires 0 <= k < |xs| => Some(xs[k])) + FlatValues(arrs[1..])
  }

  /** `flatUnique(arrs)` */
  function FlatUnique(loc: Locale, arrs: seq<Option<seq<string>>>): seq<string> {
    Unique(loc, FlatValues(arrs))
  }

  datatype FilterOptions = FilterOptions(
    genero: seq<string>, estilo: seq<string>, concentracion: seq<string>, marca: seq<string>,
    temporada: seq<string>, horario: seq<string>, ocasion: seq<string>, edad: seq<string>)

  /** The `filterOptions` memo over the product list. */
  function FilterOptionsOf(loc: Locale, ps: seq<Product>): FilterOptions {
    FilterOptions(
      Unique(loc, seq(|ps|, k requires 0 <= k < |ps| => ps[k].genero)),
      Unique(loc, seq(|ps|, k requires 0 <= k < |ps| => ps[k].estilo)),
      Unique(loc, seq(|ps|, k requires 0 <= k < |ps| => ps[k].concentracion)),
      Unique(loc, seq(|ps|, k requires 0 <= k < |ps| => Some(ps[k].marca))),
      FlatUnique(loc, seq(|ps|, k requires 0 <= k < |ps| => ps[k].temporadas)),
      FlatUnique(loc, seq(|ps|, k requires 0 <= k < |ps| => ps[k].horarios)),
      FlatUnique(loc, seq(|ps|, k requires 0 <= k < |ps| => ps[k].ocasiones)),
      FlatUnique(loc, seq(|ps|, k requires 0 <= k < |ps| => ps[k].edades)))
  }

  predicate Distinct(s: seq<string>) {
    forall i, j :: 0 <= i < j < |s| ==> s[i] != s[j]
  }

  predicate CollateSorted(loc: Locale, s: seq<string>) {
    forall i, j :: 0 <= i < j < |s| ==> loc.collate(s[i]) <= loc.collate(s[j])
  }

  lemma {:induction false} TruthyMembers(arr: seq<Option<string>>, v: string)
    ensures v in Truthy(arr) <==> Some(v) in arr && v != ""
  {
    if arr != [] {
      TruthyMembers(arr[1..], v);
      assert arr == [arr[0]] + arr[1..];
    }
  }

  lemma {:induction false} DedupEffect(s: seq<string>)
    ensures forall v :: v in Dedup(s) <==> v in s
    ensures Distinct(Dedup(s))
    decreases |s|
  {
    if s != [] {
      var init := s[..|s| - 1];
      DedupEffect(init);
      assert s == init + [s[|s| - 1]];
    }
  }

  lemma {:induction false} InsertCount(loc: Locale, x: string, s: seq<string>)
    ensures multiset(InsertByCollate(loc, x, s)) == multiset(s) + multiset{x}
  {
    if s != [] && loc.collate(x) > loc.collate(s[0]) {
      InsertCount(loc, x, s[1..]);
      assert s == [s[0]] + s[1..];
    }
  }

  lemma {:induction false} InsertSorted(loc: Locale, x: string, s: seq<string>)
    requires CollateSorted(loc, s)
    ensures CollateSorted(loc, InsertByCollate(loc, x, s))
  {
    if s == [] {
    } else if loc.collate(x) <= loc.collate(s[0]) {
      var r := [x] + s;
      forall i, j | 0 <= i < j < |r| ensures loc.collate(r[i]) <= loc.collate(r[j]) {
        if i > 0 {
          assert r[i] == s[i - 1] && r[j] == s[j - 1];
        } else {
          assert r[j] == s[j - 1];
          if j > 1 {
            assert loc.collate(s[0]) <= loc.collate(s[j - 1]);
          }
        }
      }
    } else {
      var tail := s[1..];
      assert CollateSorted(loc, tail) by {
        forall i, j | 0 <= i < j < |tail| ensures loc.collate(tail[i]) <= loc.collate(tail[j]) {
          assert tail[i] == s[i + 1] && tail[j] == s[j + 1];
        }
      }
      InsertSorted(loc, x, tail);
      var rest := InsertByCollate(loc, x, tail);
      InsertMembers(loc, x, tail);
      forall k | 0 <= k < |rest| ensures loc.collate(s[0]) <= loc.collate(rest[k]) {
        assert rest[k] in rest;
        if rest[k] != x {
          var m :| 0 <= m < |tail| && tail[m] == rest[k];
          assert s[m + 1] == rest[k];
        }
      }
      var r := [s[0]] + rest;
      forall i, j | 0 <= i < j < |r| ensures loc.collate(r[i]) <= loc.collate(r[j]) {
        if i > 0 {
          assert r[i] == rest[i - 1] && r[j] == rest[j - 1];
        } else {
          assert r[j] == rest[j - 1];
        }
      }
    }
  }

  lemma {:induction false} SortEffect(loc: Locale, s: seq<string>)
    ensures multiset(SortByCollate(loc, s)) == multiset(s)
    ensures CollateSorted(loc, SortByCollate(loc, s))
    ensures Distinct(s) ==> Distinct(SortByCollate(loc, s))
  {
    if s != [] {
      SortEffect(loc, s[1..]);
      var rest := SortByCollate(loc, s[1..]);
      InsertCount(loc, s[0], rest);
      InsertSorted(loc, s[0], rest);
      assert s == [s[0]] + s[1..];
      if Distinct(s) {
        DistinctTail(s);
        assert s[0] !in multiset(rest);
        InsertDistinct(loc, s[0], rest);
      }
    }
  }

  /** The head of a list without repeats is not in its tail, which has no
      repeats either. */
  lemma DistinctTail(s: seq<string>)
    requires s != [] && Distinct(s)
    ensures Distinct(s[1..]) && s[0] !in s[1..]
  {
    forall i, j | 0 <= i < j < |s[1..]| ensures s[1..][i] != s[1..][j] {
      assert s[1..][i] == s[i + 1] && s[1..][j] == s[j + 1];
    }
    forall m | 0 <= m < |s[1..]| ensures s[1..][m] != s[0] {
      assert s[1..][m] == s[m + 1];
    }
  }

  lemma {:induction false} InsertDistinct(loc: Locale, x: string, s: seq<string>)
    requires Distinct(s) && x !in s
    ensures Distinct(InsertByCollate(loc, x, s))
  {
    if s != [] && loc.collate(x) > loc.collate(s[0]) {
      DistinctTail(s);
      assert x !in s[1..] by {
        forall m | 0 <= m < |s[1..]| ensures s[1..][m] != x {
          assert s[1..][m] == s[m + 1];
        }
      }
      InsertDistinct(loc, x, s[1..]);
      var rest := InsertByCollate(loc, x, s[1..]);
      InsertMembers(loc, x, s[1..]);
      assert s[0] !in rest;
      var r := [s[0]] + rest;
      forall i, j | 0 <= i < j < |r| ensures r[i] != r[j] {
        if i > 0 {
          assert r[i] == rest[i - 1] && r[j] == rest[j - 1];
        } else {
          assert r[j] == rest[j - 1];
        }
      }
    } else if s != [] {
      var r := [x] + s;
      forall i, j | 0 <= i < j < |r| ensures r[i] != r[j] {
        if i > 0 {
          assert r[i] == s[i - 1] && r[j] == s[j - 1];
        } else {
          assert r[j] == s[j - 1];
        }
      }
    }
  }

  lemma {:induction false} InsertMembers(loc: Locale, x: string, s: seq<string>)
    ensures forall v :: v in InsertByCollate(loc, x, s) <==> v == x || v in s
  {
    if s != [] && loc.collate(x) > loc.collate(s[0]) {
      InsertMembers(loc, x, s[1..]);
      assert s == [s[0]] + s[1..];
    }
  }

  lemma {:induction false} SortMembers(loc: Locale, s: seq<string>)
    ensures forall v :: v in SortByCollate(loc, s) <==> v in s
  {
    if s != [] {
      SortMembers(loc, s[1..]);
      InsertMembers(loc, s[0], SortByCollate(loc, s[1..]));
      assert s == [s[0]] + s[1..];
    }
  }

  /** Each option list is "Todas" followed by every distinct present,
      non-empty value of the attribute, once each, in collation order. */
  lemma UniqueShape(loc: Locale, arr: seq<Option<string>>)
    ensures |Unique(loc, arr)| >= 1 && Unique(loc, arr)[0] == TODAS
    ensures forall v :: v in Unique(loc, arr)[1..] <==> Some(v) in arr && v != ""
    ensures Distinct(Unique(loc, arr)[1..])
    ensures CollateSorted(loc, Unique(loc, arr)[1..])
  {
    var d := Dedup(Truthy(arr));
    DedupEffect(Truthy(arr));
    SortEffect(loc, d);
    SortMembers(loc, d);
    assert Unique(loc, arr)[1..] == SortByCollate(loc, d);
    forall v ensures v in d <==> Some(v) in arr && v != "" {
      TruthyMembers(arr, v);
    }
  }

  lemma {:induction false} FlatValuesMembers(arrs: seq<Option<seq<string>>>, v: string)
    ensures Some(v) in FlatValues(arrs) <==> exists k :: 0 <= k < |arrs| && Lists(arrs[k], v)
  {
    if arrs != [] {
      FlatValuesMembers(arrs[1..], v);
      var xs := arrs[0].GetOr([]);
      var head := seq(|xs|, k requires 0 <= k < |xs| => Some(xs[k]));
      assert FlatValues(arrs) == head + FlatValues(arrs[1..]);
      assert Some(v) in head <==> v in xs by {
        if v in xs {
          var m :| 0 <= m < |xs| && xs[m] == v;
          assert head[m] == Some(v);
        }
      }
      if exists k :: 0 <= k < |arrs| && Lists(arrs[k], v) {
        var k :| 0 <= k < |arrs| && Lists(arrs[k], v);
        if k > 0 {
          assert Lists(arrs[1..][k - 1], v);
        }
      }
      if exists k :: 0 <= k < |arrs[1..]| && Lists(arrs[1..][k], v) {
        var k :| 0 <= k < |arrs[1..]| && Lists(arrs[1..][k], v);
        assert Lists(arrs[k + 1], v);
      }
    }
  }

  /** The multi-valued options: "Todas", then every non-empty value some
      product lists, once each, in collation order. */
  lemma FlatUniqueShape(loc: Locale, arrs: seq<Option<seq<string>>>)
    ensures |FlatUnique(loc, arrs)| >= 1 && FlatUnique(loc, arrs)[0] == TODAS
    ensures forall v :: v in FlatUnique(loc, arrs)[1..] <==>
      v != "" && exists k :: 0 <= k < |arrs| && Lists(arrs[k], v)
    ensures Distinct(FlatUnique(loc, arrs)[1..])
    ensures CollateSorted(loc, FlatUnique(loc, arrs)[1..])
  {
    UniqueShape(loc, FlatValues(arrs));
    forall v ensures Some(v) in FlatValues(arrs) <==> exists k :: 0 <= k < |arrs| && Lists(arrs[k], v) {
      FlatValuesMembers(arrs, v);
    }
  }

  /** A product that passes the filters keeps the listing non-empty. */
  lemma SelectedKeepsListing(loc: Locale, search: string, f: Filters, ps: seq<Product>, k: int)
    requires 0 <= k < |ps| && Selected(loc, search, f, ps[k])
    ensures Matching(loc, search, f, ps) != []
  {
    MatchingEffect(loc, search, f, ps);
    assert ps[k] in Matching(loc, search, f, ps);
  }

  /** Some product carries each offered genre. */
  lemma OfferedGeneroCarried(loc: Locale, ps: seq<Product>, v: string) returns (k: int)
    requires v in FilterOptionsOf(loc, ps).genero[1..]
    ensures 0 <= k < |ps| && ps[k].genero == Some(v)
  {
    var arr := seq(|ps|, k requires 0 <= k < |ps| => ps[k].genero);
    UniqueShape(loc, arr);
    k :| 0 <= k < |arr| && arr[k] == Some(v);
  }

  /** Some product lists each offered season. */
  lemma OfferedTemporadaCarried(loc: Locale, ps: seq<Product>, v: string) returns (k: int)
    requires v in FilterOptionsOf(loc, ps).temporada[1..]
    ensures 0 <= k < |ps| && Lists(ps[k].temporadas, v)
  {
    var arrs := seq(|ps|, k requires 0 <= k < |ps| => ps[k].temporadas);
    FlatUniqueShape(loc, arrs);
    assert v in FlatUnique(loc, arrs)[1..];
    k :| 0 <= k < |arrs| && Lists(arrs[k], v);
  }

  /** Picking an offered genre (or season) keeps at least the products that
      carry it: with only that filter set, the listing is non-empty. */
  lemma OfferedGeneroMatches(loc: Locale, ps: seq<Product>, v: string)
    requires v in FilterOptionsOf(loc, ps).genero[1..]
    ensures Matching(loc, "", NO_FILTERS.(genero := v), ps) != []
  {
    var k := OfferedGeneroCarried(loc, ps, v);
    SelectedKeepsListing(loc, "", NO_FILTERS.(genero := v), ps, k);
  }

  lemma OfferedTemporadaMatches(loc: Locale, ps: seq<Product>, v: string)
    requires v in FilterOptionsOf(loc, ps).temporada[1..]
    ensures Matching(loc, "", NO_FILTERS.(temporada := v), ps) != []
  {
    var k := OfferedTemporadaCarried(loc, ps, v);
    SelectedKeepsListing(loc, "", NO_FILTERS.(temporada := v), ps, k);
  }
}

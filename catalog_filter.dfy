/** The `filtered` pipeline of the catalogue page
    (`src/app/catalogo/page.tsx`): free-text search, eight categorical filters
    with the sentinel "Todas", a stock partition, and `sortFn` on each part. */
module CatalogFilter {
  import opened Prelude
  import opened Products
  import opened CatalogSort

  const TODAS := "Todas"

  /** The eight filter selections. */
  datatype Filters = Filters(
    genero: string, estilo: string, concentracion: string, marca: string,
    temporada: string, horario: string, ocasion: string, edad: string)

  const NO_FILTERS := Filters(TODAS, TODAS, TODAS, TODAS, TODAS, TODAS, TODAS, TODAS)

  /** The search test: the lower-cased query `q` occurs in the lower-cased
      name, brand, concentration or notes (a missing field reads as ""). */
  predicate MatchesSearch(loc: Locale, p: Product, q: string) {
    || Contains(loc.lower(p.nombre), q)
    || Contains(loc.lower(p.marca), q)
    || Contains(loc.lower(p.concentracion.GetOr("")), q)
    || Contains(loc.lower(p.notas.GetOr("")), q)
  }

  /** `p.temporadas?.includes(v)` and alike: a missing list excludes. */
  predicate Lists(xs: Option<seq<string>>, v: string) {
    xs.Some? && v in xs.value
  }

  const STEPS := 9

  /** The `n`-th filter step of the pipeline as a test on one product; an
      inactive step (empty search, a filter left at "Todas") passes every
      product. */
  predicate StepTest(loc: Locale, search: string, f: Filters, n: nat, p: Product) {
    if n == 0 then search == "" || MatchesSearch(loc, p, loc.lower(search))
    else if n == 1 then f.genero == TODAS || p.genero == Some(f.genero)
    else if n == 2 then f.estilo == TODAS || p.estilo == Some(f.estilo)
    else if n == 3 then f.concentracion == TODAS || p.concentracion == Some(f.concentracion)
    else if n == 4 then f.marca == TODAS || p.marca == f.marca
    else if n == 5 then f.temporada == TODAS || Lists(p.temporadas, f.temporada)
    else if n == 6 then f.horario == TODAS || Lists(p.horarios, f.horario)
    else if n == 7 then f.ocasion == TODAS || Lists(p.ocasiones, f.ocasion)
    else f.edad == TODAS || Lists(p.edades, f.edad)
  }

  /** The product survives the first `n` steps. */
  predicate PassesUpto(loc: Locale, search: string, f: Filters, n: nat, p: Product) {
    n == 0 || (PassesUpto(loc, search, f, n - 1, p) && StepTest(loc, search, f, n - 1, p))
  }

  /** The list after the first `n` steps. */
  function SelectUpto(loc: Locale, search: string, f: Filters, n: nat, s: seq<Product>): seq<Product> {
    if s == [] then []
    else (if PassesUpto(loc, search, f, n, s[0]) then [s[0]] else []) + SelectUpto(loc, search, f, n, s[1..])
  }

  /** The products every step keeps, in catalogue order. */
  function Matching(loc: Locale, search: string, f: Filters, s: seq<Product>): seq<Product> {
    SelectUpto(loc, search, f, STEPS, s)
  }

  /** The search and the eight filters together, as one readable condition. */
  predicate Selected(loc: Locale, search: string, f: Filters, p: Product) {
    && (search != "" ==> MatchesSearch(loc, p, loc.lower(search)))
    && (f.genero != TODAS ==> p.genero == Some(f.genero))
    && (f.estilo != TODAS ==> p.estilo == Some(f.estilo))
    && (f.concentracion != TODAS ==> p.concentracion == Some(f.concentracion))
    && (f.marca != TODAS ==> p.marca == f.marca)
    && (f.temporada != TODAS ==> Lists(p.temporadas, f.temporada))
    && (f.horario != TODAS ==> Lists(p.horarios, f.horario))
    && (f.ocasion != TODAS ==> Lists(p.ocasiones, f.ocasion))
    && (f.edad != TODAS ==> Lists(p.edades, f.edad))
  }

  lemma PassesAllIsSelected(loc: Locale, search: string, f: Filters, p: Product)
    ensures PassesUpto(loc, search, f, STEPS, p) <==> Selected(loc, search, f, p)
  {
    assert PassesUpto(loc, search, f, 9, p) <==> PassesUpto(loc, search, f, 8, p) && StepTest(loc, search, f, 8, p);
    assert PassesUpto(loc, search, f, 8, p) <==> PassesUpto(loc, search, f, 7, p) && StepTest(loc, search, f, 7, p);
    assert PassesUpto(loc, search, f, 7, p) <==> PassesUpto(loc, search, f, 6, p) && StepTest(loc, search, f, 6, p);
    assert PassesUpto(loc, search, f, 6, p) <==> PassesUpto(loc, search, f, 5, p) && StepTest(loc, search, f, 5, p);
    assert PassesUpto(loc, search, f, 5, p) <==> PassesUpto(loc, search, f, 4, p) && StepTest(loc, search, f, 4, p);
    assert PassesUpto(loc, search, f, 4, p) <==> PassesUpto(loc, search, f, 3, p) && StepTest(loc, search, f, 3, p);
    assert PassesUpto(loc, search, f, 3, p) <==> PassesUpto(loc, search, f, 2, p) && StepTest(loc, search, f, 2, p);
    assert PassesUpto(loc, search, f, 2, p) <==> PassesUpto(loc, search, f, 1, p) && StepTest(loc, search, f, 1, p);
    assert PassesUpto(loc, search, f, 1, p) <==> StepTest(loc, search, f, 0, p);
  }

  /** Applying step `n` with `g` (any predicate that agrees with the step)
      to the list after `n` steps gives the list after `n + 1` steps. */
  lemma {:induction false} FilterStep(loc: Locale, search: string, f: Filters, n: nat, s: seq<Product>, g: Product -> bool)
    requires forall p :: g(p) == StepTest(loc, search, f, n, p)
    ensures Keep(SelectUpto(loc, search, f, n, s), g) == SelectUpto(loc, search, f, n + 1, s)
  {
    if s != [] {
      FilterStep(loc, search, f, n, s[1..], g);
      var rest := SelectUpto(loc, search, f, n, s[1..]);
      if PassesUpto(loc, search, f, n, s[0]) {
        assert SelectUpto(loc, search, f, n, s) == [s[0]] + rest;
        assert ([s[0]] + rest)[1..] == rest;
      } else {
        assert SelectUpto(loc, search, f, n, s) == rest;
      }
    }
  }

  /** A step that is switched off leaves the list as it is. */
  lemma {:induction false} SkipStep(loc: Locale, search: string, f: Filters, n: nat, s: seq<Product>)
    requires forall p :: StepTest(loc, search, f, n, p)
    ensures SelectUpto(loc, search, f, n, s) == SelectUpto(loc, search, f, n + 1, s)
  {
    if s != [] {
      SkipStep(loc, search, f, n, s[1..]);
    }
  }

  lemma {:induction false} SelectUptoAll(loc: Locale, search: string, f: Filters, s: seq<Product>)
    ensures SelectUpto(loc, search, f, 0, s) == s
  {
    if s != [] {
      SelectUptoAll(loc, search, f, s[1..]);
      assert s == [s[0]] + s[1..];
    }
  }

  /** `Matching` keeps exactly the selected products, each as often as the
      catalogue lists it, and never reorders them. */
  lemma {:induction false} MatchingEffect(loc: Locale, search: string, f: Filters, s: seq<Product>)
    ensures forall p ::
      multiset(Matching(loc, search, f, s))[p] == (if Selected(loc, search, f, p) then multiset(s)[p] else 0)
    ensures forall p :: p in Matching(loc, search, f, s) <==> p in s && Selected(loc, search, f, p)
  {
    if s != [] {
      MatchingEffect(loc, search, f, s[1..]);
      PassesAllIsSelected(loc, search, f, s[0]);
      assert s == [s[0]] + s[1..];
      forall p ensures p in Matching(loc, search, f, s) <==> p in s && Selected(loc, search, f, p) {
        PassesAllIsSelected(loc, search, f, p);
        assert p in Matching(loc, search, f, s) <==> multiset(Matching(loc, search, f, s))[p] > 0;
        assert p in s <==> multiset(s)[p] > 0;
      }
    }
  }

  lemma {:induction false} MatchingAppend(loc: Locale, search: string, f: Filters, s: seq<Product>, t: seq<Product>)
    ensures Matching(loc, search, f, s + t) == Matching(loc, search, f, s) + Matching(loc, search, f, t)
  {
    if s == [] {
      assert s + t == t;
    } else {
      assert (s + t)[1..] == s[1..] + t;
      MatchingAppend(loc, search, f, s[1..], t);
    }
  }

  /** With an empty search and every filter at "Todas" the whole catalogue
      passes, in its own order. */
  lemma NoFilterKeepsAll(loc: Locale, s: seq<Product>)
    ensures Matching(loc, "", NO_FILTERS, s) == s
  {
    forall n: nat | n < STEPS
      ensures SelectUpto(loc, "", NO_FILTERS, n, s) == SelectUpto(loc, "", NO_FILTERS, n + 1, s)
    {
      SkipStep(loc, "", NO_FILTERS, n, s);
    }
    SelectUptoAll(loc, "", NO_FILTERS, s);
    assert SelectUpto(loc, "", NO_FILTERS, 1, s) == s;
    assert SelectUpto(loc, "", NO_FILTERS, 2, s) == s;
    assert SelectUpto(loc, "", NO_FILTERS, 3, s) == s;
    assert SelectUpto(loc, "", NO_FILTERS, 4, s) == s;
    assert SelectUpto(loc, "", NO_FILTERS, 5, s) == s;
    assert SelectUpto(loc, "", NO_FILTERS, 6, s) == s;
    assert SelectUpto(loc, "", NO_FILTERS, 7, s) == s;
    assert SelectUpto(loc, "", NO_FILTERS, 8, s) == s;
  }

  /* ── stock partition ── */

  /** `p.stock > 0` */
  predicate InStock(p: Product) {
    p.stock.Some? && p.stock.value > 0
  }

  /** `p.stock <= 0` */
  predicate NoStock(p: Product) {
    p.stock.Some? && p.stock.value <= 0
  }

  /** A product whose stock is not a number satisfies neither comparison, so
      it is in neither part and drops out of the listing. */
  lemma MissingStockDropsOut(items: seq<Product>, p: Product)
    requires p.stock.None?
    ensures p !in Keep(items, InStock) && p !in Keep(items, NoStock)
  {
    KeepMembership(items, InStock, p);
    KeepMembership(items, NoStock, p);
  }

  /** For products with a numeric stock the two parts split the list. */
  lemma PartitionSplits(items: seq<Product>)
    requires forall k :: 0 <= k < |items| ==> items[k].stock.Some?
    ensures multiset(Keep(items, InStock)) + multiset(Keep(items, NoStock)) == multiset(items)
  {
    KeepCount(items, InStock);
    KeepCount(items, NoStock);
    forall p ensures (multiset(Keep(items, InStock)) + multiset(Keep(items, NoStock)))[p] == multiset(items)[p] {
      if p in items {
        var k :| 0 <= k < |items| && items[k] == p;
        assert items[k].stock.Some?;
      } else {
        assert multiset(items)[p] == 0;
      }
    }
  }

  /** The `filtered` memo: run the nine steps filter by filter, split by
      stock, sort each part by the chosen key and concatenate.  `split` is
      where the out-of-stock part begins. */
  method Filtered(products: seq<Product>, search: string, f: Filters, sort: string, loc: Locale)
    returns (r: seq<Product>, split: nat)
    ensures var m := Matching(loc, search, f, products);
      && split == |Keep(m, InStock)|
      && |r| == |Keep(m, InStock)| + |Keep(m, NoStock)|
      && multiset(r[..split]) == multiset(Keep(m, InStock))
      && multiset(r[split..]) == multiset(Keep(m, NoStock))
      && SortedBy(ParseSort(sort), loc, r[..split])
      && SortedBy(ParseSort(sort), loc, r[split..])
      && (!KnownSort(sort) ==> r == Keep(m, InStock) + Keep(m, NoStock))
    ensures split <= |r|
    ensures forall k :: 0 <= k < split ==> InStock(r[k])
    ensures forall k :: split <= k < |r| ==> NoStock(r[k])
    ensures forall p :: p in r <==> p in products && Selected(loc, search, f, p) && p.stock.Some?
  {
    var items := ApplyFilters(products, search, f, loc);
    r, split := SortByStock(items, sort, loc);
    MatchingEffect(loc, search, f, products);
    forall p ensures p in r <==> p in products && Selected(loc, search, f, p) && p.stock.Some? {
      ListingMember(items, r, split, p);
    }
  }

  /** A product is listed exactly when it is in one of the two parts. */
  lemma ListingMember(items: seq<Product>, r: seq<Product>, split: nat, p: Product)
    requires split <= |r|
    requires multiset(r[..split]) == multiset(Keep(items, InStock))
    requires multiset(r[split..]) == multiset(Keep(items, NoStock))
    ensures p in r <==> p in items && p.stock.Some?
  {
    assert r == r[..split] + r[split..];
    assert p in r <==> p in r[..split] || p in r[split..];
    assert p in r[..split] <==> p in multiset(Keep(items, InStock));
    assert p in r[split..] <==> p in multiset(Keep(items, NoStock));
    KeepMembership(items, InStock, p);
    KeepMembership(items, NoStock, p);
  }

  /** The search and the eight `items = items.filter(…)` steps. */
  method ApplyFilters(products: seq<Product>, search: string, f: Filters, loc: Locale)
    returns (items: seq<Product>)
    ensures items == Matching(loc, search, f, products)
  {
    items := ApplyScalarFilters(products, search, f, loc);
    items := FilterWhen(loc, search, f, 5, products, items, f.temporada != TODAS,
      (p: Product) => Lists(p.temporadas, f.temporada));
    items := FilterWhen(loc, search, f, 6, products, items, f.horario != TODAS,
      (p: Product) => Lists(p.horarios, f.horario));
    items := FilterWhen(loc, search, f, 7, products, items, f.ocasion != TODAS,
      (p: Product) => Lists(p.ocasiones, f.ocasion));
    items := FilterWhen(loc, search, f, 8, products, items, f.edad != TODAS,
      (p: Product) => Lists(p.edades, f.edad));
  }

  /** The search and the four single-valued filters. */
  method ApplyScalarFilters(products: seq<Product>, search: string, f: Filters, loc: Locale)
    returns (items: seq<Product>)
    ensures items == SelectUpto(loc, search, f, 5, products)
  {
    SelectUptoAll(loc, search, f, products);
    items := products;
    var q := loc.lower(search);
    items := FilterWhen(loc, search, f, 0, products, items, search != "",
      (p: Product) => MatchesSearch(loc, p, q));
    items := FilterWhen(loc, search, f, 1, products, items, f.genero != TODAS,
      (p: Product) => p.genero == Some(f.genero));
    items := FilterWhen(loc, search, f, 2, products, items, f.estilo != TODAS,
      (p: Product) => p.estilo == Some(f.estilo));
    items := FilterWhen(loc, search, f, 3, products, items, f.concentracion != TODAS,
      (p: Product) => p.concentracion == Some(f.concentracion));
    items := FilterWhen(loc, search, f, 4, products, items, f.marca != TODAS,
      (p: Product) => p.marca == f.marca);
  }

  /** `if (active) items = items.filter(keep)` as step `n` of the pipeline:
      from the list after `n` steps it yields the list after `n + 1`. */
  method FilterWhen(ghost loc: Locale, ghost search: string, ghost f: Filters, ghost n: nat, ghost s: seq<Product>,
                    items: seq<Product>, active: bool, keep: Product -> bool)
    returns (r: seq<Product>)
    requires items == SelectUpto(loc, search, f, n, s)
    requires active ==> forall p :: keep(p) == StepTest(loc, search, f, n, p)
    requires !active ==> forall p :: StepTest(loc, search, f, n, p)
    ensures r == SelectUpto(loc, search, f, n + 1, s)
  {
    if active {
      FilterStep(loc, search, f, n, s, keep);
      r := Keep(items, keep);
    } else {
      SkipStep(loc, search, f, n, s);
      r := items;
    }
  }

  /** `[...sortFn(withStock), ...sortFn(noStock)]` */
  method SortByStock(items: seq<Product>, sort: string, loc: Locale) returns (r: seq<Product>, split: nat)
    ensures split == |Keep(items, InStock)|
    ensures |r| == |Keep(items, InStock)| + |Keep(items, NoStock)|
    ensures multiset(r[..split]) == multiset(Keep(items, InStock))
    ensures multiset(r[split..]) == multiset(Keep(items, NoStock))
    ensures SortedBy(ParseSort(sort), loc, r[..split]) && SortedBy(ParseSort(sort), loc, r[split..])
    ensures !KnownSort(sort) ==> r == Keep(items, InStock) + Keep(items, NoStock)
    ensures forall k :: 0 <= k < split ==> InStock(r[k])
    ensures forall k :: split <= k < |r| ==> NoStock(r[k])
  {
    var withStock := Keep(items, InStock);
    var noStock := Keep(items, NoStock);
    var sortedIn := SortPart(withStock, sort, loc);
    var sortedOut := SortPart(noStock, sort, loc);
    assert |sortedIn| == |multiset(sortedIn)| == |multiset(withStock)| == |withStock|;
    assert |sortedOut| == |multiset(sortedOut)| == |multiset(noStock)| == |noStock|;
    r := sortedIn + sortedOut;
    split := |sortedIn|;
    assert r[..split] == sortedIn && r[split..] == sortedOut;
    PermutedKeep(sortedIn, items, InStock);
    PermutedKeep(sortedOut, items, NoStock);
  }

  /** A rearrangement of `Keep(items, f)` holds only elements that pass `f`. */
  lemma PermutedKeep(t: seq<Product>, items: seq<Product>, f: Product -> bool)
    requires multiset(t) == multiset(Keep(items, f))
    ensures forall k :: 0 <= k < |t| ==> f(t[k])
  {
    forall k | 0 <= k < |t| ensures f(t[k]) {
      assert t[k] in multiset(Keep(items, f));
      KeepMembership(items, f, t[k]);
    }
  }

  /** `sortFn(arr)`: `arr` is a fresh array built by `filter`, sorted in place. */
  method SortPart(s: seq<Product>, sort: string, loc: Locale) returns (t: seq<Product>)
    ensures SortedBy(ParseSort(sort), loc, t)
    ensures multiset(t) == multiset(s)
    ensures !KnownSort(sort) ==> t == s
  {
    var a := new Product[|s|](k requires 0 <= k < |s| => s[k]);
    assert a[..] == s;
    SortProducts(a, ParseSort(sort), loc);
    t := a[..];
  }
}

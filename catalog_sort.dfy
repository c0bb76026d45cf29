/** `sortFn` of the catalogue page (`src/app/catalogo/page.tsx`): the comparator
    of each sort key and `Array.prototype.sort` on a fresh array, modelled as an
    in-place insertion sort by adjacent swaps. */
module CatalogSort {
  import opened Prelude
  import opened Products

  const PRICE_ASC := "Precio: menor a mayor"
  const PRICE_DESC := "Precio: mayor a menor"
  const NAME_ASC := "Nombre A-Z"
  const NAME_DESC := "Nombre Z-A"
  const BRAND_ASC := "Marca A-Z"
  const STOCK_DESC := "Mayor stock"

  /** The keys `sortFn` switches on; any other key ("Relevancia" included)
      leaves the array as it is. */
  predicate KnownSort(key: string) {
    key in {PRICE_ASC, PRICE_DESC, NAME_ASC, NAME_DESC, BRAND_ASC, STOCK_DESC}
  }

  /** `a.precios?.unitario ?? 0` */
  function PriceKey(p: Product): int {
    PrecioUnitario(p).GetOr(0)
  }

  /** `p.stock` as a number; a product without one sorts as 0. */
  function StockKey(p: Product): int {
    p.stock.GetOr(0)
  }

  /** The sort keys `sortFn` switches on, and `Unsorted` for every other
      key. */
  datatype SortKey = PriceAsc | PriceDesc | NameAsc | NameDesc | BrandAsc | StockDesc | Unsorted

  /** The `switch (sort)` of `sortFn`. */
  function ParseSort(key: string): (k: SortKey)
    ensures k == Unsorted <==> !KnownSort(key)
    ensures key == PRICE_ASC <==> k == PriceAsc
    ensures key == PRICE_DESC <==> k == PriceDesc
    ensures key == NAME_ASC <==> k == NameAsc
    ensures key == NAME_DESC <==> k == NameDesc
    ensures key == BRAND_ASC <==> k == BrandAsc
    ensures key == STOCK_DESC <==> k == StockDesc
  {
    if key == PRICE_ASC then PriceAsc
    else if key == PRICE_DESC then PriceDesc
    else if key == NAME_ASC then NameAsc
    else if key == NAME_DESC then NameDesc
    else if key == BRAND_ASC then BrandAsc
    else if key == STOCK_DESC then StockDesc
    else Unsorted
  }

  /** The comparator of each sort key: negative when `a` goes first, positive
      when `b` does. */
  function Compare(key: SortKey, loc: Locale, a: Product, b: Product): int {
    match key
    case PriceAsc => PriceKey(a) - PriceKey(b)
    case PriceDesc => PriceKey(b) - PriceKey(a)
    case NameAsc => LocaleCompare(loc, a.nombre, b.nombre)
    case NameDesc => LocaleCompare(loc, b.nombre, a.nombre)
    case BrandAsc =>
      var m := LocaleCompare(loc, a.marca, b.marca);
      if m != 0 then m else LocaleCompare(loc, a.nombre, b.nombre)
    case StockDesc => StockKey(b) - StockKey(a)
    case Unsorted => 0
  }

  /** `a` may stand before `b`. */
  predicate Le(key: SortKey, loc: Locale, a: Product, b: Product) {
    Compare(key, loc, a, b) <= 0
  }

  /** Every comparator is a total preorder: whenever it puts `b` first, `b`
      may stand before `a`. */
  lemma CompareFlip(key: SortKey, loc: Locale, a: Product, b: Product)
    requires Compare(key, loc, a, b) > 0
    ensures Compare(key, loc, b, a) < 0
  {
  }

  /** … and it is transitive. */
  lemma CompareTrans(key: SortKey, loc: Locale, a: Product, b: Product, c: Product)
    requires Le(key, loc, a, b) && Le(key, loc, b, c)
    ensures Le(key, loc, a, c)
  {
  }

  predicate SortedBy(key: SortKey, loc: Locale, s: seq<Product>) {
    forall k, l :: 0 <= k < l < |s| ==> Le(key, loc, s[k], s[l])
  }

  /** What sortedness means for each key. */
  lemma SortedMeaning(key: SortKey, loc: Locale, s: seq<Product>, k: int, l: int)
    requires SortedBy(key, loc, s) && 0 <= k < l < |s|
    ensures key == PriceAsc ==> PriceKey(s[k]) <= PriceKey(s[l])
    ensures key == PriceDesc ==> PriceKey(s[k]) >= PriceKey(s[l])
    ensures key == NameAsc ==> loc.collate(s[k].nombre) <= loc.collate(s[l].nombre)
    ensures key == NameDesc ==> loc.collate(s[k].nombre) >= loc.collate(s[l].nombre)
    ensures key == BrandAsc ==>
      || loc.collate(s[k].marca) < loc.collate(s[l].marca)
      || (loc.collate(s[k].marca) == loc.collate(s[l].marca)
          && loc.collate(s[k].nombre) <= loc.collate(s[l].nombre))
    ensures key == StockDesc ==> StockKey(s[k]) >= StockKey(s[l])
  {
    assert Le(key, loc, s[k], s[l]);
  }

  /** `arr.sort(cmp)` for a known key, or nothing for any other key: the array
      ends up ordered by the key's comparator and holds the same products. */
  method SortProducts(a: array<Product>, key: SortKey, loc: Locale)
    modifies a
    ensures SortedBy(key, loc, a[..])
    ensures multiset(a[..]) == multiset(old(a[..]))
    ensures key == Unsorted ==> a[..] == old(a[..])
  {
    if key == Unsorted {
      return;
    }
    var i := 0;
    while i < a.Length
      invariant 0 <= i <= a.Length
      invariant SortedBy(key, loc, a[..i])
      invariant multiset(a[..]) == multiset(old(a[..]))
    {
      InsertAt(a, i, key, loc);
      i := i + 1;
    }
    assert a[..] == a[..a.Length];
  }

  /** While `a[i]` is moved left to position `j`, the prefix `s[..i + 1]` is
      ordered except around `j`, and everything after `j` may follow `s[j]`. */
  predicate Inserting(key: SortKey, loc: Locale, s: seq<Product>, i: int, j: int)
    requires 0 <= j <= i < |s|
  {
    && (forall k, l :: 0 <= k < l <= i && k != j && l != j ==> Le(key, loc, s[k], s[l]))
    && (forall l :: j < l <= i ==> Le(key, loc, s[j], s[l]))
  }

  lemma InsertingStart(key: SortKey, loc: Locale, s: seq<Product>, i: int)
    requires 0 <= i < |s| && SortedBy(key, loc, s[..i])
    ensures Inserting(key, loc, s, i, i)
  {
    forall k, l | 0 <= k < l <= i && k != i && l != i
      ensures Le(key, loc, s[k], s[l])
    {
      assert s[k] == s[..i][k] && s[l] == s[..i][l];
    }
  }

  /** One adjacent swap keeps the insertion invariant. */
  lemma InsertingSwap(key: SortKey, loc: Locale, s: seq<Product>, i: int, j: int)
    requires 0 < j <= i < |s| && Inserting(key, loc, s, i, j)
    requires Compare(key, loc, s[j - 1], s[j]) > 0
    ensures Inserting(key, loc, s[j - 1 := s[j]][j := s[j - 1]], i, j - 1)
  {
    var t := s[j - 1 := s[j]][j := s[j - 1]];
    CompareFlip(key, loc, s[j - 1], s[j]);
    forall k, l | 0 <= k < l <= i && k != j - 1 && l != j - 1
      ensures Le(key, loc, t[k], t[l])
    {
      if l == j {
        assert t[l] == s[j - 1];
        assert t[k] == s[k];
      } else if k == j {
        assert t[k] == s[j - 1];
        assert t[l] == s[l];
      } else {
        assert t[k] == s[k] && t[l] == s[l];
      }
    }
    forall l | j - 1 < l <= i
      ensures Le(key, loc, t[j - 1], t[l])
    {
      assert t[j - 1] == s[j];
      if l == j {
        assert t[l] == s[j - 1];
      } else {
        assert t[l] == s[l];
      }
    }
  }

  /** When the moved element may follow its left neighbour (or has reached
      the front) the prefix is ordered. */
  lemma InsertingDone(key: SortKey, loc: Locale, s: seq<Product>, i: int, j: int)
    requires 0 <= j <= i < |s| && Inserting(key, loc, s, i, j)
    requires j > 0 ==> Compare(key, loc, s[j - 1], s[j]) <= 0
    ensures SortedBy(key, loc, s[..i + 1])
  {
    var p := s[..i + 1];
    forall k, l | 0 <= k < l < |p|
      ensures Le(key, loc, p[k], p[l])
    {
      assert p[k] == s[k] && p[l] == s[l];
      if l == j {
        if k < j - 1 {
          CompareTrans(key, loc, s[k], s[j - 1], s[j]);
        }
      }
    }
  }

  lemma SwapKeepsMultiset(s: seq<Product>, i: int, j: int)
    requires 0 <= i < j < |s|
    ensures multiset(s[i := s[j]][j := s[i]]) == multiset(s)
  {
  }

  /** Moves `a[i]` left past every element its comparator puts after it, so
      that `a[..i + 1]` is ordered. */
  method InsertAt(a: array<Product>, i: int, key: SortKey, loc: Locale)
    requires 0 <= i < a.Length
    requires SortedBy(key, loc, a[..i])
    modifies a
    ensures SortedBy(key, loc, a[..i + 1])
    ensures multiset(a[..]) == multiset(old(a[..]))
  {
    InsertingStart(key, loc, a[..], i);
    var j := i;
    while j > 0 && Compare(key, loc, a[j - 1], a[j]) > 0
      invariant 0 <= j <= i
      invariant Inserting(key, loc, a[..], i, j)
      invariant multiset(a[..]) == multiset(old(a[..]))
    {
      ghost var before := a[..];
      InsertingSwap(key, loc, before, i, j);
      SwapKeepsMultiset(before, j - 1, j);
      a[j - 1], a[j] := a[j], a[j - 1];
      assert a[..] == before[j - 1 := before[j]][j := before[j - 1]];
      j := j - 1;
    }
    InsertingDone(key, loc, a[..], i, j);
  }
}

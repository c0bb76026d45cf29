/** The state of the catalogue page (`src/app/catalogo/page.tsx`) that the
    handlers change: search text, filter selections, sort key, the lazy-load
    window, the open product and the two quantity steppers of its modal. */
module CatalogPage {
  import opened Prelude
  import opened Products
  import opened Cart
  import opened CatalogFilter
  import opened CatalogSort

  const BATCH_SIZE: nat := 12
  const RELEVANCIA := "Relevancia"

  datatype FilterKind = Genero | Estilo | Concentracion | Marca | Temporada | Horario | Ocasion | Edad

  function WithFilter(f: Filters, kind: FilterKind, v: string): Filters {
    match kind
    case Genero => f.(genero := v)
    case Estilo => f.(estilo := v)
    case Concentracion => f.(concentracion := v)
    case Marca => f.(marca := v)
    case Temporada => f.(temporada := v)
    case Horario => f.(horario := v)
    case Ocasion => f.(ocasion := v)
    case Edad => f.(edad := v)
  }

  function Selection(f: Filters, kind: FilterKind): string {
    match kind
    case Genero => f.genero
    case Estilo => f.estilo
    case Concentracion => f.concentracion
    case Marca => f.marca
    case Temporada => f.temporada
    case Horario => f.horario
    case Ocasion => f.ocasion
    case Edad => f.edad
  }

  /** Setting one filter changes that selection and no other. */
  lemma WithFilterEffect(f: Filters, kind: FilterKind, v: string, other: FilterKind)
    ensures Selection(WithFilter(f, kind, v), kind) == v
    ensures other != kind ==> Selection(WithFilter(f, kind, v), other) == Selection(f, other)
  {
  }

  function One(b: bool): nat {
    if b then 1 else 0
  }

  /** `(v) => v !== "Todas"` */
  predicate IsActive(v: string) {
    v != TODAS
  }

  /** The eight selections, in the order the page lists them. */
  function Selections(f: Filters): seq<string> {
    [f.genero, f.estilo, f.concentracion, f.marca, f.temporada, f.horario, f.ocasion, f.edad]
  }

  /** `activeFilterCount` */
  function ActiveFilterCount(f: Filters): nat {
    |Keep(Selections(f), IsActive)|
  }

  function CountActive(vs: seq<string>): nat {
    if vs == [] then 0 else One(IsActive(vs[0])) + CountActive(vs[1..])
  }

  lemma {:induction false} KeepCountsActive(vs: seq<string>)
    ensures |Keep(vs, IsActive)| == CountActive(vs)
  {
    if vs != [] {
      KeepCountsActive(vs[1..]);
    }
  }

  /** One point per selection not at "Todas". */
  function ActiveSum(f: Filters): nat {
    One(IsActive(f.genero)) + One(IsActive(f.estilo)) + One(IsActive(f.concentracion)) + One(IsActive(f.marca))
    + One(IsActive(f.temporada)) + One(IsActive(f.horario)) + One(IsActive(f.ocasion)) + One(IsActive(f.edad))
  }

  lemma SelectionsCount(f: Filters)
    ensures CountActive(Selections(f)) == ActiveSum(f)
  {
    var vs := Selections(f);
    var t1 := [f.estilo, f.concentracion, f.marca, f.temporada, f.horario, f.ocasion, f.edad];
    var t2 := [f.concentracion, f.marca, f.temporada, f.horario, f.ocasion, f.edad];
    var t3 := [f.marca, f.temporada, f.horario, f.ocasion, f.edad];
    var t4 := [f.temporada, f.horario, f.ocasion, f.edad];
    var t5 := [f.horario, f.ocasion, f.edad];
    var t6 := [f.ocasion, f.edad];
    var t7 := [f.edad];
    assert vs[1..] == t1 && t1[1..] == t2 && t2[1..] == t3 && t3[1..] == t4;
    assert t4[1..] == t5 && t5[1..] == t6 && t6[1..] == t7 && t7[1..] == [];
    assert CountActive(t7) == One(IsActive(f.edad));
    assert CountActive(t6) == One(IsActive(f.ocasion)) + CountActive(t7);
    assert CountActive(t5) == One(IsActive(f.horario)) + CountActive(t6);
    assert CountActive(t4) == One(IsActive(f.temporada)) + CountActive(t5);
    assert CountActive(t3) == One(IsActive(f.marca)) + CountActive(t4);
    assert CountActive(t2) == One(IsActive(f.concentracion)) + CountActive(t3);
    assert CountActive(t1) == One(IsActive(f.estilo)) + CountActive(t2);
  }

  /** The count is the number of the eight selections not at "Todas". */
  lemma ActiveFilterCountIs(f: Filters)
    ensures ActiveFilterCount(f) == ActiveSum(f)
  {
    KeepCountsActive(Selections(f));
    SelectionsCount(f);
  }

  /** At most eight filters are active, and none exactly when every
      selection is "Todas". */
  lemma ActiveFilterCountZero(f: Filters)
    ensures ActiveFilterCount(f) <= 8
    ensures ActiveFilterCount(f) == 0 <==> f == NO_FILTERS
  {
    ActiveFilterCountIs(f);
    ActiveSumZero(f);
  }

  lemma ActiveSumZero(f: Filters)
    ensures ActiveSum(f) <= 8
    ensures ActiveSum(f) == 0 <==> f == NO_FILTERS
  {
    if ActiveSum(f) == 0 {
      assert !IsActive(f.genero) && !IsActive(f.estilo) && !IsActive(f.concentracion) && !IsActive(f.marca);
      assert !IsActive(f.temporada) && !IsActive(f.horario) && !IsActive(f.ocasion) && !IsActive(f.edad);
    }
  }

  /** The batching of an observer that fires `hits` times on a list of
      `len` products, starting from the reset value. */
  function AfterHits(start: nat, len: nat, hits: nat): nat
    decreases hits
  {
    if hits == 0 then start else AfterHits(if start + BATCH_SIZE < len then start + BATCH_SIZE else len, len, hits - 1)
  }

  function Min(a: int, b: int): int {
    if a <= b then a else b
  }

  /** After a reset and `k` sentinel hits, `min(12·(k + 1), len)` products are
      visible: one batch of 12 more per hit until the list runs out. */
  lemma {:induction false} BatchingClosedForm(len: nat, k: nat)
    ensures Min(AfterHits(BATCH_SIZE, len, k), len) == Min(BATCH_SIZE * (k + 1), len)
  {
    AfterHitsFrom(BATCH_SIZE, len, k);
  }

  lemma {:induction false} AfterHitsFrom(start: nat, len: nat, k: nat)
    ensures Min(AfterHits(start, len, k), len) == Min(start + BATCH_SIZE * k, len)
    decreases k
  {
    if k > 0 {
      var next := if start + BATCH_SIZE < len then start + BATCH_SIZE else len;
      AfterHitsFrom(next, len, k - 1);
      if start + BATCH_SIZE >= len {
        assert AfterHits(len, len, k - 1) == len by { KeepsFull(len, k - 1); }
      }
    }
  }

  lemma {:induction false} KeepsFull(len: nat, k: nat)
    ensures AfterHits(len, len, k) == len
  {
    if k > 0 {
      KeepsFull(len, k - 1);
    }
  }

  /** The "Sin stock" badge and disabled add buttons: no stock (missing, not
      a number, or 0), a non-positive stock, or a missing or zero unit price. */
  predicate ShowsOutOfStock(p: Product) {
    || p.stock.None? || p.stock.value <= 0
    || PrecioUnitario(p).None? || PrecioUnitario(p).value == 0
  }

  /** The badge agrees with the stock partition on stock, but also marks
      in-stock products without a unit price; such a product is sorted among
      the in-stock ones and shown as unavailable. */
  lemma BadgeVersusPartition(p: Product)
    ensures NoStock(p) ==> ShowsOutOfStock(p)
    ensures InStock(p) && PrecioUnitario(p).Some? && PrecioUnitario(p).value != 0 ==> !ShowsOutOfStock(p)
    ensures InStock(p) && PrecioUnitario(p).None? ==> ShowsOutOfStock(p)
  {
  }

  /** The line `addItem` receives for a catalogue product. */
  function CatalogItem(p: Product): (it: NewItem)
    ensures it.id == p.id && it.name == p.nombre && it.marca == p.marca
    ensures it.prices.unitario == PrecioUnitario(p).GetOr(0)
    ensures it.prices.mayorista_3 == PrecioMayorista3(p) && it.prices.mayorista_10 == PrecioMayorista10(p)
    ensures it.image == p.imagen.GetOr("")
  {
    NewItem(p.id, p.nombre, p.marca, Prices(PrecioUnitario(p).GetOr(0), PrecioMayorista3(p), PrecioMayorista10(p)), p.imagen.GetOr(""))
  }

  /** The cart charges a catalogue line, at every tier, the price the
      product's own table gives for that tier: the 10+ price, else the 3+
      price, else the unit price, a missing unit price counting 0. */
  lemma CatalogLineCharges(p: Product, t: PriceTier)
    ensures var charged := GetEffectivePrice(FreshLine(CatalogItem(p)).prices, t);
      && (t == Mayorista10 && PrecioMayorista10(p).Some? ==> charged == PrecioMayorista10(p).value)
      && (t != Unitario && !(t == Mayorista10 && PrecioMayorista10(p).Some?) && PrecioMayorista3(p).Some? ==>
            charged == PrecioMayorista3(p).value)
      && (t == Unitario || (PrecioMayorista3(p).None? && (t == Mayorista3 || PrecioMayorista10(p).None?)) ==>
            charged == PrecioUnitario(p).GetOr(0))
  {
  }

  /** What `handleAddDecantFromModal` does: nothing without an open product
      or without a decant price; otherwise it calls `addDecant`, which
      `useCart` does not provide, so the click fails before any line is
      added. */
  datatype DecantOutcome = Ignored | AddDecantUnavailable

  class CatalogPageState {
    var search: string
    var filters: Filters
    var sort: string
    var visibleCount: nat
    var qty: int
    var decantQty: int
    var flip: Option<Product>

    /** Both steppers stay at 1 or more. */
    ghost predicate Valid()
      reads this
    {
      qty >= 1 && decantQty >= 1
    }

    constructor ()
      ensures search == "" && filters == NO_FILTERS && sort == RELEVANCIA
      ensures visibleCount == BATCH_SIZE && qty == 1 && decantQty == 1 && flip == None
      ensures Valid()
    {
      search := "";
      filters := NO_FILTERS;
      sort := RELEVANCIA;
      visibleCount := BATCH_SIZE;
      qty := 1;
      decantQty := 1;
      flip := None;
    }

    method SetSearch(s: string)
      modifies this
      ensures search == s
      ensures filters == old(filters) && sort == old(sort) && visibleCount == old(visibleCount)
      ensures qty == old(qty) && decantQty == old(decantQty) && flip == old(flip)
    {
      search := s;
    }

    method SetSort(s: string)
      modifies this
      ensures sort == s
      ensures search == old(search) && filters == old(filters) && visibleCount == old(visibleCount)
      ensures qty == old(qty) && decantQty == old(decantQty) && flip == old(flip)
    {
      sort := s;
    }

    /** `setFGenero(v)` and the seven others. */
    method SetFilter(kind: FilterKind, v: string)
      modifies this
      ensures filters == WithFilter(old(filters), kind, v)
      ensures search == old(search) && sort == old(sort) && visibleCount == old(visibleCount)
      ensures qty == old(qty) && decantQty == old(decantQty) && flip == old(flip)
    {
      filters := WithFilter(filters, kind, v);
    }

    /** `clearFilters`: every filter back to "Todas" and the search emptied;
        the sort key stays. */
    method ClearFilters()
      modifies this
      ensures filters == NO_FILTERS && search == ""
      ensures ActiveFilterCount(filters) == 0
      ensures sort == old(sort) && visibleCount == old(visibleCount)
      ensures qty == old(qty) && decantQty == old(decantQty) && flip == old(flip)
    {
      ActiveFilterCountZero(NO_FILTERS);
      filters := NO_FILTERS;
      search := "";
    }

    /** The effect run whenever `filtered` changes. */
    method ResetVisible()
      modifies this
      ensures visibleCount == BATCH_SIZE
      ensures search == old(search) && filters == old(filters) && sort == old(sort)
      ensures qty == old(qty) && decantQty == old(decantQty) && flip == old(flip)
    {
      visibleCount := BATCH_SIZE;
    }

    /** The observer callback when the sentinel comes into view. */
    method SentinelHit(filteredLength: nat)
      modifies this
      ensures visibleCount == Min(old(visibleCount) + BATCH_SIZE, filteredLength)
      ensures visibleCount <= filteredLength
      ensures search == old(search) && filters == old(filters) && sort == old(sort)
      ensures qty == old(qty) && decantQty == old(decantQty) && flip == old(flip)
    {
      visibleCount := if visibleCount + BATCH_SIZE < filteredLength then visibleCount + BATCH_SIZE else filteredLength;
    }

    /** `filtered.slice(0, visibleCount)` */
    function VisibleProducts(filtered: seq<Product>): (r: seq<Product>)
      reads this
      ensures |r| == Min(visibleCount, |filtered|)
      ensures forall k :: 0 <= k < |r| ==> r[k] == filtered[k]
    {
      filtered[..Min(visibleCount, |filtered|)]
    }

    /** The sentinel is rendered while products remain hidden. */
    predicate ShowsSentinel(filtered: seq<Product>)
      reads this
    {
      visibleCount < |filtered|
    }

    /** The listing the page renders from the current state: the `filtered`
        memo, with `split` where its out-of-stock part begins, and the batch
        of it on screen. */
    method Listing(products: seq<Product>, loc: Locale) returns (filtered: seq<Product>, split: nat, visible: seq<Product>)
      ensures var m := Matching(loc, search, filters, products);
        && split == |Keep(m, InStock)| <= |filtered|
        && multiset(filtered[..split]) == multiset(Keep(m, InStock))
        && multiset(filtered[split..]) == multiset(Keep(m, NoStock))
        && SortedBy(ParseSort(sort), loc, filtered[..split])
        && SortedBy(ParseSort(sort), loc, filtered[split..])
        && (!KnownSort(sort) ==> filtered == Keep(m, InStock) + Keep(m, NoStock))
      ensures forall k :: 0 <= k < split ==> InStock(filtered[k])
      ensures forall k :: split <= k < |filtered| ==> NoStock(filtered[k])
      ensures forall p :: p in filtered <==> p in products && Selected(loc, search, filters, p) && p.stock.Some?
      ensures visible == VisibleProducts(filtered)
    {
      filtered, split := Filtered(products, search, filters, sort, loc);
      visible := VisibleProducts(filtered);
    }

    /** `openFlip`: both steppers restart at 1. */
    method OpenFlip(p: Product)
      modifies this
      ensures flip == Some(p) && qty == 1 && decantQty == 1
      ensures Valid()
      ensures search == old(search) && filters == old(filters) && sort == old(sort)
      ensures visibleCount == old(visibleCount)
    {
      qty := 1;
      decantQty := 1;
      flip := Some(p);
    }

    /** The end of the closing animation, when the modal's product is
        cleared; the intermediate phases are not modelled. */
    method CloseFlip()
      modifies this
      ensures flip == None
      ensures qty == old(qty) && decantQty == old(decantQty)
      ensures search == old(search) && filters == old(filters) && sort == old(sort)
      ensures visibleCount == old(visibleCount)
    {
      flip := None;
    }

    /** The "−" button: `setQty(Math.max(1, qty - 1))`. */
    method DecQty()
      modifies this
      ensures qty == if old(qty) - 1 >= 1 then old(qty) - 1 else 1
      ensures old(Valid()) ==> Valid()
      ensures decantQty == old(decantQty) && flip == old(flip)
      ensures search == old(search) && filters == old(filters) && sort == old(sort)
      ensures visibleCount == old(visibleCount)
    {
      qty := if qty - 1 >= 1 then qty - 1 else 1;
    }

    method IncQty()
      modifies this
      ensures qty == old(qty) + 1
      ensures old(Valid()) ==> Valid()
      ensures decantQty == old(decantQty) && flip == old(flip)
      ensures search == old(search) && filters == old(filters) && sort == old(sort)
      ensures visibleCount == old(visibleCount)
    {
      qty := qty + 1;
    }

    method DecDecantQty()
      modifies this
      ensures decantQty == if old(decantQty) - 1 >= 1 then old(decantQty) - 1 else 1
      ensures old(Valid()) ==> Valid()
      ensures qty == old(qty) && flip == old(flip)
      ensures search == old(search) && filters == old(filters) && sort == old(sort)
      ensures visibleCount == old(visibleCount)
    {
      decantQty := if decantQty - 1 >= 1 then decantQty - 1 else 1;
    }

    method IncDecantQty()
      modifies this
      ensures decantQty == old(decantQty) + 1
      ensures old(Valid()) ==> Valid()
      ensures qty == old(qty) && flip == old(flip)
      ensures search == old(search) && filters == old(filters) && sort == old(sort)
      ensures visibleCount == old(visibleCount)
    {
      decantQty := decantQty + 1;
    }

    /** `handleAddFromModal`: `addItem` called `qty` times with the open
        product; nothing without an open product. */
    method HandleAddFromModal(cart: CartStore)
      modifies cart
      ensures flip.None? ==> cart.items == old(cart.items) && cart.isOpen == old(cart.isOpen)
      ensures flip.Some? && qty >= 1 ==>
        cart.items == AddRepeated(old(cart.items), CatalogItem(flip.value), qty) && cart.isOpen
      ensures flip.Some? && qty < 1 ==> cart.items == old(cart.items) && cart.isOpen == old(cart.isOpen)
      ensures old(cart.Valid()) ==> cart.Valid()
    {
      if flip.None? {
        return;
      }
      var p := flip.value;
      var it := CatalogItem(p);
      var i := 0;
      while i < qty
        invariant 0 <= i && (qty >= 0 ==> i <= qty)
        invariant qty < 1 ==> i == 0
        invariant cart.items == AddRepeated(old(cart.items), it, i)
        invariant i > 0 ==> cart.isOpen
        invariant i == 0 ==> cart.isOpen == old(cart.isOpen)
        invariant old(cart.Valid()) ==> cart.Valid()
      {
        cart.AddItem(it);
        i := i + 1;
      }
    }

    /** `handleAddDecantFromModal` */
    method HandleAddDecantFromModal() returns (outcome: DecantOutcome)
      ensures outcome == AddDecantUnavailable <==> flip.Some? && PrecioDecant(flip.value).Some?
    {
      if flip.None? {
        return Ignored;
      }
      var p := flip.value;
      if PrecioDecant(p).None? {
        return Ignored;
      }
      return AddDecantUnavailable;
    }
  }

  /** The add button on a card or list row: disabled while the product shows
      as out of stock, otherwise one `addItem` with the product's prices. */
  method QuickAdd(p: Product, cart: CartStore)
    modifies cart
    ensures ShowsOutOfStock(p) ==> cart.items == old(cart.items) && cart.isOpen == old(cart.isOpen)
    ensures !ShowsOutOfStock(p) ==> cart.items == AddLine(old(cart.items), CatalogItem(p)) && cart.isOpen
    ensures old(cart.Valid()) ==> cart.Valid()
  {
    if !ShowsOutOfStock(p) {
      cart.AddItem(CatalogItem(p));
    }
  }

  /** Adding `q ≥ 1` copies from the modal raises an existing line by `q`, or
      appends one line holding `q` units, and keeps ids unique. */
  lemma ModalAddEffect(items: seq<CartItem>, p: Product, q: nat)
    requires Wellformed(items) && q >= 1
    ensures var after := AddRepeated(items, CatalogItem(p), q);
      && Wellformed(after)
      && SumQty(after) == SumQty(items) + q
      && (!HasId(items, p.id) ==> after == items + [FreshLine(CatalogItem(p)).(qty := q)])
  {
    ModalAddCounts(items, CatalogItem(p), q);
  }

  lemma {:induction false} ModalAddCounts(items: seq<CartItem>, it: NewItem, q: nat)
    requires Wellformed(items)
    ensures Wellformed(AddRepeated(items, it, q))
    ensures SumQty(AddRepeated(items, it, q)) == SumQty(items) + q
    ensures q >= 1 && !HasId(items, it.id) ==> AddRepeated(items, it, q) == items + [FreshLine(it).(qty := q)]
  {
    if q > 0 {
      ModalAddCounts(items, it, q - 1);
      AddLinePreserves(AddRepeated(items, it, q - 1), it);
      AddLineCountsOne(AddRepeated(items, it, q - 1), it);
      if !HasId(items, it.id) {
        AddRepeatedNew(items, it, q);
      }
    }
  }
}

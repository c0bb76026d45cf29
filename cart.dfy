/** The cart of `src/lib/CartContext.tsx`: tiered wholesale pricing, the store
    that holds the cart lines and the drawer flag, the derived count, tier and
    total of `useCart`, the WhatsApp order message, and what is persisted and
    migrated on load.  Line identity is the product id alone. */
module Cart {
  import opened Prelude

  /* ── Tiered pricing ───────────────────────────────────────── */

  datatype PriceTier = Unitario | Mayorista3 | Mayorista10

  /** `CartItemPrices`: the price snapshot a line carries. */
  datatype Prices = Prices(unitario: int, mayorista_3: Option<int>, mayorista_10: Option<int>)

  /** `getPriceTier`: the band the total number of units falls in. */
  function GetPriceTier(totalQty: int): (t: PriceTier)
    ensures t == Mayorista10 <==> totalQty >= 10
    ensures t == Mayorista3 <==> 3 <= totalQty < 10
    ensures t == Unitario <==> totalQty < 3
  {
    if totalQty >= 10 then Mayorista10
    else if totalQty >= 3 then Mayorista3
    else Unitario
  }

  /** Position of a tier in the order unit < wholesale 3+ < wholesale 10+. */
  function TierRank(t: PriceTier): nat {
    match t
    case Unitario => 0
    case Mayorista3 => 1
    case Mayorista10 => 2
  }

  /** More units never select a lower tier. */
  lemma PriceTierMonotone(a: int, b: int)
    requires a <= b
    ensures TierRank(GetPriceTier(a)) <= TierRank(GetPriceTier(b))
  {
  }

  /** `getTierLabel` */
  function GetTierLabel(t: PriceTier): string {
    match t
    case Mayorista10 => "Mayorista 10+"
    case Mayorista3 => "Mayorista 3+"
    case Unitario => "Unitario"
  }

  /** The label names the tier: distinct tiers get distinct labels. */
  lemma TierLabelInjective(s: PriceTier, t: PriceTier)
    requires GetTierLabel(s) == GetTierLabel(t)
    ensures s == t
  {
  }

  /** The prices a tier may fall back on, best first, before the unit price. */
  function FallbackChain(p: Prices, t: PriceTier): seq<Option<int>> {
    match t
    case Mayorista10 => [p.mayorista_10, p.mayorista_3]
    case Mayorista3 => [p.mayorista_3]
    case Unitario => []
  }

  /** The first present price of the chain, else `last`. */
  function FirstPresent(chain: seq<Option<int>>, last: int): int {
    if chain == [] then last
    else if chain[0].Some? then chain[0].value
    else FirstPresent(chain[1..], last)
  }

  /** The fallback chain read out, tier by tier. */
  lemma FallbackChainUnfolds(p: Prices, t: PriceTier)
    ensures t == Mayorista10 ==>
      (FirstPresent(FallbackChain(p, t), p.unitario)
         == if p.mayorista_10.Some? then p.mayorista_10.value
            else if p.mayorista_3.Some? then p.mayorista_3.value
            else p.unitario)
    ensures t == Mayorista3 ==>
      (FirstPresent(FallbackChain(p, t), p.unitario)
         == if p.mayorista_3.Some? then p.mayorista_3.value else p.unitario)
    ensures t == Unitario ==> FirstPresent(FallbackChain(p, t), p.unitario) == p.unitario
  {
    var c := FallbackChain(p, t);
    if t == Mayorista10 {
      assert c[1..] == [p.mayorista_3];
      assert c[1..][1..] == [];
      assert FirstPresent(c[1..][1..], p.unitario) == p.unitario;
      assert FirstPresent(c[1..], p.unitario) == if p.mayorista_3.Some? then p.mayorista_3.value else p.unitario;
    } else if t == Mayorista3 {
      assert c[1..] == [];
    }
  }

  /** `getEffectivePrice`: 0 without a table; otherwise the first price present
      along the tier's fallback chain, ending at the unit price. */
  function GetEffectivePrice(prices: Option<Prices>, tier: PriceTier): (r: int)
    ensures prices.None? ==> r == 0
    ensures prices.Some? ==> r == FirstPresent(FallbackChain(prices.value, tier), prices.value.unitario)
  {
    if prices.None? then 0
    else
      FallbackChainUnfolds(prices.value, tier);
      if tier == Mayorista10 && prices.value.mayorista_10.Some? then prices.value.mayorista_10.value
    else if tier == Mayorista3 && prices.value.mayorista_3.Some? then prices.value.mayorista_3.value
    else if tier == Mayorista10 && prices.value.mayorista_3.Some? then prices.value.mayorista_3.value
    else prices.value.unitario
  }

  /** The unit tier reads only the unit price, and the 3+ tier never reads the
      10+ price, whatever the other fields hold. */
  lemma EffectivePriceIgnoresHigherTiers(p: Prices, m3: Option<int>, m10: Option<int>)
    ensures GetEffectivePrice(Some(p), Unitario) == p.unitario
    ensures GetEffectivePrice(Some(p), Unitario) == GetEffectivePrice(Some(p.(mayorista_3 := m3, mayorista_10 := m10)), Unitario)
    ensures GetEffectivePrice(Some(p), Mayorista3) == GetEffectivePrice(Some(p.(mayorista_10 := m10)), Mayorista3)
  {
  }

  /** A table whose wholesale prices never exceed the unit price, and whose 10+
      price never exceeds the 3+ price. */
  predicate Descending(p: Prices) {
    && (p.mayorista_3.Some? ==> p.mayorista_3.value <= p.unitario)
    && (p.mayorista_10.Some? ==> p.mayorista_10.value <= p.unitario)
    && (p.mayorista_10.Some? && p.mayorista_3.Some? ==> p.mayorista_10.value <= p.mayorista_3.value)
  }

  /** On such a table a higher tier never charges more per unit. */
  lemma EffectivePriceMonotone(p: Prices, s: PriceTier, t: PriceTier)
    requires Descending(p)
    requires TierRank(s) <= TierRank(t)
    ensures GetEffectivePrice(Some(p), t) <= GetEffectivePrice(Some(p), s)
  {
  }

  /* ── Cart lines ───────────────────────────────────────────── */

  /** `CartItem`.  `legacyPrice` is the flat `price` field that carts saved by
      earlier versions carry instead of `prices`; lines added by the current
      code have `prices` and no `legacyPrice`. */
  datatype CartItem = CartItem(
    id: string,
    name: string,
    marca: string,
    prices: Option<Prices>,
    image: string,
    qty: int,
    legacyPrice: Option<int>)

  /** `Omit<CartItem, "qty">`: what callers pass to `addItem`. */
  datatype NewItem = NewItem(id: string, name: string, marca: string, prices: Prices, image: string)

  /** `{ ...item, qty: 1 }` */
  function FreshLine(it: NewItem): CartItem {
    CartItem(it.id, it.name, it.marca, Some(it.prices), it.image, 1, None)
  }

  /** `items.find((i) => i.id === id)` finds a line. */
  predicate HasId(items: seq<CartItem>, id: string) {
    exists k :: 0 <= k < |items| && items[k].id == id
  }

  /** One line per product id. */
  predicate UniqueIds(items: seq<CartItem>) {
    forall j, k :: 0 <= j < k < |items| ==> items[j].id != items[k].id
  }

  /** Every line holds at least one unit. */
  predicate PositiveQty(items: seq<CartItem>) {
    forall k :: 0 <= k < |items| ==> items[k].qty > 0
  }

  /** Every line carries a price table, as every line `addItem` creates and
      every migrated line does. */
  predicate Priced(items: seq<CartItem>) {
    forall k :: 0 <= k < |items| ==> items[k].prices.Some?
  }

  /** The invariant the store's operations keep. */
  predicate Wellformed(items: seq<CartItem>) {
    UniqueIds(items) && PositiveQty(items)
  }

  /** The new line list of `addItem`: an existing id has its quantity raised by
      one (every line with that id, as `items.map` does); a new id is appended
      with quantity 1. */
  function AddLine(items: seq<CartItem>, it: NewItem): seq<CartItem> {
    if HasId(items, it.id) then
      seq(|items|, k requires 0 <= k < |items| =>
        if items[k].id == it.id then items[k].(qty := items[k].qty + 1) else items[k])
    else
      items + [FreshLine(it)]
  }

  /** The new line list of `removeItem`. */
  function RemoveLines(items: seq<CartItem>, id: string): seq<CartItem> {
    Keep(items, (i: CartItem) => i.id != id)
  }

  /** The new line list of `updateQty`. */
  function SetQtyLines(items: seq<CartItem>, id: string, qty: int): seq<CartItem> {
    if qty <= 0 then RemoveLines(items, id)
    else seq(|items|, k requires 0 <= k < |items| => if items[k].id == id then items[k].(qty := qty) else items[k])
  }

  /** Re-adding an id leaves the line list's length, order and every line's
      snapshot (name, brand, prices, image, legacy price) as they were; only
      that line's quantity grows by one.  A new id is appended with
      quantity 1. */
  lemma AddLineEffect(items: seq<CartItem>, it: NewItem)
    ensures HasId(items, it.id) ==>
      && |AddLine(items, it)| == |items|
      && forall k :: 0 <= k < |items| ==>
           AddLine(items, it)[k] == (if items[k].id == it.id then items[k].(qty := items[k].qty + 1) else items[k])
    ensures !HasId(items, it.id) ==> AddLine(items, it) == items + [FreshLine(it)]
  {
  }

  /** Adding the same product twice keeps the first price snapshot, even when
      the second add carries other prices (say, an offer's). */
  lemma ReAddKeepsFirstSnapshot(items: seq<CartItem>, a: NewItem, b: NewItem)
    requires !HasId(items, a.id) && a.id == b.id
    ensures AddLine(AddLine(items, a), b) == items + [FreshLine(a).(qty := 2)]
  {
    var once := AddLine(items, a);
    assert once[|items|].id == b.id;
    assert HasId(once, b.id);
  }

  lemma {:induction false} KeepKeepsUnique(items: seq<CartItem>, f: CartItem -> bool)
    requires UniqueIds(items)
    ensures UniqueIds(Keep(items, f))
  {
    if items != [] {
      KeepKeepsUnique(items[1..], f);
      KeepCount(items[1..], f);
      var rest := Keep(items[1..], f);
      forall k | 0 <= k < |rest| ensures rest[k].id != items[0].id {
        assert rest[k] in multiset(rest);
        assert rest[k] in multiset(items[1..]);
        var j :| 0 <= j < |items[1..]| && items[1..][j] == rest[k];
        assert items[j + 1] == rest[k];
      }
    }
  }

  /** `addItem` keeps the ids unique and the quantities positive, and the
      product's line is present afterwards. */
  lemma AddLinePreserves(items: seq<CartItem>, it: NewItem)
    requires Wellformed(items)
    ensures Wellformed(AddLine(items, it)) && HasId(AddLine(items, it), it.id)
    ensures Priced(items) ==> Priced(AddLine(items, it))
  {
    var r := AddLine(items, it);
    if !HasId(items, it.id) {
      assert r[|items|].id == it.id;
    } else {
      var k :| 0 <= k < |items| && items[k].id == it.id;
      assert r[k].id == it.id;
    }
  }

  /** `removeItem` drops exactly the lines with that id, keeps the others in
      their order, and keeps the invariant. */
  lemma RemoveLinesEffect(items: seq<CartItem>, id: string)
    ensures !HasId(RemoveLines(items, id), id)
    ensures forall x: CartItem :: x.id != id ==> multiset(RemoveLines(items, id))[x] == multiset(items)[x]
    ensures forall x: CartItem :: x.id == id ==> multiset(RemoveLines(items, id))[x] == 0
    ensures Wellformed(items) ==> Wellformed(RemoveLines(items, id))
    ensures Priced(items) ==> Priced(RemoveLines(items, id))
  {
    var r := RemoveLines(items, id);
    KeepCount(items, (i: CartItem) => i.id != id);
    if Priced(items) {
      forall k | 0 <= k < |r| ensures r[k].prices.Some? {
        assert r[k] in multiset(r);
        assert r[k] in multiset(items);
        var j :| 0 <= j < |items| && items[j] == r[k];
      }
    }
    if Wellformed(items) {
      KeepKeepsUnique(items, (i: CartItem) => i.id != id);
      forall k | 0 <= k < |r| ensures r[k].qty > 0 {
        assert r[k] in multiset(r);
        assert r[k] in multiset(items);
        var j :| 0 <= j < |items| && items[j] == r[k];
      }
    }
  }

  /** `updateQty` with a positive quantity sets exactly that line's quantity;
      with a quantity of 0 or less it is `removeItem`. */
  lemma SetQtyLinesEffect(items: seq<CartItem>, id: string, qty: int)
    ensures qty <= 0 ==> SetQtyLines(items, id, qty) == RemoveLines(items, id)
    ensures qty > 0 ==>
      && |SetQtyLines(items, id, qty)| == |items|
      && forall k :: 0 <= k < |items| ==>
           SetQtyLines(items, id, qty)[k] == if items[k].id == id then items[k].(qty := qty) else items[k]
    ensures Wellformed(items) ==> Wellformed(SetQtyLines(items, id, qty))
    ensures Priced(items) ==> Priced(SetQtyLines(items, id, qty))
  {
    if qty <= 0 {
      RemoveLinesEffect(items, id);
    }
  }

  /** The list after `n` successive `addItem(it)` calls. */
  function AddRepeated(items: seq<CartItem>, it: NewItem, n: nat): seq<CartItem> {
    if n == 0 then items else AddLine(AddRepeated(items, it, n - 1), it)
  }

  /** `n` adds of a product already in the cart raise its line by `n` and touch
      nothing else. */
  lemma {:induction false} AddRepeatedExisting(items: seq<CartItem>, it: NewItem, n: nat, k: nat)
    requires Wellformed(items)
    requires k < |items| && items[k].id == it.id
    ensures |AddRepeated(items, it, n)| == |items|
    ensures AddRepeated(items, it, n)[k] == items[k].(qty := items[k].qty + n)
    ensures forall j :: 0 <= j < |items| && j != k ==> AddRepeated(items, it, n)[j] == items[j]
    ensures Wellformed(AddRepeated(items, it, n))
  {
    if n > 0 {
      AddRepeatedExisting(items, it, n - 1, k);
      var prev := AddRepeated(items, it, n - 1);
      assert HasId(prev, it.id) by { assert prev[k].id == it.id; }
      AddLinePreserves(prev, it);
    }
  }

  /** `n >= 1` adds of a new product append one line holding `n` units. */
  lemma {:induction false} AddRepeatedNew(items: seq<CartItem>, it: NewItem, n: nat)
    requires !HasId(items, it.id)
    requires n >= 1
    ensures AddRepeated(items, it, n) == items + [FreshLine(it).(qty := n)]
  {
    if n > 1 {
      AddRepeatedNew(items, it, n - 1);
      var prev := AddRepeated(items, it, n - 1);
      assert prev[|items|].id == it.id;
      assert HasId(prev, it.id);
      var next := AddLine(prev, it);
      assert |next| == |prev|;
      forall j | 0 <= j < |next| ensures next[j] == (items + [FreshLine(it).(qty := n)])[j] {
        if j < |items| {
          assert !(items[j].id == it.id);
        }
      }
    }
  }

  /* ── Derived values of useCart ────────────────────────────── */

  /** `items.reduce((s, i) => s + i.qty, acc)` */
  function ReduceQty(items: seq<CartItem>, acc: int): int {
    if items == [] then acc else ReduceQty(items[1..], acc + items[0].qty)
  }

  /** `items.reduce((s, i) => s + getEffectivePrice(i.prices, tier) * i.qty, acc)` */
  function ReduceTotal(items: seq<CartItem>, tier: PriceTier, acc: int): int {
    if items == [] then acc else ReduceTotal(items[1..], tier, acc + LineAmount(items[0], tier))
  }

  /** What a line costs at a tier. */
  function LineAmount(i: CartItem, tier: PriceTier): int {
    GetEffectivePrice(i.prices, tier) * i.qty
  }

  /** Σ of the quantities. */
  function SumQty(items: seq<CartItem>): int {
    if items == [] then 0 else items[0].qty + SumQty(items[1..])
  }

  /** Σ of the line amounts at a tier. */
  function SumAmount(items: seq<CartItem>, tier: PriceTier): int {
    if items == [] then 0 else LineAmount(items[0], tier) + SumAmount(items[1..], tier)
  }

  lemma {:induction false} ReduceQtyIsSum(items: seq<CartItem>, acc: int)
    ensures ReduceQty(items, acc) == acc + SumQty(items)
  {
    if items != [] {
      ReduceQtyIsSum(items[1..], acc + items[0].qty);
    }
  }

  lemma {:induction false} ReduceTotalIsSum(items: seq<CartItem>, tier: PriceTier, acc: int)
    ensures ReduceTotal(items, tier, acc) == acc + SumAmount(items, tier)
  {
    if items != [] {
      ReduceTotalIsSum(items[1..], tier, acc + LineAmount(items[0], tier));
    }
  }

  /** `count` of useCart. */
  function TotalQty(items: seq<CartItem>): (n: int)
    ensures n == SumQty(items)
  {
    ReduceQtyIsSum(items, 0);
    ReduceQty(items, 0)
  }

  /** `tier` of useCart: recomputed from the count on every read. */
  function CartTier(items: seq<CartItem>): PriceTier {
    GetPriceTier(TotalQty(items))
  }

  /** `total` of useCart. */
  function CartTotal(items: seq<CartItem>): (t: int)
    ensures t == SumAmount(items, CartTier(items))
  {
    ReduceTotalIsSum(items, CartTier(items), 0);
    ReduceTotal(items, CartTier(items), 0)
  }

  /** Two lists that differ only in the quantity of line `k`, by `d`. */
  lemma {:induction false} SumQtyPointUpdate(a: seq<CartItem>, b: seq<CartItem>, k: nat, d: int)
    requires |a| == |b| && k < |a|
    requires forall j :: 0 <= j < |a| && j != k ==> a[j].qty == b[j].qty
    requires b[k].qty == a[k].qty + d
    ensures SumQty(b) == SumQty(a) + d
  {
    if k == 0 {
      SumQtyEqual(a[1..], b[1..]);
    } else {
      SumQtyPointUpdate(a[1..], b[1..], k - 1, d);
    }
  }

  lemma {:induction false} SumQtyEqual(a: seq<CartItem>, b: seq<CartItem>)
    requires |a| == |b|
    requires forall j :: 0 <= j < |a| ==> a[j].qty == b[j].qty
    ensures SumQty(a) == SumQty(b)
  {
    if a != [] {
      SumQtyEqual(a[1..], b[1..]);
    }
  }

  lemma {:induction false} SumQtyAppend(a: seq<CartItem>, x: CartItem)
    ensures SumQty(a + [x]) == SumQty(a) + x.qty
  {
    if a != [] {
      assert (a + [x])[1..] == a[1..] + [x];
      SumQtyAppend(a[1..], x);
    }
  }

  /** On a well-formed cart every `addItem` adds exactly one unit to the count
      that selects the tier. */
  lemma AddLineCountsOne(items: seq<CartItem>, it: NewItem)
    requires Wellformed(items)
    ensures TotalQty(AddLine(items, it)) == TotalQty(items) + 1
  {
    var r := AddLine(items, it);
    if HasId(items, it.id) {
      var k :| 0 <= k < |items| && items[k].id == it.id;
      SumQtyPointUpdate(items, r, k, 1);
    } else {
      SumQtyAppend(items, FreshLine(it));
    }
  }

  /* ── Checkout message ─────────────────────────────────────── */

  /** `• marca - name xqty — $line ($unit c/u)` */
  function OrderLine(i: CartItem, tier: PriceTier, loc: Locale): string {
    var unitPrice := GetEffectivePrice(i.prices, tier);
    "• " + i.marca + " - " + i.name + " x" + Decimal(i.qty)
      + " — $" + loc.format(unitPrice * i.qty) + " ($" + loc.format(unitPrice) + " c/u)"
  }

  /** `items.map(…)` into order lines. */
  function OrderLines(items: seq<CartItem>, tier: PriceTier, loc: Locale): seq<string> {
    if items == [] then [] else [OrderLine(items[0], tier, loc)] + OrderLines(items[1..], tier, loc)
  }

  /** One order line per cart line, in cart order. */
  lemma {:induction false} OrderLinesInCartOrder(items: seq<CartItem>, tier: PriceTier, loc: Locale)
    ensures |OrderLines(items, tier, loc)| == |items|
    ensures forall k :: 0 <= k < |items| ==> OrderLines(items, tier, loc)[k] == OrderLine(items[k], tier, loc)
  {
    if items != [] {
      OrderLinesInCartOrder(items[1..], tier, loc);
    }
  }

  /** `lines.join(sep)` */
  function Join(lines: seq<string>, sep: string): string {
    if lines == [] then ""
    else if |lines| == 1 then lines[0]
    else lines[0] + sep + Join(lines[1..], sep)
  }

  const GREETING := "Hola Belle Parfumerie! Quiero realizar el siguiente pedido:\n\n"

  /** The message template, given its already formatted parts. */
  function MessageText(lines: seq<string>, tierLabel: string, qtyText: string, totalText: string): string {
    GREETING + Join(lines, "\n") + "\n\n*Precio: " + tierLabel + " (" + qtyText + " unidades)*\n*Total: $"
      + totalText + "*\n\nGracias!"
  }

  /** `buildWhatsAppMessage`: the order lines at the tier of `totalQty`, that
      tier's label, `totalQty`, and the sum of the line amounts. */
  function BuildWhatsAppMessage(items: seq<CartItem>, totalQty: int, loc: Locale): (msg: string)
    ensures msg == MessageText(
      OrderLines(items, GetPriceTier(totalQty), loc),
      GetTierLabel(GetPriceTier(totalQty)),
      Decimal(totalQty),
      loc.format(SumAmount(items, GetPriceTier(totalQty))))
  {
    var tier := GetPriceTier(totalQty);
    var lines := Join(OrderLines(items, tier, loc), "\n");
    var total := ReduceTotal(items, tier, 0);
    ReduceTotalIsSum(items, tier, 0);
    var tierLabel := GetTierLabel(tier);
    GREETING + lines + "\n\n*Precio: " + tierLabel + " (" + Decimal(totalQty) + " unidades)*\n*Total: $"
      + loc.format(total) + "*\n\nGracias!"
  }

  /* ── Persistence ──────────────────────────────────────────── */

  /** What `partialize` keeps of the state: the lines only. */
  datatype PersistedCart = PersistedCart(items: seq<CartItem>)

  /** A line saved without `prices` gets `{unitario: price ?? 0, mayorista_3:
      null, mayorista_10: null}`; a line with `prices` is returned as is. */
  function MigrateItem(item: CartItem): CartItem {
    if item.prices.Some? then item
    else item.(prices := Some(Prices(item.legacyPrice.GetOr(0), None, None)))
  }

  /** `state.items.map(migrate)` */
  function MigrateItems(items: seq<CartItem>): seq<CartItem> {
    seq(|items|, k requires 0 <= k < |items| => MigrateItem(items[k]))
  }

  /** Migration gives every line a price table, changes nothing else about a
      line without one, leaves lines that have one untouched, and so running it
      again changes nothing. */
  lemma MigrateItemsEffect(items: seq<CartItem>)
    ensures |MigrateItems(items)| == |items|
    ensures forall k :: 0 <= k < |items| ==>
      && MigrateItems(items)[k].prices.Some?
      && (items[k].prices.Some? ==> MigrateItems(items)[k] == items[k])
      && (items[k].prices.None? ==>
            MigrateItems(items)[k] == items[k].(prices := Some(Prices(items[k].legacyPrice.GetOr(0), None, None))))
    ensures MigrateItems(MigrateItems(items)) == MigrateItems(items)
  {
  }

  /** Migration keeps the ids and quantities, hence the invariant and the count. */
  lemma MigrateItemsPreserves(items: seq<CartItem>)
    ensures Wellformed(items) ==> Wellformed(MigrateItems(items))
    ensures TotalQty(MigrateItems(items)) == TotalQty(items)
  {
    SumQtyEqual(items, MigrateItems(items));
  }

  /** A saved cart whose lines all have price tables comes back unchanged:
      `partialize` followed by the migration on load is the identity. */
  lemma PersistRoundTrip(items: seq<CartItem>)
    requires Priced(items)
    ensures MigrateItems(PersistedCart(items).items) == items
  {
  }

  /** What `useCart()` returns besides the operations. */
  datatype CartView = CartView(items: seq<CartItem>, count: int, total: int, tier: PriceTier, isOpen: bool)

  /** The zustand store `useCartStore`. */
  class CartStore {
    var items: seq<CartItem>
    var isOpen: bool
    /** The store's own `tier` field is set once and never updated; the tier
        callers see is the one useCart recomputes. */
    const tier: PriceTier

    ghost predicate Valid()
      reads this
    {
      Wellformed(items) && Priced(items)
    }

    constructor ()
      ensures items == [] && !isOpen && tier == Unitario
      ensures Valid()
    {
      items := [];
      isOpen := false;
      tier := Unitario;
    }

    method SetIsOpen(v: bool)
      modifies this
      ensures items == old(items) && isOpen == v
    {
      isOpen := v;
    }

    /** `addItem` opens the drawer whether or not the id was already there. */
    method AddItem(it: NewItem)
      modifies this
      ensures items == AddLine(old(items), it) && isOpen
      ensures old(Valid()) ==> Valid()
    {
      if old(Valid()) {
        AddLinePreserves(items, it);
      }
      var cur := items;
      var existing := HasId(cur, it.id);
      if existing {
        items := seq(|cur|, k requires 0 <= k < |cur| =>
          if cur[k].id == it.id then cur[k].(qty := cur[k].qty + 1) else cur[k]);
      } else {
        items := items + [FreshLine(it)];
      }
      isOpen := true;
    }

    method RemoveItem(id: string)
      modifies this
      ensures items == RemoveLines(old(items), id) && isOpen == old(isOpen)
      ensures old(Valid()) ==> Valid()
    {
      RemoveLinesEffect(items, id);
      items := Keep(items, (i: CartItem) => i.id != id);
    }

    method UpdateQty(id: string, qty: int)
      modifies this
      ensures items == SetQtyLines(old(items), id, qty) && isOpen == old(isOpen)
      ensures old(Valid()) ==> Valid()
    {
      SetQtyLinesEffect(items, id, qty);
      if qty <= 0 {
        items := Keep(items, (i: CartItem) => i.id != id);
        return;
      }
      var cur := items;
      items := seq(|cur|, k requires 0 <= k < |cur| => if cur[k].id == id then cur[k].(qty := qty) else cur[k]);
    }

    /** `useCart()`: count, tier and total recomputed from the lines. */
    function UseCart(): (v: CartView)
      reads this
      ensures v.count == SumQty(items) && v.tier == GetPriceTier(SumQty(items))
      ensures v.total == SumAmount(items, v.tier)
    {
      CartView(items, TotalQty(items), CartTotal(items), CartTier(items), isOpen)
    }

    /** `checkout`: nothing on an empty cart; otherwise the message handed to
        WhatsApp, whose lines, tier, count and total are the ones useCart shows.
        The cart itself is never changed. */
    method Checkout(loc: Locale) returns (msg: Option<string>)
      ensures msg.None? <==> items == []
      ensures msg.Some? ==> msg.value == MessageText(
        OrderLines(items, UseCart().tier, loc),
        GetTierLabel(UseCart().tier),
        Decimal(UseCart().count),
        loc.format(UseCart().total))
    {
      if |items| == 0 {
        return None;
      }
      var totalQty := ReduceQty(items, 0);
      msg := Some(BuildWhatsAppMessage(items, totalQty, loc));
    }

    /** `partialize`: only the lines are persisted, never `isOpen`; on a
        valid store the migration on load gives those lines back unchanged. */
    function Partialize(): (p: PersistedCart)
      reads this
      ensures p.items == items
      ensures Valid() ==> MigrateItems(p.items) == items
    {
      if Priced(items) then
        PersistRoundTrip(items);
        PersistedCart(items)
      else
        PersistedCart(items)
    }

    /** Rehydration: the persisted lines replace the current ones and the
        `onRehydrateStorage` callback migrates them in place; the drawer flag
        is not persisted and stays.  Without a rehydrated state, nothing
        happens. */
    method Rehydrate(persisted: Option<PersistedCart>)
      modifies this
      ensures persisted.None? ==> items == old(items)
      ensures persisted.Some? ==> items == MigrateItems(persisted.value.items)
      ensures isOpen == old(isOpen)
      ensures persisted.Some? && Wellformed(persisted.value.items) ==> Valid()
    {
      if persisted.None? {
        return;
      }
      items := persisted.value.items;
      MigrateItemsPreserves(items);
      MigrateItemsEffect(items);
      items := MigrateItems(items);
    }
  }
}

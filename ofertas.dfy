/** The offers section (`src/components/sections/Ofertas.tsx`): promotional
    pricing, the endless carousel over three copies of the products on offer,
    its wrap-around correction and drag snapping, and the card-flip modal's
    add-to-cart. */
module Ofertas {
  import opened Prelude
  import opened Products
  import opened Cart
  import CatalogPage

  /* ── Promotional pricing ─────────────────────────────────── */

  /** `p.oferta?.precioOferta` */
  function OfertaPrecio(p: Product): Option<int> {
    if p.oferta.Some? then p.oferta.value.precioOferta else None
  }

  /** `p.oferta?.porcentajeDesc` */
  function Percent(p: Product): Option<int> {
    if p.oferta.Some? then p.oferta.value.porcentajeDesc else None
  }

  /** `p.oferta?.etiqueta` */
  function Etiqueta(p: Product): Option<string> {
    if p.oferta.Some? then p.oferta.value.etiqueta else None
  }

  /** `Math.round(x * (1 - d / 100))` on exact rationals: the integer nearest
      to x·(100 − d)/100, a tie going up. */
  function Discounted(x: int, d: int): (r: int)
    ensures 100 * r - 50 <= x * (100 - d) < 100 * r + 50
  {
    (x * (100 - d) + 50) / 100
  }

  /** No discount keeps the price; a full discount makes it free; any
      percentage between 0 and 100 keeps a price between 0 and itself. */
  lemma DiscountedBounds(x: int, d: int)
    ensures d == 0 ==> Discounted(x, d) == x
    ensures d == 100 ==> Discounted(x, d) == 0
    ensures x >= 0 && 0 <= d <= 100 ==> 0 <= Discounted(x, d) <= x
  {
    if x >= 0 && 0 <= d <= 100 {
      assert 0 <= x * (100 - d) <= x * 100;
    }
  }

  /** Discounting by the same percentage keeps the order of two prices. */
  lemma DiscountedMonotone(x: int, y: int, d: int)
    requires x <= y && d <= 100
    ensures Discounted(x, d) <= Discounted(y, d)
  {
    assert x * (100 - d) <= y * (100 - d);
  }

  /** `getOfferPrice`: the absolute promotional price when there is one;
      otherwise the unit price less the percentage when both are present;
      otherwise the unit price, or 0 without one. */
  function GetOfferPrice(p: Product): (r: int)
    ensures OfertaPrecio(p).Some? ==> r == OfertaPrecio(p).value
    ensures OfertaPrecio(p).None? && Percent(p).Some? && PrecioUnitario(p).Some? ==>
      r == Discounted(PrecioUnitario(p).value, Percent(p).value)
    ensures OfertaPrecio(p).None? && (Percent(p).None? || PrecioUnitario(p).None?) ==>
      r == PrecioUnitario(p).GetOr(0)
  {
    if OfertaPrecio(p).Some? then OfertaPrecio(p).value
    else if Percent(p).Some? && PrecioUnitario(p).Some? then
      Discounted(PrecioUnitario(p).value, Percent(p).value)
    else PrecioUnitario(p).GetOr(0)
  }

  /** Without an absolute price, a percentage in [0, 100] never raises the
      price above the list price, and a product without an offer sells at
      its list price. */
  lemma OfferPriceAtMostList(p: Product)
    requires OfertaPrecio(p).None? && PrecioUnitario(p).Some? && PrecioUnitario(p).value >= 0
    requires Percent(p).Some? ==> 0 <= Percent(p).value <= 100
    ensures 0 <= GetOfferPrice(p) <= PrecioUnitario(p).value
    ensures Percent(p).None? ==> GetOfferPrice(p) == PrecioUnitario(p).value
  {
    if Percent(p).Some? {
      DiscountedBounds(PrecioUnitario(p).value, Percent(p).value);
    }
  }

  const PERCENT_SUFFIX := "% OFF"
  const DEFAULT_LABEL := "OFERTA"

  /** `getOfferLabel`: a non-empty badge text wins; otherwise "<d>% OFF" for
      a non-zero percentage; otherwise "OFERTA". */
  function GetOfferLabel(p: Product): (s: string)
    ensures Etiqueta(p).Some? && Etiqueta(p).value != "" ==> s == Etiqueta(p).value
    ensures (Etiqueta(p).None? || Etiqueta(p).value == "") && Percent(p).Some? && Percent(p).value != 0 ==>
      s == Decimal(Percent(p).value) + PERCENT_SUFFIX
    ensures (Etiqueta(p).None? || Etiqueta(p).value == "") && (Percent(p).None? || Percent(p).value == 0) ==>
      s == DEFAULT_LABEL
  {
    if Etiqueta(p).Some? && Etiqueta(p).value != "" then Etiqueta(p).value
    else if Percent(p).Some? && Percent(p).value != 0 then Decimal(Percent(p).value) + PERCENT_SUFFIX
    else DEFAULT_LABEL
  }

  /** The badge is never empty, and a percentage badge reads back as the
      percentage it was made from. */
  lemma OfferLabelReadsBack(p: Product)
    ensures GetOfferLabel(p) != ""
    ensures (Etiqueta(p).None? || Etiqueta(p).value == "") && Percent(p).Some? && Percent(p).value != 0 ==>
      var s := GetOfferLabel(p);
      |s| > |PERCENT_SUFFIX| && s[|s| - |PERCENT_SUFFIX|..] == PERCENT_SUFFIX
      && ParseNumber(s[..|s| - |PERCENT_SUFFIX|]) == Some(Percent(p).value)
  {
    if (Etiqueta(p).None? || Etiqueta(p).value == "") && Percent(p).Some? && Percent(p).value != 0 {
      var d := Percent(p).value;
      var s := GetOfferLabel(p);
      assert s == Decimal(d) + PERCENT_SUFFIX;
      assert s[..|s| - |PERCENT_SUFFIX|] == Decimal(d);
      assert s[|s| - |PERCENT_SUFFIX|..] == PERCENT_SUFFIX;
      DecimalRoundTrip(d);
    }
  }

  /** One wholesale price under `getOfferPrices`: absent stays absent; the
      percentage, when set, discounts it; otherwise it is copied. */
  function DiscountTier(base: Option<int>, percent: Option<int>): Option<int> {
    if base.None? then None
    else if percent.Some? then Some(Discounted(base.value, percent.GetOr(0)))
    else base
  }

  /** `getOfferPrices`: the cart price table of a product on offer. */
  function GetOfferPrices(p: Product): (r: Prices)
    ensures r.unitario == GetOfferPrice(p)
    ensures r.mayorista_3.None? <==> PrecioMayorista3(p).None?
    ensures r.mayorista_10.None? <==> PrecioMayorista10(p).None?
    ensures Percent(p).Some? && PrecioMayorista3(p).Some? ==>
      r.mayorista_3 == Some(Discounted(PrecioMayorista3(p).value, Percent(p).value))
    ensures Percent(p).Some? && PrecioMayorista10(p).Some? ==>
      r.mayorista_10 == Some(Discounted(PrecioMayorista10(p).value, Percent(p).value))
    ensures Percent(p).None? ==>
      r.mayorista_3 == PrecioMayorista3(p) && r.mayorista_10 == PrecioMayorista10(p)
  {
    Prices(GetOfferPrice(p), DiscountTier(PrecioMayorista3(p), Percent(p)), DiscountTier(PrecioMayorista10(p), Percent(p)))
  }

  /** A percentage offer on a table whose wholesale prices do not exceed the
      unit price, or each other, gives a table with the same order. */
  lemma OfferPricesKeepTierOrder(p: Product)
    requires p.precios.Some? && PrecioUnitario(p).Some?
    requires OfertaPrecio(p).None? && Percent(p).Some? && Percent(p).value <= 100
    requires Descending(Prices(PrecioUnitario(p).value, PrecioMayorista3(p), PrecioMayorista10(p)))
    ensures Descending(GetOfferPrices(p))
  {
    var d := Percent(p).value;
    var u := PrecioUnitario(p).value;
    if PrecioMayorista3(p).Some? {
      DiscountedMonotone(PrecioMayorista3(p).value, u, d);
    }
    if PrecioMayorista10(p).Some? {
      DiscountedMonotone(PrecioMayorista10(p).value, u, d);
      if PrecioMayorista3(p).Some? {
        DiscountedMonotone(PrecioMayorista10(p).value, PrecioMayorista3(p).value, d);
      }
    }
  }

  /** The table the card's own "add" button writes out in place. */
  function InlineCardPrices(p: Product): Prices {
    Prices(
      GetOfferPrice(p),
      if PrecioMayorista3(p).Some? && Percent(p).Some? then Some(Discounted(PrecioMayorista3(p).value, Percent(p).value))
      else PrecioMayorista3(p),
      if PrecioMayorista10(p).Some? && Percent(p).Some? then Some(Discounted(PrecioMayorista10(p).value, Percent(p).value))
      else PrecioMayorista10(p))
  }

  /** The card button and the modal put the same prices in the cart. */
  lemma InlinePricesAgree(p: Product)
    ensures InlineCardPrices(p) == GetOfferPrices(p)
  {
  }

  /** What the modal passes to `addItem`. */
  function OfferItem(p: Product): (it: NewItem)
    ensures it.id == p.id && it.name == p.nombre && it.marca == p.marca
    ensures it.prices == GetOfferPrices(p) && it.image == p.imagen.GetOr("")
  {
    NewItem(p.id, p.nombre, p.marca, GetOfferPrices(p), p.imagen.GetOr(""))
  }

  /** Without a promotional price or percentage, the modal adds exactly the
      line the catalogue adds for the same product. */
  lemma OfferItemWithoutDiscount(p: Product)
    requires OfertaPrecio(p).None? && Percent(p).None?
    ensures OfferItem(p) == CatalogPage.CatalogItem(p)
  {
  }

  /** With only a percentage of at most 100 off a table of non-negative
      prices, the cart never charges an offer line more, at any tier, than
      it charges the catalogue's line for the same product. */
  lemma OfferLineNeverDearer(p: Product, t: PriceTier)
    requires OfertaPrecio(p).None? && Percent(p).Some? && 0 <= Percent(p).value <= 100
    requires PrecioUnitario(p).GetOr(0) >= 0
    requires PrecioMayorista3(p).Some? ==> PrecioMayorista3(p).value >= 0
    requires PrecioMayorista10(p).Some? ==> PrecioMayorista10(p).value >= 0
    ensures GetEffectivePrice(FreshLine(OfferItem(p)).prices, t)
      <= GetEffectivePrice(FreshLine(CatalogPage.CatalogItem(p)).prices, t)
  {
    var d := Percent(p).value;
    DiscountedBounds(PrecioUnitario(p).GetOr(0), d);
    if PrecioMayorista3(p).Some? {
      DiscountedBounds(PrecioMayorista3(p).value, d);
    }
    if PrecioMayorista10(p).Some? {
      DiscountedBounds(PrecioMayorista10(p).value, d);
    }
  }

  /** `product.stock <= 0`: a stock that is no number is not out of stock. */
  predicate OutOfStock(p: Product) {
    p.stock.Some? && p.stock.value <= 0
  }

  /* ── Carousel ────────────────────────────────────────────── */

  const CARD_W: int := 280
  const GAP: int := 24
  const STEP: int := CARD_W + GAP
  /** `CARD_W * 0.25` */
  const DRAG_THRESHOLD: int := CARD_W / 4
  /** A pointer moving more than this many pixels makes the gesture a drag. */
  const DRAG_SLOP: int := 4

  /** `p.oferta?.activa` */
  predicate OnOffer(p: Product) {
    p.oferta.Some? && p.oferta.value.activa
  }

  /** `src`: the products on offer, in feed order. */
  function CarouselSource(products: seq<Product>): seq<Product> {
    Keep(products, OnOffer)
  }

  /** `items`: three copies of the source, or nothing. */
  function Track(src: seq<Product>): seq<Product> {
    if |src| > 0 then src + src + src else []
  }

  /** Card `i` of the track is card `i % |src|` of the source. */
  lemma TrackIndex(src: seq<Product>, i: int)
    requires 0 <= i < |Track(src)|
    ensures |Track(src)| == 3 * |src|
    ensures Track(src)[i] == src[i % |src|]
  {
    var n := |src|;
    var t := src + src + src;
    assert Track(src) == t;
    ModInBlock(i, n);
    if i < n {
      assert t[i] == src[i];
    } else if i < 2 * n {
      assert t[i] == src[i - n];
    } else {
      assert t[i] == src[i - 2 * n];
    }
  }

  /** The remainder of an index into three blocks of `n`. */
  lemma ModInBlock(i: int, n: int)
    requires 0 <= i < 3 * n
    ensures i % n == if i < n then i else if i < 2 * n then i - n else i - 2 * n
  {
    if i < n {
      ModBase(i, n);
    } else if i < 2 * n {
      ModOneBlock(i, n);
      ModBase(i - n, n);
    } else {
      ModOneBlock(i, n);
      ModOneBlock(i - n, n);
      ModBase(i - 2 * n, n);
    }
  }

  /** An index below `n` is its own remainder. */
  lemma ModBase(i: int, n: int)
    requires 0 <= i < n
    ensures i % n == i
  {
    assert i == n * (i / n) + i % n;
    assert (i / n) * n == i - i % n;
    MulOutside(i / n, n);
  }

  /** Going back one block of `n` keeps the remainder. */
  lemma ModOneBlock(i: int, n: int)
    requires 0 < n <= i
    ensures i % n == (i - n) % n
  {
    var q, r := (i - n) / n, (i - n) % n;
    assert i == n * (q + 1) + r;
    assert i == n * (i / n) + i % n;
    assert (i / n - q - 1) * n == r - i % n;
    MulOutside(i / n - q - 1, n);
  }

  lemma MulNonneg(a: int, b: int)
    requires a >= 0 && b >= 0
    ensures a * b >= 0
  {
  }

  /** A non-zero multiple of `n` is at least `n` away from 0. */
  lemma MulOutside(x: int, n: int)
    requires n > 0
    ensures x >= 1 ==> x * n >= n
    ensures x <= -1 ==> x * n <= -n
  {
    if x >= 1 {
      MulNonneg(x - 1, n);
      assert x * n == n + (x - 1) * n;
    } else if x <= -1 {
      MulNonneg(-x - 1, n);
      assert x * n == -n - (-x - 1) * n;
    }
  }

  /** The track shows exactly the products on offer, three times over, and
      is empty when none is on offer. */
  lemma TrackShape(products: seq<Product>)
    ensures var src := CarouselSource(products);
      && |Track(src)| == 3 * |src|
      && (forall i :: 0 <= i < |Track(src)| ==> Track(src)[i] == src[i % |src|])
      && (forall p :: p in Track(src) <==> p in products && OnOffer(p))
      && (Track(src) == [] <==> forall p :: p in products ==> !OnOffer(p))
  {
    var src := CarouselSource(products);
    forall i | 0 <= i < |Track(src)|
      ensures Track(src)[i] == src[i % |src|]
    {
      TrackIndex(src, i);
    }
    forall p
      ensures p in Track(src) <==> p in products && OnOffer(p)
    {
      KeepMembership(products, OnOffer, p);
    }
    if src != [] {
      KeepMembership(products, OnOffer, src[0]);
    }
  }

  /** Every card recurs one source length later. */
  lemma TrackPeriodic(src: seq<Product>, i: int)
    requires 0 <= i < 2 * |src|
    ensures Track(src)[i] == Track(src)[i + |src|]
  {
  }

  /** `setLen`: the source length, or 1 without offers. */
  function SetLen(src: seq<Product>): (n: nat)
    ensures n >= 1
    ensures |src| > 0 ==> n == |src|
  {
    if |src| > 0 then |src| else 1
  }

  /** `getInitialOffset`: the start of the middle copy. */
  function InitialOffset(setLen: int): int {
    -(setLen * STEP)
  }

  /** `correctLoop`: one set forward when the offset is near the start of
      the first copy, one set back when it is near the end of the track. */
  function CorrectLoop(setLen: int, offset: int): int {
    var minOffset := -(setLen * 2 * STEP);
    var maxOffset := 0;
    var oneSetPx := setLen * STEP;
    if offset <= minOffset + STEP then offset + oneSetPx
    else if offset >= maxOffset - STEP then offset - oneSetPx
    else offset
  }

  /** The offsets the correction leaves alone. */
  predicate InsideBand(setLen: int, offset: int) {
    -(2 * setLen * STEP) + STEP < offset < -STEP
  }

  /** The correction moves by a whole set or not at all, and leaves an
      offset alone exactly when it lies inside the band. */
  lemma CorrectLoopShift(setLen: int, offset: int)
    requires setLen >= 1
    ensures var d := CorrectLoop(setLen, offset) - offset;
      d == 0 || d == setLen * STEP || d == -(setLen * STEP)
    ensures CorrectLoop(setLen, offset) == offset <==> InsideBand(setLen, offset)
  {
  }

  /** The initial offset needs no correction exactly when at least two
      products are on offer. */
  lemma InitialOffsetFixed(setLen: int)
    requires setLen >= 1
    ensures CorrectLoop(setLen, InitialOffset(setLen)) == InitialOffset(setLen) <==> setLen >= 2
  {
    CorrectLoopShift(setLen, InitialOffset(setLen));
  }

  lemma StepScales(a: int, b: int)
    requires a < b
    ensures a * STEP < b * STEP
  {
  }

  /** When the left edge of the track sits on card `i`, the corrected offset
      sits on another card of the track showing the same product, so the
      jump cannot be seen. */
  lemma CorrectLoopShowsSameCard(src: seq<Product>, i: int)
    requires |src| >= 1 && 0 <= i < 3 * |src|
    ensures var r := CorrectLoop(|src|, -(i * STEP));
      var j := -r / STEP;
      && r == -(j * STEP)
      && 0 <= j < 3 * |src|
      && Track(src)[j] == Track(src)[i]
  {
    var n := |src|;
    var o := -(i * STEP);
    var r := CorrectLoop(n, o);
    if o <= -(n * 2 * STEP) + STEP {
      assert i >= 2 * n - 1 by {
        if i < 2 * n - 1 {
          StepScales(i, 2 * n - 1);
        }
      }
      assert r == -((i - n) * STEP);
      assert -r / STEP == i - n;
      TrackPeriodic(src, i - n);
    } else if o >= -STEP {
      assert i <= 1 by {
        if i > 1 {
          StepScales(1, i);
        }
      }
      assert r == -((i + n) * STEP);
      assert -r / STEP == i + n;
      TrackPeriodic(src, i);
    } else {
      assert -r / STEP == i;
    }
  }

  /** The closed band the carousel keeps to: from one step past the start of
      the first copy to one step before the end of the middle one. */
  predicate InBand(setLen: int, offset: int) {
    -(2 * setLen * STEP) + STEP <= offset <= -STEP
  }

  /** From inside the band, a move of one step, or of up to one set less a
      step when there are at least two offers, lands back inside it after
      correction. */
  lemma CorrectLoopKeepsBand(setLen: int, offset: int, target: int)
    requires setLen >= 1 && InBand(setLen, offset)
    requires target - offset == STEP || offset - target == STEP
      || (setLen >= 2 && -((setLen - 1) * STEP) <= target - offset <= (setLen - 1) * STEP)
    ensures InBand(setLen, CorrectLoop(setLen, target))
  {
  }

  /** The initial offset lies in the band. */
  lemma InitialOffsetInBand(setLen: int)
    requires setLen >= 1
    ensures InBand(setLen, InitialOffset(setLen))
  {
  }

  function Abs(x: int): nat {
    if x < 0 then -x else x
  }

  /** `Math.round(Math.abs(dx) / STEP) || 1`: whole cards covered, at least
      one. */
  function DragCards(dx: int): (c: int)
    ensures c >= 1
  {
    var n := (Abs(dx) + STEP / 2) / STEP;
    if n == 0 then 1 else n
  }

  /** The offset `onDragEnd` animates to: back to the start for a short drag,
      otherwise whole cards in the direction of the drag. */
  function DragEndTarget(startOffset: int, dx: int): (t: int)
    ensures Abs(dx) <= DRAG_THRESHOLD ==> t == startOffset
    ensures Abs(dx) > DRAG_THRESHOLD ==> (t - startOffset) % STEP == 0
    ensures Abs(dx) > DRAG_THRESHOLD && dx > 0 ==> t > startOffset
    ensures Abs(dx) > DRAG_THRESHOLD && dx < 0 ==> t < startOffset
  {
    if Abs(dx) > DRAG_THRESHOLD then
      startOffset + (if dx > 0 then DragCards(dx) else -DragCards(dx)) * STEP
    else startOffset
  }

  /** A long drag snaps to the whole number of cards nearest the distance
      dragged (a half card rounding up), and never to fewer than one. */
  lemma DragSnapsToNearestCard(startOffset: int, dx: int)
    requires Abs(dx) > DRAG_THRESHOLD
    ensures var c := Abs(DragEndTarget(startOffset, dx) - startOffset) / STEP;
      && c >= 1
      && Abs(DragEndTarget(startOffset, dx) - startOffset) == c * STEP
      && Abs(dx) < c * STEP + STEP / 2
      && (c >= 2 ==> c * STEP - STEP / 2 <= Abs(dx))
  {
    var c := DragCards(dx);
    var t := DragEndTarget(startOffset, dx);
    assert Abs(t - startOffset) == c * STEP;
    assert Abs(t - startOffset) / STEP == c;
  }

  /** `dragRef.current` */
  datatype DragRef = DragRef(startX: int, startOffset: int, dragging: bool, didDrag: bool)

  /** The carousel and its modal.  `pending` is the target the settle timer
      started by `animateTo` will correct. */
  class Carousel {
    const setLen: nat
    var offset: int
    var isAnimating: bool
    var pending: int
    var drag: DragRef
    var flip: Option<Product>
    var modalQty: int

    ghost predicate Valid()
      reads this
    {
      setLen >= 1 && modalQty >= 1
    }

    /** The state once the mount effect has moved the track to the middle
        copy. */
    constructor (products: seq<Product>)
      ensures setLen == SetLen(CarouselSource(products))
      ensures offset == InitialOffset(setLen) && !isAnimating && pending == offset
      ensures drag == DragRef(0, 0, false, false) && flip == None && modalQty == 1
      ensures Valid()
    {
      setLen := SetLen(CarouselSource(products));
      offset := InitialOffset(SetLen(CarouselSource(products)));
      isAnimating := false;
      pending := InitialOffset(SetLen(CarouselSource(products)));
      drag := DragRef(0, 0, false, false);
      flip := None;
      modalQty := 1;
    }

    /** `animateTo`: ignored while an animation runs; otherwise the track
        slides to `target` and the settle timer is armed. */
    method AnimateTo(target: int)
      modifies this
      ensures old(isAnimating) ==> offset == old(offset) && isAnimating && pending == old(pending)
      ensures !old(isAnimating) ==> offset == target && isAnimating && pending == target
      ensures drag == old(drag) && flip == old(flip) && modalQty == old(modalQty)
    {
      if isAnimating {
        return;
      }
      isAnimating := true;
      offset := target;
      pending := target;
    }

    /** The settle timer: when the target needs correcting and the track is
        mounted, the offset jumps to the corrected one without a
        transition; either way the animation is over. */
    method Settle(trackMounted: bool)
      modifies this
      ensures !isAnimating && pending == old(pending)
      ensures offset == if CorrectLoop(setLen, pending) != pending && trackMounted
        then CorrectLoop(setLen, pending) else old(offset)
      ensures drag == old(drag) && flip == old(flip) && modalQty == old(modalQty)
    {
      var corrected := CorrectLoop(setLen, pending);
      if corrected != pending && trackMounted {
        offset := corrected;
      }
      isAnimating := false;
    }

    /** `goNext`: one card to the left. */
    method GoNext()
      modifies this
      ensures old(isAnimating) ==> offset == old(offset) && pending == old(pending)
      ensures !old(isAnimating) ==> offset == old(offset) - STEP && pending == offset
      ensures isAnimating
      ensures drag == old(drag) && flip == old(flip) && modalQty == old(modalQty)
    {
      AnimateTo(offset - STEP);
    }

    /** `goPrev`: one card to the right. */
    method GoPrev()
      modifies this
      ensures old(isAnimating) ==> offset == old(offset) && pending == old(pending)
      ensures !old(isAnimating) ==> offset == old(offset) + STEP && pending == offset
      ensures isAnimating
      ensures drag == old(drag) && flip == old(flip) && modalQty == old(modalQty)
    {
      AnimateTo(offset + STEP);
    }

    /** `onDragStart`: ignored while animating; otherwise records where the
        drag began and clears `didDrag`. */
    method DragStart(clientX: int)
      modifies this
      ensures old(isAnimating) ==> drag == old(drag)
      ensures !old(isAnimating) ==> drag == DragRef(clientX, old(offset), true, false)
      ensures offset == old(offset) && isAnimating == old(isAnimating) && pending == old(pending)
      ensures flip == old(flip) && modalQty == old(modalQty)
    {
      if isAnimating {
        return;
      }
      drag := DragRef(clientX, offset, true, false);
    }

    /** `onDragMove`: the track follows the pointer; more than four pixels
        make the gesture a drag. */
    method DragMove(clientX: int)
      modifies this
      ensures !old(drag).dragging ==> offset == old(offset) && drag == old(drag)
      ensures old(drag).dragging ==>
        && offset == old(drag).startOffset + (clientX - old(drag).startX)
        && drag == old(drag).(didDrag := old(drag).didDrag || Abs(clientX - old(drag).startX) > DRAG_SLOP)
      ensures isAnimating == old(isAnimating) && pending == old(pending)
      ensures flip == old(flip) && modalQty == old(modalQty)
    {
      if !drag.dragging {
        return;
      }
      var dx := clientX - drag.startX;
      if Abs(dx) > DRAG_SLOP {
        drag := drag.(didDrag := true);
      }
      offset := drag.startOffset + dx;
    }

    /** `onDragEnd`: ends the drag and animates to the snapped target. */
    method DragEnd()
      modifies this
      ensures !old(drag).dragging ==>
        offset == old(offset) && drag == old(drag) && isAnimating == old(isAnimating) && pending == old(pending)
      ensures old(drag).dragging ==> drag == old(drag).(dragging := false)
      ensures old(drag).dragging && !old(isAnimating) ==>
        offset == DragEndTarget(old(drag).startOffset, old(offset) - old(drag).startOffset) && isAnimating
      ensures old(drag).dragging && old(isAnimating) ==> offset == old(offset) && pending == old(pending)
      ensures flip == old(flip) && modalQty == old(modalQty)
    {
      if !drag.dragging {
        return;
      }
      drag := drag.(dragging := false);
      var dx := offset - drag.startOffset;
      AnimateTo(DragEndTarget(drag.startOffset, dx));
    }

    /** `openFlip`: suppressed right after a drag; otherwise opens the
        product with the stepper at 1. */
    method OpenFlip(p: Product)
      modifies this
      ensures old(drag).didDrag ==> flip == old(flip) && modalQty == old(modalQty)
      ensures !old(drag).didDrag ==> flip == Some(p) && modalQty == 1
      ensures old(Valid()) ==> Valid()
      ensures offset == old(offset) && isAnimating == old(isAnimating) && pending == old(pending)
      ensures drag == old(drag)
    {
      if drag.didDrag {
        return;
      }
      modalQty := 1;
      flip := Some(p);
    }

    /** The end of the closing animation, when the product is cleared. */
    method CloseFlip()
      modifies this
      ensures flip == None && modalQty == old(modalQty)
      ensures offset == old(offset) && isAnimating == old(isAnimating) && pending == old(pending)
      ensures drag == old(drag)
    {
      flip := None;
    }

    /** The "−" button: `setModalQty(Math.max(1, modalQty - 1))`. */
    method DecModalQty()
      modifies this
      ensures modalQty == if old(modalQty) - 1 >= 1 then old(modalQty) - 1 else 1
      ensures modalQty >= 1
      ensures old(Valid()) ==> Valid()
      ensures flip == old(flip) && offset == old(offset) && isAnimating == old(isAnimating)
      ensures pending == old(pending) && drag == old(drag)
    {
      modalQty := if modalQty - 1 >= 1 then modalQty - 1 else 1;
    }

    /** The "+" button. */
    method IncModalQty()
      modifies this
      ensures modalQty == old(modalQty) + 1
      ensures old(Valid()) ==> Valid()
      ensures flip == old(flip) && offset == old(offset) && isAnimating == old(isAnimating)
      ensures pending == old(pending) && drag == old(drag)
    {
      modalQty := modalQty + 1;
    }

    /** `handleAddFromModal`: `addItem` called `modalQty` times with the
        offer's price table; nothing without an open product. */
    method HandleAddFromModal(cart: CartStore)
      modifies cart
      ensures flip.None? ==> cart.items == old(cart.items) && cart.isOpen == old(cart.isOpen)
      ensures flip.Some? && modalQty >= 1 ==>
        cart.items == AddRepeated(old(cart.items), OfferItem(flip.value), modalQty) && cart.isOpen
      ensures flip.Some? && modalQty < 1 ==> cart.items == old(cart.items) && cart.isOpen == old(cart.isOpen)
      ensures old(cart.Valid()) ==> cart.Valid()
    {
      if flip.None? {
        return;
      }
      var p := flip.value;
      var it := OfferItem(p);
      var i := 0;
      while i < modalQty
        invariant 0 <= i && (modalQty >= 0 ==> i <= modalQty)
        invariant modalQty < 1 ==> i == 0
        invariant cart.items == AddRepeated(old(cart.items), it, i)
        invariant i > 0 ==> cart.isOpen
        invariant i == 0 ==> cart.isOpen == old(cart.isOpen)
        invariant old(cart.Valid()) ==> cart.Valid()
      {
        cart.AddItem(it);
        i := i + 1;
      }
    }
  }

  /** The card's own "add" button: disabled when the product is out of
      stock, otherwise one `addItem` with the same table as the modal. */
  method CardAdd(p: Product, cart: CartStore)
    modifies cart
    ensures OutOfStock(p) ==> cart.items == old(cart.items) && cart.isOpen == old(cart.isOpen)
    ensures !OutOfStock(p) ==> cart.items == AddLine(old(cart.items), OfferItem(p)) && cart.isOpen
    ensures old(cart.Valid()) ==> cart.Valid()
  {
    if !OutOfStock(p) {
      InlinePricesAgree(p);
      cart.AddItem(NewItem(p.id, p.nombre, p.marca, InlineCardPrices(p), p.imagen.GetOr("")));
    }
  }
}

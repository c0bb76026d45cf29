/** `ProductChips` (`src/components/ui/ProductChips.tsx`): the row of small
    attribute chips under a product, one per gender, style and each listed
    season, time of day, occasion and age group. */
module ProductChips {
  import opened Prelude
  import opened Products

  /** The attribute a chip comes from, in the order chips are pushed. */
  datatype Attr = Genero | Estilo | Temporada | Horario | Ocasion | Edad

  function Rank(a: Attr): nat {
    match a
    case Genero => 0
    case Estilo => 1
    case Temporada => 2
    case Horario => 3
    case Ocasion => 4
    case Edad => 5
  }

  const CHIP_BASE := "rounded-full px-2.5 py-0.5 text-[10px] font-semibold"

  const BORDER := " border border-"

  /** What follows `border border-` in each style: the border colour, then
      the text and background classes. */
  function Colour(a: Attr): string {
    match a
    case Genero => "violet/30" + " text-violet bg-violet/5"
    case Estilo => "gold/30" + " text-gold bg-gold/5"
    case Temporada => "mauve/30" + " text-mauve bg-rose-light"
    case Horario => "lavender/40" + " text-foreground bg-lavender-light"
    case Ocasion => "border" + " text-muted-foreground bg-muted"
    case Edad => "violet-deep/20" + " text-violet-deep bg-cream"
  }

  /** `styles[a]`: the class list of a chip from attribute `a`. */
  function Style(a: Attr): string {
    CHIP_BASE + BORDER + Colour(a)
  }

  /** Reads the attribute back from a style: the colour name's first letter,
      and for violet whether `-deep` follows. */
  function StyleAttr(s: string): Option<Attr> {
    var n := |CHIP_BASE + BORDER|;
    if |s| <= n + 6 then None
    else if s[n] == 'v' then (if s[n + 6] == '/' then Some(Genero) else Some(Edad))
    else if s[n] == 'g' then Some(Estilo)
    else if s[n] == 'm' then Some(Temporada)
    else if s[n] == 'l' then Some(Horario)
    else if s[n] == 'b' then Some(Ocasion)
    else None
  }

  /** Every style reads back as its own attribute. */
  lemma StyleReadsBack(a: Attr)
    ensures StyleAttr(Style(a)) == Some(a)
  {
    var n := |CHIP_BASE + BORDER|;
    var c := Colour(a);
    var s := Style(a);
    assert |c| > 6;
    assert s[n] == c[0] && s[n + 6] == c[6];
    match a
    case Genero => assert c[0] == 'v' && c[6] == '/';
    case Estilo => assert c[0] == 'g';
    case Temporada => assert c[0] == 'm';
    case Horario => assert c[0] == 'l';
    case Ocasion => assert c[0] == 'b';
    case Edad => assert c[0] == 'v' && c[6] == '-';
  }

  /** So different attributes never share a style, and a chip's style tells
      which attribute it came from. */
  lemma StyleInjective(a: Attr, b: Attr)
    requires Style(a) == Style(b)
    ensures a == b
  {
    StyleReadsBack(a);
    StyleReadsBack(b);
  }

  /** A pushed chip: its label (`text`) and the attribute whose style it takes; its
      class list is `Style(kind)`, and by `StyleInjective` the class list
      and the attribute determine each other. */
  datatype Chip = Chip(text: string, kind: Attr) {
    function Class(): string {
      Style(kind)
    }
  }

  /** The labels attribute `a` of `p` contributes: a truthy gender or style
      gives one, each array gives its elements, an absent array none. */
  function Values(p: Product, a: Attr): seq<string> {
    match a
    case Genero => if p.genero.Some? && p.genero.value != "" then [p.genero.value] else []
    case Estilo => if p.estilo.Some? && p.estilo.value != "" then [p.estilo.value] else []
    case Temporada => p.temporadas.GetOr([])
    case Horario => p.horarios.GetOr([])
    case Ocasion => p.ocasiones.GetOr([])
    case Edad => p.edades.GetOr([])
  }

  /** One chip per label, all in the style of `a`. */
  function Labelled(labels: seq<string>, a: Attr): (r: seq<Chip>)
    ensures |r| == |labels|
  {
    seq(|labels|, k requires 0 <= k < |labels| => Chip(labels[k], a))
  }

  /** The `k`-th chip carries the `k`-th label, in the style of `a`. */
  lemma LabelledAt(labels: seq<string>, a: Attr, k: int)
    requires 0 <= k < |labels|
    ensures Labelled(labels, a)[k] == Chip(labels[k], a)
    ensures Labelled(labels, a)[k].Class() == Style(a)
  {
  }

  /** The attribute pushed in place `n`. */
  function AttrAt(n: nat): (a: Attr)
    requires n < 6
    ensures Rank(a) == n
  {
    if n == 0 then Genero
    else if n == 1 then Estilo
    else if n == 2 then Temporada
    else if n == 3 then Horario
    else if n == 4 then Ocasion
    else Edad
  }

  /** The chips of the first `n` attributes, in push order. */
  function Upto(p: Product, n: nat): seq<Chip>
    requires n <= 6
  {
    if n == 0 then [] else Upto(p, n - 1) + Labelled(Values(p, AttrAt(n - 1)), AttrAt(n - 1))
  }

  /** The chip list: all six attributes' chips. */
  function ChipsOf(p: Product): seq<Chip> {
    Upto(p, 6)
  }

  /** Where the chips of attribute `a` start. */
  function Offset(p: Product, a: Attr): nat {
    |Upto(p, Rank(a))|
  }

  function One(b: bool): nat {
    if b then 1 else 0
  }

  /** One chip for a non-empty gender, one for a non-empty style, and one per
      element of each of the four arrays, an absent array counting 0. */
  lemma ChipCount(p: Product)
    ensures |ChipsOf(p)| ==
      One(p.genero.Some? && p.genero.value != "") + One(p.estilo.Some? && p.estilo.value != "")
      + |p.temporadas.GetOr([])| + |p.horarios.GetOr([])| + |p.ocasiones.GetOr([])| + |p.edades.GetOr([])|
  {
    assert |Upto(p, 1)| == |Values(p, Genero)|;
    assert |Upto(p, 2)| == |Upto(p, 1)| + |Values(p, Estilo)|;
    assert |Upto(p, 3)| == |Upto(p, 2)| + |Values(p, Temporada)|;
    assert |Upto(p, 4)| == |Upto(p, 3)| + |Values(p, Horario)|;
    assert |Upto(p, 5)| == |Upto(p, 4)| + |Values(p, Ocasion)|;
    assert |Upto(p, 6)| == |Upto(p, 5)| + |Values(p, Edad)|;
  }

  /** Once attribute `a` has been pushed, its `k`-th chip stays at
      `Offset(p, a) + k` however many attributes follow. */
  lemma {:induction false} UptoAt(p: Product, a: Attr, n: nat, k: int)
    requires Rank(a) < n <= 6 && 0 <= k < |Values(p, a)|
    ensures Offset(p, a) + k < |Upto(p, n)|
    ensures Upto(p, n)[Offset(p, a) + k] == Labelled(Values(p, a), a)[k]
  {
    var i := Offset(p, a) + k;
    if n - 1 == Rank(a) {
      assert AttrAt(n - 1) == a;
      assert Upto(p, n) == Upto(p, n - 1) + Labelled(Values(p, a), a);
    } else {
      UptoAt(p, a, n - 1, k);
      assert Upto(p, n)[i] == Upto(p, n - 1)[i];
    }
  }

  /** The `k`-th label of attribute `a` is the chip at `Offset(p, a) + k`, in
      the style of `a`: gender first, then style, then each array in its own
      order.  With `ChipCount` this places every chip. */
  lemma ChipPosition(p: Product, a: Attr, k: int)
    requires 0 <= k < |Values(p, a)|
    ensures Offset(p, a) + k < |ChipsOf(p)|
    ensures ChipsOf(p)[Offset(p, a) + k] == Chip(Values(p, a)[k], a)
    ensures ChipsOf(p)[Offset(p, a) + k].Class() == Style(a)
  {
    UptoAt(p, a, 6, k);
    LabelledAt(Values(p, a), a, k);
  }

  /** Pushing more attributes never moves the end of attribute `a`'s block. */
  lemma {:induction false} UptoLength(p: Product, a: Attr, n: nat)
    requires Rank(a) < n <= 6
    ensures Offset(p, a) + |Values(p, a)| <= |Upto(p, n)|
  {
    if n - 1 == Rank(a) {
      assert AttrAt(n - 1) == a;
    } else {
      UptoLength(p, a, n - 1);
    }
  }

  /** The chip blocks follow the attribute order. */
  lemma OffsetsOrdered(p: Product, a: Attr, b: Attr)
    requires Rank(a) < Rank(b)
    ensures Offset(p, a) + |Values(p, a)| <= Offset(p, b)
  {
    UptoLength(p, a, Rank(b));
  }

  /** Only the six chip attributes matter: marca, concentration, notes,
      prices, stock and the rest never produce or change a chip. */
  lemma OtherFieldsIgnored(p: Product, q: Product)
    requires p.genero == q.genero && p.estilo == q.estilo
    requires p.temporadas == q.temporadas && p.horarios == q.horarios
    requires p.ocasiones == q.ocasiones && p.edades == q.edades
    ensures ChipsOf(p) == ChipsOf(q)
  {
    SameUpto(p, q, 6);
  }

  lemma {:induction false} SameUpto(p: Product, q: Product, n: nat)
    requires n <= 6
    requires p.genero == q.genero && p.estilo == q.estilo
    requires p.temporadas == q.temporadas && p.horarios == q.horarios
    requires p.ocasiones == q.ocasiones && p.edades == q.edades
    ensures Upto(p, n) == Upto(q, n)
  {
    if n > 0 {
      SameUpto(p, q, n - 1);
      assert Values(p, AttrAt(n - 1)) == Values(q, AttrAt(n - 1));
    }
  }

  /** No chip exactly when gender and style are empty or absent and the four
      arrays are absent or empty. */
  lemma NoChips(p: Product)
    ensures ChipsOf(p) == [] <==>
      && (p.genero.None? || p.genero.value == "") && (p.estilo.None? || p.estilo.value == "")
      && |p.temporadas.GetOr([])| == 0 && |p.horarios.GetOr([])| == 0
      && |p.ocasiones.GetOr([])| == 0 && |p.edades.GetOr([])| == 0
  {
    ChipCount(p);
  }

  /** `xs.forEach((x) => chips.push({ label: x, style }))` */
  method PushAll(chips: seq<Chip>, xs: seq<string>, a: Attr) returns (r: seq<Chip>)
    ensures r == chips + Labelled(xs, a)
  {
    r := chips;
    var i := 0;
    while i < |xs|
      invariant 0 <= i <= |xs|
      invariant r == chips + Labelled(xs[..i], a)
    {
      assert Labelled(xs[..i + 1], a) == Labelled(xs[..i], a) + [Chip(xs[i], a)];
      r := r + [Chip(xs[i], a)];
      i := i + 1;
    }
    assert xs[..i] == xs;
  }

  /** `if (v) chips.push({ label: v, style })` */
  method PushIfTruthy(chips: seq<Chip>, v: Option<string>, a: Attr) returns (r: seq<Chip>)
    ensures r == chips + Labelled(if v.Some? && v.value != "" then [v.value] else [], a)
  {
    r := chips;
    if v.Some? && v.value != "" {
      r := r + [Chip(v.value, a)];
    }
  }

  /** `xs?.forEach(…)`: an absent array pushes nothing. */
  method PushPresent(chips: seq<Chip>, xs: Option<seq<string>>, a: Attr) returns (r: seq<Chip>)
    ensures r == chips + Labelled(xs.GetOr([]), a)
  {
    r := chips;
    if xs.Some? {
      r := PushAll(r, xs.value, a);
    }
  }

  /** The pushes of `ProductChips`, in order. */
  method BuildChips(p: Product) returns (chips: seq<Chip>)
    ensures chips == ChipsOf(p)
  {
    chips := PushIfTruthy([], p.genero, Genero);
    assert chips == Upto(p, 1);
    chips := PushIfTruthy(chips, p.estilo, Estilo);
    assert chips == Upto(p, 2);
    chips := PushPresent(chips, p.temporadas, Temporada);
    assert chips == Upto(p, 3);
    chips := PushPresent(chips, p.horarios, Horario);
    assert chips == Upto(p, 4);
    chips := PushPresent(chips, p.ocasiones, Ocasion);
    assert chips == Upto(p, 5);
    chips := PushPresent(chips, p.edades, Edad);
  }

  /** The component: nothing when there is no chip, otherwise the chips. */
  method Render(p: Product) returns (r: Option<seq<Chip>>)
    ensures r.None? <==> ChipsOf(p) == []
    ensures r.Some? ==> r.value == ChipsOf(p)
  {
    var chips := BuildChips(p);
    if |chips| == 0 {
      return None;
    }
    return Some(chips);
  }
}

/** The product record the storefront receives from its live product feed.
    Fields the model never reads (volume, description, active flag, …) are
    omitted; every field the core code reads is here with the optionality the
    code's `?.` and `??` operators give it. */
module Products {
  import opened Prelude

  /** `product.precios`: the unit price, the two wholesale prices and the fixed
      price of a 5 ml decant, each possibly absent. */
  datatype Precios = Precios(
    unitario: Option<int>,
    mayorista_3: Option<int>,
    mayorista_10: Option<int>,
    decant: Option<int>)

  /** `product.oferta`: a promotion, either an absolute price or a percentage
      off the unit price, and an optional badge text.  Percentages are whole
      numbers here. */
  datatype Oferta = Oferta(
    activa: bool,
    precioOferta: Option<int>,
    porcentajeDesc: Option<int>,
    etiqueta: Option<string>)

  /** A catalogue product.  `stock` is `None` when the feed gives no number
      (missing or not numeric): such a stock compares false both with `> 0`
      and with `<= 0`. */
  datatype Product = Product(
    id: string,
    nombre: string,
    marca: string,
    imagen: Option<string>,
    genero: Option<string>,
    estilo: Option<string>,
    concentracion: Option<string>,
    notas: Option<string>,
    temporadas: Option<seq<string>>,
    horarios: Option<seq<string>>,
    ocasiones: Option<seq<string>>,
    edades: Option<seq<string>>,
    precios: Option<Precios>,
    stock: Option<int>,
    oferta: Option<Oferta>)

  /** `p.precios?.unitario` */
  function PrecioUnitario(p: Product): Option<int> {
    if p.precios.Some? then p.precios.value.unitario else None
  }

  /** `p.precios?.mayorista_3` */
  function PrecioMayorista3(p: Product): Option<int> {
    if p.precios.Some? then p.precios.value.mayorista_3 else None
  }

  /** `p.precios?.mayorista_10` */
  function PrecioMayorista10(p: Product): Option<int> {
    if p.precios.Some? then p.precios.value.mayorista_10 else None
  }

  /** `p.precios?.decant` */
  function PrecioDecant(p: Product): Option<int> {
    if p.precios.Some? then p.precios.value.decant else None
  }
}

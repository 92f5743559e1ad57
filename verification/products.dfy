/** The product model of `clases.py`: the base product and its electronic,
    food and clothing specialisations, the object whose price can be
    reassigned, and the record `to_dict` turns a product into. */
module Products {
  import opened Validation

  /** A scalar of the stored record: a string, an integer or a float. */
  datatype Value = Text(s: string) | Int(n: int) | Num(x: real)

  /** A serialised product: the dictionary `to_dict` builds. */
  type Record = map<string, Value>

  /** Product ids are whatever the caller passed: an integer or a string.
      Float ids are excluded, because a Python dictionary merges the keys
      `1` and `1.0`, which distinct `Value`s would not. */
  type Id = v: Value | !v.Num? witness Int(0)

  /** What a specialisation adds to the base product; `Plain` is a bare
      `Producto`. */
  datatype Variant =
    | Plain
    | Electronico(marca: string)
    | Alimenticio(fechaCaducidad: string, forma: string)
    | Indumentaria(nomMarca: string, talle: string)

  /** The abstract value of a product object: its fields, read-only or not. */
  datatype ProductView = ProductView(id: Id, nombre: string, precio: real, stock: int, variant: Variant)

  /** The field a specialisation validates on construction passes its check. */
  predicate VariantOk(v: Variant)
  {
    match v
    case Alimenticio(_, forma) => ValidarForma(forma).Ok?
    case Indumentaria(_, talle) => ValidarTalle(talle).Ok?
    case _ => true
  }

  /** Every field that a product's constructor validates holds a value it accepts. */
  predicate ValidView(p: ProductView)
  {
    p.precio > 0.0 && p.stock >= 0 && VariantOk(p.variant)
  }

  /** The outcome of the checks a constructor runs, in the order it runs them:
      the price (in `Producto.__init__`), the stock, and only then the unit or
      size (in the specialisation, after `super().__init__`). The first check
      that fails decides the error raised. */
  function CheckFields(precio: real, stock: int, variant: Variant): (o: Outcome)
    ensures o.Pass? <==> ValidView(ProductView(Int(0), "", precio, stock, variant))
    ensures precio <= 0.0 ==> o == Fail(ValueError(PRECIO_INVALIDO))
    ensures precio > 0.0 && stock < 0 ==> o == Fail(ValueError(STOCK_INVALIDO))
    ensures precio > 0.0 && stock >= 0 && variant.Alimenticio? && !VariantOk(variant) ==>
              o == Fail(ValueError(FORMA_INVALIDA))
    ensures precio > 0.0 && stock >= 0 && variant.Indumentaria? && !VariantOk(variant) ==>
              o == Fail(ValueError(TALLE_INVALIDO))
  {
    match ValidarPrecio(precio)
    case Err(e) => Fail(e)
    case Ok(_) =>
      match ValidarCantidad(stock)
      case Err(e) => Fail(e)
      case Ok(_) =>
        match variant
        case Alimenticio(_, forma) =>
          (match ValidarForma(forma) case Err(e) => Fail(e) case Ok(_) => Pass)
        case Indumentaria(_, talle) =>
          (match ValidarTalle(talle) case Err(e) => Fail(e) case Ok(_) => Pass)
        case _ => Pass
  }

  /** A product object. Only the price has a setter; every other field is
      fixed when the object is built. */
  class Product {
    const id: Id
    const nombre: string
    var precio: real
    const stock: int
    const variant: Variant

    function View(): ProductView
      reads this
    {
      ProductView(id, nombre, precio, stock, variant)
    }

    /** The object invariant construction establishes and the setter keeps. */
    ghost predicate Valid()
      reads this
    {
      ValidView(View())
    }

    /** Stores fields that have passed the checks; `New` runs them first, so
        no object with a rejected field ever exists. */
    constructor (id: Id, nombre: string, precio: real, stock: int, variant: Variant)
      requires ValidView(ProductView(id, nombre, precio, stock, variant))
      ensures Valid()
      ensures View() == ProductView(id, nombre, precio, stock, variant)
    {
      this.id := id;
      this.nombre := nombre;
      this.precio := precio;
      this.stock := stock;
      this.variant := variant;
    }

    /** Construction of any of the four product classes: the fields are
        validated in the constructors' order, and a rejected field raises
        its `ValueError` instead of producing an object. */
    static method New(id: Id, nombre: string, precio: real, stock: int, variant: Variant)
      returns (r: Result<Product>)
      ensures r.Err? <==> CheckFields(precio, stock, variant).Fail?
      ensures r.Err? ==> r.error == CheckFields(precio, stock, variant).error
      ensures r.Ok? ==> fresh(r.value) && r.value.Valid()
      ensures r.Ok? ==> r.value.View() == ProductView(id, nombre, precio, stock, variant)
    {
      var p := ValidarPrecio(precio);
      if p.Err? {
        return Err(p.error);
      }
      var s := ValidarCantidad(stock);
      if s.Err? {
        return Err(s.error);
      }
      match variant {
        case Alimenticio(_, forma) =>
          var f := ValidarForma(forma);
          if f.Err? {
            return Err(f.error);
          }
        case Indumentaria(_, talle) =>
          var t := ValidarTalle(talle);
          if t.Err? {
            return Err(t.error);
          }
        case _ =>
      }
      var product := new Product(id, nombre, p.value, s.value, variant);
      r := Ok(product);
    }

    /** The `precio` setter: the new price goes through the same check as at
        construction; when it is rejected the assignment never happens and
        the old price stays. */
    method SetPrecio(nuevoPrecio: real) returns (o: Outcome)
      requires Valid()
      modifies this
      ensures Valid()
      ensures o.Pass? <==> nuevoPrecio > 0.0
      ensures o.Fail? ==> o.error == ValueError(PRECIO_INVALIDO)
      ensures View() == if o.Pass? then old(View()).(precio := nuevoPrecio) else old(View())
    {
      var p := ValidarPrecio(nuevoPrecio);
      if p.Err? {
        return Fail(p.error);
      }
      precio := p.value;
      o := Pass;
    }
  }

  const BASE_KEYS: set<string> := {"id", "nombre", "precio", "stock"}

  /** The keys a specialisation's `to_dict` adds to the base ones. */
  function VariantKeys(v: Variant): set<string>
  {
    match v
    case Plain => {}
    case Electronico(_) => {"marca", "tipo"}
    case Alimenticio(_, _) => {"fecha_caducidad", "forma", "tipo"}
    case Indumentaria(_, _) => {"nombre_marca", "talle", "tipo"}
  }

  /** `to_dict`: the base keys hold the product's own fields; each
      specialisation adds its own fields and a `tipo` tag naming it, and a
      bare product has no tag. */
  function ToDict(p: ProductView): (r: Record)
    ensures r.Keys == BASE_KEYS + VariantKeys(p.variant)
    ensures r["id"] == p.id && r["nombre"] == Text(p.nombre)
    ensures r["precio"] == Num(p.precio) && r["stock"] == Int(p.stock)
    ensures "tipo" in r <==> !p.variant.Plain?
    ensures p.variant.Electronico? ==>
              r["marca"] == Text(p.variant.marca) && r["tipo"] == Text("Electronico")
    ensures p.variant.Alimenticio? ==>
              r["fecha_caducidad"] == Text(p.variant.fechaCaducidad) &&
              r["forma"] == Text(p.variant.forma) && r["tipo"] == Text("Alimenticio")
    ensures p.variant.Indumentaria? ==>
              r["nombre_marca"] == Text(p.variant.nomMarca) &&
              r["talle"] == Text(p.variant.talle) && r["tipo"] == Text("Indumentaria")
  {
    var base := map["id" := p.id, "nombre" := Text(p.nombre),
                    "precio" := Num(p.precio), "stock" := Int(p.stock)];
    match p.variant
    case Plain => base
    case Electronico(marca) =>
      base["marca" := Text(marca)]["tipo" := Text("Electronico")]
    case Alimenticio(fecha, forma) =>
      base["fecha_caducidad" := Text(fecha)]["forma" := Text(forma)]["tipo" := Text("Alimenticio")]
    case Indumentaria(nomMarca, talle) =>
      base["nombre_marca" := Text(nomMarca)]["talle" := Text(talle)]["tipo" := Text("Indumentaria")]
  }

  /** The specialisation a record's `tipo` tag and key set describe, if any. */
  function VariantOf(r: Record): Option<Variant>
  {
    if "tipo" !in r then
      if r.Keys == BASE_KEYS then Some(Plain) else None
    else if r["tipo"] == Text("Electronico") then
      if r.Keys == BASE_KEYS + {"marca", "tipo"} && r["marca"].Text?
      then Some(Electronico(r["marca"].s)) else None
    else if r["tipo"] == Text("Alimenticio") then
      if r.Keys == BASE_KEYS + {"fecha_caducidad", "forma", "tipo"} &&
         r["fecha_caducidad"].Text? && r["forma"].Text?
      then Some(Alimenticio(r["fecha_caducidad"].s, r["forma"].s)) else None
    else if r["tipo"] == Text("Indumentaria") then
      if r.Keys == BASE_KEYS + {"nombre_marca", "talle", "tipo"} &&
         r["nombre_marca"].Text? && r["talle"].Text?
      then Some(Indumentaria(r["nombre_marca"].s, r["talle"].s)) else None
    else None
  }

  /** Reading a stored record back by its `tipo` tag: the product it
      serialises, or `None` when it is not the output of `to_dict`. The price
      may be any number, since a stored price can be overwritten without
      validation. */
  function FromDict(r: Record): Option<ProductView>
  {
    if BASE_KEYS <= r.Keys && !r["id"].Num? && r["nombre"].Text? && r["precio"].Num? &&
       r["stock"].Int? then
      match VariantOf(r)
      case Some(v) => Some(ProductView(r["id"], r["nombre"].s, r["precio"].x, r["stock"].n, v))
      case None => None
    else None
  }

  /** Reading back what `to_dict` wrote gives the product that was written,
      for every product and every specialisation. */
  lemma FromDictToDict(p: ProductView)
    ensures FromDict(ToDict(p)) == Some(p)
  {
  }

  /** The converse: a record that reads back as a product is exactly that
      product's `to_dict`, so no stored record carries a stray key. */
  lemma ToDictFromDict(r: Record)
    requires FromDict(r).Some?
    ensures ToDict(FromDict(r).value) == r
  {
  }

  /** Two products with the same record are the same product. */
  lemma ToDictInjective(p: ProductView, q: ProductView)
    requires ToDict(p) == ToDict(q)
    ensures p == q
  {
  }

  /** The class `leer_producto` rebuilds a stored record as. */
  datatype Kind = AsElectronico | AsAlimenticio

  /** `leer_producto`'s choice of class: a record with a `marca` key is
      rebuilt as an electronic product, any other as a food product. */
  function Dispatch(r: Record): (k: Kind)
    ensures k == AsElectronico <==> "marca" in r
  {
    if "marca" in r then AsElectronico else AsAlimenticio
  }

  /** For records written by `to_dict`, the dispatch picks the electronic
      class exactly for electronic products. */
  lemma DispatchToDict(p: ProductView)
    ensures Dispatch(ToDict(p)) == AsElectronico <==> p.variant.Electronico?
  {
  }

  /** A clothing record, which carries `nombre_marca` and not `marca`, is
      dispatched to the food class, although its `tipo` tag names clothing
      and reading it by that tag recovers the clothing product. */
  lemma DispatchMisreadsClothing()
    ensures var p := ProductView(Int(1), "Remera", 10.0, 5, Indumentaria("Acme", "m"));
            ValidView(p) &&
            Dispatch(ToDict(p)) == AsAlimenticio &&
            ToDict(p)["tipo"] == Text("Indumentaria") &&
            FromDict(ToDict(p)) == Some(p)
  {
  }
}

/** Field validation of the product model: the four `validar_*` checks of
    `Producto` and its food and clothing specialisations, and the error value
    they raise. Inputs are already numbers here: the coercion of arbitrary
    input through `float(...)` and `int(...)` is not part of this model. */
module Validation {

  /** The exceptions of the core: the `ValueError` a validator raises, with
      its message, and the failure to read the catalog file for any reason
      but its absence. */
  datatype Error = ValueError(msg: string) | ReadError

  datatype Option<T> = None | Some(value: T)

  datatype Result<T> = Ok(value: T) | Err(error: Error)

  /** What an operation that returns nothing reports: success, or the error raised. */
  datatype Outcome = Pass | Fail(error: Error)

  /** The message of every rejected price. The check for a non-positive price
      raises its own message, but the `except ValueError` around it replaces it
      with this one, so callers never see the first. */
  const PRECIO_INVALIDO: string := "El precio debe ser un número válido."

  /** The message of every rejected stock, re-raised in the same way. */
  const STOCK_INVALIDO: string := "La stock debe ser un número entero válido."

  const FORMA_INVALIDA: string := "Las unicas palabras aceptadas son 'unidad', 'docena', 'kilo' "

  const TALLE_INVALIDO: string := "Los talles validos son XS, S, M, L, XL o XXL "

  /** The sale units a food product may take, in the source's order. */
  const FORMAS_VALIDAS: seq<string> := ["unidad", "docena", "kilo"]

  /** The sizes a clothing product may take, in the source's order. */
  const TALLES_VALIDOS: seq<string> := ["xs", "s", "m", "l", "xl", "xxl"]

  /** `validar_precio`: a price is accepted exactly when it is positive, and
      then returned unchanged. */
  function ValidarPrecio(precio: real): (r: Result<real>)
    ensures r.Ok? <==> precio > 0.0
    ensures r.Ok? ==> r.value == precio
    ensures r.Err? ==> r.error == ValueError(PRECIO_INVALIDO)
  {
    if precio <= 0.0 then Err(ValueError(PRECIO_INVALIDO)) else Ok(precio)
  }

  /** `validar_cantidad`: a stock is accepted exactly when it is not negative. */
  function ValidarCantidad(stock: int): (r: Result<nat>)
    ensures r.Ok? <==> stock >= 0
    ensures r.Ok? ==> r.value == stock
    ensures r.Err? ==> r.error == ValueError(STOCK_INVALIDO)
  {
    if stock < 0 then Err(ValueError(STOCK_INVALIDO)) else Ok(stock)
  }

  /** `validar_forma`: an exact, case-sensitive match against the three units;
      an accepted unit is kept as given. */
  function ValidarForma(forma: string): (r: Result<string>)
    ensures r.Ok? <==> forma == "unidad" || forma == "docena" || forma == "kilo"
    ensures r.Ok? ==> r.value == forma
    ensures r.Err? ==> r.error == ValueError(FORMA_INVALIDA)
  {
    if forma !in FORMAS_VALIDAS then Err(ValueError(FORMA_INVALIDA)) else Ok(forma)
  }

  /** `validar_talle`: an exact, case-sensitive match against the six sizes;
      an accepted size is kept as given. */
  function ValidarTalle(talle: string): (r: Result<string>)
    ensures r.Ok? <==> (talle == "xs" || talle == "s" || talle == "m" ||
                        talle == "l" || talle == "xl" || talle == "xxl")
    ensures r.Ok? ==> r.value == talle
    ensures r.Err? ==> r.error == ValueError(TALLE_INVALIDO)
  {
    if talle !in TALLES_VALIDOS then Err(ValueError(TALLE_INVALIDO)) else Ok(talle)
  }

  /** An illustration of the two checks' contracts, which already hold for
      every string: neither folds case, so the upper-case spellings the
      clothing message itself shows are rejected, and so is a capitalised unit. */
  lemma ChecksAreCaseSensitive()
    ensures ValidarTalle("XL").Err? && ValidarTalle("xl").Ok?
    ensures ValidarForma("Kilo").Err? && ValidarForma("kilo").Ok?
  {
  }
}

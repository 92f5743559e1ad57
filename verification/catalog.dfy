/** The catalog that `GestionProductos` keeps in its file, as a map from
    product id to stored record, and the change each of its operations makes
    to that map. The store's methods are specified by these functions. */
module Catalog {
  import opened Validation
  import opened Products

  type Catalog = map<Id, Record>

  /** `crear_producto`'s change: an id already present leaves the catalog as
      it was; otherwise the record is added under the id and every other
      entry is kept. */
  function AfterCreate(c: Catalog, id: Id, rec: Record): (d: Catalog)
    ensures id in c ==> d == c
    ensures id !in c ==> d.Keys == c.Keys + {id} && d[id] == rec
    ensures forall k :: k in c ==> k in d && d[k] == c[k]
  {
    if id in c then c else c[id := rec]
  }

  /** `actualizar_producto`'s change: the `precio` entry of the one record
      under the id is overwritten, unchecked; its other keys and every other
      record are kept, and an absent id changes nothing. */
  function AfterUpdate(c: Catalog, id: Id, precio: real): (d: Catalog)
    ensures d.Keys == c.Keys
    ensures forall k :: k in c && k != id ==> d[k] == c[k]
    ensures id in c ==> d[id].Keys == c[id].Keys + {"precio"} && d[id]["precio"] == Num(precio)
    ensures id in c ==> forall f :: f in c[id] && f != "precio" ==> d[id][f] == c[id][f]
  {
    if id in c then c[id := c[id]["precio" := Num(precio)]] else c
  }

  /** `eliminar_producto`'s change: exactly the id's entry goes, if there is one. */
  function AfterDelete(c: Catalog, id: Id): (d: Catalog)
    ensures d.Keys == c.Keys - {id}
    ensures forall k :: k in d ==> d[k] == c[k]
  {
    if id in c then c - {id} else c
  }

  /** Every stored record is the record of some product, filed under that
      product's own id. */
  ghost predicate WellFormed(c: Catalog)
  {
    forall k :: k in c ==> FromDict(c[k]).Some? && FromDict(c[k]).value.id == k
  }

  /** Moreover every stored product passes the checks of its constructor. */
  ghost predicate AllValid(c: Catalog)
  {
    WellFormed(c) && forall k :: k in c ==> ValidView(FromDict(c[k]).value)
  }

  /** Filing a product's record under its own id keeps the catalog well
      formed, and keeps it valid when the product is. */
  lemma CreatePreserves(c: Catalog, p: ProductView)
    requires WellFormed(c)
    ensures WellFormed(AfterCreate(c, p.id, ToDict(p)))
    ensures AllValid(c) && ValidView(p) ==> AllValid(AfterCreate(c, p.id, ToDict(p)))
  {
  }

  /** Overwriting the price of a stored product's record yields the record of
      the same product with only its price changed. */
  lemma UpdateRecord(r: Record, precio: real)
    requires FromDict(r).Some?
    ensures FromDict(r["precio" := Num(precio)]) == Some(FromDict(r).value.(precio := precio))
  {
  }

  /** A price update keeps the catalog well formed, and the product under the
      id reads back as before with the new price. */
  lemma UpdatePreserves(c: Catalog, id: Id, precio: real)
    requires WellFormed(c)
    ensures WellFormed(AfterUpdate(c, id, precio))
    ensures id in c ==>
              FromDict(AfterUpdate(c, id, precio)[id]) == Some(FromDict(c[id]).value.(precio := precio))
  {
    var d := AfterUpdate(c, id, precio);
    if id in c {
      UpdateRecord(c[id], precio);
      assert d[id] == c[id]["precio" := Num(precio)];
    }
    forall k | k in d
      ensures FromDict(d[k]).Some? && FromDict(d[k]).value.id == k
    {
      if k != id {
        assert d[k] == c[k];
      }
    }
  }

  /** Because the update skips price validation, it keeps a valid catalog
      valid exactly when the new price is positive (or the id is absent). */
  lemma UpdateKeepsValidIff(c: Catalog, id: Id, precio: real)
    requires AllValid(c)
    ensures AllValid(AfterUpdate(c, id, precio)) <==> (id !in c || precio > 0.0)
  {
    UpdatePreserves(c, id, precio);
  }

  /** Removing an entry keeps a well formed or valid catalog so. */
  lemma DeletePreserves(c: Catalog, id: Id)
    ensures WellFormed(c) ==> WellFormed(AfterDelete(c, id))
    ensures AllValid(c) ==> AllValid(AfterDelete(c, id))
  {
  }

  /** A second create with the same id is refused: the catalog keeps exactly
      the first record. */
  lemma CreateTwice(c: Catalog, id: Id, first: Record, second: Record)
    requires id !in c
    ensures AfterCreate(AfterCreate(c, id, first), id, second) == AfterCreate(c, id, first)
    ensures AfterCreate(AfterCreate(c, id, first), id, second)[id] == first
  {
  }

  /** Deleting what was just created restores the catalog. */
  lemma DeleteUndoesCreate(c: Catalog, id: Id, rec: Record)
    requires id !in c
    ensures AfterDelete(AfterCreate(c, id, rec), id) == c
  {
  }

  /** A second delete of the same id finds nothing and changes nothing. */
  lemma DeleteTwice(c: Catalog, id: Id)
    ensures id !in AfterDelete(c, id)
    ensures AfterDelete(AfterDelete(c, id), id) == AfterDelete(c, id)
  {
  }

  /** One call of the store on the catalog it has loaded. */
  datatype Op = Create(p: ProductView) | UpdatePrice(id: Id, precio: real) | Delete(id: Id)

  function Step(c: Catalog, op: Op): Catalog
  {
    match op
    case Create(p) => AfterCreate(c, p.id, ToDict(p))
    case UpdatePrice(id, precio) => AfterUpdate(c, id, precio)
    case Delete(id) => AfterDelete(c, id)
  }

  /** The catalog after a sequence of calls, in order. */
  function Run(c: Catalog, ops: seq<Op>): Catalog
    decreases |ops|
  {
    if ops == [] then c else Run(Step(c, ops[0]), ops[1..])
  }

  /** The call keeps validity: a created product passed its constructor's
      checks, and an updated price is positive. */
  predicate KeepsValid(op: Op)
  {
    match op
    case Create(p) => ValidView(p)
    case UpdatePrice(_, precio) => precio > 0.0
    case Delete(_) => true
  }

  /** Any sequence of calls keeps the catalog well formed; it keeps the
      catalog valid when no call stores an invalid product or price. */
  lemma {:induction false} RunPreserves(c: Catalog, ops: seq<Op>)
    requires WellFormed(c)
    ensures WellFormed(Run(c, ops))
    ensures AllValid(c) && (forall i :: 0 <= i < |ops| ==> KeepsValid(ops[i])) ==>
              AllValid(Run(c, ops))
    decreases |ops|
  {
    if ops != [] {
      var d := Step(c, ops[0]);
      match ops[0] {
        case Create(p) => CreatePreserves(c, p);
        case UpdatePrice(id, precio) =>
          UpdatePreserves(c, id, precio);
          if AllValid(c) {
            UpdateKeepsValidIff(c, id, precio);
          }
        case Delete(id) => DeletePreserves(c, id);
      }
      RunPreserves(d, ops[1..]);
      if AllValid(c) && (forall i :: 0 <= i < |ops| ==> KeepsValid(ops[i])) {
        assert forall i :: 0 <= i < |ops| - 1 ==> ops[1..][i] == ops[i + 1];
      }
    }
  }
}

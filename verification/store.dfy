/** `GestionProductos`: the store that owns the catalog file. Every operation
    loads the whole catalog, changes the loaded map and writes it back. The
    file is modelled by its contents; what the source prints becomes the
    status an operation returns. */
module Store {
  import opened Validation
  import opened Products
  import opened Catalog

  /** The backing file: absent, present but unreadable (an I/O error or text
      that is not JSON), or holding a catalog. */
  datatype FileState = Missing | Unreadable | Present(catalog: Catalog)

  /** What a changing operation reports. `ReadFailed` stands for the
      exception that loading raised, which the operation catches and prints. */
  datatype Status = Done | DuplicateId | NotFound | ReadFailed

  /** What `leer_producto` reports: the stored record and the class the
      source would rebuild it as, no product under the id, or a failed load. */
  datatype Lookup = Found(record: Record, kind: Kind) | Absent | LookupFailed

  class GestionProductos {
    var archivo: FileState

    constructor (archivo: FileState)
      ensures this.archivo == archivo
    {
      this.archivo := archivo;
    }

    /** `leer_datos`: a missing file reads as the empty catalog, an unreadable
        one raises, and otherwise the stored catalog is returned. */
    function LeerDatos(): (r: Result<Catalog>)
      reads this
      ensures archivo.Missing? ==> r == Ok(map[])
      ensures archivo.Unreadable? ==> r == Err(ReadError)
      ensures archivo.Present? ==> r == Ok(archivo.catalog)
    {
      match archivo
      case Missing => Ok(map[])
      case Unreadable => Err(ReadError)
      case Present(c) => Ok(c)
    }

    /** The file loads, and every record in it is a valid product filed
        under its own id. */
    ghost predicate CatalogValid()
      reads this
    {
      LeerDatos().Ok? && AllValid(LeerDatos().value)
    }

    /** `guardar_datos`: the whole file is rewritten with the catalog. */
    method GuardarDatos(datos: Catalog)
      modifies this
      ensures archivo == Present(datos)
      ensures LeerDatos() == Ok(datos)
    {
      archivo := Present(datos);
    }

    /** `crear_producto`: a product whose id is already stored is refused and
        nothing is written; otherwise its record is filed under its id. */
    method CrearProducto(p: Product) returns (st: Status)
      requires p.Valid()
      modifies this
      ensures old(CatalogValid()) ==> CatalogValid()
      ensures old(LeerDatos()).Err? ==> st == ReadFailed && archivo == old(archivo)
      ensures old(LeerDatos()).Ok? ==>
                var c := old(LeerDatos()).value;
                && (st == DuplicateId <==> p.id in c)
                && (st == Done <==> p.id !in c)
                && archivo == if p.id in c then old(archivo)
                              else Present(AfterCreate(c, p.id, ToDict(p.View())))
    {
      var datos := LeerDatos();
      if datos.Err? {
        return ReadFailed;
      }
      var c := datos.value;
      if p.id in c {
        return DuplicateId;
      }
      if AllValid(c) {
        CreatePreserves(c, p.View());
      }
      c := c[p.id := ToDict(p.View())];
      GuardarDatos(c);
      st := Done;
    }

    /** `leer_producto`: looks the id up and picks the class to rebuild the
        record as; for a well formed catalog the electronic class is picked
        exactly when the stored product is electronic. */
    method LeerProducto(id: Id) returns (r: Lookup)
      ensures LeerDatos().Err? <==> r == LookupFailed
      ensures LeerDatos().Ok? ==> (r.Found? <==> id in LeerDatos().value)
      ensures r.Found? ==> LeerDatos().Ok? && id in LeerDatos().value &&
                           r.record == LeerDatos().value[id] && r.kind == Dispatch(r.record)
      ensures r.Found? && WellFormed(LeerDatos().value) ==>
                (r.kind == AsElectronico <==> FromDict(r.record).value.variant.Electronico?)
    {
      var datos := LeerDatos();
      if datos.Err? {
        return LookupFailed;
      }
      if id !in datos.value {
        return Absent;
      }
      var record := datos.value[id];
      r := Found(record, Dispatch(record));
      if WellFormed(datos.value) {
        ToDictFromDict(record);
        DispatchToDict(FromDict(record).value);
      }
    }

    /** `actualizar_producto`: the stored record's price is overwritten with
        no validation and the catalog written back; an absent id writes
        nothing. */
    method ActualizarProducto(id: Id, nuevoPrecio: real) returns (st: Status)
      modifies this
      ensures old(CatalogValid()) ==> (CatalogValid() <==> (st != Done || nuevoPrecio > 0.0))
      ensures old(LeerDatos()).Err? ==> st == ReadFailed && archivo == old(archivo)
      ensures old(LeerDatos()).Ok? ==>
                var c := old(LeerDatos()).value;
                && (st == Done <==> id in c)
                && (st == NotFound <==> id !in c)
                && archivo == if id in c then Present(AfterUpdate(c, id, nuevoPrecio))
                              else old(archivo)
    {
      var datos := LeerDatos();
      if datos.Err? {
        return ReadFailed;
      }
      var c := datos.value;
      if id !in c {
        return NotFound;
      }
      if AllValid(c) {
        UpdateKeepsValidIff(c, id, nuevoPrecio);
      }
      var record := c[id];
      record := record["precio" := Num(nuevoPrecio)];
      c := c[id := record];
      GuardarDatos(c);
      st := Done;
    }

    /** `eliminar_producto`: the id's entry is removed and the catalog written
        back; an absent id writes nothing. */
    method EliminarProducto(id: Id) returns (st: Status)
      modifies this
      ensures old(CatalogValid()) ==> CatalogValid()
      ensures old(LeerDatos()).Err? ==> st == ReadFailed && archivo == old(archivo)
      ensures old(LeerDatos()).Ok? ==>
                var c := old(LeerDatos()).value;
                && (st == Done <==> id in c)
                && (st == NotFound <==> id !in c)
                && archivo == if id in c then Present(AfterDelete(c, id)) else old(archivo)
    {
      var datos := LeerDatos();
      if datos.Err? {
        return ReadFailed;
      }
      var c := datos.value;
      if id !in c {
        return NotFound;
      }
      DeletePreserves(c, id);
      c := c - {id};
      GuardarDatos(c);
      st := Done;
    }
  }

  /** A session like the menu's: add a television to a store with no file,
      add it again, change its price, delete it twice. Each step's outcome
      follows from the contracts above alone. */
  method MenuSession()
  {
    var store := new GestionProductos(Missing);
    var made := Product.New(Int(1), "TV", 500.0, 3, Electronico("Sony"));
    assert made.Ok?;
    var tv := made.value;

    var st := store.CrearProducto(tv);
    assert st == Done;
    assert store.archivo == Present(map[Int(1) := ToDict(tv.View())]);
    assert store.archivo.catalog[Int(1)]["tipo"] == Text("Electronico");
    assert store.archivo.catalog[Int(1)]["marca"] == Text("Sony");

    st := store.CrearProducto(tv);
    assert st == DuplicateId;

    var found := store.LeerProducto(Int(1));
    assert found.Found? && found.kind == AsElectronico;

    st := store.ActualizarProducto(Int(1), 450.0);
    assert st == Done;
    UpdateRecord(ToDict(tv.View()), 450.0);
    assert FromDict(store.archivo.catalog[Int(1)]) == Some(tv.View().(precio := 450.0)) by {
      FromDictToDict(tv.View());
    }

    st := store.EliminarProducto(Int(1));
    assert st == Done && store.archivo == Present(map[]);
    st := store.EliminarProducto(Int(1));
    assert st == NotFound && store.archivo == Present(map[]);
  }
}

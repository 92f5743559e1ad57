# Product catalog model (GestionDeProductos)

A Dafny model of the core of a console inventory manager. The core is the
product model of `clases.py` and its store class, `GestionProductos`. The model
proves the store's contracts.

- `validation.dfy` (module `Validation`): the four field checks. These are the
  price (`validar_precio`), the stock (`validar_cantidad`), the food sale unit
  (`validar_forma`) and the clothing size (`validar_talle`). The module also
  holds the error values, with the exact messages the source raises.
- `products.dfy` (module `Products`): the four product shapes as one `Variant`
  datatype. The `Product` class has a mutable `precio` and fixed other fields.
  Its factory `New` runs the constructors' checks in their order, and its
  setter `SetPrecio` re-validates the price. `ToDict` builds the stored record.
  `FromDict` reads a record back by its `tipo` tag, and is proved to be
  `ToDict`'s exact inverse in both directions. `Dispatch` is the rule
  `leer_producto` uses to choose a class.
- `catalog.dfy` (module `Catalog`): the catalog as `map<Id, Record>`.
  `AfterCreate`, `AfterUpdate` and `AfterDelete` give each operation's change.
  Two invariants are defined. `WellFormed` says every record is some product's
  `to_dict`, filed under that product's id. `AllValid` says in addition that
  every product passes its constructor's checks. Lemmas show which operations
  keep each invariant, alone and over any sequence of operations.
- `store.dfy` (module `Store`): the class `GestionProductos`. Its field
  `archivo` holds the backing file's contents: `Missing`, `Unreadable` or
  `Present(catalog)`. Each operation loads the map, changes it and writes it
  back. Its `ensures` ties the new file state to the `Catalog` functions.
  `MenuSession` is a client: it replays a create, a duplicate create, a
  lookup, a price update and two deletes.

Three behaviours of the code that a reader might not expect are kept as written:
- The name field is not checked for being non-empty, because the code never
  checks it.
- The unit and size checks are case-sensitive. Lower-casing happens only in
  the menu (`main.py`), which is not part of this model.
- A price update stores the new value without validation.

## Model

| member | source | states |
|---|---|---|
| Validation.ValidarPrecio | clases.py:31-38 | accepts exactly the prices > 0 and returns them unchanged; every rejection carries the re-raised message "El precio debe ser un número válido." |
| Validation.ValidarCantidad | clases.py:40-47 | accepts exactly the stocks >= 0 and returns them unchanged; every rejection carries the re-raised stock message |
| Validation.ValidarForma | clases.py:92-96 | accepts exactly "unidad", "docena", "kilo", keeps the value as given, otherwise raises the units message |
| Validation.ValidarTalle | clases.py:122-126 | accepts exactly "xs", "s", "m", "l", "xl", "xxl", keeps the value as given, otherwise raises the sizes message |
| Validation.ChecksAreCaseSensitive | clases.py:92-126 | an illustration of the two checks' contracts (lines 92-96 and 122-126): "XL" and "Kilo" are rejected while "xl" and "kilo" are accepted |
| Products.CheckFields | clases.py:4-112 | construction succeeds exactly when price > 0, stock >= 0 and the unit or size is allowed; the first failing check in constructor order (price and stock at lines 7-8, then unit or size at line 82 or 112) decides the error |
| Products.Product.New | clases.py:4-112 | for all four constructors (lines 4-8, 61-63, 79-82, 109-112): a product object is produced exactly when the checks pass, is fresh, satisfies the invariant and holds the given fields; otherwise the first check's error is returned |
| Products.Product.SetPrecio | clases.py:22-24 | a positive price is stored; a non-positive one fails with the price message and leaves the old price; no other field changes and the invariant is kept |
| Products.ToDict | clases.py:49-55 | the record's keys are exactly the four base keys plus each shape's own keys (lines 69-73, 98-103, 128-133); base values equal the fields; `tipo` is absent for a bare product and is "Electronico", "Alimenticio" or "Indumentaria" otherwise |
| Products.FromDictToDict | clases.py:49-133 | reading a record by its `tipo` tag gives back the product `to_dict` wrote, for every shape (lines 49-55, 69-73, 98-103, 128-133) |
| Products.ToDictFromDict | clases.py:49-133 | a record that reads back as a product is exactly that product's `to_dict`, for all four `to_dict`s |
| Products.ToDictInjective | clases.py:49-133 | two products with the same record are equal, for all four `to_dict`s |
| Products.Dispatch | clases.py:181-184 | a record with a `marca` key picks the electronic class, any other the food class |
| Products.DispatchToDict | clases.py:181-184 | on records written by `to_dict`, the `marca` rule picks the electronic class exactly for electronic products |
| Products.DispatchMisreadsClothing | clases.py:181-184 | a valid clothing record is dispatched to the food class although its `tipo` names clothing |
| Catalog.AfterCreate | clases.py:163-172 | an existing id leaves the catalog unchanged; otherwise the keys grow by the id, which maps to the record, and every other entry is kept |
| Catalog.AfterUpdate | clases.py:192-200 | same keys; only the `precio` entry of the id's record is overwritten (added if missing); its other keys and all other records are kept; an absent id changes nothing |
| Catalog.AfterDelete | clases.py:204-212 | the keys lose exactly the id and every remaining entry is kept; an absent id changes nothing |
| Catalog.CreatePreserves | clases.py:170 | filing `to_dict(p)` under `p.id` keeps the catalog well formed, and valid when p is |
| Catalog.UpdateRecord | clases.py:196 | overwriting `precio` in a product's record gives the record of the same product with only its price changed |
| Catalog.UpdatePreserves | clases.py:192-200 | a price update keeps the catalog well formed and the product under the id reads back with only its price changed |
| Catalog.UpdateKeepsValidIff | clases.py:196 | since the update skips validation, a valid catalog stays valid exactly when the id is absent or the new price is positive |
| Catalog.DeletePreserves | clases.py:204-212 | deleting keeps a well formed or valid catalog so |
| Catalog.CreateTwice | clases.py:167-168 | a second create with the same id changes nothing, and the id keeps the first record |
| Catalog.DeleteUndoesCreate | clases.py:207-208 | deleting a just-created id restores the previous catalog |
| Catalog.DeleteTwice | clases.py:207-212 | after a delete the id is absent, and a second delete changes nothing |
| Catalog.RunPreserves | clases.py:163-214 | any sequence of creates, price updates and deletes keeps the catalog well formed, and keeps it valid when every created product is valid and every new price positive |
| Store.GestionProductos.LeerDatos | clases.py:143-152 | a missing file reads as the empty catalog, an unreadable one raises, and otherwise the stored catalog is returned |
| Store.GestionProductos.GuardarDatos | clases.py:154-157 | the file afterwards holds exactly the given catalog |
| Store.GestionProductos.CrearProducto | clases.py:163-174 | a failed load or a duplicate id leaves the file untouched and reports it; otherwise the file holds the old catalog plus the product's record under its id; a file of valid products stays so |
| Store.GestionProductos.LeerProducto | clases.py:176-190 | found exactly when the id is in the loaded catalog, with that record and the `marca`-based class; on a well formed catalog the class is electronic exactly for electronic products; a failed load is reported |
| Store.GestionProductos.ActualizarProducto | clases.py:192-202 | a failed load or absent id leaves the file untouched and reports it; otherwise the file holds the catalog with only that record's price overwritten; a file of valid products stays so exactly when no update happened or the new price is positive |
| Store.GestionProductos.EliminarProducto | clases.py:204-214 | a failed load or absent id leaves the file untouched and reports it; otherwise the file holds the catalog without that id; a file of valid products stays so |

## Findings

| source | as written | input that shows it | evidently intended | confidence | as-written member | corrected member |
|---|---|---|---|---|---|---|
| clases.py:181-184 | a record is rebuilt as electronic if it has a `marca` key and as food otherwise | the record of `ProductoIndumentaria(1, "Remera", 10.0, 5, "Acme", "m")`, whose `tipo` is "Indumentaria", is sent to the food class | choose the class from the `tipo` tag every variant record carries | not executed; high for the dispatch itself | Products.DispatchMisreadsClothing | Products.FromDictToDict |

`Store.GestionProductos.LeerProducto` keeps the as-written class choice,
because the model follows the code. In the program itself this misdispatch is
masked: the rebuild that follows raises `TypeError` for every stored
record (see "Left out"), so the user sees "Error al leer producto" either way. The corrected, tag-based reading
`FromDict` is what the catalog invariants and `LeerProducto`'s contract use to
say which product a record holds.

## Left out

- File and JSON I/O (`open`, `json.load`, `json.dump`, indentation) is replaced by the `archivo` field's three states. A parse or I/O failure is the single state `Unreadable`.
- GuardarDatos: a failed write is printed and swallowed in the source. Writing always succeeds here, because the outcome of the write belongs to the file system.
- JSON turns integer ids into string keys when writing and reading back. That conversion is not modelled, so an id is compared as given. It belongs to the JSON library. Its consequences in the program are not captured:
  - The menu creates with integer ids (main.py:32) but looks up, updates and deletes with string ids (main.py:61, 66, 72).
  - After a reload every key is a string while each record's `"id"` stays an integer. So `WellFormed` (key equals the record's id) does not hold for a non-empty catalog created through the menu and read back from disk.
  - The duplicate test (clases.py:167) then never fires for an integer id already on disk. A second create adds the integer key 1 beside the string key "1". `json.dump` writes `"1"` twice, and `json.load` keeps the later record, so the first product is silently replaced.
- The printed messages and the `except Exception` wrappers are modelled as the returned `Status` or `Lookup` value.
- Validation.ValidarPrecio: takes the price as an exact real. Coercion through `float(...)` of non-numeric text, and Python float rounding, are not modelled. Nor is NaN: `float("nan")` passes the check, because `nan <= 0` is false (clases.py:34), so the program can store a price that is not > 0.
- Float ids are not modelled: `Id` excludes `Num` values. A Python dictionary treats `1` and `1.0` as one key, so `crear_producto` with id `1.0` on a catalog holding `1` would report a duplicate. The menu only creates integer ids (main.py:32).
- Validation.ValidarCantidad: takes the stock as an integer. Coercion through `int(...)` of arbitrary input is not modelled.
- The display strings (`__str__`) are not modelled. They are float formatting, and the clothing one reads an attribute `marca` that clothing products do not have.
- Store.GestionProductos.LeerProducto: returns the record and the class chosen for it, not the rebuilt object. `Found` is that dispatch outcome, not a printed product. The rebuild with `**producto_data` is not modelled. In the program it raises `TypeError` for every record `to_dict` writes. Each variant record passes the `tipo` key, which no constructor accepts, and a clothing record already fails on `nombre_marca`. A bare product record is sent to the food constructor without `fecha_caducidad` and `forma`. So for a present id `leer_producto` prints "Error al leer producto".
- Store.GestionProductos.ActualizarProducto: takes the new price as a real, as the menu passes one. The source would store any value it is given.
- `main.py` is not part of this model. It is the interactive menu: input, screen clearing and printing.

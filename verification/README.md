# POS stock snapshot — Dafny model

This project models the server-side part of the *POS Restrict Out of Stock*
Odoo module. That part prepares, once per point-of-sale session, the stock
snapshot the client later checks sales against. It has three pure pieces:

- **Field list** (`FieldList`). The `product.product` fields loaded by the
  point of sale are extended with `type` and `is_storable`. Each one is
  appended only when it is missing, and the parent's list is kept in order.
- **Location resolution** (`StockLocation`). This turns the `config`
  argument into a stock location and a company. The argument can be an id,
  a Python boolean, a record or a falsy value. The location is the operation type's default
  source location; when that is not set, it is the warehouse's stock
  location. It is absent when the configuration is missing or gone, when
  there is no operation type, when neither location exists, or when any
  guarded read raises.
- **Product annotation** (`ProductLoad`). Every product dictionary gets a
  `pos_available_qty` key. A storable product gets the summed quant quantity
  for its id, or `0.0` when its id has no group. Any other product gets
  `None`. Nothing happens when the product list is empty or when no location
  resolves.

Inputs the Python module obtains from the ORM are parameters here:

- the `pos.config` table that an id is browsed in. Its keys are positive record ids; browsing zero or a negative id finds no record;
- the configuration, operation type and warehouse records, where each
  attribute read inside the guarded block may raise;
- the grouped quant query, a function from (product ids, location id,
  company id) to the list of groups it returns.

Python dictionaries are maps from key to a small JSON-like `Value` type.
Quantities are `real`.

## Model

| member | source | states |
|---|---|---|
| FieldList.AppendIfAbsent | models/product.py:28-29 | the extra is present afterwards; the list is unchanged if it was already there, otherwise the extra is appended once at the end |
| FieldList.Extend | models/product.py:27-30 | the input list is a prefix of the result; the result holds exactly the input fields and the extras; appended entries are new and pairwise distinct |
| FieldList.LoadPosDataFields | models/product.py:23-30 | the parent's field list is kept in order as a prefix; `type` and `is_storable` are both present; nothing else is added |
| FieldList.ExtendIsAppendMissing | models/product.py:27-29 | for distinct extras, checking membership against the growing list equals appending, in order, exactly the extras missing from the input list |
| FieldList.LoadPosDataFieldsLength | models/product.py:27-29 | the result is longer than the parent list by exactly the number of missing extras (zero, one or two) |
| FieldList.ExtendNoOpWhenPresent | models/product.py:28-29 | a list that already holds every extra comes back unchanged |
| FieldList.ExtendIdempotent | models/product.py:27-30 | extending an already extended list returns it unchanged |
| FieldList.ExtendKeepsDistinct | models/product.py:25-30 | a parent list without duplicates gives a result without duplicates |
| StockLocation.Browse | models/product.py:47-48 | browsing a known positive id gives its record; browsing zero, a negative id or an unknown id gives a record that does not exist |
| StockLocation.ConfigOf | models/product.py:46-51 | an integer is browsed; `False` is browsed into the empty recordset; browsing `True` raises; a record is used as is; a falsy non-integer gives no configuration |
| StockLocation.LocationOf | models/product.py:53-68 | a location is returned exactly when the record exists, has an operation type, and the location is that type's source location or, with no source location, the warehouse's stock location |
| StockLocation.ResolveSite | models/product.py:46-77 | a site (location, company) is resolved iff the configuration is present, its browse did not raise, and a location is found; the company is the configuration's own |
| StockLocation.FlagResolvesNothing | models/product.py:47-68 | a boolean argument resolves nothing: `False` names no record, and the raise from browsing `True` is swallowed by the catch-all handler |
| StockLocation.ResolveById | models/product.py:47-55 | passing a positive id equals passing the record it names; zero, a negative id or an unknown id resolves nothing |
| StockLocation.MissingConfigResolvesNothing | models/product.py:53-55 | a record that does not exist, or whose existence check raises, resolves nothing |
| StockLocation.NoPickingTypeResolvesNothing | models/product.py:57-59 | with no operation type, or a raising read of it, nothing is resolved |
| StockLocation.SourceLocationWins | models/product.py:61 | a set source location is chosen whatever the warehouse is, even a warehouse whose read raises |
| StockLocation.WarehouseFallback | models/product.py:61-64 | without a source location, the warehouse's stock location is used; with no warehouse or no stock location there is none |
| ProductLoad.Truthy | models/product.py:87-88 | Python truthiness: a value is false exactly when it is `None`, `False`, zero, or an empty string or list |
| ProductLoad.Get | models/product.py:87 | dictionary lookup with a `None` default: the stored value when the key is present, `None` otherwise |
| ProductLoad.IsStorable | models/product.py:87 | a product is storable iff its `is_storable` entry is present and truthy, or its `type` entry is the string `"product"`; a product with neither key is not storable |
| ProductLoad.AsIntKey | models/product.py:90 | a product id matches an integer group key under Python equality: ints directly, booleans as 0 and 1, integral floats as their integer |
| ProductLoad.QtyByProduct | models/product.py:82 | the map's keys are exactly the grouped product ids, and each id maps to the quantity of its last group |
| ProductLoad.StockOf | models/product.py:90 | the grouped quantity for the product's id, or `0.0` when the id has no group |
| ProductLoad.AnnotateOne | models/product.py:87-94 | `pos_available_qty` is added or overwritten: the stock for a storable product, `None` otherwise; every other key keeps its value |
| ProductLoad.Annotate | models/product.py:84-94 | same number and order of products, each annotated as above |
| ProductLoad.Ids | models/product.py:70 | the id of each product, in order |
| ProductLoad.FirstWithoutId | models/product.py:70 | the first product whose `"id"` lookup raises |
| ProductLoad.ProcessPosUiProducts | models/product.py:41-94 | empty products or no resolved site: returned unchanged. A missing `"id"` raises iff a site resolved. Otherwise every product is annotated with the groups queried for its site |
| ProductLoad.AnnotateKeepsClassification | models/product.py:84-94 | the pass keeps each product's id and whether it counts as storable |
| ProductLoad.AnnotateIdempotent | models/product.py:84-94 | annotating twice with the same grouped quantities gives the same products as annotating once |
| ProductLoad.UngroupedStorableGetsZero | models/product.py:87-90 | a storable product whose id equals no group's product id under Python equality gets `0.0`, not `None` |
| ProductLoad.GroupedStorableGetsSum | models/product.py:82-90 | a storable product gets the quantity of the last group whose product id equals its id under Python equality |

## Left out

- The parent implementations reached through `super()` (models/product.py:25, 39). Their output is an input here: the parent field list, and the products as the parent left them.
- ORM access (`self.env[...]`, `browse`, `exists`, record attributes). It is modelled by the record values and the `Read` outcomes above. How `browse` treats its argument follows the framework, whose code is not part of this model: only a plain integer names one record; a falsy value gives the empty recordset; `True` raises `TypeError`.
- The `read_group` query itself (models/product.py:73-81). Its `child_of` location domain, company filter and float summation run in the database. It is a function parameter; only the dictionary built from its rows is modelled.
- The catch-all `except Exception` (models/product.py:65-68). Only its effect is modelled: no location.
- In-place mutation. The Python module changes each product dictionary in place and returns nothing. The model returns a new list of products instead. Two list entries that alias one dictionary still get the same result, because the pass reads only `id`, `type` and `is_storable`, none of which it writes.
- ProductLoad.AsIntKey: a list-valued id would raise `TypeError` (unhashable) in the dictionary lookup. The model treats it as an id with no group.
- Dictionary key order. A map has no order, so the position of `pos_available_qty` among the keys is not modelled.
- `__manifest__.py`: module metadata and asset registration, with no behaviour.
- The client-side stock guard: the quantity comparisons at payment validation, quantity change, line merge and add-to-order, and the decrement after a sale. Its JavaScript sources under `static/src/overrides/` are not part of this model.

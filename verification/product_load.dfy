/**
  The product records sent to the point-of-sale client, and the pass that
  attaches to each one the stock available at the configuration's location.
  Each record is a Python dictionary, here a map from field name to a value.
*/
module ProductLoad {
  import opened Wrappers
  import opened StockLocation

  /** The JSON-like values a product dictionary holds. */
  datatype Value =
    | VNone
    | VBool(b: bool)
    | VInt(i: int)
    | VReal(r: real)
    | VStr(s: string)
    | VList(items: seq<Value>)

  type Product = map<string, Value>

  /** The key the pass adds to every product. */
  const AvailableQty: string := "pos_available_qty"

  /** One row of the grouped quant query: a product (id and name) and its summed quantity. */
  datatype QuantGroup = QuantGroup(productId: int, productName: string, quantity: real)

  /** The query for quants of the given products under a location, for a company. */
  type ReadGroup = (seq<Value>, int, int) -> seq<QuantGroup>

  /** Why the pass raised instead of returning. */
  datatype LoadError = MissingId(index: nat)

  /** Python truthiness: every value is true except `None`, `False`, zero and the empty string or list. */
  predicate Truthy(v: Value)
    ensures !Truthy(v) <==> v in {VNone, VBool(false), VInt(0), VReal(0.0), VStr(""), VList([])}
  {
    match v
    case VNone => false
    case VBool(b) => b
    case VInt(i) => i != 0
    case VReal(r) => r != 0.0
    case VStr(s) => |s| > 0
    case VList(items) => |items| > 0
  }

  /** Dictionary lookup with a default: the value under `key`, or `None` when the key is absent. */
  function Get(p: Product, key: string): (v: Value)
    ensures key !in p ==> v == VNone
    ensures key in p ==> v == p[key]
  {
    if key in p then p[key] else VNone
  }

  /**
    A product is constrained when its `is_storable` entry is truthy or its
    `type` entry is the string `"product"`; a missing entry counts as `None`.
  */
  predicate IsStorable(p: Product)
    ensures IsStorable(p) <==>
              || ("is_storable" in p && Truthy(p["is_storable"]))
              || ("type" in p && p["type"] == VStr("product"))
    ensures "is_storable" !in p && "type" !in p ==> !IsStorable(p)
  {
    Truthy(Get(p, "is_storable")) || Get(p, "type") == VStr("product")
  }

  /**
    The integer dictionary key a value is equal to under Python's `==`:
    `True` is 1, `False` is 0 and an integral float equals its integer.
  */
  function AsIntKey(v: Value): (k: Option<int>)
    ensures v.VInt? ==> k == Some(v.i)
    ensures v.VBool? ==> k == Some(if v.b then 1 else 0)
    ensures v.VReal? ==> (k.Some? <==> v.r == v.r.Floor as real)
    ensures k.Some? && v.VReal? ==> k.value as real == v.r
    ensures v.VNone? || v.VStr? || v.VList? ==> k.None?
  {
    match v
    case VInt(i) => Some(i)
    case VBool(b) => Some(if b then 1 else 0)
    case VReal(r) => if r == r.Floor as real then Some(r.Floor) else None
    case _ => None
  }

  /** Some group carries product id `id`. */
  ghost predicate HasGroup(quants: seq<QuantGroup>, id: int) {
    exists i :: 0 <= i < |quants| && quants[i].productId == id
  }

  /** Group `i` is the last one for its product id. */
  ghost predicate LastFor(quants: seq<QuantGroup>, i: int)
    requires 0 <= i < |quants|
  {
    forall j :: i < j < |quants| ==> quants[j].productId != quants[i].productId
  }

  /**
    The dictionary built from the grouped rows, keyed by each row's product
    id: the quantity of each grouped product; when a product id occurs more
    than once, the last group wins.
  */
  function QtyByProduct(quants: seq<QuantGroup>): (m: map<int, real>)
    ensures forall id :: id in m <==> HasGroup(quants, id)
    ensures forall i :: 0 <= i < |quants| && LastFor(quants, i) ==>
              quants[i].productId in m && m[quants[i].productId] == quants[i].quantity
  {
    if |quants| == 0 then map[]
    else
      SnocGroups(quants);
      var init, last := quants[..|quants| - 1], quants[|quants| - 1];
      QtyByProduct(init)[last.productId := last.quantity]
  }

  /** How the groups of a list relate to those of the list without its last group. */
  lemma SnocGroups(quants: seq<QuantGroup>)
    requires |quants| > 0
    ensures var init, last := quants[..|quants| - 1], quants[|quants| - 1];
            && (forall id :: HasGroup(quants, id) <==> HasGroup(init, id) || id == last.productId)
            && (forall i :: 0 <= i < |init| && LastFor(quants, i) ==>
                  LastFor(init, i) && init[i] == quants[i] && quants[i].productId != last.productId)
  {
  }

  /** The grouped quantity for the product's id, or zero when no group has that id. */
  function StockOf(p: Product, qty: map<int, real>): (q: real)
    requires "id" in p
    ensures (var k := AsIntKey(p["id"]); k.Some? && k.value in qty) ==> q == qty[AsIntKey(p["id"]).value]
    ensures (var k := AsIntKey(p["id"]); k.None? || k.value !in qty) ==> q == 0.0
  {
    match AsIntKey(p["id"])
    case Some(k) => if k in qty then qty[k] else 0.0
    case None => 0.0
  }

  /**
    How one product looks after the pass: `pos_available_qty` is set (to the
    stock for a storable product, to `None` otherwise) and no other key
    changes.
  */
  ghost predicate AnnotatedWith(before: Product, after: Product, qty: map<int, real>)
    requires "id" in before
  {
    && after.Keys == before.Keys + {AvailableQty}
    && (forall k :: k in before && k != AvailableQty ==> after[k] == before[k])
    && (IsStorable(before) ==> after[AvailableQty] == VReal(StockOf(before, qty)))
    && (!IsStorable(before) ==> after[AvailableQty] == VNone)
  }

  /** The loop body for one product. */
  function AnnotateOne(p: Product, qty: map<int, real>): (r: Product)
    requires "id" in p
    ensures AnnotatedWith(p, r, qty)
  {
    p[AvailableQty := if IsStorable(p) then VReal(StockOf(p, qty)) else VNone]
  }

  /** Every product has an `"id"` key. */
  predicate HasIds(products: seq<Product>) {
    forall i :: 0 <= i < |products| ==> "id" in products[i]
  }

  /** The annotation loop: same products, same order, each one annotated. */
  function Annotate(products: seq<Product>, qty: map<int, real>): (r: seq<Product>)
    requires HasIds(products)
    ensures |r| == |products|
    ensures forall i :: 0 <= i < |r| ==> AnnotatedWith(products[i], r[i], qty)
  {
    seq(|products|, i requires 0 <= i < |products| => AnnotateOne(products[i], qty))
  }

  /** The id of every product, in order; evaluating it raises if a product has no id. */
  function Ids(products: seq<Product>): (ids: seq<Value>)
    requires HasIds(products)
    ensures |ids| == |products|
    ensures forall i :: 0 <= i < |ids| ==> ids[i] == products[i]["id"]
  {
    seq(|products|, i requires 0 <= i < |products| => products[i]["id"])
  }

  /** The index of the first product without an `"id"` key, whose lookup raises. */
  function FirstWithoutId(products: seq<Product>): (i: nat)
    requires !HasIds(products)
    ensures i < |products| && "id" !in products[i]
    ensures forall j :: 0 <= j < i ==> "id" in products[j]
  {
    if "id" !in products[0] then 0
    else
      var i := FirstWithoutId(products[1..]);
      assert forall j :: 1 <= j < |products| ==> products[j] == products[1..][j - 1];
      i + 1
  }

  /**
    The whole pass, applied to the products the parent model produced:
    nothing happens for an empty list or when no site can be resolved;
    otherwise every product is annotated with the stock grouped at the
    resolved site.
  */
  function ProcessPosUiProducts(
    products: seq<Product>, arg: ConfigArg, table: map<int, Config>, readGroup: ReadGroup)
    : (r: Result<seq<Product>, LoadError>)
    ensures |products| == 0 || ResolveSite(arg, table).None? ==> r == Success(products)
    ensures r.Failure? <==> |products| > 0 && ResolveSite(arg, table).Some? && !HasIds(products)
    ensures r.Failure? ==> r.error.index < |products| && "id" !in products[r.error.index]
    ensures r.Success? && |products| > 0 && ResolveSite(arg, table).Some? ==>
              var site := ResolveSite(arg, table).value;
              var qty := QtyByProduct(readGroup(Ids(products), site.location.id, site.companyId));
              && |r.value| == |products|
              && forall i :: 0 <= i < |products| ==> AnnotatedWith(products[i], r.value[i], qty)
  {
    if |products| == 0 then Success(products)
    else match ResolveSite(arg, table)
      case None => Success(products)
      case Some(site) =>
        if !HasIds(products) then Failure(MissingId(FirstWithoutId(products)))
        else
          var quants := readGroup(Ids(products), site.location.id, site.companyId);
          Success(Annotate(products, QtyByProduct(quants)))
  }

  /** The pass never touches the fields that decide storability, nor the id. */
  lemma AnnotateKeepsClassification(products: seq<Product>, qty: map<int, real>)
    requires HasIds(products)
    ensures HasIds(Annotate(products, qty))
    ensures forall i :: 0 <= i < |products| ==>
              (IsStorable(Annotate(products, qty)[i]) <==> IsStorable(products[i]))
  {
  }

  /** Running the pass twice with the same grouped quantities changes nothing more. */
  lemma AnnotateIdempotent(products: seq<Product>, qty: map<int, real>)
    requires HasIds(products)
    ensures HasIds(Annotate(products, qty))
    ensures Annotate(Annotate(products, qty), qty) == Annotate(products, qty)
  {
    AnnotateKeepsClassification(products, qty);
    var r := Annotate(products, qty);
    var rr := Annotate(r, qty);
    forall i | 0 <= i < |products| ensures rr[i] == r[i] {
      assert AnnotatedWith(products[i], r[i], qty);
      assert AnnotatedWith(r[i], rr[i], qty);
      assert r[i]["id"] == products[i]["id"];
      assert StockOf(r[i], qty) == StockOf(products[i], qty);
      assert rr[i].Keys == r[i].Keys;
    }
  }

  /** A storable product whose id has no group is reported with zero stock, not left unconstrained. */
  lemma UngroupedStorableGetsZero(p: Product, quants: seq<QuantGroup>)
    requires "id" in p && IsStorable(p)
    requires forall i :: 0 <= i < |quants| ==> AsIntKey(p["id"]) != Some(quants[i].productId)
    ensures AnnotateOne(p, QtyByProduct(quants))[AvailableQty] == VReal(0.0)
  {
  }

  /** A storable product reports the quantity of the last group with its id. */
  lemma GroupedStorableGetsSum(p: Product, quants: seq<QuantGroup>, i: int)
    requires "id" in p && IsStorable(p)
    requires 0 <= i < |quants| && AsIntKey(p["id"]) == Some(quants[i].productId) && LastFor(quants, i)
    ensures AnnotateOne(p, QtyByProduct(quants))[AvailableQty] == VReal(quants[i].quantity)
  {
  }
}

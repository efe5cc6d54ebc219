/**
  Resolution of the stock location whose quantities the point-of-sale client
  is shown: the source location of the configuration's operation type, or,
  failing that, the stock location of its warehouse.

  Database records are plain values here. Each attribute read that the
  Python module wraps in a catch-all handler is a `Read`, which either yields a
  value or raises; a raise anywhere on the way means "no location".
*/
module StockLocation {
  import opened Wrappers

  /** An ORM attribute read that either yields a value or raises. */
  datatype Read<+T> = Ok(value: T) | Raises

  datatype Location = Location(id: int)

  /** `stock.picking.type`: only its default source location matters here. */
  datatype PickingType = PickingType(defaultSrc: Read<Option<Location>>)

  /** `stock.warehouse`: only its main stock location matters here. */
  datatype Warehouse = Warehouse(lotStock: Read<Option<Location>>)

  /**
    A `pos.config` record. `live` is the result of asking the database
    whether the record is still there. `companyId` is only read once the
    record is known to exist and to have a location, so it is a plain value
    here rather than a `Read`.
  */
  datatype Config = Config(
    live: Read<bool>,
    pickingType: Read<Option<PickingType>>,
    warehouse: Read<Option<Warehouse>>,
    companyId: int)

  /**
    What the caller passes as `config`: a plain integer, which is browsed; a
    Python boolean, which passes the integer test and is browsed too; a
    record; or a falsy non-integer (`None` or an empty recordset).
  */
  datatype ConfigArg = ConfigId(id: int) | ConfigFlag(flag: bool) | ConfigRecord(config: Config) | NoConfig

  /** The location to read stock from, and the company to filter it by. */
  datatype Site = Site(location: Location, companyId: int)

  /**
    The record an id denotes. Database ids are positive: browsing zero gives
    an empty recordset, and browsing a negative or unknown id gives a record
    that does not exist; either way the existence check fails.
  */
  function Browse(table: map<int, Config>, id: int): (c: Config)
    ensures id > 0 && id in table ==> c == table[id]
    ensures id <= 0 || id !in table ==> c.live == Ok(false)
  {
    if id > 0 && id in table then table[id]
    else Config(live := Ok(false), pickingType := Raises, warehouse := Raises, companyId := 0)
  }

  /**
    The configuration record the resolution works on, if the argument is not
    falsy. Browsing `False` gives the empty recordset; browsing `True` raises,
    because only a plain integer names a single record.
  */
  function ConfigOf(arg: ConfigArg, table: map<int, Config>): (r: Read<Option<Config>>)
    ensures arg.NoConfig? <==> r == Ok(None)
    ensures r == Raises <==> arg == ConfigFlag(true)
    ensures arg.ConfigRecord? ==> r == Ok(Some(arg.config))
    ensures arg.ConfigId? ==> r == Ok(Some(Browse(table, arg.id)))
    // the two cases of browsing an integer, spelled out
    ensures arg.ConfigId? && arg.id > 0 && arg.id in table ==> r == Ok(Some(table[arg.id]))
    ensures arg.ConfigId? && (arg.id <= 0 || arg.id !in table) ==> r.Ok? && r.value.Some? && r.value.value.live == Ok(false)
    ensures arg == ConfigFlag(false) ==> r.Ok? && r.value.Some? && r.value.value.live == Ok(false)
  {
    match arg
    case ConfigId(id) => Ok(Some(Browse(table, id)))
    case ConfigFlag(flag) => if flag then Raises else Ok(Some(Browse(table, 0)))
    case ConfigRecord(c) => Ok(Some(c))
    case NoConfig => Ok(None)
  }

  /**
    Independent description of a usable configuration: it exists, it has an
    operation type, and `l` is either that type's source location or, when
    the type names none, the warehouse's stock location.
  */
  ghost predicate LocatedAt(c: Config, l: Location) {
    && c.live == Ok(true)
    && c.pickingType.Ok? && c.pickingType.value.Some?
    && var src := c.pickingType.value.value.defaultSrc;
       || src == Ok(Some(l))
       || (&& src == Ok(None)
           && c.warehouse.Ok? && c.warehouse.value.Some?
           && c.warehouse.value.value.lotStock == Ok(Some(l)))
  }

  /** The location chosen for a configuration record, following the guarded chain of reads. */
  function LocationOf(c: Config): (r: Option<Location>)
    ensures r.Some? ==> LocatedAt(c, r.value)
    ensures forall l :: LocatedAt(c, l) ==> r == Some(l)
  {
    match c.live
    case Raises => None
    case Ok(live) =>
      if !live then None
      else match c.pickingType
        case Raises => None
        case Ok(None) => None
        case Ok(Some(pt)) =>
          match pt.defaultSrc
          case Raises => None
          case Ok(Some(src)) => Some(src)
          case Ok(None) =>
            // the warehouse's stock location is read only when there is
            // a warehouse; without one the fallback is the empty warehouse
            match c.warehouse
            case Raises => None
            case Ok(None) => None
            case Ok(Some(w)) =>
              match w.lotStock
              case Raises => None
              case Ok(stock) => stock
  }

  /** The site whose stock is reported, or `None` when the products are left alone. */
  function ResolveSite(arg: ConfigArg, table: map<int, Config>): (r: Option<Site>)
    ensures arg.NoConfig? || arg.ConfigFlag? ==> r.None?
    ensures var c := ConfigOf(arg, table);
            r.Some? <==> c.Ok? && c.value.Some? && LocationOf(c.value.value).Some?
    ensures var c := ConfigOf(arg, table);
            forall l, k ::
              r == Some(Site(l, k)) <==> c.Ok? && c.value.Some? && LocatedAt(c.value.value, l)
                                         && k == c.value.value.companyId
  {
    match ConfigOf(arg, table)
    case Raises => None
    case Ok(None) => None
    case Ok(Some(c)) =>
      match LocationOf(c)
      case None => None
      case Some(l) => Some(Site(l, c.companyId))
  }

  /**
    Passing a positive id is the same as passing the record it names; zero,
    a negative id or an unknown id resolves nothing.
  */
  lemma ResolveById(id: int, table: map<int, Config>)
    ensures id > 0 && id in table ==> ResolveSite(ConfigId(id), table) == ResolveSite(ConfigRecord(table[id]), table)
    ensures id <= 0 || id !in table ==> ResolveSite(ConfigId(id), table).None?
  {
  }

  /** A boolean argument resolves nothing: `False` names no record, and browsing `True` raises. */
  lemma FlagResolvesNothing(flag: bool, table: map<int, Config>)
    ensures ResolveSite(ConfigFlag(flag), table).None?
  {
  }

  /** A record that no longer exists, or whose existence check raises, resolves nothing. */
  lemma MissingConfigResolvesNothing(c: Config, table: map<int, Config>)
    requires c.live != Ok(true)
    ensures ResolveSite(ConfigRecord(c), table).None?
  {
  }

  /** Without an operation type, or when reading it raises, nothing is resolved. */
  lemma NoPickingTypeResolvesNothing(c: Config, table: map<int, Config>)
    requires c.pickingType == Ok(None) || c.pickingType == Raises
    ensures ResolveSite(ConfigRecord(c), table).None?
  {
  }

  /**
    When the operation type names a source location, the warehouse is never
    consulted: any warehouse, even one whose read raises, gives the same site.
  */
  lemma SourceLocationWins(c: Config, pt: PickingType, l: Location, w: Read<Option<Warehouse>>)
    requires c.live == Ok(true) && c.pickingType == Ok(Some(pt)) && pt.defaultSrc == Ok(Some(l))
    ensures LocationOf(c) == Some(l)
    ensures LocationOf(c.(warehouse := w)) == Some(l)
  {
  }

  /**
    Without a source location, the warehouse's stock location is used, and
    nothing is resolved if there is no warehouse or it has no stock location.
  */
  lemma WarehouseFallback(c: Config, pt: PickingType)
    requires c.live == Ok(true) && c.pickingType == Ok(Some(pt)) && pt.defaultSrc == Ok(None)
    ensures c.warehouse == Ok(None) ==> LocationOf(c).None?
    ensures forall w: Warehouse :: c.warehouse == Ok(Some(w)) ==>
              LocationOf(c) == (if w.lotStock.Ok? then w.lotStock.value else None)
  {
  }
}

/**
  The rate sheet edited on the Rates page (src/pages/RatesPage.jsx): its shape,
  the built-in defaults, the merge of a server copy over the defaults, and the
  pure state updaters that the page's handlers pass to `setRates`.
 */
module RateSheet {
  import opened Collections
  import opened Text

  /** A flat price list: label -> price. */
  type Table = map<string, int>

  /** A price list per vehicle or bus class: class -> route or city -> price. */
  type Grid = map<string, Table>

  datatype CustomRoute = CustomRoute(route: string, vehicle: string, rate: int)

  datatype SharingRoute = SharingRoute(displayRoute: string, pickup: string, drop: string, seating: string, price: JsNumber)

  datatype Rates = Rates(
    perSeatRates: Table,
    perKmRates: Grid,
    busRates: Grid,
    fixedCabRates: Table,
    customRoutes: seq<CustomRoute>,
    sharingRoutes: seq<SharingRoute>)

  /** The vehicles of the default per-km grid, in the order `for ... in` visits them. */
  const DefaultVehicles: seq<string> := ["Swift Dezire (4+1)", "Ertiga (6+1)", "Innova Crysta"]

  const Bus40 := "40 Seater Bus"
  const Bus50 := "50 Seater Bus"

  /** The retired city label that the merge strips from the two large bus rows. */
  const LegacyCity := "Aurangabad"

  /** `initialRates`: the built-in defaults template. */
  const DefaultRates: Rates := Rates(
    map[
      "Sambhaji nagar to Pune (Home Drop)" := 1200,
      "Sambhaji nagar to Pune (Shivaji nagar Drop)" := 900],
    map[
      "Swift Dezire (4+1)" := map[
        "Sambhaji nagar-Pune-Sambhaji nagar" := 12,
        "Sambhaji nagar-Mumbai-Sambhaji nagar" := 15,
        "Local within Sambhaji nagar" := 11],
      "Ertiga (6+1)" := map[
        "Sambhaji nagar-Pune-Sambhaji nagar" := 14,
        "Sambhaji nagar-Mumbai-Sambhaji nagar" := 18,
        "Local within Sambhaji nagar" := 13],
      "Innova Crysta" := map[
        "Sambhaji nagar-Pune-Sambhaji nagar" := 20,
        "Sambhaji nagar-Mumbai-Sambhaji nagar" := 23,
        "Local within Sambhaji nagar" := 17]],
    map[
      "17 Seater Bus" := map["Sambhaji nagar" := 20, "Pune" := 22, "Mumbai" := 25],
      "40 Seater Bus" := map["Sambhaji nagar" := 45, "Pune" := 50, "Mumbai" := 55],
      "50 Seater Bus" := map["Sambhaji nagar" := 52, "Pune" := 60, "Mumbai" := 70]],
    map[
      "Sambhajinagar - Pune One Way Sedan (4+1)" := 3200,
      "Sambhajinagar - Pune One Way Ertiga (6+1)" := 4000,
      "Sambhajinagar - Mumbai Airport One Way Sedan (4+1)" := 6000,
      "Sambhajinagar - Mumbai Airport One Way Ertiga (6+1)" := 7500],
    [
      CustomRoute("Sambhajinagar → Pune (One Way)", "Dzire (4+1)", 3000),
      CustomRoute("Sambhajinagar → Pune (One Way)", "Ertiga (6+1)", 3800),
      CustomRoute("Sambhajinagar → Mumbai", "Sedan (4+1)", 5500),
      CustomRoute("Sambhajinagar → Mumbai", "Ertiga (24/7)", 6000),
      CustomRoute("Sambhajinagar → Shivajinagar (Pickup/Drop)", "Home Pickup", 1200)],
    [])

  lemma DefaultVehiclesAreTheGridKeys()
    ensures forall v :: v in DefaultVehicles <==> v in DefaultRates.perKmRates
  {
  }

  // ---------------------------------------------------------------------------
  // The server copy and the merge

  /** A top-level property of the server's JSON object: missing, `null`, or a value. */
  datatype Slot<T> = Absent | Null | Present(value: T)

  /**
    The object the server returns for the rate sheet. `otherKeys` names any further
    top-level properties (a database id, timestamps) that the page ignores but that
    make the object non-empty.
   */
  datatype ServerRates = ServerRates(
    perSeatRates: Slot<Table>,
    perKmRates: Slot<Grid>,
    busRates: Slot<Grid>,
    fixedCabRates: Slot<Table>,
    customRoutes: Slot<seq<CustomRoute>>,
    sharingRoutes: Slot<seq<SharingRoute>>,
    otherKeys: set<string>)

  /** `Object.keys(data).length === 0`: a `null` property still counts as a key. */
  predicate IsEmptyObject(d: ServerRates)
  {
    && d.perSeatRates.Absent? && d.perKmRates.Absent? && d.busRates.Absent?
    && d.fixedCabRates.Absent? && d.customRoutes.Absent? && d.sharingRoutes.Absent?
    && d.otherKeys == {}
  }

  /** The entries `...x` contributes to an object literal: none when `x` is missing or `null`. */
  function Entries<V>(s: Slot<map<string, V>>): map<string, V>
  {
    if s.Present? then s.value else map[]
  }

  /** `x || fallback` where `x` is an array: any array is truthy, a missing or `null` one is not. */
  function OrElse<T>(s: Slot<T>, fallback: T): T
  {
    if s.Present? then s.value else fallback
  }

  /** `{...a, ...b}`: every key of either object, the later object winning on a shared key. */
  function Spread<V>(a: map<string, V>, b: map<string, V>): (r: map<string, V>)
    ensures r.Keys == a.Keys + b.Keys
    ensures forall k :: k in b ==> r[k] == b[k]
    ensures forall k :: k in a && k !in b ==> r[k] == a[k]
  {
    a + b
  }

  /** `savedRates.perKmRates && savedRates.perKmRates[vehicle]`, spread: the saved row, or nothing. */
  function SavedRow(saved: Slot<Grid>, vehicle: string): Table
  {
    if saved.Present? && vehicle in saved.value then saved.value[vehicle] else map[]
  }

  /** One `delete` of the clean-up pass: only a truthy (non-zero) legacy entry is removed. */
  function DropLegacyCity(bus: Grid, row: string): Grid
  {
    if row in bus && LegacyCity in bus[row] && bus[row][LegacyCity] != 0
    then bus[row := bus[row] - {LegacyCity}]
    else bus
  }

  /** One vehicle of the per-km grid after the merge: its default routes spread with the saved ones. */
  function MergedRow(d: Rates, saved: ServerRates, vehicle: string): Table
    requires vehicle in d.perKmRates
  {
    Spread(d.perKmRates[vehicle], SavedRow(saved.perKmRates, vehicle))
  }

  /** The per-km grid built by the loop after visiting the vehicles `vs`. */
  ghost function GridOver(d: Rates, saved: ServerRates, vs: seq<string>): Grid
    requires forall v :: v in vs ==> v in d.perKmRates
  {
    map v | v in vs :: MergedRow(d, saved, v)
  }

  /** One loop step adds exactly the next vehicle's merged row. */
  lemma GridOverStep(d: Rates, saved: ServerRates, vs: seq<string>, i: nat)
    requires i < |vs| && forall v :: v in vs ==> v in d.perKmRates
    ensures GridOver(d, saved, vs[..i])[vs[i] := MergedRow(d, saved, vs[i])] == GridOver(d, saved, vs[..i + 1])
  {
    assert vs[..i + 1] == vs[..i] + [vs[i]];
  }

  /** Visiting every vehicle of the template gives the merged grid. */
  lemma GridOverAll(d: Rates, saved: ServerRates, vs: seq<string>)
    requires forall v :: v in vs <==> v in d.perKmRates
    ensures GridOver(d, saved, vs) == Merged(d, saved).perKmRates
  {
  }

  /**
    `mergeRates(savedRates)` as a value, over a defaults template `d` (the page always
    passes `DefaultRates`): the specification of MergeRates.
   */
  function Merged(d: Rates, saved: ServerRates): Rates
  {
    Rates(
      Spread(d.perSeatRates, Entries(saved.perSeatRates)),
      map v | v in d.perKmRates :: MergedRow(d, saved, v),
      DropLegacyCity(DropLegacyCity(Spread(d.busRates, Entries(saved.busRates)), Bus40), Bus50),
      Spread(d.fixedCabRates, Entries(saved.fixedCabRates)),
      OrElse(saved.customRoutes, d.customRoutes),
      OrElse(saved.sharingRoutes, []))
  }

  /**
    `mergeRates`, step by step as the source runs it: the spread categories first,
    then the loop over the template's vehicles (listed in `vehicles` in visiting
    order), then the two conditional deletes.
   */
  method MergeRates(d: Rates, vehicles: seq<string>, saved: ServerRates) returns (clean: Rates)
    requires forall v :: v in vehicles <==> v in d.perKmRates
    ensures clean == Merged(d, saved)
  {
    clean := Rates(
      Spread(d.perSeatRates, Entries(saved.perSeatRates)),
      map[],
      Spread(d.busRates, Entries(saved.busRates)),
      Spread(d.fixedCabRates, Entries(saved.fixedCabRates)),
      OrElse(saved.customRoutes, d.customRoutes),
      OrElse(saved.sharingRoutes, []));
    ghost var start := clean;
    var i := 0;
    while i < |vehicles|
      invariant 0 <= i <= |vehicles|
      invariant clean == start.(perKmRates := clean.perKmRates)
      invariant clean.perKmRates == GridOver(d, saved, vehicles[..i])
    {
      var vehicle := vehicles[i];
      GridOverStep(d, saved, vehicles, i);
      clean := clean.(perKmRates := clean.perKmRates[vehicle :=
        Spread(d.perKmRates[vehicle], SavedRow(saved.perKmRates, vehicle))]);
      i := i + 1;
    }
    assert vehicles[..i] == vehicles;
    GridOverAll(d, saved, vehicles);
    if Bus40 in clean.busRates && LegacyCity in clean.busRates[Bus40] && clean.busRates[Bus40][LegacyCity] != 0 {
      clean := clean.(busRates := clean.busRates[Bus40 := clean.busRates[Bus40] - {LegacyCity}]);
    }
    if Bus50 in clean.busRates && LegacyCity in clean.busRates[Bus50] && clean.busRates[Bus50][LegacyCity] != 0 {
      clean := clean.(busRates := clean.busRates[Bus50 := clean.busRates[Bus50] - {LegacyCity}]);
    }
  }

  /** The per-seat and fixed-cab lists: every default and every saved key, the saved price winning. */
  lemma MergedFlatTables(d: Rates, saved: ServerRates)
    ensures Merged(d, saved).perSeatRates.Keys == d.perSeatRates.Keys + Entries(saved.perSeatRates).Keys
    ensures forall k :: k in Entries(saved.perSeatRates) ==>
      Merged(d, saved).perSeatRates[k] == Entries(saved.perSeatRates)[k]
    ensures forall k :: k in d.perSeatRates && k !in Entries(saved.perSeatRates) ==>
      Merged(d, saved).perSeatRates[k] == d.perSeatRates[k]
    ensures Merged(d, saved).fixedCabRates.Keys == d.fixedCabRates.Keys + Entries(saved.fixedCabRates).Keys
    ensures forall k :: k in Entries(saved.fixedCabRates) ==>
      Merged(d, saved).fixedCabRates[k] == Entries(saved.fixedCabRates)[k]
    ensures forall k :: k in d.fixedCabRates && k !in Entries(saved.fixedCabRates) ==>
      Merged(d, saved).fixedCabRates[k] == d.fixedCabRates[k]
  {
  }

  /** The clean-up pass as a rule per row, independent of the order of the two deletes. */
  function CleanBusRow(row: string, cities: Table): Table
  {
    if (row == Bus40 || row == Bus50) && LegacyCity in cities && cities[LegacyCity] != 0
    then cities - {LegacyCity}
    else cities
  }

  /**
    The bus grid: every default and every saved row; a saved row replaces the default
    row whole (it is not merged city by city), and only the clean-up touches it.
   */
  lemma MergedBusRows(d: Rates, saved: ServerRates)
    ensures Merged(d, saved).busRates.Keys == d.busRates.Keys + Entries(saved.busRates).Keys
    ensures forall row :: row in Entries(saved.busRates) ==>
      Merged(d, saved).busRates[row] == CleanBusRow(row, Entries(saved.busRates)[row])
    ensures forall row :: row in d.busRates && row !in Entries(saved.busRates) ==>
      Merged(d, saved).busRates[row] == CleanBusRow(row, d.busRates[row])
  {
  }

  /**
    After the merge neither large bus row holds a non-zero legacy entry; a zero entry
    survives, and every other row is exactly the spread of defaults and saved rows.
   */
  lemma MergedDropsLegacyCity(d: Rates, saved: ServerRates)
    ensures Bus40 in Merged(d, saved).busRates && LegacyCity in Merged(d, saved).busRates[Bus40] ==>
      Merged(d, saved).busRates[Bus40][LegacyCity] == 0
    ensures Bus50 in Merged(d, saved).busRates && LegacyCity in Merged(d, saved).busRates[Bus50] ==>
      Merged(d, saved).busRates[Bus50][LegacyCity] == 0
    ensures forall row :: (row in Entries(saved.busRates) && LegacyCity in Entries(saved.busRates)[row]
      && Entries(saved.busRates)[row][LegacyCity] == 0) ==>
      Merged(d, saved).busRates[row] == Entries(saved.busRates)[row]
    ensures forall row :: row in Entries(saved.busRates) && row != Bus40 && row != Bus50 ==>
      Merged(d, saved).busRates[row] == Entries(saved.busRates)[row]
  {
  }

  /**
    The per-km grid: exactly the template's vehicles (a vehicle only the server knows
    is dropped); within a vehicle, saved routes win and missing routes keep their default.
   */
  lemma MergedPerKmRates(d: Rates, saved: ServerRates)
    ensures Merged(d, saved).perKmRates.Keys == d.perKmRates.Keys
    ensures forall v :: v in d.perKmRates ==>
      Merged(d, saved).perKmRates[v].Keys == d.perKmRates[v].Keys + SavedRow(saved.perKmRates, v).Keys
    ensures forall v, route :: v in d.perKmRates && route in SavedRow(saved.perKmRates, v) ==>
      Merged(d, saved).perKmRates[v][route] == SavedRow(saved.perKmRates, v)[route]
    ensures forall v, route :: (v in d.perKmRates && route in d.perKmRates[v]
      && route !in SavedRow(saved.perKmRates, v)) ==>
      Merged(d, saved).perKmRates[v][route] == d.perKmRates[v][route]
  {
  }

  /** The route lists: the server's list when it sent one (even an empty one), else the fallback. */
  lemma MergedRouteLists(d: Rates, saved: ServerRates)
    ensures saved.customRoutes.Present? ==> Merged(d, saved).customRoutes == saved.customRoutes.value
    ensures !saved.customRoutes.Present? ==> Merged(d, saved).customRoutes == d.customRoutes
    ensures saved.sharingRoutes.Present? ==> Merged(d, saved).sharingRoutes == saved.sharingRoutes.value
    ensures !saved.sharingRoutes.Present? ==> Merged(d, saved).sharingRoutes == []
  {
  }

  /** A template whose two large bus rows carry no legacy entry and whose sharing list is empty. */
  ghost predicate CleanTemplate(d: Rates)
  {
    && (Bus40 in d.busRates ==> LegacyCity !in d.busRates[Bus40])
    && (Bus50 in d.busRates ==> LegacyCity !in d.busRates[Bus50])
    && d.sharingRoutes == []
  }

  lemma DefaultRatesAreClean()
    ensures CleanTemplate(DefaultRates)
  {
  }

  /**
    The page special-cases an empty server object; merging it over a clean template
    (such as `DefaultRates`) would have given the template all the same.
   */
  lemma MergeOfEmptyIsTemplate(d: Rates, saved: ServerRates)
    requires IsEmptyObject(saved) && CleanTemplate(d)
    ensures Merged(d, saved) == d
  {
    var m := Merged(d, saved);
    forall v | v in d.perKmRates
      ensures m.perKmRates[v] == d.perKmRates[v]
    {
      assert SavedRow(saved.perKmRates, v) == map[];
      assert Spread(d.perKmRates[v], map[]) == d.perKmRates[v];
    }
    assert m.perKmRates == d.perKmRates;
    assert Spread(d.busRates, Entries(saved.busRates)) == d.busRates;
  }

  // ---------------------------------------------------------------------------
  // The state updaters passed to setRates

  datatype GridCategory = PerKm | Bus

  datatype TableCategory = PerSeat | FixedCab

  function GridOf(r: Rates, c: GridCategory): Grid
  {
    match c
    case PerKm => r.perKmRates
    case Bus => r.busRates
  }

  function WithGrid(r: Rates, c: GridCategory, g: Grid): Rates
  {
    match c
    case PerKm => r.(perKmRates := g)
    case Bus => r.(busRates := g)
  }

  function TableOf(r: Rates, c: TableCategory): Table
  {
    match c
    case PerSeat => r.perSeatRates
    case FixedCab => r.fixedCabRates
  }

  function WithTable(r: Rates, c: TableCategory, t: Table): Rates
  {
    match c
    case PerSeat => r.(perSeatRates := t)
    case FixedCab => r.(fixedCabRates := t)
  }

  /** `{...grid[key]}`: the row's entries, or none when the row does not exist. */
  function RowOf(grid: Grid, key: string): Table
  {
    if key in grid then grid[key] else map[]
  }

  /** The updater of `updateNestedRate(category, key1, key2, value)`. */
  function SetNestedRate(r: Rates, c: GridCategory, key1: string, key2: string, value: int): (r': Rates)
    ensures r' == WithGrid(r, c, GridOf(r', c))
    ensures GridOf(r', c).Keys == GridOf(r, c).Keys + {key1}
    ensures forall k :: k in GridOf(r, c) && k != key1 ==> GridOf(r', c)[k] == GridOf(r, c)[k]
    ensures GridOf(r', c)[key1].Keys == RowOf(GridOf(r, c), key1).Keys + {key2}
    ensures GridOf(r', c)[key1][key2] == value
    ensures forall k :: k in RowOf(GridOf(r, c), key1) && k != key2 ==>
      GridOf(r', c)[key1][k] == RowOf(GridOf(r, c), key1)[k]
  {
    var grid := GridOf(r, c);
    WithGrid(r, c, grid[key1 := RowOf(grid, key1)[key2 := value]])
  }

  /** The updater of `updateSimpleRate(category, key, value)`. */
  function SetSimpleRate(r: Rates, c: TableCategory, key: string, value: int): (r': Rates)
    ensures r' == WithTable(r, c, TableOf(r', c))
    ensures TableOf(r', c).Keys == TableOf(r, c).Keys + {key}
    ensures TableOf(r', c)[key] == value
    ensures forall k :: k in TableOf(r, c) && k != key ==> TableOf(r', c)[k] == TableOf(r, c)[k]
  {
    WithTable(r, c, TableOf(r, c)[key := value])
  }

  /** One of the three editable fields of a custom route, with its new value. */
  datatype RouteField = RouteText(text: string) | VehicleText(text: string) | RateValue(value: int)

  /** `route[key] = value` for one field of a custom route. */
  function WithField(route: CustomRoute, f: RouteField): (r: CustomRoute)
    ensures r.route == (if f.RouteText? then f.text else route.route)
    ensures r.vehicle == (if f.VehicleText? then f.text else route.vehicle)
    ensures r.rate == (if f.RateValue? then f.value else route.rate)
  {
    match f
    case RouteText(t) => route.(route := t)
    case VehicleText(t) => route.(vehicle := t)
    case RateValue(v) => route.(rate := v)
  }

  /** The updater of `updateCustomRoute(index, key, value)`; the source fails on a missing index. */
  function SetCustomRouteField(r: Rates, index: nat, f: RouteField): (r': Rates)
    requires index < |r.customRoutes|
    ensures r' == r.(customRoutes := r'.customRoutes)
    ensures |r'.customRoutes| == |r.customRoutes|
    ensures r'.customRoutes[index] == WithField(r.customRoutes[index], f)
    ensures forall k :: 0 <= k < |r.customRoutes| && k != index ==> r'.customRoutes[k] == r.customRoutes[k]
  {
    r.(customRoutes := r.customRoutes[index := WithField(r.customRoutes[index], f)])
  }

  /** The row `addCustomRoute` appends. */
  const NewCustomRoute := CustomRoute("New Route", "Vehicle", 0)

  // ---------------------------------------------------------------------------
  // The sharing-route form

  datatype SharingForm = SharingForm(from: string, to: string, pickup: string, drop: string, seating: string, price: string)

  const EmptyForm := SharingForm("", "", "", "", "", "")

  datatype FormField = From | To | Pickup | Drop | Seating | Price

  /** `handleChange`: one input field takes the typed text. */
  function WithFormField(f: SharingForm, field: FormField, text: string): SharingForm
  {
    match field
    case From => f.(from := text)
    case To => f.(to := text)
    case Pickup => f.(pickup := text)
    case Drop => f.(drop := text)
    case Seating => f.(seating := text)
    case Price => f.(price := text)
  }

  /** None of the six fields is the empty (falsy) string. */
  predicate FormComplete(f: SharingForm)
  {
    f.from != "" && f.to != "" && f.pickup != "" && f.drop != "" && f.seating != "" && f.price != ""
  }

  /** The record `handleAddRoute` builds, or None when it returns early. */
  function NewSharingRoute(f: SharingForm): (r: Option<SharingRoute>)
    ensures r.Some? <==> FormComplete(f)
    ensures r.Some? ==> r.value.displayRoute == f.from + " → " + f.to
    ensures r.Some? ==> r.value.pickup == f.pickup && r.value.drop == f.drop && r.value.seating == f.seating
    ensures r.Some? ==> r.value.price == ParseNumber(f.price)
  {
    if FormComplete(f)
    then Some(SharingRoute(f.from + " → " + f.to, f.pickup, f.drop, f.seating, ParseNumber(f.price)))
    else None
  }

  /** A price typed as digits reaches the sharing route as that number. */
  lemma SharingRoutePriceRoundTrip(f: SharingForm, price: int)
    requires FormComplete(f) && f.price == ShowInt(price)
    ensures NewSharingRoute(f) == Some(SharingRoute(f.from + " → " + f.to, f.pickup, f.drop, f.seating, Num(price)))
  {
    ParseNumberOfShowInt(price);
  }

  // ---------------------------------------------------------------------------
  // The price stepper

  /** The stepper's minus button: `Math.max(0, value - step)`. */
  function StepDown(value: int, step: int): (r: int)
    ensures r >= 0
    ensures r >= value - step
    ensures r == value - step || r == 0
  {
    if value - step > 0 then value - step else 0
  }

  /** The stepper's plus button: `value + step`. */
  function StepUp(value: int, step: int): int
  {
    value + step
  }

  /** On a non-negative price, minus undoes plus. */
  lemma StepDownUndoesStepUp(value: int, step: nat)
    requires value >= 0
    ensures StepDown(StepUp(value, step), step) == value
  {
  }
}

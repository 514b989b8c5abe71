/**
  The Rates page's component state (src/pages/RatesPage.jsx): the working copy of
  the rate sheet, the status label, the sharing-route form and the debounced
  autosave. The 500 ms timer is a deadline field; time arrives as `now`
  parameters and timer expiry as `Tick(now)`. Network replies arrive as
  result parameters.
 */
module RatesPage {
  import opened Collections
  import opened Text
  import opened RateSheet

  /** The status labels the page shows. */
  datatype SaveStatus =
    | Loading
    | Ready
    | Loaded
    | Saving
    | Saved
    | SaveFailed(detail: string)
    | LoadFailed(detail: string)

  /** The text of each label, as the page sets it. */
  function Label(s: SaveStatus): string
  {
    match s
    case Loading => "Loading..."
    case Ready => "Ready"
    case Loaded => "Loaded"
    case Saving => "Saving..."
    case Saved => "Saved!"
    case SaveFailed(d) => "Save Failed! (" + d + "...)"
    case LoadFailed(d) => "Load Failed: " + d + "..."
  }

  /**
    The autosave effect tests the label text against "Loading..."; no other label,
    whatever its detail, has that text, so testing the constructor is the same test.
   */
  lemma LabelIsLoadingOnlyWhenLoading(s: SaveStatus)
    ensures Label(s) == "Loading..." <==> s == Loading
  {
  }

  /** The quiet period of the autosave, in milliseconds. */
  const DebounceMs := 500

  /** How much of an error message the two failure labels keep. */
  const LoadDetailLength := 15
  const SaveDetailLength := 20

  /** `response.ok`. */
  predicate IsOk(httpStatus: int)
  {
    200 <= httpStatus <= 299
  }

  /** The end of `GET /api/rates`: a reply with its parsed body, or a thrown error. */
  datatype LoadResult = Received(httpStatus: nat, body: ServerRates) | LoadThrew(message: string)

  /**
    The end of `POST /api/rates/save`: a reply, with the message the page extracts from
    an error body, or a thrown error.
   */
  datatype SaveResult = Answered(httpStatus: nat, errorMessage: string) | SaveThrew(message: string)

  function HttpErrorMessage(httpStatus: nat): string
  {
    "HTTP error! status: " + ShowNat(httpStatus)
  }

  const NotFoundMessage := "404: API endpoint not found."

  /** Cut to 15 characters, the load-failure label never shows the HTTP status code. */
  lemma LoadFailedHidesHttpStatus(httpStatus: nat)
    ensures Prefix(HttpErrorMessage(httpStatus), LoadDetailLength) == "HTTP error! sta"
  {
  }

  /** The working copy and label `fetchRates` leaves behind. */
  function LoadOutcome(res: LoadResult): (out: (Rates, SaveStatus))
    ensures out.1 == Ready <==> res.Received? && IsOk(res.httpStatus) && IsEmptyObject(res.body)
    ensures out.1 == Loaded <==> res.Received? && IsOk(res.httpStatus) && !IsEmptyObject(res.body)
    ensures out.1.LoadFailed? <==> !(res.Received? && IsOk(res.httpStatus))
    ensures out.1 == Loaded ==> out.0 == Merged(DefaultRates, res.body)
    ensures out.1 != Loaded ==> out.0 == DefaultRates
    ensures res.LoadThrew? ==> out.1 == LoadFailed(Prefix(res.message, LoadDetailLength))
    ensures res.Received? && !IsOk(res.httpStatus) ==>
      out.1 == LoadFailed(Prefix(HttpErrorMessage(res.httpStatus), LoadDetailLength))
  {
    match res
    case LoadThrew(m) => (DefaultRates, LoadFailed(Prefix(m, LoadDetailLength)))
    case Received(code, body) =>
      if !IsOk(code) then (DefaultRates, LoadFailed(Prefix(HttpErrorMessage(code), LoadDetailLength)))
      else if IsEmptyObject(body) then (DefaultRates, Ready)
      else (Merged(DefaultRates, body), Loaded)
  }

  /** Whenever the server answers, the working copy is the merge of its object over the defaults. */
  lemma LoadedCopyIsMerge(res: LoadResult)
    requires res.Received? && IsOk(res.httpStatus)
    ensures LoadOutcome(res).0 == Merged(DefaultRates, res.body)
  {
    if IsEmptyObject(res.body) {
      DefaultRatesAreClean();
      MergeOfEmptyIsTemplate(DefaultRates, res.body);
    }
  }

  /** The label `saveRatesToBackend` leaves behind; a 404 is reported before `response.ok` is read. */
  function SaveOutcome(res: SaveResult): (s: SaveStatus)
    ensures s == Saved <==> res.Answered? && IsOk(res.httpStatus)
    ensures s != Saved ==> s.SaveFailed?
    ensures res.Answered? && res.httpStatus == 404 ==> s == SaveFailed(Prefix(NotFoundMessage, SaveDetailLength))
    ensures res.SaveThrew? ==> s == SaveFailed(Prefix(res.message, SaveDetailLength))
    ensures res.Answered? && res.httpStatus != 404 && !IsOk(res.httpStatus) ==>
      s == SaveFailed(Prefix(res.errorMessage, SaveDetailLength))
  {
    match res
    case SaveThrew(m) => SaveFailed(Prefix(m, SaveDetailLength))
    case Answered(code, m) =>
      if code == 404 then SaveFailed(Prefix(NotFoundMessage, SaveDetailLength))
      else if IsOk(code) then Saved
      else SaveFailed(Prefix(m, SaveDetailLength))
  }

  class RatesEditor {
    /** The working copy (`rates`). */
    var rates: Rates
    /** The status label (`saveStatus`). */
    var status: SaveStatus
    /** The sharing-route form (`formData`). */
    var form: SharingForm
    /** The deadline of the armed autosave timer (`saveTimeout.current`), if one is armed. */
    var pending: Option<int>
    /** Saves sent and not yet answered. */
    var inFlight: nat
    /** Armed 5-second timers that will put the label back to "Ready". */
    var resetsArmed: nat
    /** The working copy has changed since the last autosave fired. */
    ghost var dirty: bool
    /** When the working copy last changed. */
    ghost var lastChange: int
    /** The copy the most recent autosave sent, if one has fired. */
    ghost var lastSent: Option<Rates>

    /**
      No edit is lost to the debounce: once loading is over, an unsaved change always
      has a timer armed, due one quiet period after the latest change, and with no
      timer armed the last save sent is exactly the current working copy.
     */
    ghost predicate Valid()
      reads this
    {
      && (status == Loading ==> pending == None && inFlight == 0 && resetsArmed == 0)
      && (status != Loading ==> (dirty <==> pending.Some?))
      && (status != Loading && pending.None? ==> lastSent == Some(rates))
      && (pending.Some? ==> pending.value == lastChange + DebounceMs)
    }

    /** The state of a freshly mounted page. */
    constructor ()
      ensures Valid()
      ensures rates == DefaultRates && status == Loading && form == EmptyForm
      ensures pending == None && inFlight == 0 && resetsArmed == 0
    {
      rates := DefaultRates;
      status := Loading;
      form := EmptyForm;
      pending := None;
      inFlight := 0;
      resetsArmed := 0;
      dirty := false;
      lastChange := 0;
      lastSent := None;
    }

    /** The state right after the autosave effect has run for a change at time `now`. */
    ghost predicate ArmedAfterChange(now: int)
      reads this
    {
      dirty && lastChange == now && pending == (if status != Loading then Some(now + DebounceMs) else None)
    }

    /** The autosave effect, run after every change of `rates`: clear the timer, re-arm it unless loading. */
    method RatesChanged(now: int)
      requires status == Loading ==> inFlight == 0 && resetsArmed == 0
      modifies this
      ensures Valid() && ArmedAfterChange(now)
      ensures rates == old(rates) && status == old(status) && form == old(form)
      ensures inFlight == old(inFlight) && resetsArmed == old(resetsArmed)
    {
      dirty := true;
      lastChange := now;
      if status != Loading {
        pending := Some(now + DebounceMs);
      } else {
        pending := None;
      }
    }

    /** `fetchRates` completing at time `now`; the new working copy re-arms the autosave. */
    method Load(res: LoadResult, now: int)
      requires Valid() && status == Loading
      modifies this
      ensures Valid()
      ensures (rates, status) == LoadOutcome(res)
      ensures pending == Some(now + DebounceMs) && dirty
      ensures form == old(form) && inFlight == old(inFlight) && resetsArmed == old(resetsArmed)
    {
      match res {
        case LoadThrew(m) =>
          rates := DefaultRates;
          status := LoadFailed(Prefix(m, LoadDetailLength));
        case Received(code, body) =>
          if !IsOk(code) {
            rates := DefaultRates;
            status := LoadFailed(Prefix(HttpErrorMessage(code), LoadDetailLength));
          } else if IsEmptyObject(body) {
            rates := DefaultRates;
            status := Ready;
          } else {
            DefaultVehiclesAreTheGridKeys();
            rates := MergeRates(DefaultRates, DefaultVehicles, body);
            status := Loaded;
          }
      }
      RatesChanged(now);
    }

    method UpdateNestedRate(c: GridCategory, key1: string, key2: string, value: int, now: int)
      requires Valid()
      modifies this
      ensures Valid() && ArmedAfterChange(now)
      ensures rates == SetNestedRate(old(rates), c, key1, key2, value)
      ensures status == old(status) && form == old(form)
      ensures inFlight == old(inFlight) && resetsArmed == old(resetsArmed)
    {
      rates := SetNestedRate(rates, c, key1, key2, value);
      RatesChanged(now);
    }

    method UpdateSimpleRate(c: TableCategory, key: string, value: int, now: int)
      requires Valid()
      modifies this
      ensures Valid() && ArmedAfterChange(now)
      ensures rates == SetSimpleRate(old(rates), c, key, value)
      ensures status == old(status) && form == old(form)
      ensures inFlight == old(inFlight) && resetsArmed == old(resetsArmed)
    {
      rates := SetSimpleRate(rates, c, key, value);
      RatesChanged(now);
    }

    method UpdateCustomRoute(index: nat, f: RouteField, now: int)
      requires Valid() && index < |rates.customRoutes|
      modifies this
      ensures Valid() && ArmedAfterChange(now)
      ensures rates == SetCustomRouteField(old(rates), index, f)
      ensures status == old(status) && form == old(form)
      ensures inFlight == old(inFlight) && resetsArmed == old(resetsArmed)
    {
      rates := SetCustomRouteField(rates, index, f);
      RatesChanged(now);
    }

    method DeleteCustomRoute(index: nat, now: int)
      requires Valid()
      modifies this
      ensures Valid() && ArmedAfterChange(now)
      ensures rates == old(rates).(customRoutes := RemoveAt(old(rates).customRoutes, index))
      ensures status == old(status) && form == old(form)
      ensures inFlight == old(inFlight) && resetsArmed == old(resetsArmed)
    {
      rates := rates.(customRoutes := RemoveAt(rates.customRoutes, index));
      RatesChanged(now);
    }

    method AddCustomRoute(now: int)
      requires Valid()
      modifies this
      ensures Valid() && ArmedAfterChange(now)
      ensures rates == old(rates).(customRoutes := old(rates).customRoutes + [NewCustomRoute])
      ensures |rates.customRoutes| == |old(rates).customRoutes| + 1
      ensures status == old(status) && form == old(form)
      ensures inFlight == old(inFlight) && resetsArmed == old(resetsArmed)
    {
      rates := rates.(customRoutes := rates.customRoutes + [NewCustomRoute]);
      RatesChanged(now);
    }

    /** `handleChange`: typing into the form touches neither the rates nor the timer. */
    method HandleChange(field: FormField, text: string)
      modifies this`form
      ensures form == WithFormField(old(form), field, text)
    {
      form := WithFormField(form, field, text);
    }

    /**
      `handleAddRoute`: with all six fields filled, append the built route and clear
      the form; otherwise do nothing at all.
     */
    method HandleAddRoute(now: int)
      requires Valid()
      modifies this
      ensures Valid()
      ensures !FormComplete(old(form)) ==>
        rates == old(rates) && form == old(form) && pending == old(pending) && dirty == old(dirty)
      ensures FormComplete(old(form)) ==>
        && rates == old(rates).(sharingRoutes := old(rates).sharingRoutes + [NewSharingRoute(old(form)).value])
        && form == EmptyForm && ArmedAfterChange(now)
      ensures status == old(status) && inFlight == old(inFlight) && resetsArmed == old(resetsArmed)
    {
      var route := NewSharingRoute(form);
      if route.Some? {
        rates := rates.(sharingRoutes := rates.sharingRoutes + [route.value]);
        form := EmptyForm;
        RatesChanged(now);
      }
    }

    method HandleDeleteRoute(index: nat, now: int)
      requires Valid()
      modifies this
      ensures Valid() && ArmedAfterChange(now)
      ensures rates == old(rates).(sharingRoutes := RemoveAt(old(rates).sharingRoutes, index))
      ensures status == old(status) && form == old(form)
      ensures inFlight == old(inFlight) && resetsArmed == old(resetsArmed)
    {
      rates := rates.(sharingRoutes := RemoveAt(rates.sharingRoutes, index));
      RatesChanged(now);
    }

    /**
      Time passes to `now`. If the autosave deadline has come, the timer fires and the
      whole current working copy is sent as one save; otherwise nothing happens.
     */
    method Tick(now: int) returns (sent: Option<Rates>)
      requires Valid()
      modifies this
      ensures Valid()
      ensures rates == old(rates) && form == old(form) && resetsArmed == old(resetsArmed)
      ensures old(pending).Some? && old(pending).value <= now ==>
        && sent == Some(old(rates)) && status == Saving && pending == None && !dirty
        && inFlight == old(inFlight) + 1 && lastSent == sent
      ensures !(old(pending).Some? && old(pending).value <= now) ==>
        && sent == None && status == old(status) && pending == old(pending) && dirty == old(dirty)
        && inFlight == old(inFlight) && lastSent == old(lastSent)
    {
      if pending.Some? && pending.value <= now {
        sent := Some(rates);
        lastSent := sent;
        status := Saving;
        pending := None;
        dirty := false;
        inFlight := inFlight + 1;
      } else {
        sent := None;
      }
    }

    /** A save's reply arrives; a failure also arms the timer that resets the label. */
    method SaveCompleted(res: SaveResult)
      requires Valid() && inFlight > 0
      modifies this
      ensures Valid()
      ensures status == SaveOutcome(res) && inFlight == old(inFlight) - 1
      ensures resetsArmed == old(resetsArmed) + (if status.SaveFailed? then 1 else 0)
      ensures rates == old(rates) && form == old(form) && pending == old(pending) && dirty == old(dirty)
    {
      status := SaveOutcome(res);
      inFlight := inFlight - 1;
      if status.SaveFailed? {
        resetsArmed := resetsArmed + 1;
      }
    }

    /** One 5-second reset timer fires: the label goes back to "Ready", whatever it shows now. */
    method ResetStatus()
      requires Valid() && resetsArmed > 0
      modifies this
      ensures Valid()
      ensures status == Ready && resetsArmed == old(resetsArmed) - 1
      ensures rates == old(rates) && form == old(form) && pending == old(pending)
      ensures dirty == old(dirty) && inFlight == old(inFlight)
    {
      status := Ready;
      resetsArmed := resetsArmed - 1;
    }
  }

  /** The page mounted, loaded with `saved` at -1000 ms, and the load's own autosave fired at -500 ms. */
  method SettledAfterLoad(saved: ServerRates) returns (page: RatesEditor)
    ensures fresh(page) && page.Valid()
    ensures page.status == Saving && page.pending == None
  {
    page := new RatesEditor();
    page.Load(Received(200, saved), -1000);
    var first := page.Tick(-500);
  }

  /**
    Debounce coalescing: after the load's own autosave, an edit at 0 ms and another at
    100 ms produce exactly one save, sent at 600 ms, holding both edits.
   */
  method TwoQuickEditsOneSave(saved: ServerRates, seatRoute: string, seatPrice: int,
                              vehicle: string, route: string, kmRate: int)
    returns (sendTimes: seq<int>, sends: seq<Rates>)
    ensures sendTimes == [600] && |sends| == 1
    ensures seatRoute in sends[0].perSeatRates && sends[0].perSeatRates[seatRoute] == seatPrice
    ensures vehicle in sends[0].perKmRates && route in sends[0].perKmRates[vehicle]
    ensures sends[0].perKmRates[vehicle][route] == kmRate
  {
    var page := SettledAfterLoad(saved);
    sendTimes, sends := [], [];
    page.UpdateSimpleRate(PerSeat, seatRoute, seatPrice, 0);
    page.UpdateNestedRate(PerKm, vehicle, route, kmRate, 100);
    var times := [0, 100, 500, 599, 600, 1100];
    var i := 0;
    while i < |times|
      invariant 0 <= i <= |times|
      invariant page.Valid() && page.status != Loading
      invariant seatRoute in page.rates.perSeatRates && page.rates.perSeatRates[seatRoute] == seatPrice
      invariant vehicle in page.rates.perKmRates && route in page.rates.perKmRates[vehicle]
      invariant page.rates.perKmRates[vehicle][route] == kmRate
      invariant i <= 4 ==> page.pending == Some(600) && sendTimes == [] && sends == []
      invariant i > 4 ==> page.pending == None && sendTimes == [600] && |sends| == 1
      invariant i > 4 ==> sends[0] == page.rates
    {
      var sent := page.Tick(times[i]);
      if sent.Some? {
        sendTimes := sendTimes + [times[i]];
        sends := sends + [sent.value];
      }
      i := i + 1;
    }
  }
}

// The flight price store behind the flights API route: GET returns the
// stored routes, POST (called by the price checker) applies one price
// observation to one route. The JSON file the route handler reads and
// writes is the `contents` field of FlightDataFile; None stands for a file
// that is missing or cannot be parsed, in which case the seed data is used.
module Flights {
  import opened Basics
  import opened Text

  datatype Trend = Up | Down | Stable

  datatype PricePoint = PricePoint(date: string, price: int)

  datatype Route = Route(
    id: string,
    origin: string,
    destination: string,
    destinationName: string,
    currentPrice: int,
    lowestPrice: int,
    airline: string,
    stops: int,
    duration: string,
    priceHistory: seq<PricePoint>,
    lastChecked: string,
    trend: Trend)

  datatype FlightData = FlightData(routes: seq<Route>, lastUpdated: string)

  /** The POST body. Only `routeId` and `price` are always present. */
  datatype PriceUpdate = PriceUpdate(
    routeId: string,
    price: int,
    airline: Option<string>,
    stops: Option<int>,
    duration: Option<string>)

  datatype PostResponse =
    | Updated(id: string, destination: string, oldPrice: int, newPrice: int, trend: Trend)
    | Unauthorized
    | RouteNotFound

  /** The history keeps this many of its most recent entries. */
  const HistoryCap: nat := 14

  /** The key used when FLIGHT_API_KEY is unset or empty. */
  const DefaultApiKey: string := "nero-update-key"

  function StatusCode(r: PostResponse): (code: int)
    ensures code == 200 <==> r.Updated?
    ensures code == 401 <==> r.Unauthorized?
    ensures code == 404 <==> r.RouteNotFound?
  {
    match r
    case Updated(_, _, _, _, _) => 200
    case Unauthorized => 401
    case RouteNotFound => 404
  }

  /** The trend as it is written to the JSON file. */
  function TrendName(t: Trend): string {
    match t
    case Up => "up"
    case Down => "down"
    case Stable => "stable"
  }

  /** The two seed routes, used when the data file is missing or unreadable.
      They are built once, when the module is loaded, so every time stamp in
      them is that load instant `loadedAt`, not the time of a request. */
  function DefaultData(loadedAt: string): FlightData {
    FlightData(
      [ Route("1", "ORD", "KOA", "Kona", 718, 698, "Delta", 1, "16h 13min", [], loadedAt, Stable),
        Route("2", "ORD", "ITO", "Hilo", 825, 799, "Southwest", 2, "16h 55min", [], loadedAt, Down) ],
      loadedAt)
  }

  /** getData: the stored data, or the seed data when there is none. */
  function ReadData(file: Option<FlightData>, loadedAt: string): (d: FlightData)
    ensures file.Some? ==> d == file.value
    ensures file.None? ==> |d.routes| == 2 && d.lastUpdated == loadedAt
    ensures file.None? ==> forall i :: 0 <= i < |d.routes| ==>
      d.routes[i].lastChecked == loadedAt && d.routes[i].priceHistory == []
  {
    file.GetOr(DefaultData(loadedAt))
  }

  /** The Authorization header value a request must carry. */
  function ExpectedAuthorization(apiKey: Option<string>): (expected: string)
    ensures apiKey.Some? && apiKey.value != "" ==> expected == "Bearer " + apiKey.value
    ensures apiKey.None? || apiKey.value == "" ==> expected == "Bearer nero-update-key"
  {
    "Bearer " + (if apiKey.Some? && apiKey.value != "" then apiKey.value else DefaultApiKey)
  }

  predicate Authorized(authorization: Option<string>, apiKey: Option<string>) {
    authorization == Some(ExpectedAuthorization(apiKey))
  }

  /** routes.find(r => r.id === routeId), as an index. */
  function FindRoute(routes: seq<Route>, routeId: string): (r: Option<nat>)
    ensures r.Some? ==> r.value < |routes| && routes[r.value].id == routeId
  {
    FirstIndex(routes, (r: Route) => r.id == routeId)
  }

  lemma FindRouteSpec(routes: seq<Route>, routeId: string)
    ensures FindRoute(routes, routeId).None? <==> forall j :: 0 <= j < |routes| ==> routes[j].id != routeId
    ensures FindRoute(routes, routeId).Some? ==>
      var i := FindRoute(routes, routeId).value;
      i < |routes| && routes[i].id == routeId && forall j :: 0 <= j < i ==> routes[j].id != routeId
  {
  }

  function Min(a: int, b: int): int {
    if a <= b then a else b
  }

  /** The trend of a price change against the previous current price. */
  function NewTrend(price: int, oldPrice: int): (t: Trend)
    ensures t == Down <==> price < oldPrice
    ensures t == Up <==> price > oldPrice
    ensures t == Stable <==> price == oldPrice
  {
    if price < oldPrice then Down
    else if price > oldPrice then Up
    else Stable
  }

  /** `if (value) field = value`: only a present, non-empty string overwrites. */
  function Overwrite(current: string, given: Option<string>): string {
    if given.Some? && given.value != "" then given.value else current
  }

  /** priceHistory.findIndex(p => p.date === today). */
  function TodayIndex(h: seq<PricePoint>, today: string): Option<nat> {
    FirstIndex(h, (p: PricePoint) => p.date == today)
  }

  /** Records `price` for `today`: the first entry dated today is repriced,
      or a new entry is appended when there is none. */
  function UpsertToday(h: seq<PricePoint>, today: string, price: int): seq<PricePoint> {
    match TodayIndex(h, today)
    case Some(k) => h[k := h[k].(price := price)]
    case None => h + [PricePoint(today, price)]
  }

  /** slice(-n) for n >= 1 (only n == 14 is used): the last min(n, |h|)
      entries. For n == 0 this gives no entries, where slice(-0) would give all. */
  function KeepLast(h: seq<PricePoint>, n: nat): (r: seq<PricePoint>)
    ensures |r| == Min(n, |h|)
    ensures r == h[|h| - |r|..]
  {
    if |h| <= n then h else h[|h| - n..]
  }

  function UpdatedHistory(h: seq<PricePoint>, today: string, price: int): seq<PricePoint> {
    KeepLast(UpsertToday(h, today, price), HistoryCap)
  }

  /** The route after one successful POST, field by field. */
  function UpdatedRoute(r: Route, u: PriceUpdate, today: string, now: string): Route {
    r.(currentPrice := u.price,
       airline := Overwrite(r.airline, u.airline),
       stops := u.stops.GetOr(r.stops),
       duration := Overwrite(r.duration, u.duration),
       lastChecked := now,
       lowestPrice := Min(r.lowestPrice, u.price),
       trend := NewTrend(u.price, r.currentPrice),
       priceHistory := UpdatedHistory(r.priceHistory, today, u.price))
  }

  /** The route collection after a POST, or None when no route has the id. */
  function UpdateRoutes(routes: seq<Route>, u: PriceUpdate, today: string, now: string): (r: Option<seq<Route>>)
    ensures r.None? <==> forall j :: 0 <= j < |routes| ==> routes[j].id != u.routeId
    ensures r.Some? ==> |r.value| == |routes|
    ensures r.Some? ==> exists i :: (0 <= i < |routes| && routes[i].id == u.routeId &&
      (forall j :: 0 <= j < i ==> routes[j].id != u.routeId) &&
      r.value[i] == UpdatedRoute(routes[i], u, today, now) &&
      (forall j :: 0 <= j < |routes| && j != i ==> r.value[j] == routes[j]))
  {
    match FindRoute(routes, u.routeId)
    case None => None
    case Some(i) => Some(routes[i := UpdatedRoute(routes[i], u, today, now)])
  }

  // ---------------------------------------------------------------------
  // Properties of one update

  /** Airline and duration change only when a non-empty value is supplied,
      stops whenever it is supplied (0 included), the identity never. */
  lemma PartialUpdate(r: Route, u: PriceUpdate, today: string, now: string)
    ensures var r' := UpdatedRoute(r, u, today, now);
      && r'.id == r.id && r'.origin == r.origin && r'.destination == r.destination
      && r'.destinationName == r.destinationName
      && r'.currentPrice == u.price && r'.lastChecked == now
      && (r'.airline != r.airline ==> u.airline == Some(r'.airline) && r'.airline != "")
      && (u.airline.Some? && u.airline.value != "" ==> r'.airline == u.airline.value)
      && (r'.duration != r.duration ==> u.duration == Some(r'.duration) && r'.duration != "")
      && (u.duration.Some? && u.duration.value != "" ==> r'.duration == u.duration.value)
      && (u.stops.Some? ==> r'.stops == u.stops.value)
      && (u.stops.None? ==> r'.stops == r.stops)
  {
  }

  /** The lowest price is the running minimum: it never increases and never
      exceeds the current price after an update. */
  lemma LowestPriceRunningMinimum(r: Route, u: PriceUpdate, today: string, now: string)
    ensures var r' := UpdatedRoute(r, u, today, now);
      && r'.lowestPrice <= r.lowestPrice
      && r'.lowestPrice <= r'.currentPrice
      && (r'.lowestPrice == r.lowestPrice || r'.lowestPrice == u.price)
  {
  }

  /** The new trend compares the new price with the previous current price
      only; the previous trend plays no part. */
  lemma TrendReplacesPrevious(r: Route, t: Trend, u: PriceUpdate, today: string, now: string)
    ensures UpdatedRoute(r, u, today, now).trend == UpdatedRoute(r.(trend := t), u, today, now).trend
    ensures UpdatedRoute(r, u, today, now).trend == Stable <==> u.price == r.currentPrice
  {
  }

  // ---------------------------------------------------------------------
  // Properties of the price history

  ghost predicate UniqueDates(h: seq<PricePoint>) {
    forall i, j :: 0 <= i < j < |h| ==> h[i].date != h[j].date
  }

  lemma KeepLastShort(h: seq<PricePoint>, n: nat)
    requires |h| <= n
    ensures KeepLast(h, n) == h
  {
  }

  /** Never more than 14 entries. */
  lemma HistoryBounded(h: seq<PricePoint>, today: string, price: int)
    ensures |UpdatedHistory(h, today, price)| <= HistoryCap
  {
  }

  /** With an entry dated today, the first such entry is repriced in place
      and nothing is added. */
  lemma UpsertRepricesFirstToday(h: seq<PricePoint>, today: string, price: int, k: nat)
    requires k < |h| && h[k].date == today
    requires forall j :: 0 <= j < k ==> h[j].date != today
    ensures |UpsertToday(h, today, price)| == |h|
    ensures UpsertToday(h, today, price)[k] == PricePoint(today, price)
    ensures forall j :: 0 <= j < |h| && j != k ==> UpsertToday(h, today, price)[j] == h[j]
  {
    var p := (q: PricePoint) => q.date == today;
    assert p(h[k]);
  }

  /** Without an entry dated today, (today, price) is appended and, after the
      cap, is the last entry; the entries before it are the most recent ones
      of the old history. */
  lemma UpsertAppendsToday(h: seq<PricePoint>, today: string, price: int)
    requires forall j :: 0 <= j < |h| ==> h[j].date != today
    ensures UpsertToday(h, today, price) == h + [PricePoint(today, price)]
    ensures var r := UpdatedHistory(h, today, price);
      && |r| == Min(HistoryCap, |h| + 1)
      && r[|r| - 1] == PricePoint(today, price)
      && r[..|r| - 1] == h[|h| + 1 - |r|..]
  {
    var u := h + [PricePoint(today, price)];
    var r := UpdatedHistory(h, today, price);
    assert r == u[|u| - |r|..];
    assert r[..|r| - 1] == u[|u| - |r|..|u| - 1];
    assert u[..|h|] == h;
  }

  /** From a history within the cap, today's price is always recorded. */
  lemma TodayRecorded(h: seq<PricePoint>, today: string, price: int)
    requires |h| <= HistoryCap
    ensures PricePoint(today, price) in UpdatedHistory(h, today, price)
  {
    match TodayIndex(h, today)
    case Some(k) =>
      KeepLastShort(UpsertToday(h, today, price), HistoryCap);
      assert UpdatedHistory(h, today, price)[k] == PricePoint(today, price);
    case None =>
      UpsertAppendsToday(h, today, price);
      var r := UpdatedHistory(h, today, price);
      assert r[|r| - 1] in r;
  }

  /** Recording today's price keeps at most one entry per date. */
  lemma UpsertKeepsUniqueDates(h: seq<PricePoint>, today: string, price: int)
    requires UniqueDates(h)
    ensures UniqueDates(UpsertToday(h, today, price))
  {
    var u := UpsertToday(h, today, price);
    match TodayIndex(h, today)
    case Some(k) =>
      assert forall j :: 0 <= j < |h| ==> u[j].date == h[j].date;
    case None =>
      assert forall j :: 0 <= j < |h| ==> u[j] == h[j];
  }

  /** A suffix of a history with unique dates has unique dates. */
  lemma SuffixKeepsUniqueDates(h: seq<PricePoint>, n: nat)
    requires UniqueDates(h)
    ensures UniqueDates(KeepLast(h, n))
  {
    var r := KeepLast(h, n);
    var off := |h| - |r|;
    forall i, j | 0 <= i < j < |r| ensures r[i].date != r[j].date {
      assert r[i] == h[off + i] && r[j] == h[off + j];
    }
  }

  /** At most one entry per date stays at most one entry per date. */
  lemma UpdatedHistoryKeepsUniqueDates(h: seq<PricePoint>, today: string, price: int)
    requires UniqueDates(h)
    ensures UniqueDates(UpdatedHistory(h, today, price))
  {
    UpsertKeepsUniqueDates(h, today, price);
    SuffixKeepsUniqueDates(UpsertToday(h, today, price), HistoryCap);
  }

  /** Second same-day update when the day was already in the history. */
  lemma SameDayCollapseExisting(h: seq<PricePoint>, today: string, p1: int, p2: int, k: nat)
    requires |h| <= HistoryCap
    requires TodayIndex(h, today) == Some(k)
    ensures UpdatedHistory(UpdatedHistory(h, today, p1), today, p2) == UpdatedHistory(h, today, p2)
    ensures |UpdatedHistory(h, today, p1)| == |h|
  {
    UpsertRepricesFirstToday(h, today, p1, k);
    KeepLastShort(UpsertToday(h, today, p1), HistoryCap);
    var h1 := UpdatedHistory(h, today, p1);
    assert h1 == h[k := h[k].(price := p1)];
    UpsertRepricesFirstToday(h1, today, p2, k);
    KeepLastShort(UpsertToday(h1, today, p2), HistoryCap);
    UpsertRepricesFirstToday(h, today, p2, k);
    KeepLastShort(UpsertToday(h, today, p2), HistoryCap);
    assert UpsertToday(h1, today, p2) == UpsertToday(h, today, p2);
  }

  /** Second same-day update when the first one appended the day. */
  lemma SameDayCollapseAppended(h: seq<PricePoint>, today: string, p1: int, p2: int)
    requires forall j :: 0 <= j < |h| ==> h[j].date != today
    ensures UpdatedHistory(UpdatedHistory(h, today, p1), today, p2) == UpdatedHistory(h, today, p2)
    ensures |UpdatedHistory(UpdatedHistory(h, today, p1), today, p2)| == |UpdatedHistory(h, today, p1)|
  {
    UpsertAppendsToday(h, today, p1);
    UpsertAppendsToday(h, today, p2);
    var h1 := UpdatedHistory(h, today, p1);
    var last := |h1| - 1;
    var u1 := h + [PricePoint(today, p1)];
    var u2 := h + [PricePoint(today, p2)];
    var off := |u1| - |h1|;
    assert h1 == u1[off..];
    forall j | 0 <= j < last ensures h1[j].date != today {
      assert h1[j] == u1[off + j] == h[off + j];
    }
    UpsertRepricesFirstToday(h1, today, p2, last);
    var h2 := UpsertToday(h1, today, p2);
    KeepLastShort(h2, HistoryCap);
    var target := UpdatedHistory(h, today, p2);
    assert target == u2[off..];
    forall j | 0 <= j < |h2| ensures h2[j] == target[j] {
      if j < last {
        assert h2[j] == h1[j] == u1[off + j] == u2[off + j];
      }
    }
  }

  /** Two updates on the same day leave one entry for that day, holding the
      later price: the second update is as if the first had not happened,
      and it does not make the history longer. */
  lemma SameDayUpdatesCollapse(h: seq<PricePoint>, today: string, p1: int, p2: int)
    requires |h| <= HistoryCap
    ensures UpdatedHistory(UpdatedHistory(h, today, p1), today, p2) == UpdatedHistory(h, today, p2)
    ensures |UpdatedHistory(UpdatedHistory(h, today, p1), today, p2)| == |UpdatedHistory(h, today, p1)|
  {
    match TodayIndex(h, today)
    case Some(k) =>
      SameDayCollapseExisting(h, today, p1, p2, k);
      SameDayCollapseExisting(h, today, p2, p2, k);
    case None =>
      SameDayCollapseAppended(h, today, p1, p2);
  }

  // ---------------------------------------------------------------------
  // A sequence of updates

  function MinOf(xs: seq<int>): (m: int)
    requires |xs| > 0
    ensures forall i :: 0 <= i < |xs| ==> m <= xs[i]
    ensures exists i :: 0 <= i < |xs| && m == xs[i]
  {
    if |xs| == 1 then xs[0]
    else
      var rest := MinOf(xs[1..]);
      assert forall i :: 1 <= i < |xs| ==> xs[i] == xs[1..][i - 1];
      if xs[0] <= rest then xs[0] else rest
  }

  function Prices(us: seq<PriceUpdate>): (ps: seq<int>)
    ensures |ps| == |us| && forall i :: 0 <= i < |us| ==> ps[i] == us[i].price
  {
    seq(|us|, i requires 0 <= i < |us| => us[i].price)
  }

  /** The route after applying the updates in order (on one clock reading). */
  function ApplyUpdates(r: Route, us: seq<PriceUpdate>, today: string, now: string): Route
    decreases |us|
  {
    if us == [] then r
    else ApplyUpdates(UpdatedRoute(r, us[0], today, now), us[1..], today, now)
  }

  /** After any sequence of updates the lowest price is the minimum of the
      initial lowest price and every price observed. */
  lemma {:induction false} LowestIsMinimumOfObserved(r: Route, us: seq<PriceUpdate>, today: string, now: string)
    ensures ApplyUpdates(r, us, today, now).lowestPrice == MinOf([r.lowestPrice] + Prices(us))
    decreases |us|
  {
    if us == [] {
      assert [r.lowestPrice] + Prices(us) == [r.lowestPrice];
    } else {
      var r1 := UpdatedRoute(r, us[0], today, now);
      LowestIsMinimumOfObserved(r1, us[1..], today, now);
      var xs := [r.lowestPrice] + Prices(us);
      var ys := [r1.lowestPrice] + Prices(us[1..]);
      assert xs[1..] == Prices(us);
      assert Prices(us)[1..] == Prices(us[1..]);
      assert ys[1..] == Prices(us[1..]);
      if |us| > 1 {
        assert Prices(us)[0] == us[0].price;
        assert MinOf(Prices(us)) == Min(us[0].price, MinOf(Prices(us[1..])));
      }
    }
  }

  // ---------------------------------------------------------------------
  // The stored file and the route handler

  /** The in-place update of the found route in POST, one field at a time. */
  method UpdateRoute(original: Route, update: PriceUpdate, today: string, now: string)
    returns (route: Route)
    ensures route == UpdatedRoute(original, update, today, now)
  {
    route := original;
    var oldPrice := route.currentPrice;

    route := route.(currentPrice := update.price);
    if update.airline.Some? && update.airline.value != "" {
      route := route.(airline := update.airline.value);
    }
    if update.stops.Some? {
      route := route.(stops := update.stops.value);
    }
    if update.duration.Some? && update.duration.value != "" {
      route := route.(duration := update.duration.value);
    }
    route := route.(lastChecked := now);

    if update.price < route.lowestPrice {
      route := route.(lowestPrice := update.price);
    }

    if update.price < oldPrice {
      route := route.(trend := Down);
    } else if update.price > oldPrice {
      route := route.(trend := Up);
    } else {
      route := route.(trend := Stable);
    }

    var history := route.priceHistory;
    var existingToday := TodayIndex(history, today);
    if existingToday.Some? {
      var k := existingToday.value;
      history := history[k := history[k].(price := update.price)];
    } else {
      history := history + [PricePoint(today, update.price)];
    }
    route := route.(priceHistory := KeepLast(history, HistoryCap));
  }

  class FlightDataFile {
    /** The parsed content of the data file; None when it is missing or unreadable. */
    var contents: Option<FlightData>
    /** The instant the route module was loaded, stamped into the seed data. */
    const loadedAt: string

    constructor (initial: Option<FlightData>, loaded: string)
      ensures contents == initial && loadedAt == loaded
    {
      contents := initial;
      loadedAt := loaded;
    }

    /** GET: the file's data, or the seed data stamped at load time. */
    function Get(): (d: FlightData)
      reads this
      ensures contents.Some? ==> d == contents.value
      ensures contents.None? ==> d == DefaultData(loadedAt)
    {
      ReadData(contents, loadedAt)
    }

    /** POST: authenticate, find the route, update it field by field, upsert
        today's price into its history, keep the last 14 entries, save. */
    method Post(update: PriceUpdate, authorization: Option<string>, apiKey: Option<string>, now: string)
      returns (response: PostResponse)
      modifies this
      ensures !Authorized(authorization, apiKey) ==>
        response == Unauthorized && contents == old(contents)
      ensures Authorized(authorization, apiKey) && old(UpdateRoutes(Get().routes, update, IsoDate(now), now)).None? ==>
        response == RouteNotFound && contents == old(contents)
      ensures Authorized(authorization, apiKey) && old(UpdateRoutes(Get().routes, update, IsoDate(now), now)).Some? ==>
        var data := old(Get());
        var i := FindRoute(data.routes, update.routeId).value;
        && contents == Some(FlightData(old(UpdateRoutes(Get().routes, update, IsoDate(now), now)).value, now))
        && response == Updated(data.routes[i].id, data.routes[i].destinationName,
                               data.routes[i].currentPrice, update.price,
                               NewTrend(update.price, data.routes[i].currentPrice))
    {
      if !Authorized(authorization, apiKey) {
        return Unauthorized;
      }
      var data := ReadData(contents, loadedAt);
      var found := FindRoute(data.routes, update.routeId);
      if found.None? {
        return RouteNotFound;
      }
      var index := found.value;
      var oldPrice := data.routes[index].currentPrice;
      var route := UpdateRoute(data.routes[index], update, IsoDate(now), now);
      assert UpdateRoutes(data.routes, update, IsoDate(now), now) == Some(data.routes[index := route]);
      data := data.(routes := data.routes[index := route], lastUpdated := now);
      contents := Some(data);

      response := Updated(route.id, route.destinationName, oldPrice, update.price, route.trend);
    }
  }

  // ---------------------------------------------------------------------
  // Scenarios on the seed data

  /** Kona re-checked at its current price: stable, lowest price kept, and
      exactly one history entry for the day. */
  lemma KonaUnchangedPrice(loadedAt: string, now: string)
    ensures var d := DefaultData(loadedAt);
      var r := UpdatedRoute(d.routes[0], PriceUpdate("1", 718, None, None, None), IsoDate(now), now);
      && r.trend == Stable && r.lowestPrice == 698 && r.currentPrice == 718
      && r.priceHistory == [PricePoint(IsoDate(now), 718)]
  {
  }

  /** A POST to Kona while the file is missing stamps Kona with the request
      time; Hilo keeps the seed's load-time stamp. */
  lemma SeedStampsOfOtherRoute(loadedAt: string, now: string, price: int)
    ensures var r := UpdateRoutes(DefaultData(loadedAt).routes, PriceUpdate("1", price, None, None, None),
                                  IsoDate(now), now);
      r.Some? && r.value[0].lastChecked == now && r.value[1].lastChecked == loadedAt
  {
    var routes := DefaultData(loadedAt).routes;
    var u := PriceUpdate("1", price, None, None, None);
    assert FindRoute(routes, "1") == Some(0);
    var kona := UpdatedRoute(routes[0], u, IsoDate(now), now);
    assert UpdateRoutes(routes, u, IsoDate(now), now) == Some(routes[0 := kona]);
  }

  /** An unknown route id matches nothing in the seed data. */
  lemma UnknownRouteNotFound(loadedAt: string, now: string)
    ensures UpdateRoutes(DefaultData(loadedAt).routes, PriceUpdate("99", 500, None, None, None), IsoDate(now), now).None?
  {
  }
}

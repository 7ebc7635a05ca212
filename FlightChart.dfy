// The display helpers of the flight monitor widget: the price-history
// chart scale (highest and lowest price, their range), the trend icon,
// colour and label of a route card, the stop count wording and the chart's
// date labels. The widget shows a fixed list of routes and has no state
// updates of its own.
module FlightChart {
  import opened Basics
  import opened Text
  import Flights

  /** Math.max over the history's prices; None for an empty history, where
      Math.max() gives -Infinity. */
  function MaxPrice(h: seq<Flights.PricePoint>): (r: Option<int>)
    ensures r.None? <==> h == []
    ensures r.Some? ==> forall i :: 0 <= i < |h| ==> h[i].price <= r.value
    ensures r.Some? ==> exists i :: 0 <= i < |h| && h[i].price == r.value
  {
    if h == [] then None
    else match MaxPrice(h[1..])
      case None => Some(h[0].price)
      case Some(m) =>
        assert forall i :: 1 <= i < |h| ==> h[i] == h[1..][i - 1];
        Some(if h[0].price >= m then h[0].price else m)
  }

  /** Math.min over the history's prices; None for an empty history, where
      Math.min() gives Infinity. */
  function MinPrice(h: seq<Flights.PricePoint>): (r: Option<int>)
    ensures r.None? <==> h == []
    ensures r.Some? ==> forall i :: 0 <= i < |h| ==> r.value <= h[i].price
    ensures r.Some? ==> exists i :: 0 <= i < |h| && h[i].price == r.value
  {
    if h == [] then None
    else match MinPrice(h[1..])
      case None => Some(h[0].price)
      case Some(m) =>
        assert forall i :: 1 <= i < |h| ==> h[i] == h[1..][i - 1];
        Some(if h[0].price <= m then h[0].price else m)
  }

  /** `maxPrice - minPrice || 1`: the spread of the prices, or 1 when they are
      all equal (so that the bar heights never divide by zero). None for an
      empty history, where the source computes -Infinity. */
  function PriceRange(h: seq<Flights.PricePoint>): (r: Option<int>)
    ensures r.None? <==> h == []
    ensures r.Some? ==> r.value >= 1
    ensures r.Some? && MaxPrice(h).value != MinPrice(h).value ==>
      r.value == MaxPrice(h).value - MinPrice(h).value
    ensures r.Some? && (forall i :: 0 <= i < |h| ==> h[i].price == h[0].price) ==> r.value == 1
  {
    if h == [] then None
    else
      var spread := MaxPrice(h).value - MinPrice(h).value;
      Some(if spread != 0 then spread else 1)
  }

  /** getTrendIcon. */
  function TrendIcon(trend: string): string {
    if trend == "up" then "\U{1F4C8}"
    else if trend == "down" then "\U{1F4C9}"
    else "\U{27A1}\U{FE0F}"
  }

  /** getTrendColor: rising prices are bad news (red), falling good (green). */
  function TrendColor(trend: string): string {
    if trend == "up" then "text-red-400"
    else if trend == "down" then "text-green-400"
    else "text-gray-400"
  }

  /** The word under the price on a route card. */
  function TrendLabel(trend: string): string {
    if trend == "down" then "Dropping"
    else if trend == "up" then "Rising"
    else "Stable"
  }

  /** Every string other than "up" and "down" is shown as a stable trend, and
      the three renderings tell the three stored trends apart. */
  lemma TrendRenderings(trend: string)
    ensures trend != "up" && trend != "down" ==>
      TrendIcon(trend) == TrendIcon("stable") && TrendColor(trend) == TrendColor("stable") &&
      TrendLabel(trend) == TrendLabel("stable")
    ensures forall a: Flights.Trend, b: Flights.Trend :: a != b ==>
      TrendIcon(Flights.TrendName(a)) != TrendIcon(Flights.TrendName(b)) &&
      TrendColor(Flights.TrendName(a)) != TrendColor(Flights.TrendName(b)) &&
      TrendLabel(Flights.TrendName(a)) != TrendLabel(Flights.TrendName(b))
  {
    assert TrendIcon("up") != TrendIcon("stable") by {
      assert TrendIcon("up")[0] != TrendIcon("stable")[0];
    }
    assert TrendIcon("down") != TrendIcon("stable") by {
      assert TrendIcon("down")[0] != TrendIcon("stable")[0];
    }
  }

  /** Were the card fed a route the flights API had just updated, a price
      that fell would show with the falling icon, in green, as "Dropping";
      one that rose in red as "Rising". The monitor itself renders its own
      static route list and never reads the API, so this is a property of
      the two pieces side by side, not of a call between them. */
  lemma UpdateRendersTrend(r: Flights.Route, u: Flights.PriceUpdate, today: string, now: string)
    ensures var t := Flights.TrendName(Flights.UpdatedRoute(r, u, today, now).trend);
      && (u.price < r.currentPrice ==> TrendLabel(t) == "Dropping" && TrendColor(t) == "text-green-400" && TrendIcon(t) == "\U{1F4C9}")
      && (u.price > r.currentPrice ==> TrendLabel(t) == "Rising" && TrendColor(t) == "text-red-400" && TrendIcon(t) == "\U{1F4C8}")
      && (u.price == r.currentPrice ==> TrendLabel(t) == "Stable" && TrendColor(t) == "text-gray-400" && TrendIcon(t) == "\U{27A1}\U{FE0F}")
  {
  }

  /** "stop" or "stops": the plural only for more than one stop, so 0 and 1
      are both singular. */
  function StopWord(stops: int): (w: string)
    ensures w == "stops" <==> stops > 1
    ensures w == "stop" <==> stops <= 1
  {
    "stop" + (if stops > 1 then "s" else "")
  }

  /** `date.split('-').slice(1).join('/')`: the chart label under a bar. */
  function DateLabel(date: string): string {
    Join(Split(date, '-')[1..], "/")
  }

  /** "YYYY-MM-DD" is labelled "MM/DD". */
  lemma IsoDateLabel(year: string, month: string, day: string)
    requires '-' !in year && '-' !in month && '-' !in day
    ensures DateLabel(year + "-" + month + "-" + day) == month + "/" + day
  {
    assert year + "-" + month + "-" + day == year + ['-'] + (month + ['-'] + day);
    SplitAtSeparator(year, '-', month + ['-'] + day);
    SplitAtSeparator(month, '-', day);
    SplitWithoutSeparator(day, '-');
    assert Split(year + "-" + month + "-" + day, '-')[1..] == [month, day];
  }

  /** A date with no '-' has an empty label. */
  lemma DateLabelWithoutDash(date: string)
    requires '-' !in date
    ensures DateLabel(date) == ""
  {
    SplitWithoutSeparator(date, '-');
  }

  /** The routes the widget shows. */
  const InitialRoutes: seq<Flights.Route> := [
    Flights.Route("1", "ORD", "KOA", "Kona", 718, 698, "Delta", 1, "16h 13min",
      [ Flights.PricePoint("2026-02-15", 755), Flights.PricePoint("2026-02-16", 742),
        Flights.PricePoint("2026-02-17", 738), Flights.PricePoint("2026-02-18", 725),
        Flights.PricePoint("2026-02-19", 718), Flights.PricePoint("2026-02-20", 718),
        Flights.PricePoint("2026-02-21", 718), Flights.PricePoint("2026-02-22", 718) ],
      "2026-02-22 07:00", Flights.Stable),
    Flights.Route("2", "ORD", "ITO", "Hilo", 825, 799, "Southwest", 2, "16h 55min",
      [ Flights.PricePoint("2026-02-15", 899), Flights.PricePoint("2026-02-16", 885),
        Flights.PricePoint("2026-02-17", 865), Flights.PricePoint("2026-02-18", 855),
        Flights.PricePoint("2026-02-19", 835), Flights.PricePoint("2026-02-20", 835),
        Flights.PricePoint("2026-02-21", 825), Flights.PricePoint("2026-02-22", 825) ],
      "2026-02-22 07:00", Flights.Down)
  ]

  /** The selected route: routes.find(r => r.id === selectedRoute). */
  function ActiveRoute(routes: seq<Flights.Route>, selected: string): (r: Option<Flights.Route>)
    ensures r.Some? ==> r.value.id == selected
    ensures r.Some? ==>
      (exists i :: 0 <= i < |routes| && r.value == routes[i] &&
         (forall j :: 0 <= j < i ==> routes[j].id != selected))
    ensures r.None? ==> forall i :: 0 <= i < |routes| ==> routes[i].id != selected
  {
    match Flights.FindRoute(routes, selected)
    case None => None
    case Some(i) => Some(routes[i])
  }

  /** The initially selected route has a non-empty history, so its chart
      scale is finite: Kona ranges from 718 to 755. */
  lemma InitialChart()
    ensures ActiveRoute(InitialRoutes, "1") == Some(InitialRoutes[0])
    ensures MaxPrice(InitialRoutes[0].priceHistory) == Some(755)
    ensures MinPrice(InitialRoutes[0].priceHistory) == Some(718)
    ensures PriceRange(InitialRoutes[0].priceHistory) == Some(37)
  {
    var h := InitialRoutes[0].priceHistory;
    assert forall i :: 0 <= i < |h| ==> 718 <= h[i].price <= 755;
    assert h[0].price == 755 && h[4].price == 718;
    var mx, mn := MaxPrice(h).value, MinPrice(h).value;
    assert 755 <= mx <= 755;
    assert 718 <= mn <= 718;
  }
}

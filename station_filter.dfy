/**
 * The station list filter of the web client (`applyFilters` and
 * `getStatsForStatus`): a copy of the stations is narrowed by availability
 * tier, by charging-power class and by an inclusive price range, and the
 * copy is then sorted in place by one of four keys.
 */
module StationFilter {
  import opened Wrappers
  import Js
  import Stations

  /** A station as the client holds it: the directory's description and, maybe, a distance in km. */
  datatype ListedStation = ListedStation(view: Stations.StationView, distance: Option<real>)

  datatype StatusFilter = AnyStatus | Available | Moderate | Busy
  datatype PowerFilter = AnyPower | Slow | Fast | Rapid
  datatype SortKey = ByDistance | ByPrice | ByPower | ByAvailability

  datatype Filters = Filters(
    status: StatusFilter,
    power: PowerFilter,
    minPrice: real,
    maxPrice: real,
    sortBy: SortKey)

  /** The value of the status `<select>` for a tier. */
  function StatusName(f: StatusFilter): string
  {
    match f
    case AnyStatus => "all"
    case Available => "available"
    case Moderate => "moderate"
    case Busy => "busy"
  }

  function Price(x: ListedStation): real { x.view.station.pricePerKwh }
  function Power(x: ListedStation): int { x.view.station.chargingPower }

  /** The status filter compares the lower-cased label with the chosen tier. */
  predicate StatusOk(f: StatusFilter, x: ListedStation)
  {
    f == AnyStatus || Js.ToLowerCase(x.view.availabilityStatus) == StatusName(f)
  }

  /** The power class of a charging power in kW: up to 25 slow, up to 75 fast, above that rapid. */
  function PowerClass(kw: int): (c: PowerFilter)
    ensures c != AnyPower
    ensures c == Slow <==> kw <= 25
    ensures c == Fast <==> 25 < kw <= 75
    ensures c == Rapid <==> 75 < kw
  {
    if kw <= 25 then Slow else if kw <= 75 then Fast else Rapid
  }

  predicate PowerOk(f: PowerFilter, x: ListedStation)
  {
    match f
    case AnyPower => true
    case Slow => Power(x) <= 25
    case Fast => Power(x) > 25 && Power(x) <= 75
    case Rapid => Power(x) > 75
  }

  /** The three power tests of the filter partition the powers into the three classes. */
  lemma PowerOkIsClass(f: PowerFilter, x: ListedStation)
    ensures PowerOk(f, x) <==> f == AnyPower || f == PowerClass(Power(x))
  {
  }

  predicate PriceOk(f: Filters, x: ListedStation)
  {
    f.minPrice <= Price(x) <= f.maxPrice
  }

  predicate Passes(f: Filters, x: ListedStation)
  {
    StatusOk(f.status, x) && PowerOk(f.power, x) && PriceOk(f, x)
  }

  /** `Array.prototype.filter`: the elements satisfying `p`, in their order, each as often as before. */
  function Select(s: seq<ListedStation>, p: ListedStation -> bool): (r: seq<ListedStation>)
    ensures |r| <= |s|
    ensures forall x :: multiset(r)[x] == if p(x) then multiset(s)[x] else 0
  {
    if s == [] then []
    else
      assert s == [s[0]] + s[1..];
      (if p(s[0]) then [s[0]] else []) + Select(s[1..], p)
  }

  /** The three `.filter` calls of `applyFilters`, status first, then power, then price. */
  function Filtered(stations: seq<ListedStation>, f: Filters): seq<ListedStation>
  {
    var byStatus := Select(stations, x => StatusOk(f.status, x));
    var byPower := Select(byStatus, x => PowerOk(f.power, x));
    Select(byPower, x => PriceOk(f, x))
  }

  /** A station is kept exactly when it passes all three tests, and as often as it was given. */
  lemma FilteredKeepsPassing(stations: seq<ListedStation>, f: Filters)
    ensures forall x :: multiset(Filtered(stations, f))[x] == if Passes(f, x) then multiset(stations)[x] else 0
    ensures multiset(Filtered(stations, f)) <= multiset(stations)
    ensures forall x :: x in Filtered(stations, f) <==> x in stations && Passes(f, x)
  {
    var m := multiset(Filtered(stations, f));
    forall x ensures m[x] == if Passes(f, x) then multiset(stations)[x] else 0 {
    }
    forall x ensures x in Filtered(stations, f) <==> x in stations && Passes(f, x) {
      assert x in Filtered(stations, f) <==> m[x] > 0;
      assert x in stations <==> multiset(stations)[x] > 0;
    }
  }

  /** The sort key of the comparator: `(a.distance || 0)`, the price, minus the power, the utilization. */
  function Key(order: SortKey, x: ListedStation): real
  {
    match order
    case ByDistance => (match x.distance case Some(d) => d case None => 0.0)
    case ByPrice => Price(x)
    case ByPower => -(Power(x) as real)
    case ByAvailability => x.view.currentUtilization as real
  }

  predicate SortedBy(s: seq<ListedStation>, order: SortKey)
  {
    forall i, j :: 0 <= i < j < |s| ==> Key(order, s[i]) <= Key(order, s[j])
  }

  method Swap(a: array<ListedStation>, i: int, j: int)
    requires 0 <= i < j < a.Length
    modifies a
    ensures a[i] == old(a[j]) && a[j] == old(a[i])
    ensures forall k :: 0 <= k < a.Length && k != i && k != j ==> a[k] == old(a[k])
    ensures multiset(a[..]) == old(multiset(a[..]))
  {
    a[i], a[j] := a[j], a[i];
  }

  /** `filtered.sort(...)`: sorts the array in place, ascending by the key. */
  method SortInPlace(a: array<ListedStation>, order: SortKey)
    modifies a
    ensures SortedBy(a[..], order)
    ensures multiset(a[..]) == old(multiset(a[..]))
  {
    var i := 1;
    while i < a.Length
      invariant a.Length == 0 || 1 <= i <= a.Length
      invariant forall p, q :: 0 <= p < q < i && q < a.Length ==> Key(order, a[p]) <= Key(order, a[q])
      invariant multiset(a[..]) == old(multiset(a[..]))
    {
      var j := i;
      while j > 0 && Key(order, a[j - 1]) > Key(order, a[j])
        invariant 0 <= j <= i < a.Length
        invariant forall p, q :: 0 <= p < q <= i && p != j && q != j ==> Key(order, a[p]) <= Key(order, a[q])
        invariant forall p, q :: 0 <= p < j < q <= i ==> Key(order, a[p]) <= Key(order, a[q])
        invariant forall q :: j < q <= i ==> Key(order, a[j]) < Key(order, a[q])
        invariant multiset(a[..]) == old(multiset(a[..]))
      {
        Swap(a, j - 1, j);
        j := j - 1;
      }
      i := i + 1;
    }
  }

  /**
   * `applyFilters`: the stations that pass the three tests, each as often as
   * given, sorted by the chosen key. The input is a value and is not changed.
   */
  method ApplyFilters(stations: seq<ListedStation>, f: Filters) returns (r: seq<ListedStation>)
    ensures multiset(r) == multiset(Filtered(stations, f))
    ensures SortedBy(r, f.sortBy)
  {
    r := SortedCopy(Filtered(stations, f), f.sortBy);
  }

  /** `[...filtered]` then `.sort(...)` on it: the array is the local copy the sort works on. */
  method SortedCopy(filtered: seq<ListedStation>, order: SortKey) returns (r: seq<ListedStation>)
    ensures multiset(r) == multiset(filtered)
    ensures SortedBy(r, order)
  {
    var a := new ListedStation[|filtered|](k requires 0 <= k < |filtered| => filtered[k]);
    assert a[..] == filtered;
    SortInPlace(a, order);
    r := a[..];
  }

  /** What sortedness by each key means for the fields of the stations. */
  lemma SortedByMeaning(s: seq<ListedStation>, order: SortKey)
    requires SortedBy(s, order)
    ensures order == ByPrice ==> forall i, j :: 0 <= i < j < |s| ==> Price(s[i]) <= Price(s[j])
    ensures order == ByPower ==> forall i, j :: 0 <= i < j < |s| ==> Power(s[i]) >= Power(s[j])
    ensures order == ByAvailability ==>
      forall i, j :: 0 <= i < j < |s| ==> s[i].view.currentUtilization <= s[j].view.currentUtilization
  {
    if order == ByPower {
      forall i, j | 0 <= i < j < |s| ensures Power(s[i]) >= Power(s[j]) {
        assert Key(ByPower, s[i]) <= Key(ByPower, s[j]);
      }
    }
    if order == ByAvailability {
      forall i, j | 0 <= i < j < |s| ensures s[i].view.currentUtilization <= s[j].view.currentUtilization {
        assert Key(ByAvailability, s[i]) <= Key(ByAvailability, s[j]);
      }
    }
  }

  /** What the client shows: exactly the passing stations, as often as given, in key order. */
  lemma ApplyFiltersResult(stations: seq<ListedStation>, f: Filters, r: seq<ListedStation>)
    requires multiset(r) == multiset(Filtered(stations, f))
    ensures multiset(r) <= multiset(stations)
    ensures forall x :: x in r <==> x in stations && Passes(f, x)
  {
    FilteredKeepsPassing(stations, f);
    forall x ensures x in r <==> x in stations && Passes(f, x) {
      assert x in r <==> x in multiset(r);
    }
  }

  /** `getStatsForStatus`: how many stations carry exactly this label (no lower-casing). */
  function StatsForStatus(stations: seq<ListedStation>, status: string): (n: nat)
    ensures n <= |stations|
  {
    if stations == [] then 0
    else (if stations[0].view.availabilityStatus == status then 1 else 0) + StatsForStatus(stations[1..], status)
  }

  /** Counting one label is counting the stations a filter on exactly that label keeps. */
  lemma {:induction false} StatsForStatusIsFilterLength(stations: seq<ListedStation>, status: string)
    ensures StatsForStatus(stations, status) == |Select(stations, (x: ListedStation) => x.view.availabilityStatus == status)|
  {
    if stations != [] {
      StatsForStatusIsFilterLength(stations[1..], status);
    }
  }

  /**
   * When every label is one the directory produces, the three counters the
   * client shows add up to the number of stations.
   */
  lemma {:induction false} StatsCoverAll(stations: seq<ListedStation>)
    requires forall i :: 0 <= i < |stations| ==>
      stations[i].view.availabilityStatus in {Stations.Available, Stations.Moderate, Stations.Busy}
    ensures StatsForStatus(stations, Stations.Available) + StatsForStatus(stations, Stations.Moderate)
      + StatsForStatus(stations, Stations.Busy) == |stations|
  {
    if stations != [] {
      StatsCoverAll(stations[1..]);
    }
  }

  /** Filtering on a tier keeps exactly the stations the directory put in that tier. */
  lemma StatusFilterMatchesTier(f: StatusFilter, x: ListedStation)
    requires f != AnyStatus
    requires x.view.availabilityStatus in {Stations.Available, Stations.Moderate, Stations.Busy}
    ensures StatusOk(f, x) <==>
      (f == Available && x.view.availabilityStatus == Stations.Available)
      || (f == Moderate && x.view.availabilityStatus == Stations.Moderate)
      || (f == Busy && x.view.availabilityStatus == Stations.Busy)
  {
    var s := x.view.availabilityStatus;
    var l := Js.ToLowerCase(s);
    if s == Stations.Available {
      assert l == "available";
    } else if s == Stations.Moderate {
      assert l == "moderate";
    } else {
      assert l == "busy";
    }
  }
}

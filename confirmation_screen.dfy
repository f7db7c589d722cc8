/** The confirmation screen: choosing the stop and line from the route
    parameters, the arrival estimate, one poll of the nearby buses (line
    filter, nearest bus, near-arrival vibration debounce) and the storage
    effects of confirming the boarding. */
module ConfirmationScreen {
  import opened Base
  import opened Text
  import opened Storage

  /** A bus as the nearby-buses endpoint reports it; `distance` (metres),
      `speed` (`velocidade`, metres per second) and the headsign may be
      missing. */
  datatype Bus = Bus(busId: string, position: Location, recordedAt: string,
                     distance: Option<real>, speed: Option<real>,
                     headsign: Option<string>)

  // ---------------------------------------------------------------------
  // Route parameters

  datatype RouteParams = RouteParams(
    currentStopLocation: Option<Location>,
    tripHeadsign: Option<string>,
    origin: Option<string>,
    destination: Option<string>,
    originLocation: Option<Location>,
    destLocation: Option<Location>)

  /** Where the origin line of the screen comes from: the stored stop
      address, the `origin` parameter, or the coordinates written out. */
  datatype OriginText = StoredAddress(address: string)
                      | GivenOrigin(origin: string)
                      | Coordinates(at: Location)

  datatype Selection = Selection(stop: Location, line: string, originText: OriginText)

  predicate NewFlow(p: RouteParams) {
    p.currentStopLocation.Some? && Truthy(p.tripHeadsign)
  }

  predicate OldFlow(p: RouteParams) {
    p.originLocation.Some? && Truthy(p.destination)
  }

  /** The stop and line the screen tracks. The flow from the location
      screen (`currentStopLocation` and `tripHeadsign`) takes precedence
      over the older one (`originLocation` and `destination`); with
      neither, there is no selection and the screen goes back.
      `storedAddress` is the value stored under `pendingStopAddress`. */
  function SelectRoute(p: RouteParams, storedAddress: Option<string>): (r: Option<Selection>)
    ensures r.None? <==> !NewFlow(p) && !OldFlow(p)
    ensures r.Some? ==> r.value.line != ""
    ensures NewFlow(p) ==> r.Some? && r.value.stop == p.currentStopLocation.value
                           && r.value.line == p.tripHeadsign.value
                           && r.value.originText == (if Truthy(storedAddress) then StoredAddress(storedAddress.value)
                                                     else Coordinates(r.value.stop))
    ensures !NewFlow(p) && OldFlow(p) ==> r.Some? && r.value.stop == p.originLocation.value
                                          && r.value.line == p.destination.value
                                          && r.value.originText == (if Truthy(p.origin) then GivenOrigin(p.origin.value)
                                                                    else Coordinates(r.value.stop))
  {
    if NewFlow(p) then
      var stop := p.currentStopLocation.value;
      Some(Selection(stop, p.tripHeadsign.value,
                     if Truthy(storedAddress) then StoredAddress(storedAddress.value) else Coordinates(stop)))
    else if OldFlow(p) then
      var stop := p.originLocation.value;
      Some(Selection(stop, p.destination.value,
                     if Truthy(p.origin) then GivenOrigin(p.origin.value) else Coordinates(stop)))
    else
      None
  }

  // ---------------------------------------------------------------------
  // Arrival estimate

  /** The text shown as the estimate: "Calculando...", `Ns` or `N min`. */
  datatype Eta = Calculating | Secs(seconds: int) | Mins(minutes: int)

  /** `Math.round(x)`: the nearest integer, halves rounded up. */
  function Round(x: real): (n: int)
    ensures n as real - 0.5 <= x < n as real + 0.5
  {
    (x + 0.5).Floor
  }

  /** `formatTimeEstimate(distance, speed)`. */
  function FormatTimeEstimate(distance: Option<real>, speed: Option<real>): (r: Eta)
    ensures r == Calculating <==> (distance.None? || speed.None? || speed.value <= 0.5
                                   || distance.value / speed.value < 0.0)
    ensures r.Secs? ==> var s := distance.value / speed.value;
                        0.0 <= s < 60.0 && 0 <= r.seconds <= 60
                        && r.seconds as real - 0.5 <= s < r.seconds as real + 0.5
    ensures r.Mins? ==> var s := distance.value / speed.value;
                        s >= 60.0 && r.minutes >= 1
                        && r.minutes as real - 0.5 <= s / 60.0 < r.minutes as real + 0.5
  {
    if distance.None? || speed.None? || speed.value <= 0.5 then Calculating
    else
      var seconds := distance.value / speed.value;
      if seconds < 0.0 then Calculating
      else if seconds < 60.0 then Secs(Round(seconds))
      else Mins(Round(seconds / 60.0))
  }

  /** The seconds the vibration alert compares with its threshold: the
      distance divided by the speed when that is positive, and by 1
      otherwise, also when the speed is missing. */
  function ArrivalSeconds(b: Bus): (s: real)
    requires b.distance.Some?
    ensures b.speed.Some? && b.speed.value > 0.0 ==> s * b.speed.value == b.distance.value
    ensures !(b.speed.Some? && b.speed.value > 0.0) ==> s == b.distance.value
  {
    var divisor := if b.speed.Some? && b.speed.value > 0.0 then b.speed.value else 1.0;
    b.distance.value / divisor
  }

  /** Above 0.5 m/s the shown estimate and the alert use the same seconds. */
  lemma EstimateAgreesWithAlert(b: Bus)
    requires b.distance.Some? && b.speed.Some? && b.speed.value > 0.5
    requires b.distance.value >= 0.0
    ensures var e := FormatTimeEstimate(b.distance, b.speed);
            && !e.Calculating?
            && (ArrivalSeconds(b) < 60.0 <==> e.Secs?)
  {
    var d, v := b.distance.value, b.speed.value;
    assert (d / v) * v == d;
    assert ArrivalSeconds(b) * v == d;
    assert ArrivalSeconds(b) == d / v;
  }

  /** The two guards differ: a bus with no speed (or one of at most
      0.5 m/s) less than 20 m away shows "Calculando..." while its alert
      sees fewer than 20 seconds. */
  lemma AlertWhileCalculating(b: Bus)
    requires b.distance.Some? && 0.0 <= b.distance.value < 20.0
    requires b.speed.None? || (b.speed.Some? && b.speed.value <= 0.5
                               && (b.speed.value > 0.0 ==> b.distance.value < 20.0 * b.speed.value))
    ensures FormatTimeEstimate(b.distance, b.speed) == Calculating
    ensures ArrivalSeconds(b) < NearThreshold
  {
    if b.speed.Some? && b.speed.value > 0.0 {
      QuotientBelow(ArrivalSeconds(b), b.speed.value, b.distance.value, NearThreshold);
    }
  }

  lemma QuotientBelow(s: real, v: real, d: real, bound: real)
    requires v > 0.0 && s * v == d && d < bound * v
    ensures s < bound
  {
  }

  // ---------------------------------------------------------------------
  // Line filter and nearest bus

  /** The filter of the poll: the headsign exists and, trimmed and lower
      cased, EQUALS the selected line trimmed and lower cased; and the
      distance is a number. */
  function MatchesLine(b: Bus, line: string): (r: bool)
    ensures r ==> b.headsign.Some? && b.distance.Some?
    ensures r ==> |Trim(b.headsign.value)| == |Trim(line)|
    ensures b.headsign == Some(line) && b.distance.Some? ==> r
  {
    b.headsign.Some? && Normalize(b.headsign.value) == Normalize(line) && b.distance.Some?
  }

  /** Lines are compared without regard to case: a bus marked "X" serves
      the line "x" and not the line "y". */
  lemma MatchIgnoresCase(b: Bus)
    requires b.headsign == Some("X") && b.distance.Some?
    ensures MatchesLine(b, "x") && !MatchesLine(b, "y")
  {
    NormalizeLetter('X');
    NormalizeLetter('x');
    NormalizeLetter('y');
  }

  /** A single letter normalises to its lower case. */
  lemma NormalizeLetter(c: char)
    requires 'a' <= c <= 'z' || 'A' <= c <= 'Z'
    ensures Normalize([c]) == [LowerChar(c)]
  {
    assert !IsJsSpace(c);
    assert [c][0] == c;
    assert TrimStart([c]) == [c];
    assert TrimEnd([c]) == [c];
    assert Trim([c]) == [c];
    assert Lower([c]) == [LowerChar(c)] by {
      assert |Lower([c])| == 1 && Lower([c])[0] == LowerChar(c);
    }
  }

  /** `buses.filter(...)`, keeping the order of the input. */
  function FilterLine(buses: seq<Bus>, line: string): (r: seq<Bus>)
    ensures |r| <= |buses|
    ensures forall i :: 0 <= i < |r| ==> MatchesLine(r[i], line)
  {
    Filter(buses, b => MatchesLine(b, line))
  }

  /** The filter keeps every occurrence of a bus of the line, drops
      every other bus, and keeps the order of the input. */
  lemma FilterLineSpec(buses: seq<Bus>, line: string)
    ensures forall b :: multiset(FilterLine(buses, line))[b] ==
                        if MatchesLine(b, line) then multiset(buses)[b] else 0
    ensures IsSubsequence(FilterLine(buses, line), buses)
  {
    forall b ensures multiset(FilterLine(buses, line))[b] ==
                     if MatchesLine(b, line) then multiset(buses)[b] else 0 {
      FilterCounts(buses, b' => MatchesLine(b', line), b);
    }
    FilterIsSubsequence(buses, b => MatchesLine(b, line));
  }

  /** The sort key `a.distance! - b.distance!` compares by; the filter
      lets through only buses that have a distance. */
  function Dist(b: Bus): (d: real)
    ensures b.distance.Some? ==> d == b.distance.value
  {
    if b.distance.Some? then b.distance.value else 0.0
  }

  ghost predicate SortedByDistance(s: seq<Bus>) {
    forall i, j :: 0 <= i < j < |s| ==> Dist(s[i]) <= Dist(s[j])
  }

  /** `busesOfSelectedLine.sort((a, b) => a.distance! - b.distance!)`, in
      place: an insertion sort. */
  method SortByDistance(a: array<Bus>)
    modifies a
    ensures SortedByDistance(a[..])
    ensures multiset(a[..]) == multiset(old(a[..]))
  {
    var i := 0;
    while i < a.Length
      invariant 0 <= i <= a.Length
      invariant SortedByDistance(a[..i])
      invariant multiset(a[..]) == multiset(old(a[..]))
    {
      InsertAt(a, i);
      i := i + 1;
    }
    assert a[..a.Length] == a[..];
  }

  /** One pass of the insertion sort: moves `a[i]` left past the farther
      buses before it, so that the first `i + 1` are sorted; the same
      buses stay in the first `i + 1` cells and the rest is untouched. */
  method InsertAt(a: array<Bus>, i: nat)
    requires i < a.Length && SortedByDistance(a[..i])
    modifies a
    ensures SortedByDistance(a[..i + 1])
    ensures multiset(a[..i + 1]) == multiset(old(a[..i + 1]))
    ensures a[i + 1..] == old(a[i + 1..])
    ensures multiset(a[..]) == multiset(old(a[..]))
  {
    ghost var before := a[..];
    var j := i;
    assert Inserting(a[..], i, j);
    while j > 0 && Dist(a[j - 1]) > Dist(a[j])
      invariant 0 <= j <= i
      invariant Inserting(a[..], i, j)
      invariant a[..][i + 1..] == before[i + 1..]
      invariant multiset(a[..]) == multiset(before)
    {
      ghost var s := a[..];
      Swap(a, j);
      SwapStep(s, a[..], i, j);
      j := j - 1;
    }
    InsertDone(a[..], before, i, j);
  }

  /** While `a[j]` moves left: the cells up to `i` other than `j` are in
      order, and `a[j]` is no farther than any cell after it. */
  ghost predicate Inserting(s: seq<Bus>, i: nat, j: nat) {
    j <= i < |s|
    && (forall k, l :: 0 <= k < l <= i && k != j && l != j ==> Dist(s[k]) <= Dist(s[l]))
    && (forall l :: j < l <= i ==> Dist(s[j]) <= Dist(s[l]))
  }

  /** Exchanging the moving bus with a farther one before it keeps the
      pass's invariant one cell to the left and leaves the cells after `i`. */
  lemma SwapStep(s: seq<Bus>, t: seq<Bus>, i: nat, j: nat)
    requires Inserting(s, i, j) && 0 < j && Dist(s[j - 1]) > Dist(s[j])
    requires t == s[j - 1 := s[j]][j := s[j - 1]]
    ensures Inserting(t, i, j - 1)
    ensures t[i + 1..] == s[i + 1..]
  {
  }

  /** The pass stops when the moving bus reached the front or a nearer
      bus: then the first `i + 1` cells are sorted and hold the buses they
      held before the pass. */
  lemma InsertDone(s: seq<Bus>, before: seq<Bus>, i: nat, j: nat)
    requires Inserting(s, i, j) && (j == 0 || Dist(s[j - 1]) <= Dist(s[j]))
    requires |s| == |before| && s[i + 1..] == before[i + 1..] && multiset(s) == multiset(before)
    ensures SortedByDistance(s[..i + 1])
    ensures multiset(s[..i + 1]) == multiset(before[..i + 1])
  {
    PrefixMultiset(s, before, i + 1);
  }

  /** Two arrangements of the same buses that agree from `n` on hold the
      same buses before `n`. */
  lemma PrefixMultiset(x: seq<Bus>, y: seq<Bus>, n: nat)
    requires n <= |x| == |y| && multiset(x) == multiset(y) && x[n..] == y[n..]
    ensures multiset(x[..n]) == multiset(y[..n])
  {
    assert x == x[..n] + x[n..];
    assert y == y[..n] + y[n..];
    forall b ensures multiset(x[..n])[b] == multiset(y[..n])[b] {
      assert multiset(x)[b] == multiset(x[..n])[b] + multiset(x[n..])[b];
      assert multiset(y)[b] == multiset(y[..n])[b] + multiset(y[n..])[b];
    }
  }

  method Swap(a: array<Bus>, j: nat)
    requires 0 < j < a.Length
    modifies a
    ensures a[..] == old(a[..])[j - 1 := old(a[j])][j := old(a[j - 1])]
    ensures multiset(a[..]) == multiset(old(a[..]))
  {
    a[j - 1], a[j] := a[j], a[j - 1];
  }

  /** The sorted list and its first element, the bus the screen shows. */
  method NearestOf(filtered: seq<Bus>) returns (sorted: seq<Bus>, nearest: Bus)
    requires |filtered| > 0
    ensures SortedByDistance(sorted) && multiset(sorted) == multiset(filtered)
    ensures nearest == sorted[0] && nearest in filtered
    ensures forall b :: b in filtered ==> Dist(nearest) <= Dist(b)
  {
    var a := new Bus[|filtered|](k requires 0 <= k < |filtered| => filtered[k]);
    assert a[..] == filtered;
    SortByDistance(a);
    sorted := a[..];
    nearest := sorted[0];
    assert nearest in multiset(sorted);
    forall b | b in filtered ensures Dist(nearest) <= Dist(b) {
      assert b in multiset(sorted);
      var k :| 0 <= k < |sorted| && sorted[k] == b;
      assert k == 0 || Dist(sorted[0]) <= Dist(sorted[k]);
    }
  }

  // ---------------------------------------------------------------------
  // Near-arrival debounce (the `hasVibratedNear` flag, called `armed`)

  const NearThreshold: real := 20.0

  /** What one poll contributes to the debounce: the arrival seconds of
      the nearest bus of the line, no bus of the line, or no data at all
      (the poll did not run, or it failed). */
  datatype PollEvent = Reading(arrivalSeconds: real) | NoMatch | NoData

  datatype Step = Step(armed: bool, fired: bool)

  /** One poll's effect on the flag. Below the threshold an unset flag
      fires once and is set, a set flag does nothing; at or above the
      threshold, or with no bus of the line, the flag is cleared without
      firing; a poll without data leaves the flag alone. */
  function Advance(armed: bool, e: PollEvent): (r: Step)
    ensures r.fired <==> e.Reading? && e.arrivalSeconds < NearThreshold && !armed
    ensures e.Reading? && e.arrivalSeconds < NearThreshold ==> r.armed
    ensures e.Reading? && e.arrivalSeconds >= NearThreshold ==> !r.armed
    ensures e.NoMatch? ==> !r.armed
    ensures e.NoData? ==> r.armed == armed
  {
    match e
    case Reading(s) =>
      if s < NearThreshold && !armed then Step(true, true)
      else if s >= NearThreshold then Step(false, false)
      else Step(armed, false)
    case NoMatch => Step(false, false)
    case NoData => Step(armed, false)
  }

  /** For each poll of a run, whether the phone vibrated: the decision of
      one debounce step from the flag the earlier polls left. */
  function Run(armed: bool, es: seq<PollEvent>): (fires: seq<bool>)
    ensures |fires| == |es|
    ensures forall i :: 0 <= i < |es| ==> fires[i] == Advance(FinalArmed(armed, es[..i]), es[i]).fired
    decreases es
  {
    if es == [] then []
    else
      var s := Advance(armed, es[0]);
      FinalArmedShift(armed, es);
      assert es[..0] == [];
      [s.fired] + Run(s.armed, es[1..])
  }

  /** The flag after the first `i` polls is the flag the rest of the run
      reaches in `i - 1` polls from the first step's flag. */
  lemma FinalArmedShift(armed: bool, es: seq<PollEvent>)
    requires es != []
    ensures forall i :: 0 < i < |es| ==>
              FinalArmed(armed, es[..i]) == FinalArmed(Advance(armed, es[0]).armed, es[1..][..i - 1])
              && es[1..][i - 1] == es[i]
  {
    forall i | 0 < i < |es|
      ensures FinalArmed(armed, es[..i]) == FinalArmed(Advance(armed, es[0]).armed, es[1..][..i - 1])
    {
      assert es[..i][0] == es[0];
      assert es[..i][1..] == es[1..][..i - 1];
    }
  }

  function FinalArmed(armed: bool, es: seq<PollEvent>): bool
    decreases es
  {
    if es == [] then armed else FinalArmed(Advance(armed, es[0]).armed, es[1..])
  }

  function CountFires(fires: seq<bool>): nat {
    if fires == [] then 0 else (if fires[0] then 1 else 0) + CountFires(fires[1..])
  }

  /** Inside a run of readings below the threshold (polls without data
      may come between them) the phone vibrates at most once: exactly
      once when the flag was clear and the run holds a reading. */
  lemma {:induction false} AtMostOncePerRun(armed: bool, es: seq<PollEvent>)
    requires forall i :: 0 <= i < |es| ==> es[i].NoData? || (es[i].Reading? && es[i].arrivalSeconds < NearThreshold)
    ensures CountFires(Run(armed, es)) ==
            if !armed && exists i :: 0 <= i < |es| && es[i].Reading? then 1 else 0
    ensures FinalArmed(armed, es) == (armed || exists i :: 0 <= i < |es| && es[i].Reading?)
    decreases es
  {
    if es != [] {
      var s := Advance(armed, es[0]);
      AtMostOncePerRun(s.armed, es[1..]);
      assert Run(armed, es) == [s.fired] + Run(s.armed, es[1..]);
      assert ([s.fired] + Run(s.armed, es[1..]))[1..] == Run(s.armed, es[1..]);
      if es[0].Reading? {
        assert !(s.armed && exists i :: 0 <= i < |es[1..]| && es[1..][i].Reading? && !s.armed);
      } else {
        assert (exists i :: 0 <= i < |es| && es[i].Reading?) ==
               (exists i :: 0 <= i < |es[1..]| && es[1..][i].Reading?) by {
          forall i | 0 < i < |es| ensures es[i] == es[1..][i - 1] {}
        }
      }
    }
  }

  /** Readings 25, 15, 10, 18, 8 seconds from a clear flag vibrate once,
      at 15. */
  lemma ExampleRun()
    ensures Run(false, [Reading(25.0), Reading(15.0), Reading(10.0), Reading(18.0), Reading(8.0)])
            == [false, true, false, false, false]
  {
  }

  /** What one poll shows. */
  datatype PollOutcome =
    | Skipped                        // no line selected: nothing is fetched
    | FetchFailed                    // session, HTTP or format failure
    | NoBusOfLine                    // "Nenhum ônibus da linha se aproximando"
    | Tracking(buses: seq<Bus>, nearest: Bus, estimate: Eta, vibrate: bool)

  /** The per-session state of the poll: the `hasVibratedNear` flag. */
  class ArrivalTracker {
    var armed: bool

    constructor ()
      ensures !armed
    {
      armed := false;
    }

    /** One run of `fetchNearbyBuses` for the selected `line`, given the
        bus list the endpoint returned (`None` when the token is missing,
        the response is not ok or not JSON, or it has no `buses`). */
    method Poll(line: string, response: Option<seq<Bus>>) returns (out: PollOutcome)
      modifies this
      ensures line == "" ==> out == Skipped && armed == old(armed)
      ensures line != "" && response.None? ==> out == FetchFailed && armed == old(armed)
      ensures line != "" && response.Some? && FilterLine(response.value, line) == [] ==>
                out == NoBusOfLine && armed == Advance(old(armed), NoMatch).armed
      ensures line != "" && response.Some? && FilterLine(response.value, line) != [] ==>
                && out.Tracking?
                && var filtered := FilterLine(response.value, line);
                && SortedByDistance(out.buses) && multiset(out.buses) == multiset(filtered)
                && out.nearest == out.buses[0] && out.nearest in filtered
                && (forall b :: b in filtered ==> Dist(out.nearest) <= Dist(b))
                && out.estimate == FormatTimeEstimate(out.nearest.distance, out.nearest.speed)
                && var step := Advance(old(armed), Reading(ArrivalSeconds(out.nearest)));
                && out.vibrate == step.fired && armed == step.armed
    {
      if line == "" {
        return Skipped;
      }
      if response.None? {
        return FetchFailed;
      }
      var filtered := FilterLine(response.value, line);
      if |filtered| == 0 {
        armed := false;
        return NoBusOfLine;
      }
      var sorted, nearest := NearestOf(filtered);
      assert MatchesLine(nearest, line) by {
        var k :| 0 <= k < |filtered| && filtered[k] == nearest;
      }
      var estimate := FormatTimeEstimate(nearest.distance, nearest.speed);
      var arrival := ArrivalSeconds(nearest);
      var vibrate := false;
      if arrival < NearThreshold && !armed {
        vibrate := true;
        armed := true;
      } else if arrival >= NearThreshold {
        armed := false;
      }
      out := Tracking(sorted, nearest, estimate, vibrate);
    }
  }

  // ---------------------------------------------------------------------
  // Confirming the boarding

  /** The keys that `confirmEmbark` removes after a confirmed boarding. */
  const PendingKeys: seq<string> :=
    ["pendingRequest", "pendingTripHeadsign", "pendingStopAddress", "pendingStopLat", "pendingStopLng"]

  datatype ConfirmOutcome =
    | NoLineSelected              // no request is made
    | NoToken                     // "Token não encontrado"
    | Rejected                    // the PUT failed or was not ok
    | Confirmed(tripHeadsign: string)

  /** The outcome of `confirmEmbark` for the selected line, the stored
      token and whether the PUT request succeeded. */
  function ConfirmDecision(line: Option<string>, token: Option<string>, responseOk: bool): (r: ConfirmOutcome)
    ensures r.Confirmed? <==> Truthy(line) && Truthy(token) && responseOk
    ensures r.Confirmed? ==> r.tripHeadsign == line.value
    ensures r == NoLineSelected <==> !Truthy(line)
    ensures r == NoToken <==> Truthy(line) && !Truthy(token)
  {
    if !Truthy(line) then NoLineSelected
    else if !Truthy(token) then NoToken
    else if !responseOk then Rejected
    else Confirmed(line.value)
  }

  /** The store after a confirmed boarding: exactly the pending keys are
      gone; every other key keeps its value. */
  function ClearPending(items: map<string, string>): (r: map<string, string>)
    ensures r.Keys == items.Keys - KeySet(PendingKeys)
    ensures forall k :: k in r ==> r[k] == items[k]
    ensures forall k :: k in items && k !in PendingKeys ==> k in r
  {
    items - KeySet(PendingKeys)
  }

  /** `confirmEmbark`: the store changes only on success, and then by
      removing the pending keys (`pendingRequest` twice, the second time
      to no effect). */
  method ConfirmEmbark(store: AsyncStore, line: Option<string>, responseOk: bool)
    returns (out: ConfirmOutcome)
    modifies store
    ensures out == ConfirmDecision(line, Lookup(old(store.items), "userToken"), responseOk)
    ensures store.items == if out.Confirmed? then ClearPending(old(store.items)) else old(store.items)
  {
    if !Truthy(line) {
      return NoLineSelected;
    }
    var token := store.GetItem("userToken");
    if !Truthy(token) {
      return NoToken;
    }
    if !responseOk {
      return Rejected;
    }
    store.MultiRemove(PendingKeys);
    store.RemoveItem("pendingRequest");
    assert store.items == ClearPending(old(store.items));
    out := Confirmed(line.value);
  }
}

/** The profile screen: how the stored CPF is displayed, the vibration
    setting (read from and written to the store) and the new-request
    button, which resumes a pending request when one is stored. */
module ProfileScreen {
  import opened Base
  import opened Text
  import opened Storage
  import RegisterScreen

  /** Eleven digits start at `k`. */
  predicate RunAt(s: string, k: nat) {
    k + 11 <= |s| && AllDigits(s[k..k + 11])
  }

  /** Where the pattern `(\d{3})(\d{3})(\d{3})(\d{2})` first matches at or
      after `from`: the leftmost start of eleven consecutive digits. */
  function FirstRun(s: string, from: nat): (r: Option<nat>)
    decreases |s| - from
    ensures r.Some? ==> from <= r.value && RunAt(s, r.value)
                        && forall k :: from <= k < r.value ==> !RunAt(s, k)
    ensures r.None? ==> forall k :: from <= k ==> !RunAt(s, k)
  {
    if from + 11 > |s| then None
    else if RunAt(s, from) then Some(from)
    else FirstRun(s, from + 1)
  }

  /** The replacement `$1.$2.$3-$4` of the four groups of a match. */
  function Mask11(d: string): (r: string)
    requires |d| == 11
    ensures |r| == 14 && r[3] == '.' && r[7] == '.' && r[11] == '-'
    ensures r[..3] == d[..3] && r[4..7] == d[3..6] && r[8..11] == d[6..9] && r[12..] == d[9..]
  {
    d[..3] + "." + d[3..6] + "." + d[6..9] + "-" + d[9..]
  }

  /** `cpf.replace(/(\d{3})(\d{3})(\d{3})(\d{2})/, '$1.$2.$3-$4')`: the
      first run of eleven digits is masked, everything around it is kept,
      and a text without such a run is shown as it is. */
  function DisplayCpf(s: string): (r: string)
    ensures FirstRun(s, 0).None? ==> r == s
    ensures FirstRun(s, 0).Some? ==>
              var k := FirstRun(s, 0).value;
              && |r| == |s| + 3
              && r[..k] == s[..k]
              && r[k..k + 14] == Mask11(s[k..k + 11])
              && r[k + 14..] == s[k + 11..]
  {
    var m := FirstRun(s, 0);
    if m.None? then s
    else s[..m.value] + Mask11(s[m.value..m.value + 11]) + s[m.value + 11..]
  }

  /** A stored CPF of exactly eleven digits is shown as the full mask. */
  lemma DisplayElevenDigits(d: string)
    requires |d| == 11 && AllDigits(d)
    ensures DisplayCpf(d) == d[..3] + "." + d[3..6] + "." + d[6..9] + "-" + d[9..11]
  {
    assert RunAt(d, 0) by { assert d[0..11] == d; }
    assert d[..0] == [] && d[0..11] == d && d[11..] == [];
  }

  /** On eleven digits, the profile's display agrees with the mask of the
      registration form. */
  lemma DisplayAgreesWithRegisterMask(d: string)
    requires |d| == 11 && AllDigits(d)
    ensures DisplayCpf(d) == RegisterScreen.FormatCpf(d)
  {
    DisplayElevenDigits(d);
    DigitsOfDigitString(d);
    assert d[9..RegisterScreen.Kept(|d|)] == d[9..11];
  }

  /** A text with no eleven consecutive digits is shown unchanged. */
  lemma DisplayWithoutRun(s: string)
    requires forall k :: 0 <= k ==> !RunAt(s, k)
    ensures DisplayCpf(s) == s
  {
  }

  /** The display only inserts separators: the digits are those of the
      stored text, in order. */
  lemma DisplayKeepsDigits(s: string)
    ensures Digits(DisplayCpf(s)) == Digits(s)
  {
    var m := FirstRun(s, 0);
    if m.Some? {
      var k := m.value;
      var d := s[k..k + 11];
      assert s == s[..k] + d + s[k + 11..];
      DigitsConcat(s[..k], d);
      DigitsConcat(s[..k] + d, s[k + 11..]);
      DigitsConcat(s[..k], Mask11(d));
      DigitsConcat(s[..k] + Mask11(d), s[k + 11..]);
      MaskKeepsDigits(d);
      DigitsOfDigitString(d);
    }
  }

  lemma MaskKeepsDigits(d: string)
    requires |d| == 11 && AllDigits(d)
    ensures Digits(Mask11(d)) == d
  {
    RegisterScreen.MaskDigitsFull(d);
    assert d[..RegisterScreen.Kept(|d|)] == d;
    assert d[9..RegisterScreen.Kept(|d|)] == d[9..];
  }

  /** The store key of the vibration setting. */
  const VibrationKey: string := "vibrationEnabled"

  /** `value.toString()` of a boolean. */
  function BoolText(b: bool): (t: string)
    ensures t == "true" <==> b
  {
    if b then "true" else "false"
  }

  /** `loadVibrationSetting`: a missing key keeps the current value;
      a stored value enables vibration exactly when it is "true". */
  function ParseVibration(stored: Option<string>, current: bool): (enabled: bool)
    ensures stored.None? ==> enabled == current
    ensures stored.Some? ==> (enabled <==> stored.value == "true")
  {
    if stored.None? then current else stored.value == "true"
  }

  /** A value stored by the switch reads back as that value, whatever the
      screen held before and whatever else the store holds. */
  lemma VibrationRoundTrip(items: map<string, string>, value: bool, current: bool)
    ensures ParseVibration(Lookup(items[VibrationKey := BoolText(value)], VibrationKey), current) == value
  {
  }

  /** The screen's vibration switch and its stored copy. */
  class VibrationSetting {
    var enabled: bool

    /** `useState<boolean>(true)`. */
    constructor ()
      ensures enabled
    {
      enabled := true;
    }

    method LoadVibrationSetting(store: AsyncStore)
      modifies this
      ensures enabled == ParseVibration(Lookup(store.items, VibrationKey), old(enabled))
    {
      var setting := store.GetItem(VibrationKey);
      if setting.Some? {
        enabled := setting.value == "true";
      }
    }

    /** The switch's `onValueChange`: the screen shows the new value and
        the store holds its text under the one key. */
    method Toggle(store: AsyncStore, value: bool)
      modifies this, store
      ensures enabled == value
      ensures store.items == old(store.items)[VibrationKey := BoolText(value)]
    {
      enabled := value;
      store.SetItem(VibrationKey, BoolText(value));
    }
  }

  /** Where the new-request button leads. */
  datatype ProfileNav =
    | ToConfirmation(origin: string, destination: string,
                     originLat: string, originLng: string, destLat: string, destLng: string)
    | IncompletePending
    | ToLocation

  /** The button's decision on a snapshot of the store: a pending request
      is resumed only when all six of its stored fields are non-empty;
      otherwise an error is shown; without a pending request the origin
      screen opens. */
  function ProfileFabDecision(items: map<string, string>): (r: ProfileNav)
    ensures r.ToLocation? <==> Lookup(items, "pendingRequest") != Some("true")
    ensures r.ToConfirmation? <==>
              Lookup(items, "pendingRequest") == Some("true")
              && Truthy(Lookup(items, "origin")) && Truthy(Lookup(items, "destination"))
              && Truthy(Lookup(items, "originLat")) && Truthy(Lookup(items, "originLng"))
              && Truthy(Lookup(items, "destLat")) && Truthy(Lookup(items, "destLng"))
    ensures r.ToConfirmation? ==>
              Some(r.origin) == Lookup(items, "origin") && Some(r.destination) == Lookup(items, "destination")
              && Some(r.originLat) == Lookup(items, "originLat") && Some(r.originLng) == Lookup(items, "originLng")
              && Some(r.destLat) == Lookup(items, "destLat") && Some(r.destLng) == Lookup(items, "destLng")
  {
    if Lookup(items, "pendingRequest") != Some("true") then ToLocation
    else
      var o := Lookup(items, "origin");
      var d := Lookup(items, "destination");
      var olat := Lookup(items, "originLat");
      var olng := Lookup(items, "originLng");
      var dlat := Lookup(items, "destLat");
      var dlng := Lookup(items, "destLng");
      if Truthy(o) && Truthy(d) && Truthy(olat) && Truthy(olng) && Truthy(dlat) && Truthy(dlng)
      then ToConfirmation(o.value, d.value, olat.value, olng.value, dlat.value, dlng.value)
      else IncompletePending
  }

  /** The button's handler: it reads `pendingRequest` and, only when that
      is "true", the six fields of the request, then decides. */
  method PressFab(store: AsyncStore) returns (nav: ProfileNav)
    ensures nav == ProfileFabDecision(store.items)
  {
    var pending := store.GetItem("pendingRequest");
    if pending == Some("true") {
      var origin := store.GetItem("origin");
      var destination := store.GetItem("destination");
      var originLat := store.GetItem("originLat");
      var originLng := store.GetItem("originLng");
      var destLat := store.GetItem("destLat");
      var destLng := store.GetItem("destLng");
      if Truthy(origin) && Truthy(destination) && Truthy(originLat) && Truthy(originLng)
         && Truthy(destLat) && Truthy(destLng) {
        nav := ToConfirmation(origin.value, destination.value, originLat.value, originLng.value,
                              destLat.value, destLng.value);
      } else {
        nav := IncompletePending;
      }
      return;
    }
    nav := ToLocation;
  }
}

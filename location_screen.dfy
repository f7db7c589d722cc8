/** The origin screen: the address label built from a reverse-geocoding
    answer, the address search, the save button and the new-request
    button. */
module LocationScreen {
  import opened Base
  import opened Text

  /** The `address` object of a reverse-geocoding answer; a field the
      answer leaves out is `None`. */
  datatype AddressParts = AddressParts(
    road: Option<string>, pedestrian: Option<string>, residential: Option<string>,
    suburb: Option<string>, neighbourhood: Option<string>, district: Option<string>)

  /** A reverse-geocoding answer: the `address` object and `display_name`,
      each possibly missing. */
  datatype Geocode = Geocode(address: Option<AddressParts>, displayName: Option<string>)

  /** `data.address || {}`: a missing address object reads as one with no
      fields. */
  function PartsOf(g: Geocode): (a: AddressParts)
    ensures g.address.Some? ==> a == g.address.value
    ensures g.address.None? ==> Street(a) == "" && Neighbourhood(a) == ""
  {
    if g.address.Some? then g.address.value else AddressParts(None, None, None, None, None, None)
  }

  /** `addr.road || addr.pedestrian || addr.residential || ''`. */
  function Street(a: AddressParts): (st: string)
    ensures Truthy(a.road) ==> st == a.road.value
    ensures !Truthy(a.road) && Truthy(a.pedestrian) ==> st == a.pedestrian.value
    ensures !Truthy(a.road) && !Truthy(a.pedestrian) ==>
              st == if Truthy(a.residential) then a.residential.value else ""
  {
    FirstTruthyOfThree(a.road, a.pedestrian, a.residential);
    FirstTruthy([a.road, a.pedestrian, a.residential])
  }

  /** `addr.suburb || addr.neighbourhood || addr.district || ''`. */
  function Neighbourhood(a: AddressParts): (nb: string)
    ensures Truthy(a.suburb) ==> nb == a.suburb.value
    ensures !Truthy(a.suburb) && Truthy(a.neighbourhood) ==> nb == a.neighbourhood.value
    ensures !Truthy(a.suburb) && !Truthy(a.neighbourhood) ==>
              nb == if Truthy(a.district) then a.district.value else ""
  {
    FirstTruthyOfThree(a.suburb, a.neighbourhood, a.district);
    FirstTruthy([a.suburb, a.neighbourhood, a.district])
  }

  /** `text` is what `display_name.split(',').slice(0, 2).join(',').trim()`
      means: the trimmed prefix of `dn` that ends just before its second
      comma, or all of `dn` when it has at most one comma. */
  ghost predicate LabelOfDisplayName(dn: string, text: string) {
    exists n :: 0 <= n <= |dn| && text == Trim(dn[..n])
                && (if CommaCount(dn) <= 1 then n == |dn|
                    else CommaCount(dn[..n]) == 1 && n < |dn| && dn[n] == ',')
  }

  /** The label the geolocation callback puts in the address field, or
      `None` when building it throws: without a street the callback calls
      `split` on `display_name`, which fails when the answer has none, and
      the field keeps its text. */
  function AddressLabel(g: Geocode): (r: Option<string>)
    ensures var st := Street(PartsOf(g)); var nb := Neighbourhood(PartsOf(g));
            && (r.None? <==> st == "" && g.displayName.None?)
            && (st != "" && nb == "" ==> r == Some(st))
            && (st != "" && nb != "" ==>
                  (r.Some? && |r.value| == |st| + 2 + |nb|
                   && r.value[..|st|] == st && r.value[|st|..|st| + 2] == ", "
                   && r.value[|st| + 2..] == nb))
            && (st == "" && g.displayName.Some? ==>
                  r.Some? && LabelOfDisplayName(g.displayName.value, r.value))
  {
    var st := Street(PartsOf(g));
    var nb := Neighbourhood(PartsOf(g));
    if st != "" then
      if nb != "" then Some(st + ", " + nb) else Some(st)
    else if g.displayName.None? then
      None
    else
      var dn := g.displayName.value;
      var p := FirstTwoPieces(dn);
      assert dn[..|p|] == p;
      Some(Trim(p))
  }

  /** What the screen holds: the chosen point and the address text. */
  datatype ScreenState = ScreenState(location: Option<Location>, address: string)

  /** The success callback of `getCurrentPosition`: the point is always
      taken; the address text is replaced by the label only when the
      reverse lookup answered (`Some`) and the label could be built. */
  function AfterCurrentPosition(s: ScreenState, at: Location, answer: Option<Geocode>): (r: ScreenState)
    ensures r.location == Some(at)
    ensures answer.None? ==> r.address == s.address
    ensures answer.Some? && AddressLabel(answer.value).None? ==> r.address == s.address
    ensures answer.Some? && AddressLabel(answer.value).Some? ==> r.address == AddressLabel(answer.value).value
  {
    var address :=
      if answer.Some? && AddressLabel(answer.value).Some? then AddressLabel(answer.value).value
      else s.address;
    ScreenState(Some(at), address)
  }

  /** With a street, the label never depends on `display_name`. */
  lemma StreetWinsOverDisplayName(parts: AddressParts, dn1: Option<string>, dn2: Option<string>)
    requires Street(parts) != ""
    ensures AddressLabel(Geocode(Some(parts), dn1)) == AddressLabel(Geocode(Some(parts), dn2))
  {
  }

  /** A label taken from `display_name` holds at most one comma. */
  lemma {:induction false} DisplayNameLabelHasOneCommaAtMost(g: Geocode)
    requires Street(PartsOf(g)) == "" && g.displayName.Some?
    ensures CommaCount(AddressLabel(g).value) <= 1
  {
    var dn := g.displayName.value;
    TrimCommaCount(FirstTwoPieces(dn));
  }

  datatype SearchOutcome = EmptyAddress | Found(at: Location) | NotFound | SearchFailed

  /** The text sent as the search query: the field's text, untrimmed, and
      nothing at all when the text is blank. */
  function SearchQuery(address: string): (q: Option<string>)
    ensures q.None? <==> AllSpace(address)
    ensures q.Some? ==> q.value == address
  {
    TrimEmptyIffBlank(address);
    if Trim(address) == "" then None else Some(address)
  }

  /** `handleSearch`, given the parsed answer of the search (`None` when the
      request or its parsing failed): a blank field is refused before any
      lookup, the first result is taken as the point, and an empty result
      list is reported as not found. */
  function HandleSearch(address: string, results: Option<seq<Location>>): (r: SearchOutcome)
    ensures r.EmptyAddress? <==> SearchQuery(address).None?
    ensures r.Found? <==> !AllSpace(address) && results.Some? && results.value != []
    ensures r.Found? ==> r.at == results.value[0]
    ensures r.NotFound? <==> !AllSpace(address) && results == Some([])
    ensures r.SearchFailed? <==> !AllSpace(address) && results.None?
  {
    if SearchQuery(address).None? then EmptyAddress
    else if results.None? then SearchFailed
    else if results.value != [] then Found(results.value[0])
    else NotFound
  }

  /** A blank field gives the same outcome whatever a lookup would answer,
      because none is made. */
  lemma BlankSearchIgnoresAnswer(address: string, a1: Option<seq<Location>>, a2: Option<seq<Location>>)
    requires AllSpace(address)
    ensures HandleSearch(address, a1) == HandleSearch(address, a2) == EmptyAddress
  {
  }

  /** The parameters the save button passes to the destination screen. */
  datatype DestinationParams = DestinationParams(origin: string, originLocation: Location)

  /** The save button: nothing is passed on before a point is chosen;
      afterwards the address text and the same coordinates are. */
  function SaveAddress(s: ScreenState): (r: Option<DestinationParams>)
    ensures r.None? <==> s.location.None?
    ensures r.Some? ==> r.value.origin == s.address
                        && r.value.originLocation.latitude == s.location.value.latitude
                        && r.value.originLocation.longitude == s.location.value.longitude
  {
    if s.location.None? then None
    else Some(DestinationParams(s.address, Location(s.location.value.latitude, s.location.value.longitude)))
  }

  /** A point found by a search is what the save button passes on. */
  lemma SearchThenSave(s: ScreenState, results: seq<Location>)
    requires !AllSpace(s.address) && results != []
    ensures var at := HandleSearch(s.address, Some(results)).at;
            SaveAddress(ScreenState(Some(at), s.address)) == Some(DestinationParams(s.address, results[0]))
  {
  }

  /** What pressing the new-request button does. */
  datatype FabOutcome = PendingAlert | OpenLocation | ReferenceError

  /** The button as written: its handler reads `pendingRequest` through
      `AsyncStorage`, which this screen never imports, so the read throws
      before the stored value is looked at and the handler neither alerts
      nor navigates. */
  function LocationFabAsWritten(pending: Option<string>): (r: FabOutcome)
    ensures r == ReferenceError
  {
    ReferenceError
  }

  /** The button as its comment describes it: a pending request (stored
      exactly as "true") blocks a new one; anything else opens the origin
      screen. */
  function LocationFab(pending: Option<string>): (r: FabOutcome)
    ensures r == PendingAlert <==> pending == Some("true")
    ensures r == OpenLocation <==> pending != Some("true")
  {
    if pending == Some("true") then PendingAlert else OpenLocation
  }

  /** Without a pending request the written button fails where the
      intended one opens the origin screen. */
  lemma LocationFabNeverOpens()
    ensures LocationFabAsWritten(None) != LocationFab(None)
    ensures forall p :: LocationFabAsWritten(p) != OpenLocation
  {
  }
}

/** The address classifier of the `auto-complete` component: one pass over the
    `address_components` of a place-details response, accumulating street tokens,
    postcode parts and "filled" flags, and writing the prefixed fields into the
    component's `changedPlace` map. This module is the pure specification; the
    imperative `AutoComplete.SetPlaces` in module Widget is proved to compute it. */
module Classifier {
  import opened Wrappers
  import opened Strings

  /** One entry of `address_components`: `short_name`, `long_name` and the type tags. */
  datatype AddressComponent = AddressComponent(shortName: string, longName: string, types: seq<string>)

  /** The `tempPostcode` record; its key order (prefix, main, suffix) is the join order. */
  datatype Postcode = Postcode(prefix: string, main: string, suffix: string)

  /** Which postcode part a component sets, if any. */
  datatype Part = PrefixPart | MainPart | SuffixPart

  /** Everything `setPlaces` carries from one component to the next: the street tokens,
      the postcode parts, the two `filledFields` flags that are ever read, and the map. */
  datatype Scan = Scan(street: seq<string>, postcode: Postcode, stateFilled: bool, cityFilled: bool,
                       place: map<string, string>)

  const StreetNumber := "street_number"
  const Route := "route"
  const PostalCode := "postal_code"
  const PostalCodePrefix := "postal_code_prefix"
  const PostalCodeSuffix := "postal_code_suffix"
  const AdminLevel1 := "administrative_area_level_1"
  const AdminLevel2 := "administrative_area_level_2"
  const Locality := "locality"
  const PostalTown := "postal_town"

  function StreetKey(id: string): string { id + "_street" }
  function CityKey(id: string): string { id + "_city" }
  function StateKey(id: string): string { id + "_state" }
  function PostcodeKey(id: string): string { id + "_postcode" }

  /** The three keys the per-component fillers write. */
  function ScanKeys(id: string): set<string> { {StreetKey(id), StateKey(id), CityKey(id)} }

  /** All four keys a selection may write. */
  function FieldKeys(id: string): set<string> { ScanKeys(id) + {PostcodeKey(id)} }

  /** The `fillPostcode` else-if chain: `postal_code` first, then prefix, then suffix. */
  function PartOf(c: AddressComponent): Option<Part> {
    if PostalCode in c.types then Some(MainPart)
    else if PostalCodePrefix in c.types then Some(PrefixPart)
    else if PostalCodeSuffix in c.types then Some(SuffixPart)
    else None
  }

  /** `fillPostcode`: the part the component names takes its `short_name`. */
  function PostcodeStep(p: Postcode, c: AddressComponent): Postcode {
    match PartOf(c)
    case Some(MainPart) => p.(main := c.shortName)
    case Some(PrefixPart) => p.(prefix := c.shortName)
    case Some(SuffixPart) => p.(suffix := c.shortName)
    case None => p
  }

  /** The token list `fillStreet` leaves behind: a street number is unshifted,
      then a route is pushed. */
  function StreetStep(tokens: seq<string>, c: AddressComponent): seq<string> {
    var numbered := if StreetNumber in c.types then [c.shortName] + tokens else tokens;
    if Route in c.types then numbered + [c.longName] else numbered
  }

  /** The value `fillStreet` writes: the tokens joined by one space, or "" when there are none. */
  function StreetValue(tokens: seq<string>): string {
    if |tokens| > 0 then Join(tokens, " ") else ""
  }

  /** The rule shared by `fillState` and `fillCity`: a `strong` component always
      writes its `long_name` and marks the field filled; a `weak` one does so only
      while the field is unfilled; any other component writes "" while unfilled. */
  function PrecedenceStep(key: string, strong: string, weak: string, filled: bool,
                          place: map<string, string>, c: AddressComponent): (bool, map<string, string>)
  {
    if strong in c.types then (true, place[key := c.longName])
    else if weak in c.types && !filled then (true, place[key := c.longName])
    else if !filled then (false, place[key := ""])
    else (filled, place)
  }

  /** The body of the `components.forEach` loop: fillPostcode, fillStreet, fillState, fillCity. */
  function Step(id: string, s: Scan, c: AddressComponent): Scan {
    var postcode := PostcodeStep(s.postcode, c);
    var street := StreetStep(s.street, c);
    var afterStreet := s.place[StreetKey(id) := StreetValue(street)];
    var state := PrecedenceStep(StateKey(id), AdminLevel2, AdminLevel1, s.stateFilled, afterStreet, c);
    var city := PrecedenceStep(CityKey(id), Locality, PostalTown, s.cityFilled, state.1, c);
    Scan(street, postcode, state.0, city.0, city.1)
  }

  /** The state before the loop: no tokens, empty parts, nothing filled. */
  function InitialScan(place: map<string, string>): Scan {
    Scan([], Postcode("", "", ""), false, false, place)
  }

  /** The state after the loop has consumed `cs`, starting from map `place`. */
  function ScanAll(id: string, cs: seq<AddressComponent>, place: map<string, string>): Scan
    decreases |cs|
  {
    if cs == [] then InitialScan(place)
    else Step(id, ScanAll(id, cs[..|cs| - 1], place), cs[|cs| - 1])
  }

  /** The postcode `setPlaces` writes: each part followed by a space, then trimmed. */
  function PostcodeValue(p: Postcode): string {
    Trim(Spaced([p.prefix, p.main, p.suffix]))
  }

  /** `setPlaces` on the map: the loop over `cs`, then the postcode field. */
  function Classify(id: string, cs: seq<AddressComponent>, place: map<string, string>): map<string, string> {
    var s := ScanAll(id, cs, place);
    s.place[PostcodeKey(id) := PostcodeValue(s.postcode)]
  }
}

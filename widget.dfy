/** The `auto-complete` component as an object: its fields, the event handlers that
    assign them, the callbacks of the two place services (given their `status` and
    payload as parameters), and `setPlaces`, the loop proved to compute
    `Classifier.Classify`. Outgoing effects are ghost logs: the prediction and details
    requests issued, and every `placeChange` payload emitted. */
module Widget {
  import opened Wrappers
  import opened Strings
  import opened Classifier
  import ClassifierSpec

  /** One autocomplete suggestion (`id`, `place_id`, `description`). */
  datatype Prediction = Prediction(id: string, placeId: string, description: string)

  /** The argument of `setField`. */
  datatype FieldWithData = FieldWithData(identifier: string, data: string)

  /** The opaque session handle: `{}` until the SDK has loaded, then a service token. */
  datatype SessionToken = Unset | Token(handle: nat)

  /** `componentRestrictions`: `{country: iso}` or `{}`. */
  datatype ComponentRestrictions = ComponentRestrictions(country: Option<string>)

  /** The options object passed to `getPlacePredictions`. */
  datatype PredictionRequest = PredictionRequest(input: Option<string>, componentRestrictions: ComponentRestrictions,
                                                 sessionToken: SessionToken, types: seq<string>)

  /** The options object passed to `getDetails`. */
  datatype DetailsRequest = DetailsRequest(placeId: string, fields: seq<string>)

  /** `PlacesServiceStatus.OK`. */
  const OK := "OK"

  /** `currentCountryIso ? {country: currentCountryIso} : {}`: an unset or empty code is falsy. */
  function Restrictions(iso: Option<string>): (r: ComponentRestrictions)
    ensures r.country.Some? <==> iso.Some? && iso.value != ""
    ensures r.country.Some? ==> r.country == iso
  {
    if iso.Some? && iso.value != "" then ComponentRestrictions(Some(iso.value)) else ComponentRestrictions(None)
  }

  /** What every reachable state satisfies: no prediction request was ever sent for
      empty input, every request asks for addresses only, every details request asks
      for the address components only, and every emitted payload carries the postcode
      key and no key that the current map lacks (the map only grows). */
  ghost predicate LogsValid(id: string, requests: seq<PredictionRequest>, details: seq<DetailsRequest>,
                            changes: seq<map<string, string>>, place: map<string, string>)
  {
    && (forall r :: r in requests ==> r.input != Some("") && r.types == ["address"])
    && (forall d :: d in details ==> d.fields == ["address_component"])
    && (forall e :: e in changes ==> PostcodeKey(id) in e && e.Keys <= place.Keys)
  }

  /** Growing the map and then emitting it keeps the logs valid. */
  lemma EmitKeepsLogsValid(id: string, requests: seq<PredictionRequest>, details: seq<DetailsRequest>,
                           changes: seq<map<string, string>>, before: map<string, string>, after: map<string, string>)
    requires LogsValid(id, requests, details, changes, before)
    requires before.Keys <= after.Keys && PostcodeKey(id) in after
    ensures LogsValid(id, requests, details, changes + [after], after)
  {
    forall e | e in changes + [after] ensures PostcodeKey(id) in e && e.Keys <= after.Keys {
      if e in changes {
        assert e.Keys <= before.Keys;
      }
    }
  }

  class AutoComplete {
    /** The `autocompleteIdentifier` property: the prefix of every key written. */
    const autocompleteIdentifier: string

    var sessionToken: SessionToken
    var serviceLoaded: bool
    var predictions: seq<Prediction>
    var currentCountryIso: Option<string>
    var dropdownVisible: bool
    var street: Option<string>
    var changedPlace: map<string, string>

    ghost var predictionRequests: seq<PredictionRequest>
    ghost var detailsRequests: seq<DetailsRequest>
    ghost var placeChanges: seq<map<string, string>>

    /** The object invariant: the logs satisfy `LogsValid` against the current map. */
    ghost predicate Valid()
      reads this`predictionRequests, this`detailsRequests, this`placeChanges, this`changedPlace
    {
      LogsValid(autocompleteIdentifier, predictionRequests, detailsRequests, placeChanges, changedPlace)
    }

    /** The field initialisers; `componentDidLoad` (not modelled) later sets the token. */
    constructor (identifier: string)
      ensures Valid()
      ensures autocompleteIdentifier == identifier
      ensures sessionToken == Unset && !serviceLoaded && predictions == [] && currentCountryIso == None
      ensures !dropdownVisible && street == None && changedPlace == map[]
      ensures predictionRequests == [] && detailsRequests == [] && placeChanges == []
    {
      autocompleteIdentifier := identifier;
      sessionToken := Unset;
      serviceLoaded := false;
      predictions := [];
      currentCountryIso := None;
      dropdownVisible := false;
      street := None;
      changedPlace := map[];
      predictionRequests := [];
      detailsRequests := [];
      placeChanges := [];
    }

    /** `@Watch('service')`: a truthy new service marks the service loaded; nothing resets it. */
    method ServiceWatchHandler(newVal: bool)
      requires Valid()
      modifies this`serviceLoaded
      ensures Valid()
      ensures serviceLoaded == (old(serviceLoaded) || newVal)
    {
      if newVal {
        serviceLoaded := true;
      }
    }

    /** On focus: reopen the dropdown only if there are predictions to show. */
    method ShowDropdown()
      requires Valid()
      modifies this`dropdownVisible
      ensures Valid()
      ensures |predictions| > 0 ==> dropdownVisible
      ensures |predictions| == 0 ==> dropdownVisible == old(dropdownVisible)
    {
      if |predictions| > 0 {
        dropdownVisible := true;
      }
    }

    /** On blur: close the dropdown, keeping text and predictions. */
    method HideDropdown()
      requires Valid()
      modifies this`dropdownVisible
      ensures Valid()
      ensures !dropdownVisible
    {
      dropdownVisible := false;
    }

    /** On input: remember the text of the input element. */
    method HandleInput(value: string)
      requires Valid()
      modifies this`street
      ensures Valid()
      ensures street == Some(value)
    {
      street := Some(value);
    }

    /** The action the 300 ms debounce fires. Empty text clears the predictions and
        hides the dropdown; otherwise, once the service is loaded, exactly one
        prediction request is issued for the current text. The response arrives later,
        at `OnPredictions`. */
    method CallAutoComplete()
      requires Valid()
      modifies this`dropdownVisible, this`predictions, this`predictionRequests
      ensures Valid()
      ensures street == Some("") ==> !dropdownVisible && predictions == []
                                      && predictionRequests == old(predictionRequests)
      ensures street != Some("") ==> dropdownVisible == old(dropdownVisible) && predictions == old(predictions)
      ensures street != Some("") && !serviceLoaded ==> predictionRequests == old(predictionRequests)
      ensures street != Some("") && serviceLoaded ==>
        predictionRequests == old(predictionRequests) +
          [PredictionRequest(street, Restrictions(currentCountryIso), sessionToken, ["address"])]
    {
      if street != Some("") {
        var componentRestrictions := Restrictions(currentCountryIso);
        if serviceLoaded {
          predictionRequests := predictionRequests +
            [PredictionRequest(street, componentRestrictions, sessionToken, ["address"])];
        }
      } else {
        dropdownVisible := false;
        predictions := [];
      }
    }

    /** The `getPlacePredictions` callback: a non-OK status is dropped; an OK one
        replaces the list wholesale and opens the dropdown. */
    method OnPredictions(results: seq<Prediction>, status: string)
      requires Valid()
      modifies this`dropdownVisible, this`predictions
      ensures Valid()
      ensures status != OK ==> dropdownVisible == old(dropdownVisible) && predictions == old(predictions)
      ensures status == OK ==> dropdownVisible && predictions == results
    {
      if status != OK {
        return;
      }
      dropdownVisible := true;
      predictions := results;
    }

    /** On clicking a prediction: request the address components of its place. The
        response arrives later, at `OnPlaceDetails`. */
    method EmulatePlaceChange(opt: Prediction)
      requires Valid()
      modifies this`detailsRequests
      ensures Valid()
      ensures detailsRequests == old(detailsRequests) + [DetailsRequest(opt.placeId, ["address_component"])]
    {
      detailsRequests := detailsRequests + [DetailsRequest(opt.placeId, ["address_component"])];
    }

    /** The `getDetails` callback: an OK status classifies the components; any other
        status changes nothing and emits nothing. */
    method OnPlaceDetails(components: seq<AddressComponent>, status: string)
      requires Valid()
      modifies this`changedPlace, this`placeChanges, this`dropdownVisible, this`predictions
      ensures Valid()
      ensures status != OK ==> changedPlace == old(changedPlace) && placeChanges == old(placeChanges)
                               && dropdownVisible == old(dropdownVisible) && predictions == old(predictions)
      ensures status == OK ==> changedPlace == Classify(autocompleteIdentifier, components, old(changedPlace))
                               && placeChanges == old(placeChanges) + [changedPlace]
                               && !dropdownVisible && predictions == []
    {
      if status == OK {
        SetPlaces(components);
      }
    }

    // The members below model the private arrow functions behind `setPlaces`. They are
    // steps inside `SetPlaces`, not entry points: none of them requires or keeps `Valid()`
    // alone (`EmitPlaceChange` on a fresh object logs a payload without the postcode
    // key, for instance); `SetPlaces` calls them in the order that keeps it.

    /** Write one field; every other key, earlier selections' included, is kept. */
    method SetField(field: FieldWithData)
      modifies this`changedPlace
      ensures changedPlace == old(changedPlace)[field.identifier := field.data]
      ensures changedPlace - {field.identifier} == old(changedPlace) - {field.identifier}
    {
      changedPlace := changedPlace[field.identifier := field.data];
      ClassifierSpec.UpdateHidden(old(changedPlace), field.identifier, field.data, {field.identifier});
    }

    /** `fillPostcode`: the first of `postal_code`, `postal_code_prefix`,
        `postal_code_suffix` that the component carries sets that part. */
    method FillPostcode(tempPostcode: Postcode, comp: AddressComponent) returns (p: Postcode)
      ensures p == PostcodeStep(tempPostcode, comp)
    {
      p := tempPostcode;
      if PostalCode in comp.types {
        p := p.(main := comp.shortName);
      } else if PostalCodePrefix in comp.types {
        p := p.(prefix := comp.shortName);
      } else if PostalCodeSuffix in comp.types {
        p := p.(suffix := comp.shortName);
      }
    }

    /** `fillStreet`: unshift a street number, push a route, write the joined street. */
    method FillStreet(tempStreet: seq<string>, comp: AddressComponent) returns (tokens: seq<string>)
      modifies this`changedPlace
      ensures tokens == StreetStep(tempStreet, comp)
      ensures changedPlace == old(changedPlace)[StreetKey(autocompleteIdentifier) := StreetValue(tokens)]
    {
      tokens := tempStreet;
      if StreetNumber in comp.types {
        tokens := [comp.shortName] + tokens;
      }
      if Route in comp.types {
        tokens := tokens + [comp.longName];
      }
      if |tokens| > 0 {
        SetField(FieldWithData(StreetKey(autocompleteIdentifier), Join(tokens, " ")));
      } else {
        SetField(FieldWithData(StreetKey(autocompleteIdentifier), ""));
      }
    }

    /** `fillState`: level 2 always writes, level 1 only while unfilled, and anything
        else writes "" only while unfilled. */
    method FillState(filled: bool, comp: AddressComponent) returns (nowFilled: bool)
      modifies this`changedPlace
      ensures (nowFilled, changedPlace)
              == PrecedenceStep(StateKey(autocompleteIdentifier), AdminLevel2, AdminLevel1, filled, old(changedPlace), comp)
    {
      nowFilled := filled;
      if AdminLevel2 in comp.types {
        SetField(FieldWithData(StateKey(autocompleteIdentifier), comp.longName));
        nowFilled := true;
      } else if AdminLevel1 in comp.types && !filled {
        SetField(FieldWithData(StateKey(autocompleteIdentifier), comp.longName));
        nowFilled := true;
      } else if !filled {
        SetField(FieldWithData(StateKey(autocompleteIdentifier), ""));
      }
    }

    /** `fillCity`: a locality always writes, a postal town only while unfilled, and
        anything else writes "" only while unfilled. */
    method FillCity(filled: bool, comp: AddressComponent) returns (nowFilled: bool)
      modifies this`changedPlace
      ensures (nowFilled, changedPlace)
              == PrecedenceStep(CityKey(autocompleteIdentifier), Locality, PostalTown, filled, old(changedPlace), comp)
    {
      nowFilled := filled;
      if Locality in comp.types {
        SetField(FieldWithData(CityKey(autocompleteIdentifier), comp.longName));
        nowFilled := true;
      } else if PostalTown in comp.types && !filled {
        SetField(FieldWithData(CityKey(autocompleteIdentifier), comp.longName));
        nowFilled := true;
      } else if !filled {
        SetField(FieldWithData(CityKey(autocompleteIdentifier), ""));
      }
    }

    /** The arrow function `setPlaces` passes to `components.forEach`. */
    method FillFields(tempStreet: seq<string>, tempPostcode: Postcode, stateFilled: bool, cityFilled: bool,
                      comp: AddressComponent)
      returns (street': seq<string>, postcode': Postcode, stateFilled': bool, cityFilled': bool)
      modifies this`changedPlace
      ensures Scan(street', postcode', stateFilled', cityFilled', changedPlace)
              == Step(autocompleteIdentifier, Scan(tempStreet, tempPostcode, stateFilled, cityFilled, old(changedPlace)), comp)
    {
      postcode' := FillPostcode(tempPostcode, comp);
      street' := FillStreet(tempStreet, comp);
      stateFilled' := FillState(stateFilled, comp);
      cityFilled' := FillCity(cityFilled, comp);
    }

    /** The `Object.keys(tempPostcode).forEach` loop: each part, in key order, followed
        by one space. */
    method JoinPostcode(tempPostcode: Postcode) returns (finalPostcode: string)
      ensures finalPostcode == tempPostcode.prefix + " " + tempPostcode.main + " " + tempPostcode.suffix + " "
    {
      var parts := [tempPostcode.prefix, tempPostcode.main, tempPostcode.suffix];
      finalPostcode := "";
      var k := 0;
      while k < |parts|
        invariant 0 <= k <= |parts|
        invariant finalPostcode == Spaced(parts[..k])
      {
        finalPostcode := finalPostcode + parts[k] + " ";
        assert parts[..k + 1][..k] == parts[..k];
        k := k + 1;
      }
      assert parts[..k] == parts;
      ClassifierSpec.SpacedThree(tempPostcode.prefix, tempPostcode.main, tempPostcode.suffix);
    }

    /** The tail of `setPlaces` that builds `finalPostcode` and writes it trimmed. */
    method FillFinalPostcode(tempPostcode: Postcode)
      modifies this`changedPlace
      ensures changedPlace == old(changedPlace)[PostcodeKey(autocompleteIdentifier) := PostcodeValue(tempPostcode)]
    {
      var finalPostcode := JoinPostcode(tempPostcode);
      ClassifierSpec.SpacedThree(tempPostcode.prefix, tempPostcode.main, tempPostcode.suffix);
      SetField(FieldWithData(PostcodeKey(autocompleteIdentifier), Trim(finalPostcode)));
    }

    /** The `components.forEach` loop of `setPlaces`, from empty temporaries: it leaves
        the map and the postcode parts that `ScanAll` describes. */
    method FillAllFields(components: seq<AddressComponent>) returns (tempPostcode: Postcode)
      modifies this`changedPlace
      ensures var s := ScanAll(autocompleteIdentifier, components, old(changedPlace));
        changedPlace == s.place && tempPostcode == s.postcode
    {
      var tempStreet: seq<string> := [];
      tempPostcode := Postcode("", "", "");
      var stateFilled, cityFilled := false, false;

      var i := 0;
      while i < |components|
        invariant 0 <= i <= |components|
        invariant Scan(tempStreet, tempPostcode, stateFilled, cityFilled, changedPlace)
                  == ScanAll(autocompleteIdentifier, components[..i], old(changedPlace))
      {
        tempStreet, tempPostcode, stateFilled, cityFilled :=
          FillFields(tempStreet, tempPostcode, stateFilled, cityFilled, components[i]);
        assert components[..i + 1][..i] == components[..i];
        i := i + 1;
      }
      assert components[..i] == components;
    }

    /** `setPlaces`: one pass over the components, then the postcode, then emit the
        whole map once and clear the transient dropdown state. */
    method SetPlaces(components: seq<AddressComponent>)
      requires Valid()
      modifies this`changedPlace, this`placeChanges, this`dropdownVisible, this`predictions
      ensures Valid()
      ensures changedPlace == Classify(autocompleteIdentifier, components, old(changedPlace))
      ensures placeChanges == old(placeChanges) + [changedPlace]
      ensures !dropdownVisible && predictions == []
    {
      ghost var before := changedPlace;
      ClassifyPlace(components);
      EmitKeepsLogsValid(autocompleteIdentifier, predictionRequests, detailsRequests, placeChanges,
                         before, changedPlace);
      EmitPlaceChange();
      assert Valid();
      dropdownVisible := false;
      predictions := [];
    }

    /** The part of `setPlaces` that writes the map: the loop, then the postcode. */
    method ClassifyPlace(components: seq<AddressComponent>)
      modifies this`changedPlace
      ensures changedPlace == Classify(autocompleteIdentifier, components, old(changedPlace))
      ensures old(changedPlace).Keys <= changedPlace.Keys && PostcodeKey(autocompleteIdentifier) in changedPlace
    {
      var tempPostcode := FillAllFields(components);
      FillFinalPostcode(tempPostcode);
      ClassifierSpec.ClassifyGrows(autocompleteIdentifier, components, old(changedPlace));
    }

    /** `this.placeChange.emit(this.changedPlace)`: the payload is a snapshot of the whole map. */
    method EmitPlaceChange()
      modifies this`placeChanges
      ensures placeChanges == old(placeChanges) + [changedPlace]
    {
      placeChanges := placeChanges + [changedPlace];
    }
  }
}

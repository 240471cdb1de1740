/** Declarative reference definitions of what each field of a selection means,
    independent of the loop that computes it, and the lemmas that `Classify`
    agrees with them: street numbers (in reverse order of appearance) before routes,
    the last component of each postcode part, and the two precedence rules. */
module ClassifierSpec {
  import opened Wrappers
  import opened Strings
  import opened Classifier

  /** The `short_name`s of the `street_number` components, in input order. */
  function NumberNames(cs: seq<AddressComponent>): seq<string>
    decreases |cs|
  {
    if cs == [] then []
    else NumberNames(cs[..|cs| - 1]) + (if StreetNumber in cs[|cs| - 1].types then [cs[|cs| - 1].shortName] else [])
  }

  /** The `long_name`s of the `route` components, in input order. */
  function RouteNames(cs: seq<AddressComponent>): seq<string>
    decreases |cs|
  {
    if cs == [] then []
    else RouteNames(cs[..|cs| - 1]) + (if Route in cs[|cs| - 1].types then [cs[|cs| - 1].longName] else [])
  }

  function Reverse<T>(s: seq<T>): (r: seq<T>)
    ensures |r| == |s|
    ensures forall k :: 0 <= k < |s| ==> r[k] == s[|s| - 1 - k]
    decreases |s|
  {
    if s == [] then [] else [s[|s| - 1]] + Reverse(s[..|s| - 1])
  }

  /** Some component carries tag `t`. */
  predicate AnyTagged(cs: seq<AddressComponent>, t: string) {
    exists i :: 0 <= i < |cs| && t in cs[i].types
  }

  /** The `long_name` of the last component tagged `t`, or "" when there is none. */
  function LastLong(cs: seq<AddressComponent>, t: string): string
    decreases |cs|
  {
    if cs == [] then ""
    else if t in cs[|cs| - 1].types then cs[|cs| - 1].longName
    else LastLong(cs[..|cs| - 1], t)
  }

  /** The `long_name` of the first component tagged `t`, or "" when there is none. */
  function FirstLong(cs: seq<AddressComponent>, t: string): string
    decreases |cs|
  {
    if cs == [] then ""
    else if AnyTagged(cs[..|cs| - 1], t) then FirstLong(cs[..|cs| - 1], t)
    else if t in cs[|cs| - 1].types then cs[|cs| - 1].longName
    else ""
  }

  /** `LastLong` is the name of a tagged component that no later component's tag follows. */
  lemma {:induction false} LastLongIsLast(cs: seq<AddressComponent>, t: string)
    ensures !AnyTagged(cs, t) ==> LastLong(cs, t) == ""
    ensures AnyTagged(cs, t) ==> exists i :: 0 <= i < |cs| && t in cs[i].types && LastLong(cs, t) == cs[i].longName
                                           && forall j :: i < j < |cs| ==> t !in cs[j].types
    decreases |cs|
  {
    if cs != [] {
      var init, c := cs[..|cs| - 1], cs[|cs| - 1];
      assert cs == init + [c];
      AppendFacts(init, c, t);
      LastLongIsLast(init, t);
      if t in c.types {
        assert LastLong(cs, t) == cs[|cs| - 1].longName;
      } else if AnyTagged(init, t) {
        var i :| 0 <= i < |init| && t in init[i].types && LastLong(init, t) == init[i].longName
                 && forall j :: i < j < |init| ==> t !in init[j].types;
        assert cs[i] == init[i];
        forall j | i < j < |cs| ensures t !in cs[j].types {
          if j < |init| {
            assert cs[j] == init[j];
          }
        }
      }
    }
  }

  /** `FirstLong` is the name of a tagged component that no earlier component's tag precedes. */
  lemma {:induction false} FirstLongIsFirst(cs: seq<AddressComponent>, t: string)
    ensures !AnyTagged(cs, t) ==> FirstLong(cs, t) == ""
    ensures AnyTagged(cs, t) ==> exists i :: 0 <= i < |cs| && t in cs[i].types && FirstLong(cs, t) == cs[i].longName
                                           && forall j :: 0 <= j < i ==> t !in cs[j].types
    decreases |cs|
  {
    if cs != [] {
      var init, c := cs[..|cs| - 1], cs[|cs| - 1];
      assert cs == init + [c];
      AppendFacts(init, c, t);
      FirstLongIsFirst(init, t);
      if AnyTagged(init, t) {
        var i :| 0 <= i < |init| && t in init[i].types && FirstLong(init, t) == init[i].longName
                 && forall j :: 0 <= j < i ==> t !in init[j].types;
        assert cs[i] == init[i];
        forall j | 0 <= j < i ensures t !in cs[j].types {
          assert cs[j] == init[j];
        }
      } else if t in c.types {
        forall j | 0 <= j < |init| ensures t !in cs[j].types {
          assert cs[j] == init[j];
        }
        assert cs[|init|] == c;
      }
    }
  }

  /** The precedence rule for a field: the last `strong` component if there is one,
      else the first `weak` one, else "". */
  function PrecedenceRef(cs: seq<AddressComponent>, strong: string, weak: string): string {
    if AnyTagged(cs, strong) then LastLong(cs, strong)
    else if AnyTagged(cs, weak) then FirstLong(cs, weak)
    else ""
  }

  /** The `short_name` of the last component that sets postcode part `part`, or "". */
  function LastPart(cs: seq<AddressComponent>, part: Part): string
    decreases |cs|
  {
    if cs == [] then ""
    else if PartOf(cs[|cs| - 1]) == Some(part) then cs[|cs| - 1].shortName
    else LastPart(cs[..|cs| - 1], part)
  }

  /** The postcode parts a selection ends with: last writer wins, per part. */
  function RefPostcode(cs: seq<AddressComponent>): Postcode {
    Postcode(LastPart(cs, PrefixPart), LastPart(cs, MainPart), LastPart(cs, SuffixPart))
  }

  /** Writing a key that is then removed leaves the rest of the map as it was. */
  lemma UpdateHidden<K, V>(m: map<K, V>, k: K, v: V, ks: set<K>)
    requires k in ks
    ensures m[k := v] - ks == m - ks
  {
    var a, b := m[k := v] - ks, m - ks;
    assert a.Keys == b.Keys;
    forall x | x in a.Keys ensures a[x] == b[x] {
      assert x != k;
    }
  }

  /** The four field keys are pairwise different: their suffixes differ in length. */
  lemma KeysDistinct(id: string)
    ensures StreetKey(id) != StateKey(id) && StreetKey(id) != CityKey(id) && StreetKey(id) != PostcodeKey(id)
    ensures StateKey(id) != CityKey(id) && StateKey(id) != PostcodeKey(id) && CityKey(id) != PostcodeKey(id)
  {
    assert |StreetKey(id)| == |id| + 7 && |StateKey(id)| == |id| + 6;
    assert |CityKey(id)| == |id| + 5 && |PostcodeKey(id)| == |id| + 9;
  }

  // ---------------------------------------------------------------------------
  // One more component: how the reference definitions extend.

  lemma AppendFacts(cs: seq<AddressComponent>, c: AddressComponent, t: string)
    ensures AnyTagged(cs + [c], t) == (AnyTagged(cs, t) || t in c.types)
    ensures LastLong(cs + [c], t) == if t in c.types then c.longName else LastLong(cs, t)
    ensures FirstLong(cs + [c], t) == if AnyTagged(cs, t) then FirstLong(cs, t)
                                      else if t in c.types then c.longName else ""
  {
    var cs' := cs + [c];
    assert cs'[..|cs|] == cs;
    if AnyTagged(cs', t) && !(t in c.types) {
      var i :| 0 <= i < |cs'| && t in cs'[i].types;
      assert i < |cs| && cs[i] == cs'[i];
    }
    if AnyTagged(cs, t) {
      var i :| 0 <= i < |cs| && t in cs[i].types;
      assert cs'[i] == cs[i];
    }
    if t in c.types {
      assert cs'[|cs|] == c;
    }
  }

  /** One step of the precedence rule keeps the field equal to `PrecedenceRef` and the
      filled flag equal to "some strong or weak component was seen"; no other key moves. */
  lemma PrecedenceStepRef(key: string, strong: string, weak: string, cs: seq<AddressComponent>,
                          c: AddressComponent, filled: bool, place: map<string, string>)
    requires filled == (AnyTagged(cs, strong) || AnyTagged(cs, weak))
    requires cs != [] ==> key in place && place[key] == PrecedenceRef(cs, strong, weak)
    ensures var r := PrecedenceStep(key, strong, weak, filled, place, c);
      && r.0 == (AnyTagged(cs + [c], strong) || AnyTagged(cs + [c], weak))
      && key in r.1 && r.1[key] == PrecedenceRef(cs + [c], strong, weak)
      && r.1 - {key} == place - {key}
  {
    AppendFacts(cs, c, strong);
    AppendFacts(cs, c, weak);
    var r := PrecedenceStep(key, strong, weak, filled, place, c);
    if strong in c.types {
      assert r.1 == place[key := c.longName];
      UpdateHidden(place, key, c.longName, {key});
    } else if weak in c.types && !filled {
      assert r.1 == place[key := c.longName];
      UpdateHidden(place, key, c.longName, {key});
      assert !AnyTagged(cs + [c], strong) && !AnyTagged(cs, weak);
    } else if !filled {
      assert r.1 == place[key := ""];
      UpdateHidden(place, key, "", {key});
      assert !AnyTagged(cs + [c], strong) && !AnyTagged(cs + [c], weak);
    } else {
      assert r.1 == place;
      assert cs != [];
      assert AnyTagged(cs + [c], strong) == AnyTagged(cs, strong);
    }
  }

  // ---------------------------------------------------------------------------
  // The loop state after `cs`.

  lemma {:induction false} ScanStreet(id: string, cs: seq<AddressComponent>, place: map<string, string>)
    ensures ScanAll(id, cs, place).street == Reverse(NumberNames(cs)) + RouteNames(cs)
    decreases |cs|
  {
    if cs != [] {
      var init, c := cs[..|cs| - 1], cs[|cs| - 1];
      assert cs == init + [c];
      ScanStreet(id, init, place);
      StreetStepRef(init, c);
    }
  }

  /** One `fillStreet` call extends the reference tokens by one component. */
  lemma StreetStepRef(init: seq<AddressComponent>, c: AddressComponent)
    ensures StreetStep(Reverse(NumberNames(init)) + RouteNames(init), c)
            == Reverse(NumberNames(init + [c])) + RouteNames(init + [c])
  {
    NamesSnoc(init, c);
    var numbers, routes := NumberNames(init), RouteNames(init);
    if StreetNumber in c.types {
      ReverseSnoc(numbers, c.shortName);
      assert ([c.shortName] + Reverse(numbers)) + routes == [c.shortName] + (Reverse(numbers) + routes);
    }
    var numbers' := NumberNames(init + [c]);
    if Route in c.types {
      assert (Reverse(numbers') + routes) + [c.longName] == Reverse(numbers') + (routes + [c.longName]);
    }
  }

  /** The name lists of `init + [c]` are those of `init` extended by `c`'s own names. */
  lemma NamesSnoc(init: seq<AddressComponent>, c: AddressComponent)
    ensures NumberNames(init + [c]) == NumberNames(init) + (if StreetNumber in c.types then [c.shortName] else [])
    ensures RouteNames(init + [c]) == RouteNames(init) + (if Route in c.types then [c.longName] else [])
  {
    var cs := init + [c];
    assert cs[..|cs| - 1] == init && cs[|cs| - 1] == c;
  }

  /** Reversing after appending puts the new element first. */
  lemma ReverseSnoc<T>(s: seq<T>, x: T)
    ensures Reverse(s + [x]) == [x] + Reverse(s)
  {
    assert (s + [x])[..|s|] == s;
  }

  lemma {:induction false} ScanPostcode(id: string, cs: seq<AddressComponent>, place: map<string, string>)
    ensures ScanAll(id, cs, place).postcode == RefPostcode(cs)
    decreases |cs|
  {
    if cs != [] {
      ScanPostcode(id, cs[..|cs| - 1], place);
    }
  }

  /** The street field is always the join of the current tokens once a component was seen. */
  lemma ScanStreetKey(id: string, cs: seq<AddressComponent>, place: map<string, string>)
    requires cs != []
    ensures var s := ScanAll(id, cs, place);
      StreetKey(id) in s.place && s.place[StreetKey(id)] == StreetValue(s.street)
  {
    var s := ScanAll(id, cs[..|cs| - 1], place);
    var c := cs[|cs| - 1];
    var afterStreet := s.place[StreetKey(id) := StreetValue(StreetStep(s.street, c))];
    var state := PrecedenceStep(StateKey(id), AdminLevel2, AdminLevel1, s.stateFilled, afterStreet, c);
    assert state.1[StreetKey(id)] == afterStreet[StreetKey(id)];
  }

  lemma {:induction false} ScanState(id: string, cs: seq<AddressComponent>, place: map<string, string>)
    ensures var s := ScanAll(id, cs, place);
      && s.stateFilled == (AnyTagged(cs, AdminLevel2) || AnyTagged(cs, AdminLevel1))
      && (cs != [] ==> StateKey(id) in s.place && s.place[StateKey(id)] == PrecedenceRef(cs, AdminLevel2, AdminLevel1))
    decreases |cs|
  {
    if cs != [] {
      var init, c := cs[..|cs| - 1], cs[|cs| - 1];
      assert cs == init + [c];
      ScanState(id, init, place);
      KeysDistinct(id);
      var s := ScanAll(id, init, place);
      var afterStreet := s.place[StreetKey(id) := StreetValue(StreetStep(s.street, c))];
      PrecedenceStepRef(StateKey(id), AdminLevel2, AdminLevel1, init, c, s.stateFilled, afterStreet);
      var state := PrecedenceStep(StateKey(id), AdminLevel2, AdminLevel1, s.stateFilled, afterStreet, c);
      var city := PrecedenceStep(CityKey(id), Locality, PostalTown, s.cityFilled, state.1, c);
      assert city.1[StateKey(id)] == state.1[StateKey(id)];
    }
  }

  lemma {:induction false} ScanCity(id: string, cs: seq<AddressComponent>, place: map<string, string>)
    ensures var s := ScanAll(id, cs, place);
      && s.cityFilled == (AnyTagged(cs, Locality) || AnyTagged(cs, PostalTown))
      && (cs != [] ==> CityKey(id) in s.place && s.place[CityKey(id)] == PrecedenceRef(cs, Locality, PostalTown))
    decreases |cs|
  {
    if cs != [] {
      var init, c := cs[..|cs| - 1], cs[|cs| - 1];
      assert cs == init + [c];
      ScanCity(id, init, place);
      KeysDistinct(id);
      var s := ScanAll(id, init, place);
      var afterStreet := s.place[StreetKey(id) := StreetValue(StreetStep(s.street, c))];
      var state := PrecedenceStep(StateKey(id), AdminLevel2, AdminLevel1, s.stateFilled, afterStreet, c);
      assert init != [] ==> state.1[CityKey(id)] == s.place[CityKey(id)];
      PrecedenceStepRef(CityKey(id), Locality, PostalTown, init, c, s.cityFilled, state.1);
    }
  }

  /** The loop writes only the street, state and city keys, and writes all three as
      soon as one component has been seen. */
  lemma {:induction false} ScanFrame(id: string, cs: seq<AddressComponent>, place: map<string, string>)
    ensures var s := ScanAll(id, cs, place);
      && s.place - ScanKeys(id) == place - ScanKeys(id)
      && s.place.Keys == if cs == [] then place.Keys else place.Keys + ScanKeys(id)
    decreases |cs|
  {
    if cs != [] {
      var init := cs[..|cs| - 1];
      ScanFrame(id, init, place);
      StepFrame(id, ScanAll(id, init, place), cs[|cs| - 1]);
    }
  }

  /** One pass of the loop body writes the three scan keys and nothing else. */
  lemma StepFrame(id: string, s: Scan, c: AddressComponent)
    requires s.stateFilled ==> StateKey(id) in s.place
    requires s.cityFilled ==> CityKey(id) in s.place
    ensures Step(id, s, c).place - ScanKeys(id) == s.place - ScanKeys(id)
    ensures Step(id, s, c).place.Keys == s.place.Keys + ScanKeys(id)
  {
    var afterStreet := s.place[StreetKey(id) := StreetValue(StreetStep(s.street, c))];
    UpdateHidden(s.place, StreetKey(id), StreetValue(StreetStep(s.street, c)), ScanKeys(id));
    PrecedenceFrame(StateKey(id), AdminLevel2, AdminLevel1, s.stateFilled, afterStreet, c, ScanKeys(id));
    var state := PrecedenceStep(StateKey(id), AdminLevel2, AdminLevel1, s.stateFilled, afterStreet, c);
    PrecedenceFrame(CityKey(id), Locality, PostalTown, s.cityFilled, state.1, c, ScanKeys(id));
  }

  /** The precedence rule writes at most its own key, and leaves it present. */
  lemma PrecedenceFrame(key: string, strong: string, weak: string, filled: bool,
                        place: map<string, string>, c: AddressComponent, ks: set<string>)
    requires key in ks
    requires filled ==> key in place
    ensures var r := PrecedenceStep(key, strong, weak, filled, place, c);
      r.1 - ks == place - ks && r.1.Keys == place.Keys + {key}
  {
    if strong in c.types || (weak in c.types && !filled) {
      UpdateHidden(place, key, c.longName, ks);
    } else if !filled {
      UpdateHidden(place, key, "", ks);
    }
  }

  // ---------------------------------------------------------------------------
  // What a selection writes into `changedPlace`.

  /** The keys of the map after a selection: the old ones plus the postcode key, plus
      the other three when the component list is non-empty; every other entry,
      including those of earlier selections, is unchanged. */
  lemma ClassifyKeys(id: string, cs: seq<AddressComponent>, place: map<string, string>)
    ensures var r := Classify(id, cs, place);
      && r.Keys == place.Keys + (if cs == [] then {PostcodeKey(id)} else FieldKeys(id))
      && r - FieldKeys(id) == place - FieldKeys(id)
  {
    ScanFrame(id, cs, place);
    var s := ScanAll(id, cs, place);
    PostcodeWriteHidden(id, place, s.place, PostcodeValue(s.postcode));
  }

  /** A selection keeps every key already present and always leaves the postcode key. */
  lemma ClassifyGrows(id: string, cs: seq<AddressComponent>, place: map<string, string>)
    ensures var r := Classify(id, cs, place); place.Keys <= r.Keys && PostcodeKey(id) in r
  {
    ScanFrame(id, cs, place);
  }

  lemma PostcodeWriteHidden(id: string, place: map<string, string>, m: map<string, string>, v: string)
    requires m - ScanKeys(id) == place - ScanKeys(id)
    ensures m[PostcodeKey(id) := v] - FieldKeys(id) == place - FieldKeys(id)
  {
    var r := m[PostcodeKey(id) := v];
    assert (r - FieldKeys(id)).Keys == (place - FieldKeys(id)).Keys by {
      assert m.Keys - ScanKeys(id) == (m - ScanKeys(id)).Keys == (place - ScanKeys(id)).Keys == place.Keys - ScanKeys(id);
      assert (r - FieldKeys(id)).Keys == r.Keys - FieldKeys(id) == (m.Keys - ScanKeys(id)) - {PostcodeKey(id)};
      assert (place - FieldKeys(id)).Keys == (place.Keys - ScanKeys(id)) - {PostcodeKey(id)};
    }
    forall k | k in r - FieldKeys(id) ensures (r - FieldKeys(id))[k] == (place - FieldKeys(id))[k] {
      assert k !in ScanKeys(id) && k != PostcodeKey(id);
      assert r[k] == m[k] == (m - ScanKeys(id))[k];
    }
  }

  /** An empty component list writes only the postcode key, with value "". */
  lemma ClassifyEmpty(id: string, place: map<string, string>)
    ensures Classify(id, [], place) == place[PostcodeKey(id) := ""]
  {
    assert Spaced(["", "", ""]) == "   " by {
      assert ["", "", ""][..2] == ["", ""];
      assert ["", ""][..1] == [""];
    }
    assert TrimStart("   ") == "" by {
      assert "   "[1..] == "  ";
      assert "  "[1..] == " ";
      assert " "[1..] == "";
    }
  }

  /** The street: every street number's `short_name` ahead of the earlier tokens (so in
      reverse order of appearance), then every route's `long_name` in order, joined by
      single spaces. */
  lemma ClassifyStreet(id: string, cs: seq<AddressComponent>, place: map<string, string>)
    requires cs != []
    ensures var r := Classify(id, cs, place);
      StreetKey(id) in r && r[StreetKey(id)] == StreetValue(Reverse(NumberNames(cs)) + RouteNames(cs))
  {
    ScanStreet(id, cs, place);
    ScanStreetKey(id, cs, place);
  }

  /** Without street-number and route components there are no tokens, and the street is "". */
  lemma ClassifyStreetEmpty(id: string, cs: seq<AddressComponent>, place: map<string, string>)
    requires cs != [] && !AnyTagged(cs, StreetNumber) && !AnyTagged(cs, Route)
    ensures var r := Classify(id, cs, place); StreetKey(id) in r && r[StreetKey(id)] == ""
  {
    ClassifyStreet(id, cs, place);
    NamesWithoutTags(cs);
  }

  lemma {:induction false} NamesWithoutTags(cs: seq<AddressComponent>)
    ensures !AnyTagged(cs, StreetNumber) ==> NumberNames(cs) == []
    ensures !AnyTagged(cs, Route) ==> RouteNames(cs) == []
    decreases |cs|
  {
    if cs != [] {
      var init, c := cs[..|cs| - 1], cs[|cs| - 1];
      assert cs == init + [c];
      NamesWithoutTags(init);
      AppendFacts(init, c, StreetNumber);
      AppendFacts(init, c, Route);
    }
  }

  lemma SpacedThree(a: string, b: string, c: string)
    ensures Spaced([a, b, c]) == a + " " + b + " " + c + " "
  {
    assert [a, b, c][..2] == [a, b];
    assert [a, b][..1] == [a];
    assert [a][..0] == [];
    assert Spaced([a]) == a + " ";
    assert Spaced([a, b]) == a + " " + b + " ";
  }

  /** The postcode: prefix, main and suffix (each the `short_name` of the last
      component setting that part), each followed by a space, then trimmed. */
  lemma ClassifyPostcode(id: string, cs: seq<AddressComponent>, place: map<string, string>)
    ensures var r := Classify(id, cs, place);
      var p := RefPostcode(cs);
      PostcodeKey(id) in r && r[PostcodeKey(id)] == Trim(p.prefix + " " + p.main + " " + p.suffix + " ")
  {
    ScanPostcode(id, cs, place);
    var p := RefPostcode(cs);
    SpacedThree(p.prefix, p.main, p.suffix);
  }

  /** The state: the last `administrative_area_level_2`, else the first
      `administrative_area_level_1`, else "". */
  lemma ClassifyState(id: string, cs: seq<AddressComponent>, place: map<string, string>)
    requires cs != []
    ensures var r := Classify(id, cs, place);
      StateKey(id) in r && r[StateKey(id)] == PrecedenceRef(cs, AdminLevel2, AdminLevel1)
  {
    ScanState(id, cs, place);
  }

  /** The city: the last `locality`, else the first `postal_town`, else "". */
  lemma ClassifyCity(id: string, cs: seq<AddressComponent>, place: map<string, string>)
    requires cs != []
    ensures var r := Classify(id, cs, place);
      CityKey(id) in r && r[CityKey(id)] == PrecedenceRef(cs, Locality, PostalTown)
  {
    ScanCity(id, cs, place);
  }

  /** A component with none of the nine known tags changes nothing once some component
      has been seen: unknown tags are ignored. */
  predicate Untagged(c: AddressComponent) {
    forall t :: t in c.types ==>
      t !in [StreetNumber, Route, PostalCode, PostalCodePrefix, PostalCodeSuffix,
             AdminLevel1, AdminLevel2, Locality, PostalTown]
  }

  lemma IgnoresUntagged(id: string, cs: seq<AddressComponent>, c: AddressComponent, place: map<string, string>)
    requires cs != [] && Untagged(c)
    ensures Classify(id, cs + [c], place) == Classify(id, cs, place)
  {
    var cs' := cs + [c];
    assert cs'[..|cs|] == cs;
    var s := ScanAll(id, cs, place);
    ScanStreetKey(id, cs, place);
    ScanState(id, cs, place);
    ScanCity(id, cs, place);
    StepUntagged(id, s, c);
  }

  /** The loop body on a component with no known tag rewrites each field with the
      value it already has. */
  lemma StepUntagged(id: string, s: Scan, c: AddressComponent)
    requires Untagged(c)
    requires StreetKey(id) in s.place && s.place[StreetKey(id)] == StreetValue(s.street)
    requires !s.stateFilled ==> StateKey(id) in s.place && s.place[StateKey(id)] == ""
    requires !s.cityFilled ==> CityKey(id) in s.place && s.place[CityKey(id)] == ""
    ensures Step(id, s, c).place == s.place && Step(id, s, c).postcode == s.postcode
  {
    assert StreetNumber !in c.types && Route !in c.types;
    assert StreetStep(s.street, c) == s.street;
    assert PostalCode !in c.types && PostalCodePrefix !in c.types && PostalCodeSuffix !in c.types;
    assert PartOf(c) == None;
    assert AdminLevel1 !in c.types && AdminLevel2 !in c.types;
    assert Locality !in c.types && PostalTown !in c.types;
    var afterStreet := s.place[StreetKey(id) := StreetValue(s.street)];
    assert afterStreet == s.place;
  }
}

/** Concrete consequences of the classification rules: a street number goes before a
    route whatever the input order, level 2 beats level 1 for the state, a locality
    beats a postal town for the city, and the postcode keeps an internal gap. */
module ClassifierExamples {
  import opened Wrappers
  import opened Strings
  import opened Classifier
  import opened ClassifierSpec

  /** The reference street tokens of a two-component list. */
  lemma StreetNamesOfTwo(a: AddressComponent, b: AddressComponent)
    ensures NumberNames([a, b]) == (if StreetNumber in a.types then [a.shortName] else [])
                                   + (if StreetNumber in b.types then [b.shortName] else [])
    ensures RouteNames([a, b]) == (if Route in a.types then [a.longName] else [])
                                  + (if Route in b.types then [b.longName] else [])
  {
    assert [a, b][..1] == [a] && [a][..0] == [];
    assert NumberNames([a]) == [] + (if StreetNumber in a.types then [a.shortName] else []);
    assert RouteNames([a]) == [] + (if Route in a.types then [a.longName] else []);
  }

  lemma {:induction false} StreetNumberBeforeRoute(id: string, place: map<string, string>,
                                                   number: AddressComponent, route: AddressComponent)
    requires number.types == [StreetNumber] && route.types == [Route]
    ensures var r := Classify(id, [route, number], place);
      StreetKey(id) in r && r[StreetKey(id)] == number.shortName + " " + route.longName
    ensures var r := Classify(id, [number, route], place);
      StreetKey(id) in r && r[StreetKey(id)] == number.shortName + " " + route.longName
  {
    ClassifyStreet(id, [route, number], place);
    ClassifyStreet(id, [number, route], place);
    NumberThenRoute(number, route);
  }

  lemma NumberThenRoute(number: AddressComponent, route: AddressComponent)
    requires number.types == [StreetNumber] && route.types == [Route]
    ensures StreetValue(Reverse(NumberNames([route, number])) + RouteNames([route, number]))
            == number.shortName + " " + route.longName
    ensures StreetValue(Reverse(NumberNames([number, route])) + RouteNames([number, route]))
            == number.shortName + " " + route.longName
  {
    assert Route !in number.types && StreetNumber !in route.types;
    StreetNamesOfTwo(route, number);
    StreetNamesOfTwo(number, route);
    assert NumberNames([route, number]) == [number.shortName] == NumberNames([number, route]);
    assert RouteNames([route, number]) == [route.longName] == RouteNames([number, route]);
    assert Reverse([number.shortName]) == [number.shortName];
    var tokens := [number.shortName] + [route.longName];
    assert tokens == [number.shortName, route.longName];
    assert tokens[1..] == [route.longName];
    assert Join(tokens, " ") == number.shortName + " " + route.longName;
    assert StreetValue(tokens) == Join(tokens, " ");
  }

  /** `route "Main St"` and `street_number "42"`, in either order, give "42 Main St". */
  lemma StreetExample(id: string, place: map<string, string>, number: AddressComponent, route: AddressComponent)
    requires number.types == [StreetNumber] && number.shortName == "42"
    requires route.types == [Route] && route.longName == "Main St"
    ensures var r := Classify(id, [route, number], place); StreetKey(id) in r && r[StreetKey(id)] == "42 Main St"
    ensures var r := Classify(id, [number, route], place); StreetKey(id) in r && r[StreetKey(id)] == "42 Main St"
  {
    StreetNumberBeforeRoute(id, place, number, route);
    assert "42" + " " + "Main St" == "42 Main St";
  }

  lemma {:induction false} Level2BeatsLevel1(id: string, place: map<string, string>,
                                             l1: AddressComponent, l2: AddressComponent)
    requires l1.types == [AdminLevel1] && l2.types == [AdminLevel2]
    ensures var r := Classify(id, [l1, l2], place); StateKey(id) in r && r[StateKey(id)] == l2.longName
    ensures var r := Classify(id, [l2, l1], place); StateKey(id) in r && r[StateKey(id)] == l2.longName
  {
    ClassifyState(id, [l1, l2], place);
    ClassifyState(id, [l2, l1], place);
    StateRefs(l1, l2);
  }

  lemma StateRefs(l1: AddressComponent, l2: AddressComponent)
    requires l1.types == [AdminLevel1] && l2.types == [AdminLevel2]
    ensures PrecedenceRef([l1, l2], AdminLevel2, AdminLevel1) == l2.longName
    ensures PrecedenceRef([l2, l1], AdminLevel2, AdminLevel1) == l2.longName
  {
    assert AdminLevel2 !in l1.types && AdminLevel2 in l2.types;
    assert [l1, l2][1] == l2 && [l2, l1][0] == l2;
    assert AnyTagged([l1, l2], AdminLevel2) && AnyTagged([l2, l1], AdminLevel2);
    assert LastLong([l1, l2], AdminLevel2) == l2.longName;
    assert [l2, l1][..1] == [l2];
    assert LastLong([l2], AdminLevel2) == l2.longName;
    assert LastLong([l2, l1], AdminLevel2) == l2.longName;
  }

  lemma {:induction false} FirstLevel1Wins(id: string, place: map<string, string>,
                                           a: AddressComponent, b: AddressComponent)
    requires a.types == [AdminLevel1] && b.types == [AdminLevel1]
    ensures var r := Classify(id, [a, b], place); StateKey(id) in r && r[StateKey(id)] == a.longName
  {
    ClassifyState(id, [a, b], place);
    FirstStateRef(a, b);
  }

  lemma FirstStateRef(a: AddressComponent, b: AddressComponent)
    requires a.types == [AdminLevel1] && b.types == [AdminLevel1]
    ensures PrecedenceRef([a, b], AdminLevel2, AdminLevel1) == a.longName
  {
    assert !AnyTagged([a, b], AdminLevel2) by {
      assert AdminLevel2 !in a.types && AdminLevel2 !in b.types;
      assert forall i :: 0 <= i < 2 ==> [a, b][i] == a || [a, b][i] == b;
    }
    assert [a, b][..1] == [a] && [a][..0] == [];
    assert [a][0] == a && [a, b][0] == a;
    assert AnyTagged([a], AdminLevel1) && AnyTagged([a, b], AdminLevel1);
    assert !AnyTagged([], AdminLevel1);
    assert FirstLong([a], AdminLevel1) == a.longName;
    assert FirstLong([a, b], AdminLevel1) == a.longName;
  }

  lemma {:induction false} LastLocalityWins(id: string, place: map<string, string>,
                                            a: AddressComponent, b: AddressComponent)
    requires a.types == [Locality] && b.types == [Locality]
    ensures var r := Classify(id, [a, b], place); CityKey(id) in r && r[CityKey(id)] == b.longName
  {
    ClassifyCity(id, [a, b], place);
    assert [a, b][1] == b;
    assert AnyTagged([a, b], Locality);
    assert LastLong([a, b], Locality) == b.longName;
  }

  lemma {:induction false} LocalityBeatsPostalTown(id: string, place: map<string, string>,
                                                   town: AddressComponent, locality: AddressComponent)
    requires town.types == [PostalTown] && locality.types == [Locality]
    ensures var r := Classify(id, [town], place); CityKey(id) in r && r[CityKey(id)] == town.longName
    ensures var r := Classify(id, [town, locality], place); CityKey(id) in r && r[CityKey(id)] == locality.longName
    ensures var r := Classify(id, [locality, town], place); CityKey(id) in r && r[CityKey(id)] == locality.longName
  {
    ClassifyCity(id, [town], place);
    ClassifyCity(id, [town, locality], place);
    ClassifyCity(id, [locality, town], place);
    CityRefs(town, locality);
  }

  lemma CityRefs(town: AddressComponent, locality: AddressComponent)
    requires town.types == [PostalTown] && locality.types == [Locality]
    ensures PrecedenceRef([town], Locality, PostalTown) == town.longName
    ensures PrecedenceRef([town, locality], Locality, PostalTown) == locality.longName
    ensures PrecedenceRef([locality, town], Locality, PostalTown) == locality.longName
  {
    assert Locality !in town.types && Locality in locality.types;
    assert [town][0] == town && [town][..0] == [];
    assert !AnyTagged([town], Locality) by {
      assert forall i :: 0 <= i < 1 ==> [town][i] == town;
    }
    assert AnyTagged([town], PostalTown) && !AnyTagged([], PostalTown);
    assert FirstLong([town], PostalTown) == town.longName;
    assert [town, locality][1] == locality && [locality, town][0] == locality;
    assert [locality, town][..1] == [locality];
    assert AnyTagged([town, locality], Locality) && AnyTagged([locality, town], Locality);
    assert LastLong([town, locality], Locality) == locality.longName;
    assert LastLong([locality], Locality) == locality.longName;
    assert LastLong([locality, town], Locality) == locality.longName;
  }

  /** Only a prefix "A" and a suffix "B": the empty main part leaves a double space. */
  lemma {:induction false} PostcodeKeepsInnerGap(id: string, place: map<string, string>,
                                                 pre: AddressComponent, suf: AddressComponent)
    requires pre.types == [PostalCodePrefix] && pre.shortName == "A"
    requires suf.types == [PostalCodeSuffix] && suf.shortName == "B"
    ensures var r := Classify(id, [pre, suf], place); PostcodeKey(id) in r && r[PostcodeKey(id)] == "A  B"
  {
    ClassifyPostcode(id, [pre, suf], place);
    PrefixSuffixParts(pre, suf);
    TrimInnerGap();
  }

  lemma PrefixSuffixParts(pre: AddressComponent, suf: AddressComponent)
    requires pre.types == [PostalCodePrefix] && pre.shortName == "A"
    requires suf.types == [PostalCodeSuffix] && suf.shortName == "B"
    ensures RefPostcode([pre, suf]) == Postcode("A", "", "B")
  {
    assert [pre, suf][..1] == [pre] && [pre][..0] == [];
    assert [pre, suf][1] == suf && [pre][0] == pre;
    assert PostalCode !in pre.types && PostalCode !in suf.types && PostalCodePrefix !in suf.types;
    assert PartOf(pre) == Some(PrefixPart) && PartOf(suf) == Some(SuffixPart);
    assert LastPart([pre], PrefixPart) == "A" && LastPart([pre], MainPart) == "" && LastPart([pre], SuffixPart) == "";
    assert LastPart([pre, suf], PrefixPart) == "A";
    assert LastPart([pre, suf], MainPart) == "";
    assert LastPart([pre, suf], SuffixPart) == "B";
  }

  lemma TrimInnerGap()
    ensures Trim("A" + " " + "" + " " + "B" + " ") == "A  B"
  {
    assert "A" + " " + "" + " " + "B" + " " == "A  B ";
    assert TrimStart("A  B ") == "A  B ";
    assert TrimEnd("A  B ") == "A  B" by {
      assert "A  B "[..4] == "A  B";
    }
  }
}

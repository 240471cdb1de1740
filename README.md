# AutoComplete address widget — a verified Dafny model

This project models the `auto-complete` web component of the ltautocomplete
repository. The component wraps a text input around two place services:

- an autocomplete service, which turns typed text into a list of predictions;
- a details service, which turns a chosen prediction into its address components.

The component then classifies those components into four prefixed fields:
`<identifier>_street`, `<identifier>_city`, `<identifier>_state` and
`<identifier>_postcode`. It merges them into its accumulated `changedPlace` map and
emits that map as a `placeChange` event.

The model is in five modules:

- `Wrappers` — `Option`, used for JavaScript's `undefined`.
- `Strings` — the string operations the classifier relies on:
  - the builtin `String.prototype.trim`, with the full ECMAScript whitespace and
    line-terminator set;
  - the builtin `Array.prototype.join`;
  - `Spaced`, the `${part} ` accumulation of the postcode loop.
- `Classifier` — the pure specification of `setPlaces`:
  - the per-component step functions: `PostcodeStep` for `fillPostcode`, `StreetStep`
    and `StreetValue` for `fillStreet`, and `PrecedenceStep`, shared by `fillState`
    and `fillCity` with different tags and keys;
  - `ScanAll`, the `forEach` pass over the components;
  - `Classify`, the map a selection leaves behind.
- `ClassifierSpec` — reference definitions of what each field means, written without
  the loop, and lemmas proving that `Classify` agrees with them:
  - the street is every street number (in reverse order of appearance) followed by
    every route;
  - each postcode part is the last component that sets it;
  - the state is the last level-2 area, else the first level-1 area, else "";
  - the city is the last locality, else the first postal town, else "".
  Lemmas also cover which keys a selection writes and that, once some component has
  been seen, a component with none of the known tags changes nothing. (A leading or
  lone untagged component is not ignored: it writes "" to street, state and city.)
- `ClassifierExamples` — concrete consequences:
  - street number and route in either order;
  - level 2 over level 1, and the first level 1 among several;
  - the last locality among several, and locality over postal town;
  - the postcode "A  B", with its inner double space.
- `Widget` — the class `AutoComplete`:
  - its fields are the component's state;
  - its methods are the event handlers and the two service callbacks, each callback
    taking `status` and the payload as parameters;
  - ghost logs record every prediction request, every details request and every
    emitted payload;
  - `SetPlaces` is the imperative `setPlaces` loop, proved to leave
    `changedPlace == Classify(identifier, components, old changedPlace)`;
  - every transition preserves the object invariant `Valid()`. It says:
    - no prediction request was issued for empty input;
    - every request asks for addresses only;
    - every details request asks for address components only;
    - every emitted payload holds the postcode key, and no key the current map lacks.

Behaviour of the code worth knowing (the model follows it):

- An empty component list writes only `<identifier>_postcode`, with value "". It does
  not write all four keys (`ClassifierSpec.ClassifyEmpty`, `ClassifierSpec.ClassifyKeys`).
- An OK prediction response with an empty list still sets `dropdownVisible` to true.
- Clearing the text clears predictions only when the debounced `callAutoComplete`
  fires, not synchronously.
- A non-OK details response changes nothing. It does not close the dropdown or clear
  the predictions.
- `street` is `undefined` until the first input event, and `undefined !== ''` holds. So
  `callAutoComplete` can issue a request whose input is undefined. The model keeps
  `street` as an `Option` and allows that request.
- `currentCountryIso` is never assigned anywhere in the component. It is kept as a
  field so that the restriction logic is still modelled.

## Model

| member | source | states |
|---|---|---|
| Strings.IsWhitespace | src/components/auto-complete/auto-complete.tsx:266 | the code points `trim` strips: ECMAScript WhiteSpace and LineTerminator |
| Strings.TrimStart | src/components/auto-complete/auto-complete.tsx:266 | definition: drops leading whitespace one character at a time |
| Strings.TrimEnd | src/components/auto-complete/auto-complete.tsx:266 | definition: drops trailing whitespace one character at a time |
| Strings.Trim | src/components/auto-complete/auto-complete.tsx:266 | definition: `trim()` as the leading strip followed by the trailing strip |
| Strings.Join | src/components/auto-complete/auto-complete.tsx:179 | definition: `tokens.join(sep)`, the tokens in order with `sep` between neighbours |
| Strings.Spaced | src/components/auto-complete/auto-complete.tsx:260-262 | definition: the `${part} ` accumulation, every part followed by one space |
| Classifier.StreetKey | src/components/auto-complete/auto-complete.tsx:178 | definition: the key `${autocompleteIdentifier}_street` |
| Classifier.StateKey | src/components/auto-complete/auto-complete.tsx:192 | definition: the key `${autocompleteIdentifier}_state` |
| Classifier.CityKey | src/components/auto-complete/auto-complete.tsx:216 | definition: the key `${autocompleteIdentifier}_city` |
| Classifier.PostcodeKey | src/components/auto-complete/auto-complete.tsx:265 | definition: the key `${autocompleteIdentifier}_postcode` |
| Classifier.PartOf | src/components/auto-complete/auto-complete.tsx:158-164 | definition: the else-if chain `postal_code`, then `postal_code_prefix`, then `postal_code_suffix`, picking at most one part |
| Classifier.PostcodeStep | src/components/auto-complete/auto-complete.tsx:157-165 | definition: `fillPostcode`, the picked part takes the component's `short_name`, the others are kept |
| Classifier.StreetStep | src/components/auto-complete/auto-complete.tsx:167-175 | definition: a street number's `short_name` is unshifted, then a route's `long_name` is pushed |
| Classifier.StreetValue | src/components/auto-complete/auto-complete.tsx:176-186 | definition: the tokens joined by one space when there are any, else "" |
| Classifier.PrecedenceStep | src/components/auto-complete/auto-complete.tsx:189-235 | definition: the rule shared by `fillState` and `fillCity`: strong tag always writes `long_name` and fills; weak tag writes and fills only while unfilled; otherwise "" is written only while unfilled |
| Classifier.Step | src/components/auto-complete/auto-complete.tsx:252-257 | definition: one `forEach` iteration, `fillPostcode`, `fillStreet`, `fillState`, `fillCity` in that order |
| Classifier.InitialScan | src/components/auto-complete/auto-complete.tsx:238-250 | definition: the temporaries before the loop: no tokens, empty parts, nothing filled |
| Classifier.ScanAll | src/components/auto-complete/auto-complete.tsx:252-257 | definition: the `forEach` pass, `Step` applied to each component in order |
| Classifier.PostcodeValue | src/components/auto-complete/auto-complete.tsx:259-266 | definition: the trimmed accumulation of prefix, main and suffix |
| Classifier.Classify | src/components/auto-complete/auto-complete.tsx:237-267 | definition: the map after the loop with the postcode field written |
| Strings.TrimStartSuffix | src/components/auto-complete/auto-complete.tsx:266 | the leading-whitespace strip leaves a suffix of the input, drops only whitespace, and leaves a result that does not start with whitespace |
| Strings.TrimEndPrefix | src/components/auto-complete/auto-complete.tsx:266 | the trailing-whitespace strip leaves a prefix of the input, drops only whitespace, and leaves a result that does not end with whitespace |
| Strings.TrimSlice | src/components/auto-complete/auto-complete.tsx:266 | `trim()` returns the slice of the input between its leading and trailing whitespace; that slice neither starts nor ends with whitespace, and interior whitespace is kept |
| Widget.Restrictions | src/components/auto-complete/auto-complete.tsx:304-306 | a country restriction is present exactly when the ISO code is set and non-empty, and then it carries that code |
| Widget.EmitKeepsLogsValid | src/components/auto-complete/auto-complete.tsx:269 | emitting a map that kept every old key and holds the postcode key preserves the log invariant |
| Widget.AutoComplete.constructor | src/components/auto-complete/auto-complete.tsx:36-47 | initial field values: no token, service not loaded, no predictions, no country, dropdown hidden, street undefined, empty map, empty logs |
| Widget.AutoComplete.ServiceWatchHandler | src/components/auto-complete/auto-complete.tsx:56-61 | `serviceLoaded` becomes true on a truthy service and is never reset |
| Widget.AutoComplete.ShowDropdown | src/components/auto-complete/auto-complete.tsx:147-151 | opens the dropdown when there are predictions, and otherwise leaves it as it was; nothing else changes |
| Widget.AutoComplete.HideDropdown | src/components/auto-complete/auto-complete.tsx:153-155 | closes the dropdown and changes nothing else |
| Widget.AutoComplete.HandleInput | src/components/auto-complete/auto-complete.tsx:298-300 | `street` becomes the input's value; nothing else changes |
| Widget.AutoComplete.CallAutoComplete | src/components/auto-complete/auto-complete.tsx:302-328 | empty text: predictions cleared, dropdown hidden, no request; otherwise an unloaded service issues nothing, and a loaded one logs exactly one request (text, restriction, session token, `["address"]`); dropdown and predictions are kept |
| Widget.AutoComplete.OnPredictions | src/components/auto-complete/auto-complete.tsx:315-322 | a non-OK status changes nothing; an OK one replaces the predictions wholesale and opens the dropdown |
| Widget.AutoComplete.EmulatePlaceChange | src/components/auto-complete/auto-complete.tsx:275-280 | logs exactly one details request for the prediction's place id, asking for `["address_component"]` |
| Widget.AutoComplete.OnPlaceDetails | src/components/auto-complete/auto-complete.tsx:281-287 | a non-OK status changes no field and emits nothing; an OK one performs `SetPlaces` on the components |
| Widget.AutoComplete.SetField | src/components/auto-complete/auto-complete.tsx:291-296 | writes exactly the given key with the given value; every other key, including those of earlier selections, is unchanged |
| Widget.AutoComplete.FillPostcode | src/components/auto-complete/auto-complete.tsx:157-165 | the postcode record after one component is `PostcodeStep`: the first of main, prefix, suffix the component names takes its `short_name` |
| Widget.AutoComplete.FillStreet | src/components/auto-complete/auto-complete.tsx:167-186 | the token list is `StreetStep` (number unshifted, route pushed) and the street key alone is written, with the joined tokens or "" |
| Widget.AutoComplete.FillState | src/components/auto-complete/auto-complete.tsx:189-211 | flag and map after one component follow the precedence rule with level 2 strong and level 1 weak |
| Widget.AutoComplete.FillCity | src/components/auto-complete/auto-complete.tsx:213-235 | flag and map after one component follow the precedence rule with locality strong and postal town weak |
| Widget.AutoComplete.FillFields | src/components/auto-complete/auto-complete.tsx:252-257 | the four fillers in order perform exactly one `Step` of the scan |
| Widget.AutoComplete.FillAllFields | src/components/auto-complete/auto-complete.tsx:238-257 | the `forEach` loop from empty temporaries leaves the map and postcode parts of `ScanAll` |
| Widget.AutoComplete.JoinPostcode | src/components/auto-complete/auto-complete.tsx:259-262 | the accumulated string is prefix, main and suffix, each followed by one space |
| Widget.AutoComplete.FillFinalPostcode | src/components/auto-complete/auto-complete.tsx:259-267 | writes the postcode key, with the trimmed join of the three parts, and nothing else |
| Widget.AutoComplete.ClassifyPlace | src/components/auto-complete/auto-complete.tsx:238-267 | the map `setPlaces` leaves is `Classify` of the components and the old map |
| Widget.AutoComplete.SetPlaces | src/components/auto-complete/auto-complete.tsx:237-273 | the map becomes `Classify(...)`; exactly one payload is emitted, equal to the new map; the dropdown is closed and the predictions are emptied; the invariant is kept |
| Widget.AutoComplete.EmitPlaceChange | src/components/auto-complete/auto-complete.tsx:269 | appends the current map to the emitted payloads |
| ClassifierSpec.Reverse | src/components/auto-complete/auto-complete.tsx:169 | element `k` of the result is element `|s|-1-k` of the input (repeated `unshift`) |
| ClassifierSpec.LastLongIsLast | src/components/auto-complete/auto-complete.tsx:190-195 | the `long_name` of a tagged component with no tagged component after it, or "" when none is tagged |
| ClassifierSpec.FirstLongIsFirst | src/components/auto-complete/auto-complete.tsx:196-204 | the `long_name` of a tagged component with no tagged component before it, or "" when none is tagged |
| ClassifierSpec.KeysDistinct | src/components/auto-complete/auto-complete.tsx:178-232 | the street, state, city and postcode keys of one identifier are pairwise different |
| ClassifierSpec.UpdateHidden | src/components/auto-complete/auto-complete.tsx:293-295 | writing a key inside a removed key set leaves the rest of the map unchanged |
| ClassifierSpec.AppendFacts | src/components/auto-complete/auto-complete.tsx:252-257 | how "some component is tagged", the last and the first tagged name extend by one component |
| ClassifierSpec.PrecedenceStepRef | src/components/auto-complete/auto-complete.tsx:189-235 | one step of the precedence rule keeps the field equal to the reference (last strong, else first weak, else "") and the flag equal to "a strong or weak component was seen"; no other key moves |
| ClassifierSpec.PrecedenceFrame | src/components/auto-complete/auto-complete.tsx:189-235 | one precedence step writes at most its own key and leaves it present |
| ClassifierSpec.StepFrame | src/components/auto-complete/auto-complete.tsx:252-257 | one pass of the loop body writes the street, state and city keys and nothing else |
| ClassifierSpec.ScanStreet | src/components/auto-complete/auto-complete.tsx:167-175 | the tokens after the loop are the street numbers reversed, then the routes in order |
| ClassifierSpec.StreetStepRef | src/components/auto-complete/auto-complete.tsx:167-175 | one `fillStreet` call extends the reference tokens (numbers reversed, then routes) by one component |
| ClassifierSpec.NamesSnoc | src/components/auto-complete/auto-complete.tsx:168-174 | one more component adds its own street-number and route names at the end of the reference lists |
| ClassifierSpec.ReverseSnoc | src/components/auto-complete/auto-complete.tsx:169 | unshifting puts the newest street number first |
| ClassifierSpec.ScanPostcode | src/components/auto-complete/auto-complete.tsx:157-165 | each postcode part after the loop is the `short_name` of the last component that sets that part |
| ClassifierSpec.ScanStreetKey | src/components/auto-complete/auto-complete.tsx:176-186 | after any component, the street key holds the join of the current tokens |
| ClassifierSpec.ScanState | src/components/auto-complete/auto-complete.tsx:189-211 | after the loop, the state flag is "some level 1 or level 2 area was seen" and the state key holds the reference value |
| ClassifierSpec.ScanCity | src/components/auto-complete/auto-complete.tsx:213-235 | after the loop, the city flag is "some locality or postal town was seen" and the city key holds the reference value |
| ClassifierSpec.ScanFrame | src/components/auto-complete/auto-complete.tsx:252-257 | the loop writes only the street, state and city keys, and writes all three once a component has been seen |
| ClassifierSpec.ClassifyKeys | src/components/auto-complete/auto-complete.tsx:237-267 | the keys afterwards are the old keys plus the postcode key, plus the other three when the list is non-empty; entries under other keys are unchanged |
| ClassifierSpec.ClassifyGrows | src/components/auto-complete/auto-complete.tsx:237-267 | a selection keeps every existing key and always leaves the postcode key |
| ClassifierSpec.PostcodeWriteHidden | src/components/auto-complete/auto-complete.tsx:264-267 | writing the postcode after the loop still leaves every key outside the four fields as it was |
| ClassifierSpec.ClassifyEmpty | src/components/auto-complete/auto-complete.tsx:245-267 | an empty component list adds only the postcode key, with value "" |
| ClassifierSpec.ClassifyStreet | src/components/auto-complete/auto-complete.tsx:167-186 | the street is the street numbers (reversed) then the routes, joined by one space, or "" when there are none |
| ClassifierSpec.ClassifyStreetEmpty | src/components/auto-complete/auto-complete.tsx:176-186 | without street-number and route components, the street is "" |
| ClassifierSpec.NamesWithoutTags | src/components/auto-complete/auto-complete.tsx:168-174 | no street-number (route) component means no number (route) tokens |
| ClassifierSpec.SpacedThree | src/components/auto-complete/auto-complete.tsx:259-262 | the accumulation over three parts is `a + " " + b + " " + c + " "` |
| ClassifierSpec.ClassifyPostcode | src/components/auto-complete/auto-complete.tsx:259-267 | the postcode is `trim(prefix + " " + main + " " + suffix + " ")` with each part from its last setter |
| ClassifierSpec.ClassifyState | src/components/auto-complete/auto-complete.tsx:189-211 | the state is the last level-2 area, else the first level-1 area, else "" |
| ClassifierSpec.ClassifyCity | src/components/auto-complete/auto-complete.tsx:213-235 | the city is the last locality, else the first postal town, else "" |
| ClassifierSpec.IgnoresUntagged | src/components/auto-complete/auto-complete.tsx:252-257 | after some component, appending one with none of the nine known tags leaves the result unchanged |
| ClassifierSpec.StepUntagged | src/components/auto-complete/auto-complete.tsx:253-256 | the loop body on an untagged component rewrites each field with the value it already has |
| ClassifierExamples.StreetNamesOfTwo | src/components/auto-complete/auto-complete.tsx:168-174 | the number and route tokens of a two-component list |
| ClassifierExamples.StreetNumberBeforeRoute | src/components/auto-complete/auto-complete.tsx:167-179 | a street number and a route give "number route" in either input order |
| ClassifierExamples.NumberThenRoute | src/components/auto-complete/auto-complete.tsx:176-180 | the reference street of a number and a route, in either order, is "number route" |
| ClassifierExamples.StreetExample | src/components/auto-complete/auto-complete.tsx:167-179 | `route "Main St"` and `street_number "42"` give "42 Main St" in either order |
| ClassifierExamples.Level2BeatsLevel1 | src/components/auto-complete/auto-complete.tsx:189-204 | a level-2 area wins over a level-1 area in either order |
| ClassifierExamples.StateRefs | src/components/auto-complete/auto-complete.tsx:189-204 | the reference state of a level-1 and a level-2 area, in either order, is the level-2 name |
| ClassifierExamples.FirstLevel1Wins | src/components/auto-complete/auto-complete.tsx:196-204 | of two level-1 areas the first wins |
| ClassifierExamples.FirstStateRef | src/components/auto-complete/auto-complete.tsx:196-204 | the reference state of two level-1 areas is the first one's name |
| ClassifierExamples.LastLocalityWins | src/components/auto-complete/auto-complete.tsx:214-219 | of two localities the last wins |
| ClassifierExamples.LocalityBeatsPostalTown | src/components/auto-complete/auto-complete.tsx:213-228 | a lone postal town is the city, and a locality wins over it in either order |
| ClassifierExamples.CityRefs | src/components/auto-complete/auto-complete.tsx:213-228 | the reference city values of those three lists |
| ClassifierExamples.PostcodeKeepsInnerGap | src/components/auto-complete/auto-complete.tsx:259-266 | a prefix "A" and a suffix "B" give the postcode "A  B", inner double space kept |
| ClassifierExamples.PrefixSuffixParts | src/components/auto-complete/auto-complete.tsx:157-165 | those two components set the parts to ("A", "", "B") |
| ClassifierExamples.TrimInnerGap | src/components/auto-complete/auto-complete.tsx:266 | `"A  B ".trim()` is "A  B" |

## Left out

- SDK bootstrapping (`componentDidLoad`, `init`, `injectSDK`): script injection, `window` globals and promises are I/O. The session token is an opaque handle (`SessionToken`), and `componentDidLoad` alone assigns it. In the model nothing assigns it, so every logged prediction request carries `Unset`. In the source, `componentDidLoad` sets the token before the service, so every request it sends carries a real token.
- `render` and the JSX markup: user interface. The handlers it wires up are modelled as methods.
- The 300 ms debounce around `callAutoComplete`: timing behaviour of an external library. `CallAutoComplete` is the action that runs when the debounce fires.
- Stencil's decorators and re-rendering: only their effect on the fields and the emitted-event log is kept.
- `console.log` on a failed details response or a failed SDK load: it is a side channel with no effect on state.
- The Google service objects: they are opaque. Their requests are ghost logs, and their responses are method parameters.
- The order of and races between overlapping asynchronous responses: each callback is a separate synchronous method that any caller may invoke in any order.
- `Widget.AutoComplete.EmitPlaceChange`: JavaScript emits the `changedPlace` object itself, so later selections mutate earlier payloads. The model logs a value snapshot and does not model that aliasing.
- `Widget.AutoComplete.SetField`: `Object.assign` mutates the same object in place. The model reassigns a `map` value, which behaves the same here, because the only other references to the object, the emitted payloads, are logged as snapshots (see `Widget.AutoComplete.EmitPlaceChange`).
- The `_postcode` and `_street` entries of `filledFields` are never read. Only the state and city flags are modelled, as booleans.
- The `googleObjectLoaded`, `google`, `apiKey` and `name` fields take part only in bootstrapping or rendering.
- The `service` and `placeService` objects are the opaque place services: `service` appears only as the boolean passed to `ServiceWatchHandler` and as the `serviceLoaded` flag, and calls on either service appear only as the entries of the request logs.
- `autocompleteIdentifier` is a property the host page may change between selections; the model fixes it as a `const` of the object. The invariant's clause that every emitted payload holds the postcode key of this identifier relies on that.
- The type-declaration files and the build configuration contain no logic.

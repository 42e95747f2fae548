/**
 * The search-results screen (app/TestSearchPage.tsx): raw backend rows are
 * mapped to listings (with their tags normalised), and the displayed list is
 * the fetched list filtered by price range, car type and feature tags.
 */
module SearchPage {
  import opened Wrappers
  import opened Text
  import opened Seqs
  import FilterModal

  // ---------------------------------------------------------------------
  // Data model
  // ---------------------------------------------------------------------

  /** One element of a tags array. Arrays come from JSON, so an element need not be a string. */
  datatype Tag = StrTag(text: string) | OtherTag

  /** What `JSON.parse` makes of a tags string: an array, another JSON value, or a syntax error. */
  datatype Decoded = DecodedArray(items: seq<Tag>) | DecodedOther | DecodeFailed

  /**
   * The raw `tags` column in the shapes the mapping tells apart. `TagsOther`
   * is any other value (`null`, a number, an object), with its JavaScript truthiness.
   */
  datatype RawTags = TagsArray(items: seq<Tag>) | TagsString(text: string) | TagsOther(truthy: bool)

  /** A row of the `cars` table (or of the fuzzy-search procedure) as selected by the screen. */
  datatype RawRow = RawRow(
    id: string,
    title: Option<string>,
    pricePerDay: Option<int>,
    location: Option<string>,
    photos: Option<seq<string>>,
    tags: RawTags)

  /** A listing as displayed. `kind` is the screen's `type` field, filled from the raw tags column. */
  datatype Listing = Listing(
    id: string,
    name: string,
    price: int,
    image: string,
    location: string,
    rating: real,
    tags: seq<Tag>,
    kind: RawTags)

  /** The four filter values the screen keeps. */
  datatype Filters = Filters(minPrice: int, maxPrice: int, carType: Option<string>, featureTags: seq<string>)

  const DefaultFilters := Filters(0, 500, None, [])
  const UnknownCarName := "Unknown Car"
  const PlaceholderImage := "https://placehold.co/300x200?text=Car"
  const DefaultRating := 4.5
  const RecentLimit := 50
  const SimilarityThreshold := 0.05

  // ---------------------------------------------------------------------
  // Fetching and row mapping
  // ---------------------------------------------------------------------

  /** The two backend calls: the newest listings, or the fuzzy-search procedure. */
  datatype Request = RecentListings(limit: nat) | FuzzySearch(query: string, threshold: real)

  /** A backend reply: the `data` rows (possibly `null`) and the error message, if any. */
  datatype Reply = Reply(data: Option<seq<RawRow>>, error: Option<string>)

  /** The request `fetchCarListings` issues for a search string. */
  function RequestFor(query: string): (r: Request)
    ensures r.RecentListings? <==> Trim(query) == ""
    ensures r.RecentListings? ==> r.limit == RecentLimit
    ensures r.FuzzySearch? ==> r.query == Trim(query) && r.query != [] && !IsSpace(r.query[0])
    ensures r.FuzzySearch? ==> r.threshold == SimilarityThreshold
  {
    var input := Trim(query);
    if input == "" then RecentListings(RecentLimit) else FuzzySearch(input, SimilarityThreshold)
  }

  /** Tag normalisation: an array is kept, a string is decoded, anything else gives no tags. */
  function NormalizeTags(raw: RawTags, decode: string -> Decoded): (r: seq<Tag>)
    ensures raw.TagsArray? ==> r == raw.items
    ensures raw.TagsString? && decode(raw.text).DecodedArray? ==> r == decode(raw.text).items
    ensures raw.TagsString? && !decode(raw.text).DecodedArray? ==> r == []
    ensures raw.TagsOther? ==> r == []
  {
    match raw
    case TagsArray(items) => items
    case TagsString(text) =>
      (match decode(text)
       case DecodedArray(items) => items
       case _ => [])
    case TagsOther(_) => []
  }

  /** A tags string that decodes to an array gives the same tags as that array itself. */
  lemma StringAndArrayTagsAgree(text: string, items: seq<Tag>, decode: string -> Decoded)
    requires decode(text) == DecodedArray(items)
    ensures NormalizeTags(TagsString(text), decode) == NormalizeTags(TagsArray(items), decode)
  {
  }

  /** JavaScript truthiness of the raw tags column. */
  predicate TagsTruthy(raw: RawTags) {
    match raw
    case TagsArray(_) => true
    case TagsString(text) => text != ""
    case TagsOther(truthy) => truthy
  }

  /**
   * One row mapped to a listing. `unknownLocation` is the translated
   * "unknownLocation" text, which comes from the translation library.
   */
  function MapRow(row: RawRow, decode: string -> Decoded, unknownLocation: string): (r: Listing)
    ensures r.id == row.id
    ensures r.name != []
    ensures Truthy(row.title) ==> r.name == row.title.value
    ensures !Truthy(row.title) ==> r.name == UnknownCarName
    ensures r.price == row.pricePerDay.GetOr(0)
    ensures row.photos.Some? && row.photos.value != [] ==> r.image == row.photos.value[0]
    ensures !(row.photos.Some? && row.photos.value != []) ==> r.image == PlaceholderImage
    ensures r.location == (if Truthy(row.location) then row.location.value else unknownLocation)
    ensures r.rating == DefaultRating
    ensures r.tags == NormalizeTags(row.tags, decode)
    ensures r.kind == (if TagsTruthy(row.tags) then row.tags else TagsString(""))
  {
    Listing(
      row.id,
      if Truthy(row.title) then row.title.value else UnknownCarName,
      row.pricePerDay.GetOr(0),
      if row.photos.Some? && row.photos.value != [] then row.photos.value[0] else PlaceholderImage,
      if Truthy(row.location) then row.location.value else unknownLocation,
      DefaultRating,
      NormalizeTags(row.tags, decode),
      if TagsTruthy(row.tags) then row.tags else TagsString(""))
  }

  /** `data.map(...)`: every row mapped, in order. */
  function MapRows(rows: seq<RawRow>, decode: string -> Decoded, unknownLocation: string): (r: seq<Listing>)
    ensures |r| == |rows|
    ensures forall i :: 0 <= i < |rows| ==> r[i] == MapRow(rows[i], decode, unknownLocation)
  {
    seq(|rows|, i requires 0 <= i < |rows| => MapRow(rows[i], decode, unknownLocation))
  }

  // ---------------------------------------------------------------------
  // The filter predicate, as the screen evaluates it
  // ---------------------------------------------------------------------

  /** The price criterion, inclusive at both ends. */
  predicate PriceMatch(car: Listing, f: Filters) {
    f.minPrice <= car.price <= f.maxPrice
  }

  /**
   * `tags.some(tag => tag.toLowerCase() === wanted.toLowerCase())`, scanning
   * left to right. Calling `toLowerCase` on an element that is not a string
   * throws, which is `None` here.
   */
  function TypeScan(tags: seq<Tag>, wanted: string): Option<bool> {
    if tags == [] then Some(false)
    else match tags[0]
      case OtherTag => None
      case StrTag(text) =>
        if ToLower(text) == ToLower(wanted) then Some(true) else TypeScan(tags[1..], wanted)
  }

  /** The type criterion: passes when no type is selected, otherwise scans the tags. */
  function TypeMatch(tags: seq<Tag>, carType: Option<string>): Option<bool> {
    if !Truthy(carType) then Some(true) else TypeScan(tags, carType.value)
  }

  /** The feature tags' comparison: trimmed, then lower-cased. */
  function Normalize(s: string): string {
    ToLower(Trim(s))
  }

  /** `tags.some(carTag => typeof carTag === 'string' && ...)` for one selected tag. */
  function FeatureScan(tags: seq<Tag>, selected: string): bool {
    if tags == [] then false
    else (tags[0].StrTag? && Normalize(tags[0].text) == Normalize(selected)) || FeatureScan(tags[1..], selected)
  }

  /** `selected.every(...)`, where a car without tags fails every selected tag. */
  function EveryFeature(tags: seq<Tag>, selected: seq<string>): bool {
    if selected == [] then true
    else (tags != [] && FeatureScan(tags, selected[0])) && EveryFeature(tags, selected[1..])
  }

  /** The feature criterion: passes when no feature tag is selected. */
  function FeatureMatch(tags: seq<Tag>, selected: seq<string>): bool {
    |selected| == 0 || EveryFeature(tags, selected)
  }

  /** The verdict on one car: `None` when evaluating it throws. */
  function CarVerdict(car: Listing, f: Filters): Option<bool> {
    var priceMatch := PriceMatch(car, f);
    match TypeMatch(car.tags, f.carType)
    case None => None
    case Some(typeMatch) => Some(priceMatch && typeMatch && FeatureMatch(car.tags, f.featureTags))
  }

  /** `getFilteredCars`: the fetched list filtered in order; `None` when a verdict throws. */
  function FilterCars(cars: seq<Listing>, f: Filters): Option<seq<Listing>> {
    if cars == [] then Some([])
    else match CarVerdict(cars[0], f)
      case None => None
      case Some(keep) =>
        match FilterCars(cars[1..], f)
        case None => None
        case Some(rest) => Some(if keep then [cars[0]] + rest else rest)
  }

  // ---------------------------------------------------------------------
  // The filter rule, stated directly
  // ---------------------------------------------------------------------

  /** The tag at `i` is a string equal to `wanted` ignoring case. */
  predicate TypeTagAt(tags: seq<Tag>, i: int, wanted: string)
    requires 0 <= i < |tags|
  {
    tags[i].StrTag? && ToLower(tags[i].text) == ToLower(wanted)
  }

  predicate AllStrings(tags: seq<Tag>) {
    forall i :: 0 <= i < |tags| ==> tags[i].StrTag?
  }

  predicate HasTypeTag(tags: seq<Tag>, wanted: string) {
    exists i :: 0 <= i < |tags| && TypeTagAt(tags, i, wanted)
  }

  /** A matching tag occurs before any element that is not a string. */
  predicate TypeTagFirst(tags: seq<Tag>, wanted: string) {
    exists i :: 0 <= i < |tags| && TypeTagAt(tags, i, wanted) && AllStrings(tags[..i])
  }

  /** Some string tag equals `selected` once both are trimmed and lower-cased. */
  predicate HasFeature(tags: seq<Tag>, selected: string) {
    exists i :: 0 <= i < |tags| && tags[i].StrTag? && Normalize(tags[i].text) == Normalize(selected)
  }

  /** The type criterion as a rule: no type selected, or some tag equals it ignoring case. */
  predicate TypeWanted(car: Listing, f: Filters) {
    !Truthy(f.carType) || HasTypeTag(car.tags, f.carType.value)
  }

  /** The feature criterion as a rule: every selected tag is among the car's tags. */
  predicate FeaturesWanted(car: Listing, f: Filters) {
    forall k :: 0 <= k < |f.featureTags| ==> HasFeature(car.tags, f.featureTags[k])
  }

  /** A car is displayed iff it meets all three criteria. */
  predicate Wanted(car: Listing, f: Filters) {
    PriceMatch(car, f) && TypeWanted(car, f) && FeaturesWanted(car, f)
  }

  /** The reference filter: the wanted cars, in input order. */
  function KeepWanted(cars: seq<Listing>, f: Filters): seq<Listing> {
    if cars == [] then []
    else (if Wanted(cars[0], f) then [cars[0]] else []) + KeepWanted(cars[1..], f)
  }

  // ---------------------------------------------------------------------
  // Lemmas connecting the two
  // ---------------------------------------------------------------------

  /** The type scan finds a match iff one precedes every non-string element, and reports no match iff all elements are strings and none matches. */
  lemma {:induction false} TypeScanSpec(tags: seq<Tag>, wanted: string)
    ensures TypeScan(tags, wanted) == Some(true) <==> TypeTagFirst(tags, wanted)
    ensures TypeScan(tags, wanted) == Some(false) <==> AllStrings(tags) && !HasTypeTag(tags, wanted)
  {
    if tags == [] {
    } else {
      var rest := tags[1..];
      TypeScanSpec(rest, wanted);
      match tags[0]
      case OtherTag =>
        forall i | 0 <= i < |tags| && TypeTagAt(tags, i, wanted)
          ensures !AllStrings(tags[..i])
        {
          assert tags[..i][0] == tags[0];
        }
      case StrTag(text) =>
        if ToLower(text) == ToLower(wanted) {
          assert TypeTagAt(tags, 0, wanted) && AllStrings(tags[..0]);
        } else {
          assert !TypeTagAt(tags, 0, wanted);
          if TypeTagFirst(rest, wanted) {
            var i :| 0 <= i < |rest| && TypeTagAt(rest, i, wanted) && AllStrings(rest[..i]);
            assert TypeTagAt(tags, i + 1, wanted);
            assert tags[..i + 1] == [tags[0]] + rest[..i];
          }
          if TypeTagFirst(tags, wanted) {
            var i :| 0 <= i < |tags| && TypeTagAt(tags, i, wanted) && AllStrings(tags[..i]);
            assert i > 0;
            assert TypeTagAt(rest, i - 1, wanted);
            assert rest[..i - 1] == tags[1..i];
          }
          if HasTypeTag(tags, wanted) {
            var i :| 0 <= i < |tags| && TypeTagAt(tags, i, wanted);
            assert TypeTagAt(rest, i - 1, wanted);
          }
          if HasTypeTag(rest, wanted) {
            var i :| 0 <= i < |rest| && TypeTagAt(rest, i, wanted);
            assert TypeTagAt(tags, i + 1, wanted);
          }
          if AllStrings(tags) {
            assert forall i :: 0 <= i < |rest| ==> rest[i] == tags[i + 1];
          }
          if AllStrings(rest) {
            assert forall i :: 0 < i < |tags| ==> tags[i] == rest[i - 1];
          }
        }
    }
  }

  /** The feature scan succeeds iff some string tag matches after trimming and lower-casing. */
  lemma {:induction false} FeatureScanSpec(tags: seq<Tag>, selected: string)
    ensures FeatureScan(tags, selected) <==> HasFeature(tags, selected)
  {
    if tags != [] {
      var rest := tags[1..];
      FeatureScanSpec(rest, selected);
      if HasFeature(rest, selected) {
        var i :| 0 <= i < |rest| && rest[i].StrTag? && Normalize(rest[i].text) == Normalize(selected);
        assert tags[i + 1] == rest[i];
      }
      if HasFeature(tags, selected) {
        var i :| 0 <= i < |tags| && tags[i].StrTag? && Normalize(tags[i].text) == Normalize(selected);
        if i > 0 {
          assert rest[i - 1] == tags[i];
        }
      }
    }
  }

  /** The feature criterion holds iff every selected tag is present; in particular a car with no tags fails any non-empty selection. */
  lemma {:induction false} FeatureMatchSpec(tags: seq<Tag>, selected: seq<string>)
    ensures FeatureMatch(tags, selected) <==> forall k :: 0 <= k < |selected| ==> HasFeature(tags, selected[k])
    ensures tags == [] && selected != [] ==> !FeatureMatch(tags, selected)
  {
    EveryFeatureSpec(tags, selected);
  }

  lemma {:induction false} EveryFeatureSpec(tags: seq<Tag>, selected: seq<string>)
    ensures EveryFeature(tags, selected) <==> forall k :: 0 <= k < |selected| ==> HasFeature(tags, selected[k])
  {
    if selected != [] {
      var rest := selected[1..];
      EveryFeatureSpec(tags, rest);
      FeatureScanSpec(tags, selected[0]);
      var head := tags != [] && FeatureScan(tags, selected[0]);
      assert head <==> HasFeature(tags, selected[0]);
      assert EveryFeature(tags, selected) == (head && EveryFeature(tags, rest));
      if forall k :: 0 <= k < |selected| ==> HasFeature(tags, selected[k]) {
        forall k | 0 <= k < |rest|
          ensures HasFeature(tags, rest[k])
        {
          assert rest[k] == selected[k + 1];
        }
      }
      if head && EveryFeature(tags, rest) {
        forall k | 0 <= k < |selected|
          ensures HasFeature(tags, selected[k])
        {
          if k > 0 {
            assert selected[k] == rest[k - 1];
          }
        }
      }
    }
  }

  /** When evaluating a car does not throw, its verdict is exactly the conjunction of the three criteria. */
  lemma CarVerdictSpec(car: Listing, f: Filters)
    ensures CarVerdict(car, f).Some? ==> CarVerdict(car, f).value == Wanted(car, f)
    ensures CarVerdict(car, f).None? <==> Truthy(f.carType) && !TypeTagFirst(car.tags, f.carType.value) && !AllStrings(car.tags)
  {
    CarVerdictValue(car, f);
    CarVerdictThrows(car, f);
  }

  /** A verdict that is not a throw agrees with `Wanted`. */
  lemma CarVerdictValue(car: Listing, f: Filters)
    ensures CarVerdict(car, f).Some? ==> CarVerdict(car, f).value == Wanted(car, f)
  {
    FeatureMatchSpec(car.tags, f.featureTags);
    if Truthy(f.carType) {
      var wanted := f.carType.value;
      TypeScanSpec(car.tags, wanted);
      if TypeTagFirst(car.tags, wanted) {
        var i :| 0 <= i < |car.tags| && TypeTagAt(car.tags, i, wanted) && AllStrings(car.tags[..i]);
        assert HasTypeTag(car.tags, wanted);
      }
    }
  }

  /** Evaluating a car throws exactly when a type is selected and a non-string tag precedes every match. */
  lemma CarVerdictThrows(car: Listing, f: Filters)
    ensures CarVerdict(car, f).None? <==> Truthy(f.carType) && !TypeTagFirst(car.tags, f.carType.value) && !AllStrings(car.tags)
  {
    if Truthy(f.carType) {
      var wanted := f.carType.value;
      TypeScanSpec(car.tags, wanted);
      if AllStrings(car.tags) && HasTypeTag(car.tags, wanted) {
        var i :| 0 <= i < |car.tags| && TypeTagAt(car.tags, i, wanted);
        assert AllStrings(car.tags[..i]);
        assert TypeTagFirst(car.tags, wanted);
      }
      match TypeScan(car.tags, wanted)
      case None =>
        assert !TypeTagFirst(car.tags, wanted) && !AllStrings(car.tags);
      case Some(found) =>
        assert CarVerdict(car, f).Some?;
        assert found ==> TypeTagFirst(car.tags, wanted);
        assert !found ==> AllStrings(car.tags);
    }
  }

  /** A car whose tags are all strings never makes the filter throw. */
  lemma StringTagsNeverThrow(car: Listing, f: Filters)
    requires AllStrings(car.tags)
    ensures CarVerdict(car, f) == Some(Wanted(car, f))
  {
    CarVerdictSpec(car, f);
  }

  /** The screen's filter throws iff evaluating some car throws. */
  lemma {:induction false} FilterCarsDefined(cars: seq<Listing>, f: Filters)
    ensures FilterCars(cars, f).Some? <==> forall i :: 0 <= i < |cars| ==> CarVerdict(cars[i], f).Some?
  {
    if cars != [] {
      FilterCarsDefined(cars[1..], f);
      assert forall i :: 0 < i < |cars| ==> cars[i] == cars[1..][i - 1];
    }
  }

  /** When the screen's filter does not throw, it computes the reference filter. */
  lemma {:induction false} FilterCarsIsKeepWanted(cars: seq<Listing>, f: Filters)
    ensures FilterCars(cars, f).Some? ==> FilterCars(cars, f).value == KeepWanted(cars, f)
  {
    if cars != [] {
      FilterCarsIsKeepWanted(cars[1..], f);
      CarVerdictSpec(cars[0], f);
    }
  }

  /** The displayed list keeps the input order: it is a subsequence of the fetched list. */
  lemma {:induction false} KeepWantedSubsequence(cars: seq<Listing>, f: Filters)
    ensures IsSubsequence(KeepWanted(cars, f), cars)
  {
    if cars != [] {
      KeepWantedSubsequence(cars[1..], f);
      var r := KeepWanted(cars, f);
      if Wanted(cars[0], f) {
        assert r[0] == cars[0] && r[1..] == KeepWanted(cars[1..], f);
      } else {
        assert r == KeepWanted(cars[1..], f);
      }
    }
  }

  /** Each wanted car appears as often as in the input, every other car not at all: nothing is added or duplicated. */
  lemma {:induction false} KeepWantedCounts(cars: seq<Listing>, f: Filters)
    ensures forall c :: multiset(KeepWanted(cars, f))[c] == if Wanted(c, f) then multiset(cars)[c] else 0
  {
    if cars != [] {
      KeepWantedCounts(cars[1..], f);
      assert cars == [cars[0]] + cars[1..];
      assert multiset(cars) == multiset{cars[0]} + multiset(cars[1..]);
    }
  }

  /**
   * The screen's filter, summed up: when it does not throw, a fetched car is
   * displayed iff it meets all three criteria, the order is kept and nothing
   * is duplicated.
   */
  lemma DisplayedCars(cars: seq<Listing>, f: Filters)
    requires FilterCars(cars, f).Some?
    ensures IsSubsequence(FilterCars(cars, f).value, cars)
    ensures forall c :: c in FilterCars(cars, f).value <==> c in cars && Wanted(c, f)
    ensures forall c :: multiset(FilterCars(cars, f).value)[c] == if Wanted(c, f) then multiset(cars)[c] else 0
  {
    FilterCarsIsKeepWanted(cars, f);
    KeepWantedSubsequence(cars, f);
    KeepWantedCounts(cars, f);
  }

  /** With no type and no feature tags selected, only the price range filters, and nothing throws. */
  lemma {:induction false} EmptyCriteriaPass(cars: seq<Listing>, f: Filters)
    requires !Truthy(f.carType) && f.featureTags == []
    ensures FilterCars(cars, f).Some?
    ensures forall c :: c in FilterCars(cars, f).value <==> c in cars && PriceMatch(c, f)
  {
    FilterCarsDefined(cars, f);
    DisplayedCars(cars, f);
  }

  /** Under the initial (or cleared) filters every fetched car priced from 0 to 500 is shown, and no other. */
  lemma {:induction false} DefaultFiltersShowAll(cars: seq<Listing>)
    ensures FilterCars(cars, DefaultFilters) == Some(cars) <==> forall i :: 0 <= i < |cars| ==> 0 <= cars[i].price <= 500
  {
    if cars != [] {
      var rest := cars[1..];
      DefaultFiltersShowAll(rest);
      EmptyCriteriaPass(rest, DefaultFilters);
      var tail := FilterCars(rest, DefaultFilters).value;
      var inRange := 0 <= cars[0].price <= 500;
      assert CarVerdict(cars[0], DefaultFilters) == Some(inRange);
      assert forall i :: 0 < i < |cars| ==> cars[i] == rest[i - 1];
      if inRange {
        assert FilterCars(cars, DefaultFilters) == Some([cars[0]] + tail);
        assert [cars[0]] + tail == cars <==> tail == rest;
      } else {
        assert FilterCars(cars, DefaultFilters) == Some(tail);
        FilterShorter(rest, DefaultFilters);
      }
    }
  }

  lemma {:induction false} FilterShorter(cars: seq<Listing>, f: Filters)
    ensures FilterCars(cars, f).Some? ==> |FilterCars(cars, f).value| <= |cars|
  {
    if cars != [] {
      FilterShorter(cars[1..], f);
    }
  }

  /** Feature tags match ignoring case: a car tagged "gps" at 100 is shown when "GPS" is selected. */
  lemma CaseInsensitiveFeatureExample()
    ensures var car := Listing("1", "Car", 100, PlaceholderImage, "", DefaultRating, [StrTag("gps")], TagsString(""));
      FilterCars([car], Filters(0, 500, None, ["GPS"])) == Some([car])
  {
    var car := Listing("1", "Car", 100, PlaceholderImage, "", DefaultRating, [StrTag("gps")], TagsString(""));
    var f := Filters(0, 500, None, ["GPS"]);
    NormalizeGps();
    assert FeaturesWanted(car, f) by {
      assert car.tags[0].StrTag? && Normalize(car.tags[0].text) == Normalize(f.featureTags[0]);
      assert HasFeature(car.tags, f.featureTags[0]);
    }
    assert Wanted(car, f);
    StringTagsNeverThrow(car, f);
    assert KeepWanted([car], f) == [car] by {
      assert KeepWanted([car][1..], f) == [];
    }
    FilterCarsDefined([car], f);
    FilterCarsIsKeepWanted([car], f);
  }

  /** Every selected feature is required: a car tagged only "GPS" is hidden when "GPS" and "Bluetooth" are selected. */
  lemma AllFeaturesRequiredExample()
    ensures var car := Listing("1", "Car", 100, PlaceholderImage, "", DefaultRating, [StrTag("GPS")], TagsString(""));
      FilterCars([car], Filters(0, 500, None, ["GPS", "Bluetooth"])) == Some([])
  {
    var car := Listing("1", "Car", 100, PlaceholderImage, "", DefaultRating, [StrTag("GPS")], TagsString(""));
    var f := Filters(0, 500, None, ["GPS", "Bluetooth"]);
    NormalizeGps();
    NormalizeBluetooth();
    assert !HasFeature(car.tags, f.featureTags[1]) by {
      assert |car.tags| == 1 && Normalize(car.tags[0].text) != Normalize(f.featureTags[1]);
    }
    assert !Wanted(car, f);
    StringTagsNeverThrow(car, f);
    FilterCarsDefined([car], f);
    FilterCarsIsKeepWanted([car], f);
    assert KeepWanted([car][1..], f) == [];
  }

  /** "GPS" and "gps" both normalise to "gps". */
  lemma NormalizeGps()
    ensures Normalize("gps") == "gps" && Normalize("GPS") == "gps"
  {
    LowerGps("gps");
    LowerGps("GPS");
  }

  lemma LowerGps(s: string)
    requires s == "gps" || s == "GPS"
    ensures Normalize(s) == "gps"
  {
    TrimUnpadded(s);
    var g := ToLower(s);
    assert g[0] == 'g' && g[1] == 'p' && g[2] == 's';
  }

  /** "Bluetooth" normalises to nine characters, so never to "gps". */
  lemma NormalizeBluetooth()
    ensures |Normalize("Bluetooth")| == 9
  {
    TrimUnpadded("Bluetooth");
  }

  /** A string without white space at either end is its own trim. */
  lemma TrimUnpadded(s: string)
    requires s != [] && !IsSpace(s[0]) && !IsSpace(s[|s| - 1])
    ensures Trim(s) == s
  {
  }

  // ---------------------------------------------------------------------
  // The filter badge
  // ---------------------------------------------------------------------

  /** The number in the "+N filters" badge. */
  function BadgeCount(f: Filters): nat {
    |f.featureTags| + (if Truthy(f.carType) then 1 else 0)
  }

  /** The badge is rendered when a tag or a type is selected. */
  predicate BadgeShown(f: Filters) {
    |f.featureTags| > 0 || Truthy(f.carType)
  }

  /** The badge appears exactly when its count is positive, and never under the initial filters. */
  lemma BadgeShownIffCounted(f: Filters)
    ensures BadgeShown(f) <==> BadgeCount(f) > 0
    ensures !BadgeShown(DefaultFilters)
  {
  }

  // ---------------------------------------------------------------------
  // The screen's state
  // ---------------------------------------------------------------------

  /** Text of the TypeError raised by reading `mappedData[0].tags` when no row came back. */
  const EmptyResultMessage := "Cannot read properties of undefined (reading 'tags')"

  function SearchFailed(message: string): string {
    "Search failed: " + message
  }

  class SearchScreen {
    var fetchedCars: seq<Listing>
    var isLoading: bool
    var error: Option<string>
    var isModalVisible: bool
    var minPriceFilter: int
    var maxPriceFilter: int
    var selectedCarType: Option<string>
    var selectedFeatureTags: seq<string>

    function CurrentFilters(): Filters
      reads this
    {
      Filters(minPriceFilter, maxPriceFilter, selectedCarType, selectedFeatureTags)
    }

    /** `getFilteredCars()` on the current state. */
    function Displayed(): Option<seq<Listing>>
      reads this
    {
      FilterCars(fetchedCars, CurrentFilters())
    }

    /** The screen as first rendered: loading, nothing fetched, initial filters. */
    constructor()
      ensures fetchedCars == [] && isLoading && error == None && !isModalVisible
      ensures CurrentFilters() == DefaultFilters
      ensures Displayed() == Some([])
    {
      fetchedCars := [];
      isLoading := true;
      error := None;
      isModalVisible := false;
      minPriceFilter := 0;
      maxPriceFilter := 500;
      selectedCarType := None;
      selectedFeatureTags := [];
    }

    /**
     * `fetchCarListings(query)`: issues the request for `query` to `backend`
     * and stores the mapped rows, or an error and an empty list. An empty
     * result is an error too, because the source then reads `mappedData[0]`.
     */
    method FetchCarListings(query: string, backend: Request -> Reply, decode: string -> Decoded, unknownLocation: string)
      modifies this
      ensures !isLoading
      ensures var reply := backend(RequestFor(query));
        && (reply.error.Some? ==>
              error == Some(SearchFailed(reply.error.value)) && fetchedCars == [])
        && (reply.error.None? && reply.data.GetOr([]) == [] ==>
              error == Some(SearchFailed(EmptyResultMessage)) && fetchedCars == [])
        && (reply.error.None? && reply.data.GetOr([]) != [] ==>
              error == None && fetchedCars == MapRows(reply.data.value, decode, unknownLocation))
      ensures error.Some? ==> fetchedCars == []
      ensures CurrentFilters() == old(CurrentFilters()) && isModalVisible == old(isModalVisible)
    {
      isLoading := true;
      error := None;
      var reply := backend(RequestFor(query));
      var data := reply.data.GetOr([]);
      if reply.error.Some? {
        error := Some(SearchFailed(reply.error.value));
        fetchedCars := [];
      } else {
        var mapped := MapRows(data, decode, unknownLocation);
        fetchedCars := mapped;
        if mapped == [] {
          error := Some(SearchFailed(EmptyResultMessage));
          fetchedCars := [];
        }
      }
      isLoading := false;
    }

    /** The filter button: shows the dialog. */
    method OpenFilters()
      modifies this`isModalVisible
      ensures isModalVisible
    {
      isModalVisible := true;
    }

    /** The dialog's `onClose`: hides it. */
    method CloseFilters()
      modifies this`isModalVisible
      ensures !isModalVisible
    {
      isModalVisible := false;
    }

    /** `handleApplyFilters`: replaces all four filter values and hides the dialog. */
    method ApplyFilters(min: int, max: int, carType: Option<string>, featureTags: seq<string>)
      modifies this
      ensures CurrentFilters() == Filters(min, max, carType, featureTags)
      ensures !isModalVisible
      ensures fetchedCars == old(fetchedCars) && error == old(error) && isLoading == old(isLoading)
      ensures Displayed() == FilterCars(fetchedCars, Filters(min, max, carType, featureTags))
    {
      minPriceFilter := min;
      maxPriceFilter := max;
      selectedCarType := carType;
      selectedFeatureTags := featureTags;
      isModalVisible := false;
    }

    /** The dialog's Apply button: `onApply` with the dialog's values, then `onClose`. */
    method ApplyFromDialog(dialog: FilterModal.FilterDialog)
      modifies this
      ensures var args := dialog.ApplyArgs();
        CurrentFilters() == Filters(args.minPrice, args.maxPrice, args.carType, args.featureTags)
      ensures !isModalVisible
      ensures fetchedCars == old(fetchedCars) && error == old(error) && isLoading == old(isLoading)
    {
      var args := dialog.Apply();
      ApplyFilters(args.minPrice, args.maxPrice, args.carType, args.featureTags);
      CloseFilters();
    }
  }

  /** Clear followed by Apply restores the initial filters, so every fetched car priced from 0 to 500 is shown. */
  method ClearThenApply(screen: SearchScreen, dialog: FilterModal.FilterDialog)
    modifies screen, dialog
    ensures screen.CurrentFilters() == DefaultFilters && !screen.isModalVisible
    ensures screen.fetchedCars == old(screen.fetchedCars)
    ensures (forall i :: 0 <= i < |screen.fetchedCars| ==> 0 <= screen.fetchedCars[i].price <= 500)
      ==> screen.Displayed() == Some(screen.fetchedCars)
  {
    dialog.Clear();
    screen.ApplyFromDialog(dialog);
    DefaultFiltersShowAll(screen.fetchedCars);
  }
}

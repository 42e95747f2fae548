/**
 * The filter dialog (components/FilterModal.tsx): local copies of the four
 * filter values, edited by the slider, the car-type buttons and the feature
 * tag buttons, and handed back to the screen by Apply.
 */
module FilterModal {
  import opened Wrappers
  import opened Seqs

  /** A JavaScript number as far as `isFinite` and `Math.floor` care. */
  datatype Num = Finite(value: real) | NonFinite

  /** The arguments `handleApply` passes to `onApply`. */
  datatype Applied = Applied(minPrice: int, maxPrice: int, carType: Option<string>, featureTags: seq<string>)

  /** The dialog's props that its local state follows. */
  datatype Props = Props(
    currentMinPrice: Num,
    currentMaxPrice: Num,
    currentSelectedCarType: Option<string>,
    currentSelectedTags: seq<string>)

  const MinPriceLimit := 0
  const MaxPriceLimit := 500
  const CarTypes: seq<string> := ["Sedan", "SUV", "Truck", "4x4"]
  const AvailableTags: seq<string> := [
    "GPS", "A/C", "Heated Seats", "Bluetooth", "Sunroof",
    "All-Wheel Drive", "All-Wheel Drive", "All-Wheel Drive", "All-Wheel Drive"]

  // ---------------------------------------------------------------------
  // The pure rules behind the handlers
  // ---------------------------------------------------------------------

  /** `tags.filter(t => t !== tag)`. */
  function RemoveAll(tags: seq<string>, tag: string): seq<string> {
    if tags == [] then []
    else (if tags[0] == tag then [] else [tags[0]]) + RemoveAll(tags[1..], tag)
  }

  /** Removing every copy of `tag` keeps every other tag, as often as before and in order. */
  lemma {:induction false} RemoveAllSpec(tags: seq<string>, tag: string)
    ensures tag !in RemoveAll(tags, tag)
    ensures forall t :: t != tag ==> multiset(RemoveAll(tags, tag))[t] == multiset(tags)[t]
    ensures IsSubsequence(RemoveAll(tags, tag), tags)
    ensures tag in tags ==> |RemoveAll(tags, tag)| < |tags|
  {
    if tags != [] {
      RemoveAllSpec(tags[1..], tag);
      assert tags == [tags[0]] + tags[1..];
      assert multiset(tags) == multiset{tags[0]} + multiset(tags[1..]);
      var r := RemoveAll(tags, tag);
      if tags[0] != tag {
        assert r[0] == tags[0] && r[1..] == RemoveAll(tags[1..], tag);
      } else {
        assert r == RemoveAll(tags[1..], tag);
      }
      RemoveAllShorter(tags[1..], tag);
    }
  }

  lemma {:induction false} RemoveAllShorter(tags: seq<string>, tag: string)
    ensures |RemoveAll(tags, tag)| <= |tags|
  {
    if tags != [] {
      RemoveAllShorter(tags[1..], tag);
    }
  }

  /** Removing a tag that is absent changes nothing. */
  lemma {:induction false} RemoveAllAbsent(tags: seq<string>, tag: string)
    requires tag !in tags
    ensures RemoveAll(tags, tag) == tags
  {
    if tags != [] {
      assert tags[0] != tag;
      RemoveAllAbsent(tags[1..], tag);
    }
  }

  lemma {:induction false} RemoveAllAppend(a: seq<string>, b: seq<string>, tag: string)
    ensures RemoveAll(a + b, tag) == RemoveAll(a, tag) + RemoveAll(b, tag)
  {
    if a == [] {
      assert a + b == b;
    } else {
      assert (a + b)[0] == a[0] && (a + b)[1..] == a[1..] + b;
      RemoveAllAppend(a[1..], b, tag);
    }
  }

  /** `toggleTag`'s new list: every copy removed when present, appended at the end when absent. */
  function Toggled(tags: seq<string>, tag: string): seq<string> {
    if tag in tags then RemoveAll(tags, tag) else tags + [tag]
  }

  /**
   * Toggling flips the membership of `tag` and of nothing else; a present tag
   * leaves the rest in order, an absent one is appended.
   */
  lemma ToggledSpec(tags: seq<string>, tag: string)
    ensures tag in Toggled(tags, tag) <==> tag !in tags
    ensures forall t :: t != tag ==> (t in Toggled(tags, tag) <==> t in tags)
    ensures tag in tags ==> IsSubsequence(Toggled(tags, tag), tags)
    ensures tag !in tags ==> Toggled(tags, tag) == tags + [tag]
  {
    RemoveAllSpec(tags, tag);
    if tag in tags {
      forall t | t != tag
        ensures t in Toggled(tags, tag) <==> t in tags
      {
        assert multiset(Toggled(tags, tag))[t] == multiset(tags)[t];
      }
    }
  }

  /** Toggling an absent tag twice gives back the original list. */
  lemma ToggleAbsentTwice(tags: seq<string>, tag: string)
    requires tag !in tags
    ensures Toggled(Toggled(tags, tag), tag) == tags
  {
    RemoveAllAppend(tags, [tag], tag);
    RemoveAllAbsent(tags, tag);
  }

  /** A car-type button press: the selected type again clears it, any other selects it. */
  function PressedCarType(selected: Option<string>, pressed: string): (r: Option<string>)
    ensures r == Some(pressed) <==> selected != Some(pressed)
    ensures r.None? <==> selected == Some(pressed)
  {
    if selected == Some(pressed) then None else Some(pressed)
  }

  /** The price handed to `onApply`: rounded down, or the limit when not finite. */
  function FinalPrice(n: Num, fallback: int): (r: int)
    ensures n.Finite? ==> r as real <= n.value < r as real + 1.0
    ensures n.NonFinite? ==> r == fallback
  {
    if n.Finite? then n.value.Floor else fallback
  }

  /** Pressing one car-type button leaves every other car-type button unselected. */
  lemma CarTypeButtonsExclusive(selected: Option<string>, k: nat)
    requires k < |CarTypes|
    ensures forall j :: 0 <= j < |CarTypes| && j != k ==> PressedCarType(selected, CarTypes[k]) != Some(CarTypes[j])
  {
    assert forall i, j :: 0 <= i < j < |CarTypes| ==> CarTypes[i] != CarTypes[j];
  }

  /** Every option button bearing the toggled tag's text flips; the duplicated entries share one state. */
  lemma ToggleFlipsEveryCopy(tags: seq<string>, k: nat)
    requires k < |AvailableTags|
    ensures forall i :: 0 <= i < |AvailableTags| && AvailableTags[i] == AvailableTags[k] ==>
      ((AvailableTags[i] in Toggled(tags, AvailableTags[k])) <==> AvailableTags[i] !in tags)
    ensures forall i :: 0 <= i < |AvailableTags| && AvailableTags[i] != AvailableTags[k] ==>
      ((AvailableTags[i] in Toggled(tags, AvailableTags[k])) <==> AvailableTags[i] in tags)
  {
    ToggledSpec(tags, AvailableTags[k]);
  }

  // ---------------------------------------------------------------------
  // The dialog's state
  // ---------------------------------------------------------------------

  class FilterDialog {
    var minPrice: Num
    var maxPrice: Num
    var selectedCarType: Option<string>
    var selectedTags: seq<string>

    /** Local state starts as a copy of the incoming values. */
    constructor(props: Props)
      ensures minPrice == props.currentMinPrice && maxPrice == props.currentMaxPrice
      ensures selectedCarType == props.currentSelectedCarType && selectedTags == props.currentSelectedTags
    {
      minPrice := props.currentMinPrice;
      maxPrice := props.currentMaxPrice;
      selectedCarType := props.currentSelectedCarType;
      selectedTags := props.currentSelectedTags;
    }

    /** The effect run when the dialog opens or the incoming values change: local state is reset to them. */
    method SyncFromProps(props: Props)
      modifies this
      ensures minPrice == props.currentMinPrice && maxPrice == props.currentMaxPrice
      ensures selectedCarType == props.currentSelectedCarType && selectedTags == props.currentSelectedTags
    {
      minPrice := props.currentMinPrice;
      maxPrice := props.currentMaxPrice;
      selectedCarType := props.currentSelectedCarType;
      selectedTags := props.currentSelectedTags;
    }

    /** `handleSliderChange`: only a pair of values moves the range. */
    method SliderChange(values: seq<Num>)
      modifies this`minPrice, this`maxPrice
      ensures |values| == 2 ==> minPrice == values[0] && maxPrice == values[1]
      ensures |values| != 2 ==> minPrice == old(minPrice) && maxPrice == old(maxPrice)
    {
      if |values| == 2 {
        minPrice := values[0];
        maxPrice := values[1];
      }
    }

    /** `toggleTag`: flips the membership of `tag` and of no other tag. */
    method ToggleTag(tag: string)
      modifies this`selectedTags
      ensures selectedTags == Toggled(old(selectedTags), tag)
      ensures tag in selectedTags <==> tag !in old(selectedTags)
      ensures forall t :: t != tag ==> (t in selectedTags <==> t in old(selectedTags))
      ensures TagSelected(tag) <==> !old(TagSelected(tag))
    {
      ToggledSpec(selectedTags, tag);
      selectedTags := Toggled(selectedTags, tag);
    }

    /** A car-type button. */
    method PressCarType(carType: string)
      modifies this`selectedCarType
      ensures selectedCarType == PressedCarType(old(selectedCarType), carType)
      ensures CarTypeSelected(carType) <==> !old(CarTypeSelected(carType))
      ensures forall t :: t != carType ==> !CarTypeSelected(t)
    {
      selectedCarType := PressedCarType(selectedCarType, carType);
    }

    /** `handleClear`: the initial values; the screen is not told. */
    method Clear()
      modifies this
      ensures minPrice == Finite(MinPriceLimit as real) && maxPrice == Finite(MaxPriceLimit as real)
      ensures selectedCarType == None && selectedTags == []
      ensures ApplyArgs() == Applied(MinPriceLimit, MaxPriceLimit, None, [])
    {
      minPrice := Finite(MinPriceLimit as real);
      maxPrice := Finite(MaxPriceLimit as real);
      selectedCarType := None;
      selectedTags := [];
    }

    /** The values `handleApply` hands to `onApply`. */
    function ApplyArgs(): Applied
      reads this
    {
      Applied(FinalPrice(minPrice, MinPriceLimit), FinalPrice(maxPrice, MaxPriceLimit), selectedCarType, selectedTags)
    }

    /**
     * `handleApply`: floors both prices (0 and 500 when not finite) and passes
     * them with the current type and tags; the caller then runs `onClose`.
     */
    method Apply() returns (args: Applied)
      ensures args == ApplyArgs()
      ensures minPrice.Finite? ==> args.minPrice as real <= minPrice.value < args.minPrice as real + 1.0
      ensures minPrice.NonFinite? ==> args.minPrice == MinPriceLimit
      ensures maxPrice.Finite? ==> args.maxPrice as real <= maxPrice.value < args.maxPrice as real + 1.0
      ensures maxPrice.NonFinite? ==> args.maxPrice == MaxPriceLimit
      ensures args.carType == selectedCarType && args.featureTags == selectedTags
    {
      var finalMin := FinalPrice(minPrice, MinPriceLimit);
      var finalMax := FinalPrice(maxPrice, MaxPriceLimit);
      args := Applied(finalMin, finalMax, selectedCarType, selectedTags);
    }

    /** Whether a feature tag's button shows as selected. */
    predicate TagSelected(tag: string)
      reads this
    {
      tag in selectedTags
    }

    /** Whether a car-type button shows as selected. */
    predicate CarTypeSelected(carType: string)
      reads this
    {
      selectedCarType == Some(carType)
    }
  }
}

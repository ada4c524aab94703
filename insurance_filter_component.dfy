/**
  The filter panel (src/components/InsuranceFilterComponent.js): three lists of selected
  category values, a premium and a deductible range, and two flags. Every handler is a
  functional update of the previous filters; "Apply" hands the current filters to the page.
 */
module InsuranceFilterComponent {
  import opened JsBuiltins

  /** A `[low, high]` pair of a slider; the text boxes beside it can put NaN in either end. */
  datatype Range = Range(low: Number, high: Number)

  datatype Filters = Filters(
    metalLevels: seq<string>,
    planTypes: seq<string>,
    issuers: seq<string>,
    premium: Range,
    deductible: Range,
    hsaEligible: bool,
    hasNationalNetwork: bool)

  /** The four bound props; a missing prop takes its default (0, 2000, 0, 10000). */
  datatype Bounds = Bounds(minPremium: Number, maxPremium: Number, minDeductible: Number, maxDeductible: Number)

  const DefaultBounds := Bounds(Finite(0), Finite(2000), Finite(0), Finite(10000))

  /** The state the panel starts in: nothing selected, flags off, ranges equal to the bounds. */
  function InitialFilters(b: Bounds): (f: Filters)
    ensures f.metalLevels == [] && f.planTypes == [] && f.issuers == []
    ensures !f.hsaEligible && !f.hasNationalNetwork
    ensures f.premium == Range(b.minPremium, b.maxPremium)
    ensures f.deductible == Range(b.minDeductible, b.maxDeductible)
  {
    Filters([], [], [], Range(b.minPremium, b.maxPremium), Range(b.minDeductible, b.maxDeductible), false, false)
  }

  // ---------------------------------------------------------------- toggles

  datatype Category = MetalLevels | PlanTypes | Issuers

  function Selected(f: Filters, c: Category): seq<string> {
    match c
    case MetalLevels => f.metalLevels
    case PlanTypes => f.planTypes
    case Issuers => f.issuers
  }

  /** `{...prevFilters, [category]: list}`. */
  function WithSelected(f: Filters, c: Category, list: seq<string>): (r: Filters)
    ensures Selected(r, c) == list
    ensures forall d :: d != c ==> Selected(r, d) == Selected(f, d)
    ensures r.premium == f.premium && r.deductible == f.deductible
    ensures r.hsaEligible == f.hsaEligible && r.hasNationalNetwork == f.hasNationalNetwork
  {
    match c
    case MetalLevels => f.(metalLevels := list)
    case PlanTypes => f.(planTypes := list)
    case Issuers => f.(issuers := list)
  }

  /** `list.filter(item => item !== value)`. */
  function RemoveAll(list: seq<string>, value: string): (r: seq<string>)
    ensures forall x :: x in r <==> x in list && x != value
    ensures |r| <= |list|
  {
    if list == [] then []
    else if list[0] == value then RemoveAll(list[1..], value)
    else [list[0]] + RemoveAll(list[1..], value)
  }

  /** Removing a value that is not there keeps the list as it is. */
  lemma {:induction false} RemoveAbsent(list: seq<string>, value: string)
    requires value !in list
    ensures RemoveAll(list, value) == list
  {
    if list != [] {
      assert list[0] != value;
      RemoveAbsent(list[1..], value);
    }
  }

  /** Filtering keeps the relative order, so it keeps a list free of duplicates. */
  lemma {:induction false} RemoveAllNoDuplicates(list: seq<string>, value: string)
    requires NoDuplicates(list)
    ensures NoDuplicates(RemoveAll(list, value))
  {
    if list != [] {
      var rest := list[1..];
      assert NoDuplicates(rest) by {
        forall i, j | 0 <= i < j < |rest| ensures rest[i] != rest[j] {
          assert rest[i] == list[i + 1] && rest[j] == list[j + 1];
        }
      }
      RemoveAllNoDuplicates(rest, value);
      if list[0] != value {
        var tail := RemoveAll(rest, value);
        assert list[0] !in rest by {
          forall k | 0 <= k < |rest| ensures rest[k] != list[0] {
            assert rest[k] == list[k + 1];
          }
        }
        assert list[0] !in tail;
        var r := [list[0]] + tail;
        forall i, j | 0 <= i < j < |r| ensures r[i] != r[j] {
          if i == 0 {
            assert r[j] == tail[j - 1];
          } else {
            assert r[i] == tail[i - 1] && r[j] == tail[j - 1];
          }
        }
      }
    }
  }

  /** The `includes`-then-`filter`-or-append step of `handleCheckboxChange`. */
  function Toggle(list: seq<string>, value: string): (r: seq<string>)
    ensures value in r <==> value !in list
    ensures forall x :: x != value ==> (x in r <==> x in list)
    ensures value !in list ==> r == list + [value]
    ensures value in list ==> r == RemoveAll(list, value)
  {
    if value in list then RemoveAll(list, value) else list + [value]
  }

  /** Toggling a value that was not selected, twice, gives back the same list. */
  lemma ToggleTwiceRestores(list: seq<string>, value: string)
    requires value !in list
    ensures Toggle(Toggle(list, value), value) == list
  {
    var once := list + [value];
    RemoveAbsent(list, value);
    assert RemoveAll(once, value) == list by {
      RemoveAllAppend(list, [value], value);
    }
  }

  lemma {:induction false} RemoveAllAppend(a: seq<string>, b: seq<string>, value: string)
    ensures RemoveAll(a + b, value) == RemoveAll(a, value) + RemoveAll(b, value)
  {
    if a != [] {
      assert (a + b)[1..] == a[1..] + b;
      RemoveAllAppend(a[1..], b, value);
    } else {
      assert a + b == b;
    }
  }

  /** A selection list without duplicates stays without duplicates. */
  lemma ToggleKeepsNoDuplicates(list: seq<string>, value: string)
    requires NoDuplicates(list)
    ensures NoDuplicates(Toggle(list, value))
  {
    if value in list {
      RemoveAllNoDuplicates(list, value);
    } else {
      var r := list + [value];
      forall i, j | 0 <= i < j < |r| ensures r[i] != r[j] {
        if j == |list| {
          assert r[i] == list[i];
        } else {
          assert r[i] == list[i] && r[j] == list[j];
        }
      }
    }
  }

  /** `handleCheckboxChange(category, value)`: the category's list is toggled, nothing else changes. */
  function HandleCheckboxChange(f: Filters, c: Category, value: string): (r: Filters)
    ensures Selected(r, c) == Toggle(Selected(f, c), value)
    ensures value in Selected(r, c) <==> value !in Selected(f, c)
    ensures forall x :: x != value ==> (x in Selected(r, c) <==> x in Selected(f, c))
    ensures forall d :: d != c ==> Selected(r, d) == Selected(f, d)
    ensures r.premium == f.premium && r.deductible == f.deductible
    ensures r.hsaEligible == f.hsaEligible && r.hasNationalNetwork == f.hasNationalNetwork
  {
    WithSelected(f, c, Toggle(Selected(f, c), value))
  }

  // ------------------------------------------------------- sliders and flags

  datatype RangeName = Premium | Deductible

  /** `handleSliderChange(name, value)`: only the named range changes. */
  function HandleSliderChange(f: Filters, name: RangeName, value: Range): (r: Filters)
    ensures name == Premium ==> r == f.(premium := value)
    ensures name == Deductible ==> r == f.(deductible := value)
  {
    match name
    case Premium => f.(premium := value)
    case Deductible => f.(deductible := value)
  }

  function RangeOf(f: Filters, name: RangeName): Range {
    match name
    case Premium => f.premium
    case Deductible => f.deductible
  }

  /**
    The text box at one end of a range: `parseInt` of what was typed replaces that end and
    keeps the other.
   */
  function HandleBoundTyped(f: Filters, name: RangeName, lowEnd: bool, typed: string): (r: Filters)
    ensures lowEnd ==> RangeOf(r, name) == Range(ParseInt(typed), RangeOf(f, name).high)
    ensures !lowEnd ==> RangeOf(r, name) == Range(RangeOf(f, name).low, ParseInt(typed))
  {
    var current := RangeOf(f, name);
    HandleSliderChange(f, name, if lowEnd then Range(ParseInt(typed), current.high) else Range(current.low, ParseInt(typed)))
  }

  datatype FlagName = HsaEligible | HasNationalNetwork

  /** `handleBooleanChange(name, event)`: only the named flag changes, to the box's `checked`. */
  function HandleBooleanChange(f: Filters, name: FlagName, checked: bool): (r: Filters)
    ensures name == HsaEligible ==> r == f.(hsaEligible := checked)
    ensures name == HasNationalNetwork ==> r == f.(hasNationalNetwork := checked)
  {
    match name
    case HsaEligible => f.(hsaEligible := checked)
    case HasNationalNetwork => f.(hasNationalNetwork := checked)
  }

  // ------------------------------------------------------------ bound reset

  /** The effect run when a bound prop changes: both ranges back to the bounds. */
  function ResetBounds(f: Filters, b: Bounds): (r: Filters)
    ensures r.premium == Range(b.minPremium, b.maxPremium)
    ensures r.deductible == Range(b.minDeductible, b.maxDeductible)
    ensures r.metalLevels == f.metalLevels && r.planTypes == f.planTypes && r.issuers == f.issuers
    ensures r.hsaEligible == f.hsaEligible && r.hasNationalNetwork == f.hasNationalNetwork
  {
    f.(premium := Range(b.minPremium, b.maxPremium), deductible := Range(b.minDeductible, b.maxDeductible))
  }

  /** Whatever the sliders did before, a reset leaves the same filters as resetting without them. */
  lemma ResetForgetsSliders(f: Filters, name: RangeName, value: Range, b: Bounds)
    ensures ResetBounds(HandleSliderChange(f, name, value), b) == ResetBounds(f, b)
  {
  }

  /** Resetting the initial filters to new bounds gives the initial filters for those bounds. */
  lemma ResetInitial(b0: Bounds, b: Bounds)
    ensures ResetBounds(InitialFilters(b0), b) == InitialFilters(b)
  {
  }
}

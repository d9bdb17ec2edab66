/**
 * The "Create Tour" form (src/app/tours/TourForm.tsx): a form record with
 * an itinerary of per-day plans that is kept in step with the tour's type
 * and number of days, list editors for what is included and excluded, and
 * the submit handler's state changes.
 *
 * Each `setForm(prev => ...)` updater is a function from the previous form
 * to the next; the component's state (the form, `loading`, `error` and the
 * two item text boxes) is the class TourFormComponent, whose methods apply
 * those updaters.
 */
module TourForm {
  import opened Wrappers
  import opened Js
  import opened TourSubmit

  /** One day of a multi-day itinerary. */
  datatype Plan = Plan(day: int, title: string, description: string, included: seq<string>)

  /** The form record. `tourType` is the field the source calls `type`. */
  datatype Tour = Tour(
    title: string,
    description: string,
    location: string,
    days: int,
    price: int,
    tourType: string,
    category: string,
    included: seq<string>,
    excluded: seq<string>,
    tourPlans: seq<Plan>)

  /** The form's initial value, which a successful submit restores. */
  const EmptyTour := Tour("", "", "", 1, 0, "single", "adventure", [], [], [])

  /** A change event from an input named `name` carrying the text `value`;
      `numeric` stands for `Number(value)`. */
  datatype ChangeEvent = ChangeEvent(name: string, value: string, numeric: int)

  /** The fields other than the itinerary (`tourType`, `days`, `tourPlans`) agree. */
  ghost predicate SameOutsideItinerary(a: Tour, b: Tour) {
    && a.title == b.title && a.description == b.description && a.location == b.location
    && a.price == b.price && a.category == b.category
    && a.included == b.included && a.excluded == b.excluded
  }

  /** The itinerary invariant: a multi-day tour has one plan per day, plan `i`
      being day `i + 1`; any other tour has no plans. */
  ghost predicate ItineraryInStep(t: Tour) {
    && (t.tourType == "multi" ==>
          |t.tourPlans| == t.days && forall i :: 0 <= i < |t.tourPlans| ==> t.tourPlans[i].day == i + 1)
    && (t.tourType != "multi" ==> t.tourPlans == [])
  }

  // ---------------------------------------------------------------------
  // Generated plans
  // ---------------------------------------------------------------------

  /** The placeholder plan for index `i`: day `i + 1`, titled "Day <i + 1>". */
  function DefaultPlan(i: nat): Plan {
    Plan(i + 1, "Day " + NatToString(i + 1), "", [])
  }

  /** The placeholder plans for indices `from` up to `to - 1`, in order. */
  function DefaultPlans(from: nat, to: int): (r: seq<Plan>)
    ensures |r| == (if to <= from then 0 else to - from)
    ensures forall k :: 0 <= k < |r| ==> r[k] == DefaultPlan(from + k)
    decreases if to <= from then 0 else to - from
  {
    if to <= from then [] else DefaultPlans(from, to - 1) + [DefaultPlan(to - 1)]
  }

  /** `plans.findIndex(p => p.day === day)`, as an optional index. */
  function FirstIndexOfDay(plans: seq<Plan>, day: int): (r: Option<nat>)
    ensures r.None? ==> forall k :: 0 <= k < |plans| ==> plans[k].day != day
    ensures r.Some? ==> r.value < |plans| && plans[r.value].day == day
    ensures r.Some? ==> forall k :: 0 <= k < r.value ==> plans[k].day != day
  {
    if plans == [] then None
    else if plans[0].day == day then Some(0)
    else match FirstIndexOfDay(plans[1..], day)
      case None => None
      case Some(k) => Some(k + 1)
  }

  /** `prev.tourPlans.find(p => p.day === i + 1) || <placeholder for i>`. */
  function PlanForDay(plans: seq<Plan>, i: nat): Plan {
    match FirstIndexOfDay(plans, i + 1)
    case Some(k) => plans[k]
    case None => DefaultPlan(i)
  }

  /** `Array.from({ length: n }, (_, i) => PlanForDay(plans, i))`. */
  function MultiDayPlans(plans: seq<Plan>, n: nat): seq<Plan> {
    seq(n, i requires 0 <= i < n => PlanForDay(plans, i))
  }

  function Max(a: int, b: int): int {
    if a < b then b else a
  }

  // ---------------------------------------------------------------------
  // handleChange
  // ---------------------------------------------------------------------

  /** The `type` branch of handleChange. */
  function ChangeType(prev: Tour, value: string): Tour {
    var newDays: nat := if value == "single" then 1 else Max(prev.days, 2);
    var plans := if value == "multi" then MultiDayPlans(prev.tourPlans, newDays) else [];
    prev.(tourType := value, days := newDays, tourPlans := plans)
  }

  /** The `days` branch of handleChange: grow with placeholders, or cut back
      with `slice(0, newDays)`, but only for a multi-day tour. */
  function ChangeDays(prev: Tour, newDays: int): Tour {
    var plans := prev.tourPlans;
    var next :=
      if prev.tourType != "multi" then plans
      else if newDays > |plans| then plans + DefaultPlans(|plans|, newDays)
      else if newDays < |plans| then SliceTo(plans, newDays)
      else plans;
    prev.(days := newDays, tourPlans := next)
  }

  /** The last branch of handleChange: `[name]: name === "price" ? Number(value) : value`
      for the inputs the form has (the editor's update sets `description` the same way). */
  function ChangeField(prev: Tour, name: string, value: string, numeric: int): Tour {
    if name == "price" then prev.(price := numeric)
    else if name == "title" then prev.(title := value)
    else if name == "location" then prev.(location := value)
    else if name == "category" then prev.(category := value)
    else if name == "description" then prev.(description := value)
    else prev
  }

  /** handleChange's updater. */
  function ApplyChange(prev: Tour, ev: ChangeEvent): Tour {
    if ev.name == "type" then ChangeType(prev, ev.value)
    else if ev.name == "days" then ChangeDays(prev, ev.numeric)
    else ChangeField(prev, ev.name, ev.value, ev.numeric)
  }

  /** The loop of the `days` branch: push a placeholder plan for every index
      from the current length up to `newDays - 1`. */
  method AppendDefaultPlans(plans: seq<Plan>, newDays: int) returns (grown: seq<Plan>)
    ensures grown == plans + DefaultPlans(|plans|, newDays)
    ensures |grown| == Max(|plans|, newDays)
    ensures forall i :: |plans| <= i < |grown| ==> grown[i].day == i + 1
  {
    grown := plans;
    var i := |plans|;
    while i < newDays
      invariant |plans| <= i && (i <= newDays || i == |plans|)
      invariant grown == plans + DefaultPlans(|plans|, i)
      decreases newDays - i
    {
      grown := grown + [DefaultPlan(i)];
      i := i + 1;
    }
  }

  // ---------------------------------------------------------------------
  // List editors
  // ---------------------------------------------------------------------

  /** addIncluded / addExcluded: the list and the text box after the click. */
  function AddItem(items: seq<string>, input: string): (r: (seq<string>, string))
    ensures var t := Trim(input);
      && (t != [] ==> r.0 == items + [t] && r.1 == [])
      && (t == [] ==> r.0 == items && r.1 == input)
  {
    var t := Trim(input);
    if t != [] then (items + [t], []) else (items, input)
  }

  /** What a click on "Add" appends has no white space at either end, and
      nothing happens exactly when the text box holds only white space. */
  lemma AddItemTrims(items: seq<string>, input: string)
    ensures |AddItem(items, input).0| == |items| <==> AllWhiteSpace(input)
    ensures |AddItem(items, input).0| != |items| ==>
      var x := AddItem(items, input).0[|items|];
      x != "" && !IsWhiteSpace(x[0]) && !IsWhiteSpace(x[|x| - 1])
  {
    TrimEmptyIff(input);
    TrimHasNoBlankEnds(input);
  }

  /** `s.filter((_, i) => i !== index)`. */
  function RemoveAt<T>(s: seq<T>, index: int): seq<T> {
    if s == [] then []
    else RemoveAt(s[..|s| - 1], index) + (if |s| - 1 == index then [] else [s[|s| - 1]])
  }

  /** Removing deletes exactly the element at `index` and keeps the rest in
      order; an index outside the list removes nothing. */
  lemma {:induction false} RemoveAtDeletesOne<T>(s: seq<T>, index: int)
    ensures 0 <= index < |s| ==> RemoveAt(s, index) == s[..index] + s[index + 1..]
    ensures !(0 <= index < |s|) ==> RemoveAt(s, index) == s
  {
    if s != [] {
      var n := |s| - 1;
      var init := s[..n];
      RemoveAtDeletesOne(init, index);
      if index == n {
        assert init == s[..index];
        assert s[index + 1..] == [];
      } else if 0 <= index < n {
        assert init[..index] == s[..index];
        assert init[index + 1..] + [s[n]] == s[index + 1..];
      } else {
        assert init + [s[n]] == s;
      }
    }
  }

  /** removeIncluded's updater. */
  function RemoveIncluded(prev: Tour, index: int): Tour {
    prev.(included := RemoveAt(prev.included, index))
  }

  /** removeExcluded's updater. */
  function RemoveExcluded(prev: Tour, index: int): Tour {
    prev.(excluded := RemoveAt(prev.excluded, index))
  }

  // ---------------------------------------------------------------------
  // Plan editors
  // ---------------------------------------------------------------------

  /** The field argument of updateTourPlan. */
  datatype PlanField = TitleField | DescriptionField

  /** What one of the plan editors does to the plan it targets. */
  datatype PlanEdit =
    | SetText(field: PlanField, text: string)
    | AppendPlanItem(item: string)
    | RemovePlanItem(itemIndex: int)

  function ApplyEdit(plan: Plan, edit: PlanEdit): (r: Plan)
    ensures r.day == plan.day
  {
    match edit
    case SetText(TitleField, text) => plan.(title := text)
    case SetText(DescriptionField, text) => plan.(description := text)
    case AppendPlanItem(item) => plan.(included := plan.included + [item])
    case RemovePlanItem(k) => plan.(included := RemoveAt(plan.included, k))
  }

  /** `plans.map((plan, index) => index === dayIndex ? <edited plan> : plan)`. */
  function EditPlanAt(plans: seq<Plan>, dayIndex: int, edit: PlanEdit): (r: seq<Plan>)
    ensures |r| == |plans|
    ensures forall i :: 0 <= i < |r| && i != dayIndex ==> r[i] == plans[i]
    ensures 0 <= dayIndex < |r| ==> r[dayIndex] == ApplyEdit(plans[dayIndex], edit)
  {
    if plans == [] then []
    else
      var n := |plans| - 1;
      EditPlanAt(plans[..n], dayIndex, edit) + [if n == dayIndex then ApplyEdit(plans[n], edit) else plans[n]]
  }

  /** updateTourPlan's updater. */
  function UpdateTourPlan(prev: Tour, dayIndex: int, field: PlanField, value: string): Tour {
    prev.(tourPlans := EditPlanAt(prev.tourPlans, dayIndex, SetText(field, value)))
  }

  /** addTourPlanIncluded: nothing happens unless the trimmed item is non-empty. */
  function AddTourPlanIncluded(prev: Tour, dayIndex: int, item: string): Tour {
    if Trim(item) != "" then prev.(tourPlans := EditPlanAt(prev.tourPlans, dayIndex, AppendPlanItem(Trim(item))))
    else prev
  }

  /** removeTourPlanIncluded's updater. */
  function RemoveTourPlanIncluded(prev: Tour, dayIndex: int, itemIndex: int): Tour {
    prev.(tourPlans := EditPlanAt(prev.tourPlans, dayIndex, RemovePlanItem(itemIndex)))
  }

  // ---------------------------------------------------------------------
  // Properties of handleChange
  // ---------------------------------------------------------------------

  /** Choosing "single" makes a one-day tour with no plans; nothing else changes. */
  lemma ChangeTypeToSingle(prev: Tour)
    ensures ChangeType(prev, "single") == prev.(tourType := "single", days := 1, tourPlans := [])
  {
  }

  /** Choosing "multi" gives at least two days, one plan per day, plan `i` being day `i + 1`,
      every plan within the new day range; nothing outside the itinerary changes. */
  lemma ChangeTypeToMulti(prev: Tour)
    ensures var r := ChangeType(prev, "multi");
      && r.tourType == "multi" && r.days == Max(prev.days, 2) >= 2
      && |r.tourPlans| == r.days
      && (forall i :: 0 <= i < |r.tourPlans| ==> r.tourPlans[i].day == i + 1)
      && (forall p :: p in r.tourPlans ==> 1 <= p.day <= r.days)
      && SameOutsideItinerary(prev, r)
  {
    var r := ChangeType(prev, "multi");
    forall i | 0 <= i < |r.tourPlans| ensures r.tourPlans[i].day == i + 1 {
      assert r.tourPlans[i] == PlanForDay(prev.tourPlans, i);
    }
  }

  /** Switching to "multi" reuses, for each day, the first existing plan for that day, unchanged. */
  lemma MultiDayReusesFirstMatch(plans: seq<Plan>, n: nat, i: nat, k: nat)
    requires i < n && k < |plans| && plans[k].day == i + 1
    requires forall j :: 0 <= j < k ==> plans[j].day != i + 1
    ensures MultiDayPlans(plans, n)[i] == plans[k]
  {
  }

  /** A day without an existing plan gets the placeholder "Day <i + 1>" with no description and no items. */
  lemma MultiDayFillsMissing(plans: seq<Plan>, n: nat, i: nat)
    requires i < n
    requires forall j :: 0 <= j < |plans| ==> plans[j].day != i + 1
    ensures MultiDayPlans(plans, n)[i] == Plan(i + 1, "Day " + NatToString(i + 1), "", [])
  {
  }

  /** Changing the day count of a multi-day tour: the plan count follows it,
      the kept prefix is untouched and new days get placeholders. */
  lemma ChangeDaysOfMultiDayTour(prev: Tour, newDays: int)
    requires prev.tourType == "multi" && newDays >= 0
    ensures var r := ChangeDays(prev, newDays);
      && r == prev.(days := newDays, tourPlans := r.tourPlans)
      && |r.tourPlans| == newDays
      && (forall i :: 0 <= i < newDays && i < |prev.tourPlans| ==> r.tourPlans[i] == prev.tourPlans[i])
      && (forall i :: |prev.tourPlans| <= i < newDays ==> r.tourPlans[i] == DefaultPlan(i))
  {
    var p := prev.tourPlans;
    var r := ChangeDays(prev, newDays);
    if newDays > |p| {
      assert r.tourPlans == p + DefaultPlans(|p|, newDays);
      forall i | |p| <= i < newDays ensures r.tourPlans[i] == DefaultPlan(i) {
        assert r.tourPlans[i] == DefaultPlans(|p|, newDays)[i - |p|];
      }
    }
  }

  /** Changing the day count of a tour that is not multi-day leaves its plans alone. */
  lemma ChangeDaysOfOtherTour(prev: Tour, newDays: int)
    requires prev.tourType != "multi"
    ensures ChangeDays(prev, newDays) == prev.(days := newDays)
  {
  }

  /** A negative day count (an input the number box lets through) cuts plans
      from the end, as `slice(0, negative)` does, so the count no longer matches. */
  lemma ChangeDaysNegative(prev: Tour, newDays: int)
    requires prev.tourType == "multi" && newDays < 0
    ensures |ChangeDays(prev, newDays).tourPlans| == Max(|prev.tourPlans| + newDays, 0)
    ensures ChangeDays(prev, newDays).days == newDays
  {
  }

  /** A change of type always leaves the itinerary in step, whatever it was before. */
  lemma ChangeTypeKeepsItinerary(prev: Tour, value: string)
    ensures ItineraryInStep(ChangeType(prev, value))
  {
    if value == "multi" {
      ChangeTypeToMulti(prev);
    }
  }

  /** A non-negative change of the day count keeps the itinerary in step. */
  lemma ChangeDaysKeepsItinerary(prev: Tour, newDays: int)
    requires ItineraryInStep(prev) && newDays >= 0
    ensures ItineraryInStep(ChangeDays(prev, newDays))
  {
    if prev.tourType == "multi" {
      ChangeDaysOfMultiDayTour(prev, newDays);
      var r := ChangeDays(prev, newDays);
      forall i | 0 <= i < |r.tourPlans| ensures r.tourPlans[i].day == i + 1 {
        if i >= |prev.tourPlans| {
          assert r.tourPlans[i] == DefaultPlan(i);
        }
      }
    }
  }

  /** Every handleChange event except a negative day count keeps the itinerary invariant. */
  lemma ApplyChangeKeepsItinerary(prev: Tour, ev: ChangeEvent)
    requires ItineraryInStep(prev)
    requires ev.name == "days" ==> ev.numeric >= 0
    ensures ItineraryInStep(ApplyChange(prev, ev))
  {
    if ev.name == "type" {
      ChangeTypeKeepsItinerary(prev, ev.value);
    } else if ev.name == "days" {
      ChangeDaysKeepsItinerary(prev, ev.numeric);
    }
  }

  /** The plan editors change only the plan at `dayIndex` and never its day,
      so they keep the itinerary invariant. */
  lemma {:induction false} EditPlanAtKeepsItinerary(prev: Tour, dayIndex: int, edit: PlanEdit)
    requires ItineraryInStep(prev)
    ensures ItineraryInStep(prev.(tourPlans := EditPlanAt(prev.tourPlans, dayIndex, edit)))
  {
    var r := EditPlanAt(prev.tourPlans, dayIndex, edit);
    if prev.tourType == "multi" {
      forall i | 0 <= i < |r| ensures r[i].day == i + 1 {
        if i == dayIndex {
          assert r[i] == ApplyEdit(prev.tourPlans[i], edit);
        }
      }
    } else {
      assert |r| == 0;
    }
  }

  /** updateTourPlan sets the named field of the plan at `dayIndex` and nothing else;
      an index outside the itinerary changes nothing. */
  lemma UpdateTourPlanChangesOneField(prev: Tour, dayIndex: int, field: PlanField, value: string)
    ensures var r := UpdateTourPlan(prev, dayIndex, field, value);
      && r == prev.(tourPlans := r.tourPlans) && |r.tourPlans| == |prev.tourPlans|
      && (forall i :: 0 <= i < |r.tourPlans| && i != dayIndex ==> r.tourPlans[i] == prev.tourPlans[i])
      && (0 <= dayIndex < |r.tourPlans| ==>
            r.tourPlans[dayIndex] ==
              if field == TitleField then prev.tourPlans[dayIndex].(title := value)
              else prev.tourPlans[dayIndex].(description := value))
      && (!(0 <= dayIndex < |prev.tourPlans|) ==> r == prev)
  {
    var r := UpdateTourPlan(prev, dayIndex, field, value);
    if !(0 <= dayIndex < |prev.tourPlans|) {
      assert r.tourPlans == prev.tourPlans;
    }
  }

  /** addTourPlanIncluded appends the trimmed item to the `included` list of the plan
      at `dayIndex` only, and does nothing for a blank item. */
  lemma AddTourPlanIncludedAppends(prev: Tour, dayIndex: int, item: string)
    ensures var r := AddTourPlanIncluded(prev, dayIndex, item);
      && r == prev.(tourPlans := r.tourPlans) && |r.tourPlans| == |prev.tourPlans|
      && (forall i :: 0 <= i < |r.tourPlans| && i != dayIndex ==> r.tourPlans[i] == prev.tourPlans[i])
      && (0 <= dayIndex < |r.tourPlans| && !AllWhiteSpace(item) ==>
            r.tourPlans[dayIndex] == prev.tourPlans[dayIndex].(included := prev.tourPlans[dayIndex].included + [Trim(item)]))
      && (AllWhiteSpace(item) ==> r == prev)
  {
    TrimEmptyIff(item);
  }

  /** removeTourPlanIncluded deletes exactly item `itemIndex` of the plan at `dayIndex`. */
  lemma RemoveTourPlanIncludedDeletesOne(prev: Tour, dayIndex: int, itemIndex: int)
    requires 0 <= dayIndex < |prev.tourPlans|
    ensures var r := RemoveTourPlanIncluded(prev, dayIndex, itemIndex);
      var before := prev.tourPlans[dayIndex].included;
      && r == prev.(tourPlans := r.tourPlans) && |r.tourPlans| == |prev.tourPlans|
      && (forall i :: 0 <= i < |r.tourPlans| && i != dayIndex ==> r.tourPlans[i] == prev.tourPlans[i])
      && r.tourPlans[dayIndex] == prev.tourPlans[dayIndex].(included := r.tourPlans[dayIndex].included)
      && (0 <= itemIndex < |before| ==>
            r.tourPlans[dayIndex].included == before[..itemIndex] + before[itemIndex + 1..])
      && (!(0 <= itemIndex < |before|) ==> r.tourPlans[dayIndex].included == before)
  {
    RemoveAtDeletesOne(prev.tourPlans[dayIndex].included, itemIndex);
  }

  /** Any input other than `type` and `days` writes its own property: `price`
      as the number, `title`, `location`, `category` and `description` as the
      text. The type, the day count, the itinerary and both lists stay as they were. */
  lemma ChangeFieldWritesOneProperty(prev: Tour, ev: ChangeEvent)
    requires ev.name != "type" && ev.name != "days"
    ensures var r := ApplyChange(prev, ev);
      && r.price == (if ev.name == "price" then ev.numeric else prev.price)
      && r.title == (if ev.name == "title" then ev.value else prev.title)
      && r.location == (if ev.name == "location" then ev.value else prev.location)
      && r.category == (if ev.name == "category" then ev.value else prev.category)
      && r.description == (if ev.name == "description" then ev.value else prev.description)
      && r.tourType == prev.tourType && r.days == prev.days && r.tourPlans == prev.tourPlans
      && r.included == prev.included && r.excluded == prev.excluded
  {
  }

  // ---------------------------------------------------------------------
  // The component's state
  // ---------------------------------------------------------------------

  class TourFormComponent {
    var form: Tour
    var loading: bool
    var error: Option<string>
    var newIncluded: string
    var newExcluded: string

    /** The initial `useState` values. */
    constructor ()
      ensures form == EmptyTour && !loading && error == None
      ensures newIncluded == "" && newExcluded == ""
      ensures Valid()
    {
      form := EmptyTour;
      loading := false;
      error := None;
      newIncluded := "";
      newExcluded := "";
    }

    /** The invariant every reachable state keeps, given non-negative day counts. */
    ghost predicate Valid()
      reads this
    {
      ItineraryInStep(form)
    }

    method HandleChange(ev: ChangeEvent)
      modifies this
      ensures form == ApplyChange(old(form), ev)
      ensures loading == old(loading) && error == old(error)
      ensures newIncluded == old(newIncluded) && newExcluded == old(newExcluded)
      ensures old(Valid()) && (ev.name == "days" ==> ev.numeric >= 0) ==> Valid()
    {
      if old(Valid()) && (ev.name == "days" ==> ev.numeric >= 0) {
        ApplyChangeKeepsItinerary(form, ev);
      }
      if ev.name == "type" {
        form := ChangeType(form, ev.value);
      } else if ev.name == "days" {
        var newDays := ev.numeric;
        var plans := form.tourPlans;
        if form.tourType == "multi" {
          if newDays > |plans| {
            plans := AppendDefaultPlans(plans, newDays);
          } else if newDays < |plans| {
            plans := SliceTo(plans, newDays);
          }
        }
        form := form.(days := newDays, tourPlans := plans);
      } else {
        form := ChangeField(form, ev.name, ev.value, ev.numeric);
      }
    }

    /** Typing in the "included" text box. */
    method EditNewIncluded(text: string)
      modifies this
      ensures newIncluded == text
      ensures form == old(form) && loading == old(loading) && error == old(error) && newExcluded == old(newExcluded)
    {
      newIncluded := text;
    }

    /** Typing in the "excluded" text box. */
    method EditNewExcluded(text: string)
      modifies this
      ensures newExcluded == text
      ensures form == old(form) && loading == old(loading) && error == old(error) && newIncluded == old(newIncluded)
    {
      newExcluded := text;
    }

    method AddIncluded()
      modifies this
      ensures (form.included, newIncluded) == AddItem(old(form.included), old(newIncluded))
      ensures old(Valid()) ==> Valid()
      ensures form == old(form).(included := form.included)
      ensures loading == old(loading) && error == old(error) && newExcluded == old(newExcluded)
    {
      if Trim(newIncluded) != "" {
        form := form.(included := form.included + [Trim(newIncluded)]);
        newIncluded := "";
      }
    }

    method RemoveIncludedAt(index: int)
      modifies this
      ensures form == RemoveIncluded(old(form), index)
      ensures old(Valid()) ==> Valid()
      ensures loading == old(loading) && error == old(error)
      ensures newIncluded == old(newIncluded) && newExcluded == old(newExcluded)
    {
      form := form.(included := RemoveAt(form.included, index));
    }

    method AddExcluded()
      modifies this
      ensures (form.excluded, newExcluded) == AddItem(old(form.excluded), old(newExcluded))
      ensures old(Valid()) ==> Valid()
      ensures form == old(form).(excluded := form.excluded)
      ensures loading == old(loading) && error == old(error) && newIncluded == old(newIncluded)
    {
      if Trim(newExcluded) != "" {
        form := form.(excluded := form.excluded + [Trim(newExcluded)]);
        newExcluded := "";
      }
    }

    method RemoveExcludedAt(index: int)
      modifies this
      ensures form == RemoveExcluded(old(form), index)
      ensures old(Valid()) ==> Valid()
      ensures loading == old(loading) && error == old(error)
      ensures newIncluded == old(newIncluded) && newExcluded == old(newExcluded)
    {
      form := form.(excluded := RemoveAt(form.excluded, index));
    }

    method UpdateTourPlanAt(dayIndex: int, field: PlanField, value: string)
      modifies this
      ensures form == UpdateTourPlan(old(form), dayIndex, field, value)
      ensures old(Valid()) ==> Valid()
      ensures loading == old(loading) && error == old(error)
      ensures newIncluded == old(newIncluded) && newExcluded == old(newExcluded)
    {
      if old(Valid()) {
        EditPlanAtKeepsItinerary(form, dayIndex, SetText(field, value));
      }
      form := form.(tourPlans := EditPlanAt(form.tourPlans, dayIndex, SetText(field, value)));
    }

    method AddTourPlanItem(dayIndex: int, item: string)
      modifies this
      ensures form == AddTourPlanIncluded(old(form), dayIndex, item)
      ensures old(Valid()) ==> Valid()
      ensures loading == old(loading) && error == old(error)
      ensures newIncluded == old(newIncluded) && newExcluded == old(newExcluded)
    {
      if Trim(item) != "" {
        if old(Valid()) {
          EditPlanAtKeepsItinerary(form, dayIndex, AppendPlanItem(Trim(item)));
        }
        form := form.(tourPlans := EditPlanAt(form.tourPlans, dayIndex, AppendPlanItem(Trim(item))));
      }
    }

    method RemoveTourPlanItem(dayIndex: int, itemIndex: int)
      modifies this
      ensures form == RemoveTourPlanIncluded(old(form), dayIndex, itemIndex)
      ensures old(Valid()) ==> Valid()
      ensures loading == old(loading) && error == old(error)
      ensures newIncluded == old(newIncluded) && newExcluded == old(newExcluded)
    {
      if old(Valid()) {
        EditPlanAtKeepsItinerary(form, dayIndex, RemovePlanItem(itemIndex));
      }
      form := form.(tourPlans := EditPlanAt(form.tourPlans, dayIndex, RemovePlanItem(itemIndex)));
    }

    /** handleSubmit: `loading` is raised, `error` cleared, then either the
        form and both text boxes are reset or the thrown value's message is
        shown; `loading` ends false either way. */
    method HandleSubmit(outcome: SubmitOutcome)
      modifies this
      ensures !loading
      ensures outcome.Created? ==> form == EmptyTour && newIncluded == "" && newExcluded == "" && error == None
      ensures outcome.Failed? ==>
        && form == old(form) && newIncluded == old(newIncluded) && newExcluded == old(newExcluded)
        && error == Some(DisplayedError(outcome.thrown))
      ensures outcome.Created? || old(Valid()) ==> Valid()
    {
      loading := true;
      error := None;
      match outcome {
        case Created =>
          form := EmptyTour;
          newIncluded := "";
          newExcluded := "";
        case Failed(thrown) =>
          error := Some(DisplayedError(thrown));
      }
      loading := false;
    }
  }
}

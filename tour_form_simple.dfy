/**
 * The earlier, plan-less tour form (src/app/tours/TourForm-simple.tsx):
 * the same type/days coupling without a minimum for multi-day tours,
 * numeric conversion of `days` and `price`, and the submit handler.
 */
module SimpleTourForm {
  import opened Wrappers
  import opened TourSubmit

  /** The form record. `tourType` is the field the source calls `type`. */
  datatype SimpleTour = SimpleTour(
    title: string,
    description: string,
    location: string,
    days: int,
    price: int,
    tourType: string)

  const EmptySimpleTour := SimpleTour("", "", "", 1, 0, "single")

  /** A change event from an input named `name` carrying the text `value`;
      `numeric` stands for `Number(value)`. */
  datatype ChangeEvent = ChangeEvent(name: string, value: string, numeric: int)

  /** A property value of the form record. */
  datatype FieldValue = Text(text: string) | Number(number: int)

  /** `t[name]`: reading a property of the form record by name. */
  function Get(t: SimpleTour, name: string): Option<FieldValue> {
    if name == "title" then Some(Text(t.title))
    else if name == "description" then Some(Text(t.description))
    else if name == "location" then Some(Text(t.location))
    else if name == "days" then Some(Number(t.days))
    else if name == "price" then Some(Number(t.price))
    else if name == "type" then Some(Text(t.tourType))
    else None
  }

  /** handleChange's updater: the `type` input writes `type` and, for
      "single", `days`; any other input of the form writes its own field,
      as a number for `days` and `price` and as text otherwise. */
  function ApplyChange(prev: SimpleTour, ev: ChangeEvent): (r: SimpleTour)
    ensures ev.name == "type" ==> Get(r, "type") == Some(Text(ev.value))
    ensures ev.name != "type" && Get(prev, ev.name).Some? ==>
      Get(r, ev.name) == Some(if ev.name in {"days", "price"} then Number(ev.numeric) else Text(ev.value))
    ensures forall f :: f != ev.name && (ev.name == "type" ==> f != "days") ==> Get(r, f) == Get(prev, f)
  {
    if ev.name == "type" then prev.(tourType := ev.value, days := if ev.value == "single" then 1 else prev.days)
    else if ev.name == "days" then prev.(days := ev.numeric)
    else if ev.name == "price" then prev.(price := ev.numeric)
    else if ev.name == "title" then prev.(title := ev.value)
    else if ev.name == "description" then prev.(description := ev.value)
    else if ev.name == "location" then prev.(location := ev.value)
    else prev
  }

  /** Choosing "single" forces one day; any other type keeps the day count
      as it was, with no minimum. */
  lemma TypeChangeDays(prev: SimpleTour, value: string)
    ensures var r := ApplyChange(prev, ChangeEvent("type", value, 0));
      && r.tourType == value
      && (value == "single" ==> r.days == 1)
      && (value != "single" ==> r.days == prev.days)
      && r == prev.(tourType := value, days := r.days)
  {
  }

  class SimpleTourFormComponent {
    var form: SimpleTour
    var loading: bool
    var error: Option<string>

    constructor ()
      ensures form == EmptySimpleTour && !loading && error == None
    {
      form := EmptySimpleTour;
      loading := false;
      error := None;
    }

    method HandleChange(ev: ChangeEvent)
      modifies this
      ensures form == ApplyChange(old(form), ev)
      ensures loading == old(loading) && error == old(error)
    {
      form := ApplyChange(form, ev);
    }

    /** handleSubmit: reset on success, show the thrown value's message on
        failure; `loading` ends false either way. */
    method HandleSubmit(outcome: SubmitOutcome)
      modifies this
      ensures !loading
      ensures outcome.Created? ==> form == EmptySimpleTour && error == None
      ensures outcome.Failed? ==> form == old(form) && error == Some(DisplayedError(outcome.thrown))
    {
      loading := true;
      error := None;
      match outcome {
        case Created =>
          form := EmptySimpleTour;
        case Failed(thrown) =>
          error := Some(DisplayedError(thrown));
      }
      loading := false;
    }
  }
}

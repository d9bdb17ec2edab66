/**
 * What a tour form's submit handler can observe of `createTour`: it
 * resolves, or it throws. Both tour forms turn a thrown value into the
 * message they display in the same way.
 */
module TourSubmit {
  import opened Wrappers
  import opened Js

  /** A value caught by `catch (err: unknown)`. */
  datatype Thrown = ErrorObject(message: string) | OtherValue

  /** How the awaited `createTour(form)` call ended. */
  datatype SubmitOutcome = Created | Failed(thrown: Thrown)

  /** What `createTour` throws when the backend answers with a non-ok status:
      an `Error` carrying the envelope's `message` field, or a fixed text when
      that field is missing or empty. */
  function CreateTourRejection(messageField: Option<string>): (t: Thrown)
    ensures t.ErrorObject? && t.message != ""
    ensures Truthy(messageField) ==> t.message == messageField.value
    ensures !Truthy(messageField) ==> t.message == "Failed to create tour"
  {
    ErrorObject(OrElse(messageField, "Failed to create tour"))
  }

  /** `err instanceof Error ? err.message : "Error creating tour"`. */
  function DisplayedError(t: Thrown): (m: string)
    ensures t.OtherValue? ==> m == "Error creating tour"
    ensures t.ErrorObject? ==> m == t.message
  {
    match t
    case ErrorObject(msg) => msg
    case OtherValue => "Error creating tour"
  }

  /** A rejection by the backend always surfaces as a non-empty message and
      never as the generic "Error creating tour" text unless the backend sent
      exactly that. */
  lemma RejectionMessageShown(messageField: Option<string>)
    ensures DisplayedError(CreateTourRejection(messageField)) != ""
    ensures DisplayedError(CreateTourRejection(messageField)) == "Error creating tour"
            ==> messageField == Some("Error creating tour")
  {
  }
}

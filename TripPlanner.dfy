/**
 * The trip form's submit cycle (src/App.tsx, `onSubmit`).  The page's state
 * is a `form`, a `loading` flag, an optional `error` message and an optional
 * `result`.  The planning service is a function parameter from request to
 * outcome; waiting for it is not modelled, only the order of the state
 * changes around it.
 */
module TripPlanner {
  import opened Wrappers
  import opened Api

  /** What the user typed into the form. */
  datatype TripForm = TripForm(
    currentLocation: string,
    pickupLocation: string,
    dropoffLocation: string,
    currentCycleHoursUsed: real)

  /** The settled outcome of a plan request: a plan, or a failure with an optional message. */
  datatype PlanOutcome = Planned(data: PlanTripResponse) | PlanFailed(message: Option<string>)

  const EMPTY_FORM: TripForm := TripForm("", "", "", 0.0)

  /** Message shown when the failure carries no text. */
  const FALLBACK_ERROR: string := "Failed"

  /** The request sent for a form; no start time is sent. */
  function RequestFor(form: TripForm): (r: PlanTripRequest)
    ensures r.currentLocation == form.currentLocation
    ensures r.pickupLocation == form.pickupLocation
    ensures r.dropoffLocation == form.dropoffLocation
    ensures r.currentCycleHoursUsed == form.currentCycleHoursUsed
    ensures r.startTime == None
  {
    PlanTripRequest(form.currentLocation, form.pickupLocation, form.dropoffLocation,
                    form.currentCycleHoursUsed, None)
  }

  /**
   * `err.message || 'Failed'`: the failure's own message unless it is absent
   * or empty.  The result is never empty, so the error banner always shows.
   */
  function ErrorText(message: Option<string>): (t: string)
    ensures t != ""
    ensures message.Some? && message.value != "" ==> t == message.value
    ensures message.None? || message.value == "" ==> t == FALLBACK_ERROR
  {
    if message.Some? && message.value != "" then message.value else FALLBACK_ERROR
  }

  /** The state of the trip planner page. */
  class App {
    var form: TripForm
    var loading: bool
    var error: Option<string>
    var result: Option<PlanTripResponse>

    /** Never both an error and a result at once. */
    predicate Consistent()
      reads this
    {
      !(error.Some? && result.Some?)
    }

    /** The error banner is drawn (`{error && ...}`): a non-empty message is set. */
    predicate ShowsError()
      reads this
    {
      error.Some? && error.value != ""
    }

    /** The initial state: an empty form, idle, no error, no result. */
    constructor ()
      ensures form == EMPTY_FORM && !loading && error == None && result == None
      ensures Consistent()
    {
      form := EMPTY_FORM;
      loading := false;
      error := None;
      result := None;
    }

    /** An edit of the form; nothing else changes. */
    method SetForm(f: TripForm)
      modifies this`form
      ensures form == f
    {
      form := f;
    }

    /** The synchronous start of a submit: busy, previous error and result cleared. */
    method BeginSubmit()
      modifies this`loading, this`error, this`result
      ensures loading && error == None && result == None
      ensures Consistent()
    {
      loading := true;
      error := None;
      result := None;
    }

    /** The settling of a submit: store the plan or the error text, then stop loading. */
    method FinishSubmit(outcome: PlanOutcome)
      requires error == None && result == None
      modifies this`loading, this`error, this`result
      ensures !loading && Consistent()
      ensures outcome.Planned? ==> result == Some(outcome.data) && error == None
      ensures outcome.PlanFailed? ==> result == None && error == Some(ErrorText(outcome.message))
      ensures outcome.PlanFailed? ==> ShowsError()
    {
      match outcome {
        case Planned(data) =>
          result := Some(data);
        case PlanFailed(message) =>
          error := Some(ErrorText(message));
      }
      loading := false;
    }

    /**
     * A whole submit: the request is built from the current form and sent to
     * `planTrip`; afterwards loading is off and exactly one of result and
     * error is set, whatever the page showed before.
     */
    method Submit(planTrip: PlanTripRequest -> PlanOutcome)
      modifies this`loading, this`error, this`result
      ensures form == old(form) && !loading && Consistent()
      ensures var outcome := planTrip(RequestFor(old(form)));
        && (outcome.Planned? ==> result == Some(outcome.data) && error == None)
        && (outcome.PlanFailed? ==> result == None && error == Some(ErrorText(outcome.message)))
    {
      BeginSubmit();
      var outcome := planTrip(RequestFor(form));
      FinishSubmit(outcome);
    }
  }
}

/** The add-feedback modal of AddFeedbackPage.tsx: its four pieces of state,
    the handlers that change them and the star preview. Rendering is not
    modelled; `fetch` is the outcome handed to the submit handler, and the
    parent's callbacks are reported in the order they are invoked. */
module AddFeedbackPageTs {
  import opened Wrappers
  import opened JsBuiltins
  import opened FeedbackTypes
  import opened FeedbackService

  /** The values of the rating <select>. */
  const RatingOptions := ["5", "4", "3", "2", "1"]
  const SubmitFallbackMessage := "Failed to submit feedback"
  const FilledStar := '\U{2605}'
  const EmptyStar := '\U{2606}'

  /** The parent callbacks the submit handler invokes. */
  datatype Callback = FeedbackAdded | Closed

  /** `"★".repeat(rating) + "☆".repeat(5 - rating)`; either repeat may throw. */
  function RenderStars(rating: int): (r: Result<string, RangeError>)
    ensures r.Ok? <==> 0 <= rating <= 5
    ensures r.Ok? ==> |r.value| == 5
  {
    match Repeat([FilledStar], rating)
    case Err(e) => Err(e)
    case Ok(filled) =>
      match Repeat([EmptyStar], 5 - rating)
      case Err(e) => Err(e)
      case Ok(empty) => Ok(filled + empty)
  }

  /** For a rating 0..5 the preview is five stars, the first `rating` filled. */
  lemma RenderStarsShape(rating: int)
    requires 0 <= rating <= 5
    ensures RenderStars(rating).Ok?
    ensures var s := RenderStars(rating).value;
      |s| == 5 &&
      (forall k :: 0 <= k < rating ==> s[k] == FilledStar) &&
      (forall k :: rating <= k < 5 ==> s[k] == EmptyStar) &&
      multiset(s)[FilledStar] == rating
  {
    ReplicateChar(FilledStar, rating);
    ReplicateChar(EmptyStar, 5 - rating);
    var filled := Replicate([FilledStar], rating);
    var empty := Replicate([EmptyStar], 5 - rating);
    assert RenderStars(rating).value == filled + empty;
    assert multiset(filled + empty) == multiset(filled) + multiset(empty);
  }

  /** Outside 0..5 one of the two counts is negative and repeat throws. */
  lemma RenderStarsRejects(rating: int)
    requires rating < 0 || rating > 5
    ensures RenderStars(rating) == Err(InvalidCount(if rating < 0 then rating else 5 - rating))
  {
  }

  /** `err instanceof Error ? err.message : "Failed to submit feedback"`. */
  function ErrorText(t: Thrown): string {
    match t
    case ErrorObject(m) => m
    case _ => SubmitFallbackMessage
  }

  /** The callbacks a successful submit invokes: onFeedbackAdded, then onClose,
      each only when the prop was provided. */
  function Notifications(hasFeedbackAdded: bool, hasClose: bool): seq<Callback> {
    (if hasFeedbackAdded then [FeedbackAdded] else []) + (if hasClose then [Closed] else [])
  }

  /** What the submission itself comes to, given createFeedback's result: a
      thrown constructor error issues nothing; otherwise the service runs. */
  function Submission(payload: Result<Feedback, Thrown>, outcome: FetchOutcome): Call {
    match payload
    case Err(t) => Call(None, Err(t))
    case Ok(f) => SubmitFeedback(DataOf(f), outcome)
  }

  /** From the form's reachable states, the payload always passes createFeedback
      and the service's guards, so every submit issues exactly the POST of
      rating and trimmed message; only the network can make it fail. */
  lemma ValidFormAlwaysPosts(rating: int, message: string, outcome: FetchOutcome)
    requires 1 <= rating <= 5
    ensures var call := Submission(CreateFeedback(rating as real, Some(Trim(message))), outcome);
      call.request.Some? &&
      FromJson(call.request.value.body) ==
        Some(FeedbackData(Some(rating as real), Some(Trim(message)), None, None))
  {
    assert (rating as real).Floor == rating;
    TrimIdempotent(message);
    var created := CreateFeedback(rating as real, Some(Trim(message)));
    assert created == Ok(Feedback(rating as real, Trim(message), None, None));
    var data := DataOf(created.value);
    assert data == FeedbackData(Some(rating as real), Some(Trim(message)), None, None);
    var call := SubmitFeedback(data, outcome);
    assert call.request.Some? && FromJson(call.request.value.body) == Some(data);
  }

  class AddFeedbackPage {
    /** Whether the parent passed onFeedbackAdded and onClose. */
    const hasFeedbackAdded: bool
    const hasClose: bool

    var rating: int
    var message: string
    var isSubmitting: bool
    var error: string

    /** The rating is always one the <select> offers. */
    ghost predicate Valid()
      reads this
    {
      1 <= rating <= 5
    }

    constructor (hasFeedbackAdded: bool, hasClose: bool)
      ensures Valid()
      ensures rating == 5 && message == "" && !isSubmitting && error == ""
      ensures this.hasFeedbackAdded == hasFeedbackAdded && this.hasClose == hasClose
    {
      this.hasFeedbackAdded := hasFeedbackAdded;
      this.hasClose := hasClose;
      rating := 5;
      message := "";
      isSubmitting := false;
      error := "";
    }

    /** handleRatingChange: parseInt of the chosen option. */
    method HandleRatingChange(value: string)
      requires value in RatingOptions
      modifies this`rating
      ensures Valid()
      ensures ParseInt(value) == Some(rating)
    {
      var parsed := ParseInt(value);
      rating := parsed.value;
    }

    /** handleMessageChange. */
    method HandleMessageChange(value: string)
      modifies this`message
      ensures message == value
    {
      message := value;
    }

    /** The star preview under the select. */
    function Stars(): (s: string)
      reads this
      requires Valid()
      ensures |s| == 5 && multiset(s)[FilledStar] == rating
    {
      RenderStarsShape(rating);
      RenderStars(rating).value
    }

    /** The synchronous start of handleSubmit: flag the submission, clear the
        error and build the payload. */
    method BeginSubmit() returns (payload: Result<Feedback, Thrown>)
      requires Valid()
      modifies this`isSubmitting, this`error
      ensures Valid() && isSubmitting && error == ""
      ensures payload == CreateFeedback(rating as real, Some(Trim(message)))
    {
      isSubmitting := true;
      error := "";
      payload := CreateFeedback(rating as real, Some(Trim(message)));
    }

    /** The rest of handleSubmit, once the fetch has settled: reset the form and
        notify the parent on success, record the error on failure, and in
        both cases clear the submitting flag. */
    method SettleSubmit(payload: Result<Feedback, Thrown>, outcome: FetchOutcome)
      returns (call: Call, notified: seq<Callback>)
      requires Valid()
      modifies this`rating, this`message, this`isSubmitting, this`error
      ensures Valid() && !isSubmitting
      ensures call == Submission(payload, outcome)
      ensures call.result.Ok? ==>
                rating == 5 && message == "" && error == old(error) &&
                notified == Notifications(hasFeedbackAdded, hasClose)
      ensures call.result.Err? ==>
                rating == old(rating) && message == old(message) &&
                error == ErrorText(call.result.error) && notified == []
    {
      call := Submission(payload, outcome);
      notified := [];
      if call.result.Ok? {
        rating := 5;
        message := "";
        if hasFeedbackAdded {
          notified := notified + [FeedbackAdded];
        }
        if hasClose {
          notified := notified + [Closed];
        }
      } else {
        error := ErrorText(call.result.error);
      }
      isSubmitting := false;
    }

    /** handleSubmit from start to finish. */
    method HandleSubmit(outcome: FetchOutcome) returns (call: Call, notified: seq<Callback>)
      requires Valid()
      modifies this`rating, this`message, this`isSubmitting, this`error
      ensures Valid() && !isSubmitting
      ensures call == Submission(CreateFeedback(old(rating) as real, Some(Trim(old(message)))), outcome)
      ensures call.request.Some?
      ensures call.result.Ok? ==>
                rating == 5 && message == "" && error == "" &&
                notified == Notifications(hasFeedbackAdded, hasClose)
      ensures call.result.Err? ==>
                rating == old(rating) && message == old(message) &&
                error == ErrorText(call.result.error) && notified == []
    {
      ValidFormAlwaysPosts(rating, message, outcome);
      var payload := BeginSubmit();
      call, notified := SettleSubmit(payload, outcome);
    }
  }
}

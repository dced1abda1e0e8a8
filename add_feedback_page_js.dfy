/** The add-feedback modal of AddFeedbackPage.jsx. It differs from the
    TypeScript one in four ways: the rating is a number only until the
    <select> changes it to the option's text, parseInt runs at submit time,
    the payload is built without createFeedback, and the error text is
    `err.message || fallback`, which honours any thrown value's message and
    itself throws when undefined or null is thrown. */
module AddFeedbackPageJs {
  import opened Wrappers
  import opened JsBuiltins
  import opened FeedbackService
  import AddFeedbackPageTs

  /** The rating state: 5 (a number) initially and after a reset, the option's
      value (a string) after `setRating(e.target.value)`. */
  datatype RatingValue = RatingNumber(n: int) | RatingText(text: string)

  /** parseInt(rating): the value is converted to text and read back. None is NaN. */
  function ParseRating(v: RatingValue): Option<int> {
    match v
    case RatingNumber(n) => ParseInt(NumberToString(n))
    case RatingText(t) => ParseInt(t)
  }

  /** `{rating: parseInt(rating), message: message.trim()}`. A NaN rating is
      falsy, so the service's first guard treats it as a missing one; it is
      modelled as absent. */
  function Payload(rating: RatingValue, message: string): FeedbackData {
    var parsed := ParseRating(rating);
    FeedbackData(if parsed.Some? then Some(parsed.value as real) else None, Some(Trim(message)), None, None)
  }

  /** `text || "Failed to submit feedback"`. */
  function OrFallback(text: string): string {
    if text != "" then text else AddFeedbackPageTs.SubmitFallbackMessage
  }

  /** `err.message || "Failed to submit feedback"`: the message of an Error
      or of any other value that has one, the fallback when it is empty or
      absent. Reading a property of undefined or null throws a TypeError out
      of the catch block instead: None. */
  function ErrorText(t: Thrown): Option<string> {
    match t
    case ErrorObject(m) => Some(OrFallback(m))
    case Nullish => None
    case NonErrorValue(p) => Some(OrFallback(p.GetOr("")))
  }

  /** Where the two pages report the same text: for an Error unless its
      message is empty, for another value exactly when it carries no message
      of its own (or carries the fallback); never for undefined or null. */
  lemma ErrorTextsAgree(t: Thrown)
    ensures ErrorText(t) == Some(AddFeedbackPageTs.ErrorText(t)) <==>
            match t
            case ErrorObject(m) => m != ""
            case Nullish => false
            case NonErrorValue(p) => p.GetOr("") == "" || p.GetOr("") == AddFeedbackPageTs.SubmitFallbackMessage
  {
  }

  /** Every error the service raises itself, rather than a rejection it
      passes on, is an Error with a non-empty message, so both pages show it
      alike. */
  lemma ServiceErrorsAgree(data: FeedbackData, outcome: FetchOutcome)
    requires !outcome.Rejected?
    ensures var call := SubmitFeedback(data, outcome);
      call.result.Err? ==>
        call.result.error.ErrorObject? &&
        ErrorText(call.result.error) == Some(AddFeedbackPageTs.ErrorText(call.result.error))
  {
    var call := SubmitFeedback(data, outcome);
    if call.result.Err? {
      var m := call.result.error.message;
      assert m == MissingRatingMessage || m == RangeMessage ||
             m == SubmitFailedPrefix + outcome.statusText;
      assert |m| > 0;
    }
  }

  predicate IsOptionRating(v: RatingValue) {
    match v
    case RatingNumber(n) => 1 <= n <= 5
    case RatingText(t) => t in AddFeedbackPageTs.RatingOptions
  }

  /** Every rating the form can hold parses to 1..5, so every submit posts the
      parsed rating and the trimmed message and can fail only on the network. */
  lemma ValidFormAlwaysPosts(rating: RatingValue, message: string, outcome: FetchOutcome)
    requires IsOptionRating(rating)
    ensures ParseRating(rating).Some? && 1 <= ParseRating(rating).value <= 5
    ensures var call := SubmitFeedback(Payload(rating, message), outcome);
      call.request.Some? && FromJson(call.request.value.body) == Some(Payload(rating, message))
  {
    if rating.RatingNumber? {
      NumberToStringRoundTrip(rating.n);
    }
  }

  class AddFeedbackPage {
    const hasFeedbackAdded: bool
    const hasClose: bool

    var rating: RatingValue
    var message: string
    var isSubmitting: bool
    var error: string

    ghost predicate Valid()
      reads this
    {
      IsOptionRating(rating)
    }

    constructor (hasFeedbackAdded: bool, hasClose: bool)
      ensures Valid()
      ensures rating == RatingNumber(5) && message == "" && !isSubmitting && error == ""
      ensures this.hasFeedbackAdded == hasFeedbackAdded && this.hasClose == hasClose
    {
      this.hasFeedbackAdded := hasFeedbackAdded;
      this.hasClose := hasClose;
      rating := RatingNumber(5);
      message := "";
      isSubmitting := false;
      error := "";
    }

    /** The select's onChange: the option's text is stored as it is. */
    method HandleRatingChange(value: string)
      requires value in AddFeedbackPageTs.RatingOptions
      modifies this`rating
      ensures Valid() && rating == RatingText(value)
    {
      rating := RatingText(value);
    }

    /** The textarea's onChange. */
    method HandleMessageChange(value: string)
      modifies this`message
      ensures message == value
    {
      message := value;
    }

    /** The synchronous start of handleSubmit: flag, clear, build the payload. */
    method BeginSubmit() returns (payload: FeedbackData)
      requires Valid()
      modifies this`isSubmitting, this`error
      ensures Valid() && isSubmitting && error == ""
      ensures payload == Payload(rating, message)
    {
      isSubmitting := true;
      error := "";
      payload := Payload(rating, message);
    }

    /** The rest of handleSubmit once the service call has settled.
        `rejected` tells that the catch block itself threw, so the promise
        handleSubmit returns rejects after the finally block has run. */
    method SettleSubmit(payload: FeedbackData, outcome: FetchOutcome)
      returns (call: Call, notified: seq<AddFeedbackPageTs.Callback>, rejected: bool)
      requires Valid()
      modifies this`rating, this`message, this`isSubmitting, this`error
      ensures Valid() && !isSubmitting
      ensures call == SubmitFeedback(payload, outcome)
      ensures call.result.Ok? ==>
                rating == RatingNumber(5) && message == "" && error == old(error) &&
                notified == AddFeedbackPageTs.Notifications(hasFeedbackAdded, hasClose) && !rejected
      ensures call.result.Err? ==>
                rating == old(rating) && message == old(message) && notified == [] &&
                error == ErrorText(call.result.error).GetOr(old(error)) &&
                rejected == ErrorText(call.result.error).None?
    {
      call := SubmitFeedback(payload, outcome);
      notified := [];
      rejected := false;
      if call.result.Ok? {
        rating := RatingNumber(5);
        message := "";
        if hasFeedbackAdded {
          notified := notified + [AddFeedbackPageTs.FeedbackAdded];
        }
        if hasClose {
          notified := notified + [AddFeedbackPageTs.Closed];
        }
      } else {
        var text := ErrorText(call.result.error);
        if text.Some? {
          error := text.value;
        } else {
          rejected := true;
        }
      }
      isSubmitting := false;
    }

    /** handleSubmit from start to finish. */
    method HandleSubmit(outcome: FetchOutcome)
      returns (call: Call, notified: seq<AddFeedbackPageTs.Callback>, rejected: bool)
      requires Valid()
      modifies this`rating, this`message, this`isSubmitting, this`error
      ensures Valid() && !isSubmitting
      ensures call == SubmitFeedback(Payload(old(rating), old(message)), outcome)
      ensures call.request.Some?
      ensures call.result.Ok? ==>
                rating == RatingNumber(5) && message == "" && error == "" &&
                notified == AddFeedbackPageTs.Notifications(hasFeedbackAdded, hasClose) && !rejected
      ensures call.result.Err? ==>
                rating == old(rating) && message == old(message) && notified == [] &&
                error == ErrorText(call.result.error).GetOr("") &&
                rejected == ErrorText(call.result.error).None?
    {
      ValidFormAlwaysPosts(rating, message, outcome);
      var payload := BeginSubmit();
      call, notified, rejected := SettleSubmit(payload, outcome);
    }
  }
}

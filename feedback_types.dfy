/** The Feedback record of the frontend and its validating constructor
    (feedbackTypes.ts and feedbackTypes.jsx share this model). */
module FeedbackTypes {
  import opened Wrappers
  import opened JsBuiltins

  /** A feedback entry. `id` and `created_at` are optional: only the server
      assigns them. A JavaScript number is modelled as a real. */
  datatype Feedback = Feedback(rating: real, message: string, id: Option<int>, createdAt: Option<string>)

  const RatingRangeMessage := "Rating must be a number between 1 and 5"

  /** isValidFeedback: the rating lies in 1..5 (the typeof tests always hold
      of a Feedback value). */
  predicate IsValidFeedback(f: Feedback) {
    1.0 <= f.rating && f.rating <= 5.0
  }

  /** createFeedback(rating, message = ''): range check, then an integral
      rating and a trimmed message. `message` is None when omitted. */
  function CreateFeedback(rating: real, message: Option<string>): (r: Result<Feedback, Thrown>)
    ensures r.Err? <==> rating < 1.0 || rating > 5.0
    ensures r.Err? ==> r.error == ErrorObject(RatingRangeMessage)
    ensures r.Ok? ==> IsValidFeedback(r.value)
    // the rating is Math.floor(rating): the largest integer not above it
    ensures r.Ok? ==> IsIntegral(r.value.rating) && r.value.rating <= rating < r.value.rating + 1.0
    ensures r.Ok? ==> IsTrimOf(r.value.message, message.GetOr(""))
    ensures r.Ok? ==> r.value.id.None? && r.value.createdAt.None?
  {
    if rating < 1.0 || rating > 5.0 then
      Err(ErrorObject(RatingRangeMessage))
    else
      TrimMeaning(message.GetOr(""));
      Ok(Feedback(rating.Floor as real, Trim(message.GetOr("")), None, None))
  }

  /** A created feedback's rating is one of the five integers 1..5. */
  lemma CreatedRatingIsStar(rating: real, message: Option<string>)
    requires CreateFeedback(rating, message).Ok?
    ensures CreateFeedback(rating, message).value.rating in {1.0, 2.0, 3.0, 4.0, 5.0}
  {
    var k := rating.Floor;
    assert 1 <= k <= 5;
  }

  /** Omitting the message is passing "", and the message is pre-trimmed
      for nothing: createFeedback(r, m.trim()) == createFeedback(r, m). */
  lemma CreateFeedbackTrimmedArgument(rating: real, message: string)
    ensures CreateFeedback(rating, None) == CreateFeedback(rating, Some(""))
    ensures CreateFeedback(rating, Some(Trim(message))) == CreateFeedback(rating, Some(message))
  {
    TrimIdempotent(message);
  }

  /** isValidFeedback fails for every rating outside 1..5, whatever the message. */
  lemma OutOfRangeIsInvalid(f: Feedback)
    requires f.rating < 1.0 || f.rating > 5.0
    ensures !IsValidFeedback(f)
  {
  }

  /** Exactly the valid ratings construct. */
  lemma ValidIffConstructs(f: Feedback)
    ensures IsValidFeedback(f) <==> CreateFeedback(f.rating, Some(f.message)).Ok?
  {
  }

  /** Constructing from a valid feedback that already has an integral rating,
      a trimmed message and no server fields gives it back unchanged. */
  lemma ConstructsItself(f: Feedback)
    requires IsValidFeedback(f) && IsIntegral(f.rating) && NoOuterWhitespace(f.message)
    requires f.id.None? && f.createdAt.None?
    ensures CreateFeedback(f.rating, Some(f.message)) == Ok(f)
  {
    var m := f.message;
    assert m == m[0..|m|];
    TrimUnique(m, 0, |m|);
  }
}

/** The client's feedback service (feedbackService.ts and feedbackService.js
    share this model): pre-flight validation, the request it would issue and
    the mapping of the awaited response. `fetch` is not performed: its
    outcome is a parameter, and a Call records whether a request was issued. */
module FeedbackService {
  import opened Wrappers
  import opened JsBuiltins
  import opened Json
  import opened FeedbackTypes

  const ApiBaseUrl := "/feedback"
  const RangeMessage := "Rating must be between 1 and 5"
  const MissingRatingMessage := "Feedback requires at least a rating"
  const FetchFailedPrefix := "Failed to fetch feedback: "
  const SubmitFailedPrefix := "Failed to submit feedback: "
  const JsonHeaders := [("Content-Type", "application/json")]

  /** The object passed to submitFeedback. Any field may be absent: the
      JavaScript service accepts `{}` and `{rating: 3}`. */
  datatype FeedbackData = FeedbackData(rating: Option<real>, message: Option<string>,
                                       id: Option<int>, createdAt: Option<string>)

  /** A typed Feedback, as the TypeScript callers pass it, seen as plain data. */
  function DataOf(f: Feedback): FeedbackData {
    FeedbackData(Some(f.rating), Some(f.message), f.id, f.createdAt)
  }

  datatype Request =
    | Get(url: string)
    | Post(url: string, headers: seq<(string, string)>, body: Json)

  /** What `await fetch(...)` produced: a response (its `ok` flag, its
      `statusText` and the value `response.json()` yields), or a rejection. */
  datatype FetchOutcome =
    | Responded(ok: bool, statusText: string, body: Json)
    | Rejected(reason: Thrown)

  /** One service call: the request handed to fetch, if any, and what the
      returned promise settles to. */
  datatype Call = Call(request: Option<Request>, result: Result<Json, Thrown>)

  // ---------------------------------------------------------------------
  // URLSearchParams

  /** The query-string builder getFeedback fills in place. */
  class SearchParams {
    var entries: seq<(string, string)>

    constructor ()
      ensures entries == []
    {
      entries := [];
    }

    method Append(name: string, value: string)
      modifies this
      ensures entries == old(entries) + [(name, value)]
    {
      entries := entries + [(name, value)];
    }

    /** `name=value` pairs joined by `&`. */
    function ToString(): string
      reads this
    {
      QueryString(entries)
    }
  }

  /** The text a parameter list renders reads back as that list whenever no
      name holds `&` or `=` and no value holds `&`. */
  lemma SearchParamsReadBack(params: SearchParams)
    requires PlainEntries(params.entries)
    ensures ParseQuery(params.ToString()) == params.entries
  {
    QueryStringRoundTrip(params.entries);
  }

  function QueryString(entries: seq<(string, string)>): string {
    if entries == [] then ""
    else if |entries| == 1 then entries[0].0 + "=" + entries[0].1
    else QueryString(entries[..|entries| - 1]) + "&" +
         entries[|entries| - 1].0 + "=" + entries[|entries| - 1].1
  }

  /** Names and values that need no percent-encoding to stay apart. */
  predicate PlainEntries(entries: seq<(string, string)>) {
    forall k :: 0 <= k < |entries| ==>
      '&' !in entries[k].0 && '=' !in entries[k].0 && '&' !in entries[k].1
  }

  /** The first index of `c` in `s`, or -1. */
  function IndexOf(s: string, c: char): (r: int)
    ensures -1 <= r < |s|
  {
    if s == [] then -1
    else if s[0] == c then 0
    else
      var i := IndexOf(s[1..], c);
      if i < 0 then -1 else i + 1
  }

  /** The last index of `c` in `s`, or -1. */
  function LastIndexOf(s: string, c: char): (r: int)
    ensures -1 <= r < |s|
  {
    if s == [] then -1
    else if s[|s| - 1] == c then |s| - 1
    else LastIndexOf(s[..|s| - 1], c)
  }

  /** One `name=value` segment, split at its first `=`; without `=` the
      whole segment is the name and the value is empty. */
  function ParsePair(segment: string): (string, string) {
    var i := IndexOf(segment, '=');
    if i < 0 then (segment, "") else (segment[..i], segment[i + 1..])
  }

  /** How URLSearchParams reads a query string (without percent-decoding):
      segments between `&`, empty ones skipped, each split into a pair. */
  function ParseQuery(q: string): seq<(string, string)>
    decreases |q|
  {
    var i := LastIndexOf(q, '&');
    var last := q[i + 1..];
    var front := if i < 0 then [] else ParseQuery(q[..i]);
    front + (if last == [] then [] else [ParsePair(last)])
  }

  lemma {:induction false} LastIndexAfter(a: string, c: char, b: string)
    requires c !in b
    ensures LastIndexOf(a + [c] + b, c) == |a|
  {
    var s := a + [c] + b;
    if b == [] {
      assert s == a + [c];
    } else {
      var b' := b[..|b| - 1];
      assert s[|s| - 1] == b[|b| - 1];
      assert s[..|s| - 1] == a + [c] + b';
      LastIndexAfter(a, c, b');
    }
  }

  lemma {:induction false} LastIndexAbsent(s: string, c: char)
    requires c !in s
    ensures LastIndexOf(s, c) == -1
  {
    if s != [] {
      assert s[|s| - 1] in s;
      LastIndexAbsent(s[..|s| - 1], c);
    }
  }

  lemma {:induction false} IndexBefore(a: string, c: char, b: string)
    requires c !in a
    ensures IndexOf(a + [c] + b, c) == |a|
  {
    var s := a + [c] + b;
    if a != [] {
      assert a[0] in a;
      assert s[1..] == a[1..] + [c] + b;
      IndexBefore(a[1..], c, b);
    }
  }

  lemma PairRoundTrip(name: string, value: string)
    requires '=' !in name
    ensures ParsePair(name + "=" + value) == (name, value)
  {
    var p := name + ['='] + value;
    IndexBefore(name, '=', value);
    assert p[..|name|] == name && p[|name| + 1..] == value;
  }

  /** A query string whose last segment is `segment` parses as the front
      followed by that segment's pair. */
  lemma ParseLastSegment(front: string, segment: string)
    requires '&' !in segment && segment != []
    ensures ParseQuery(segment) == [ParsePair(segment)]
    ensures ParseQuery(front + ['&'] + segment) == ParseQuery(front) + [ParsePair(segment)]
  {
    LastIndexAbsent(segment, '&');
    assert segment[0..] == segment;
    var q := front + ['&'] + segment;
    LastIndexAfter(front, '&', segment);
    assert q[..|front|] == front;
    assert q[|front| + 1..] == segment;
  }

  /** Rendering a list of plain pairs and parsing the text gives the list back. */
  lemma {:induction false} QueryStringRoundTrip(entries: seq<(string, string)>)
    requires PlainEntries(entries)
    ensures ParseQuery(QueryString(entries)) == entries
  {
    if entries != [] {
      var n := |entries|;
      var init := entries[..n - 1];
      assert entries == init + [entries[n - 1]];
      var name, value := entries[n - 1].0, entries[n - 1].1;
      var pair := name + "=" + value;
      PairRoundTrip(name, value);
      assert (name, value) == entries[n - 1];
      assert '&' !in pair;
      if n == 1 {
        assert QueryString(entries) == pair;
        ParseLastSegment([], pair);
      } else {
        assert PlainEntries(init) by {
          forall k | 0 <= k < |init| ensures init[k] == entries[k] { }
        }
        QueryStringRoundTrip(init);
        var front := QueryString(init);
        var q := QueryString(entries);
        assert q == front + ['&'] + pair;
        ParseLastSegment(front, pair);
      }
    }
  }

  // ---------------------------------------------------------------------
  // getFeedback

  /** getFeedback(rating = null). Decimal text for the filter is what
      `toString()` (or the string conversion `append` applies) gives an
      integral number. */
  method GetFeedback(rating: Option<int>, outcome: FetchOutcome) returns (call: Call)
    ensures rating.Some? && (rating.value < 1 || rating.value > 5) ==>
              call == Call(None, Err(ErrorObject(RangeMessage)))
    ensures rating.None? ==> call.request == Some(Get("/feedback?"))
    ensures rating.Some? && 1 <= rating.value <= 5 ==>
              call.request == Some(Get("/feedback?rating=" + NumberToString(rating.value)))
    ensures call.request.Some? && outcome.Responded? && outcome.ok ==>
              call.result == Ok(outcome.body)
    ensures call.request.Some? && outcome.Responded? && !outcome.ok ==>
              call.result == Err(ErrorObject(FetchFailedPrefix + outcome.statusText))
    ensures call.request.Some? && outcome.Rejected? ==> call.result == Err(outcome.reason)
  {
    if rating.Some? && (rating.value < 1 || rating.value > 5) {
      return Call(None, Err(ErrorObject(RangeMessage)));
    }
    var params := new SearchParams();
    if rating.Some? {
      params.Append("rating", NumberToString(rating.value));
    }
    var query := params.ToString();
    var url := ApiBaseUrl + "?" + query;
    assert query == QueryString(params.entries);
    if rating.None? {
      assert params.entries == [];
      assert query == "" && url == "/feedback?";
    } else {
      var digits := NumberToString(rating.value);
      assert params.entries == [("rating", digits)];
      assert query == "rating=" + digits;
      assert url == "/feedback?" + ("rating=" + digits);
      assert url == "/feedback?rating=" + digits;
    }
    var request := Get(url);
    call := Call(Some(request), Settle(outcome, FetchFailedPrefix));
  }

  /** The failure mapping both service calls apply to the awaited response. */
  function Settle(outcome: FetchOutcome, failurePrefix: string): Result<Json, Thrown> {
    match outcome
    case Rejected(t) => Err(t)
    case Responded(ok, text, body) =>
      if ok then Ok(body) else Err(ErrorObject(failurePrefix + text))
  }

  // ---------------------------------------------------------------------
  // submitFeedback

  /** JSON.stringify's view of the data: absent fields are left out, present
      ones keep the order rating, message, id, created_at. */
  function ToJson(d: FeedbackData): Json {
    JObject(
      (if d.rating.Some? then [("rating", JNumber(d.rating.value))] else []) +
      (if d.message.Some? then [("message", JString(d.message.value))] else []) +
      (if d.id.Some? then [("id", JNumber(d.id.value as real))] else []) +
      (if d.createdAt.Some? then [("created_at", JString(d.createdAt.value))] else []))
  }

  /** Reading a request body back: the inverse of ToJson. A member of the
      wrong JSON type makes the body unreadable. */
  function FromJson(j: Json): Option<FeedbackData> {
    if !j.JObject? then None
    else
      var rating := NumberMember(j.members, "rating");
      var message := StringMember(j.members, "message");
      var id := NumberMember(j.members, "id");
      var createdAt := StringMember(j.members, "created_at");
      if rating.None? || message.None? || id.None? || createdAt.None? then None
      else if id.value.Some? && !IsIntegral(id.value.value) then None
      else
        Some(FeedbackData(rating.value, message.value,
                          if id.value.Some? then Some(id.value.value.Floor) else None,
                          createdAt.value))
  }

  /** Some(None) for an absent member, Some(Some(n)) for a number, None otherwise. */
  function NumberMember(members: seq<(string, Json)>, key: string): Option<Option<real>> {
    match Member(members, key)
    case None => Some(None)
    case Some(JNumber(n)) => Some(Some(n))
    case Some(_) => None
  }

  function StringMember(members: seq<(string, Json)>, key: string): Option<Option<string>> {
    match Member(members, key)
    case None => Some(None)
    case Some(JString(s)) => Some(Some(s))
    case Some(_) => None
  }

  /** submitFeedback(feedbackData): a falsy rating (absent or 0) first, then
      the range, then one POST whose body is the data itself. */
  function SubmitFeedback(data: FeedbackData, outcome: FetchOutcome): (call: Call)
    ensures data.rating.None? || data.rating == Some(0.0) ==>
              call == Call(None, Err(ErrorObject(MissingRatingMessage)))
    ensures data.rating.Some? && data.rating.value != 0.0 &&
            (data.rating.value < 1.0 || data.rating.value > 5.0) ==>
              call == Call(None, Err(ErrorObject(RangeMessage)))
    ensures call.request.Some? <==> data.rating.Some? && 1.0 <= data.rating.value <= 5.0
    ensures call.request.Some? ==>
              call.request.value.Post? && call.request.value.url == "/feedback" &&
              call.request.value.headers == [("Content-Type", "application/json")] &&
              FromJson(call.request.value.body) == Some(data)
    ensures call.request.Some? && outcome.Responded? && outcome.ok ==>
              call.result == Ok(outcome.body)
    ensures call.request.Some? && outcome.Responded? && !outcome.ok ==>
              call.result == Err(ErrorObject(SubmitFailedPrefix + outcome.statusText))
    ensures call.request.Some? && outcome.Rejected? ==> call.result == Err(outcome.reason)
  {
    if data.rating.None? || data.rating.value == 0.0 then
      Call(None, Err(ErrorObject(MissingRatingMessage)))
    else if data.rating.value < 1.0 || data.rating.value > 5.0 then
      Call(None, Err(ErrorObject(RangeMessage)))
    else
      BodyRoundTrip(data);
      Call(Some(Post(ApiBaseUrl, JsonHeaders, ToJson(data))), Settle(outcome, SubmitFailedPrefix))
  }

  /** Appending at most one member only changes the lookup of its own key. */
  lemma MemberAppend(ms: seq<(string, Json)>, extra: seq<(string, Json)>, key: string)
    requires |extra| <= 1
    ensures Member(ms + extra, key) ==
              if extra != [] && extra[0].0 == key then Some(extra[0].1) else Member(ms, key)
  {
    if extra == [] {
      assert ms + extra == ms;
    } else {
      assert (ms + extra)[..|ms|] == ms;
    }
  }

  lemma MembersOfToJson(d: FeedbackData, key: string)
    ensures Member(ToJson(d).members, key) ==
      if key == "rating" then (if d.rating.Some? then Some(JNumber(d.rating.value)) else None)
      else if key == "message" then (if d.message.Some? then Some(JString(d.message.value)) else None)
      else if key == "id" then (if d.id.Some? then Some(JNumber(d.id.value as real)) else None)
      else if key == "created_at" then (if d.createdAt.Some? then Some(JString(d.createdAt.value)) else None)
      else None
  {
    var a := if d.rating.Some? then [("rating", JNumber(d.rating.value))] else [];
    var b := if d.message.Some? then [("message", JString(d.message.value))] else [];
    var c := if d.id.Some? then [("id", JNumber(d.id.value as real))] else [];
    var e := if d.createdAt.Some? then [("created_at", JString(d.createdAt.value))] else [];
    assert ToJson(d).members == [] + a + b + c + e;
    MemberAppend([], a, key);
    MemberAppend([] + a, b, key);
    MemberAppend([] + a + b, c, key);
    MemberAppend([] + a + b + c, e, key);
  }

  lemma FieldsOfToJson(d: FeedbackData)
    ensures NumberMember(ToJson(d).members, "rating") == Some(d.rating)
    ensures StringMember(ToJson(d).members, "message") == Some(d.message)
    ensures NumberMember(ToJson(d).members, "id") ==
              Some(if d.id.Some? then Some(d.id.value as real) else None)
    ensures StringMember(ToJson(d).members, "created_at") == Some(d.createdAt)
  {
    MembersOfToJson(d, "rating");
    MembersOfToJson(d, "message");
    MembersOfToJson(d, "id");
    MembersOfToJson(d, "created_at");
  }

  /** The body sent is exactly the input: reading it back gives the data. */
  lemma BodyRoundTrip(d: FeedbackData)
    ensures FromJson(ToJson(d)) == Some(d)
  {
    FieldsOfToJson(d);
    if d.id.Some? {
      assert (d.id.value as real).Floor == d.id.value;
    }
  }
}

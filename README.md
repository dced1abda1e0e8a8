# Feedback app: a Dafny model of its request logic

The repository is a small feedback application: a Flask backend with one
`/feedback` resource (list with an optional rating filter and sort order,
create from a JSON body) over SQLite, and a React frontend with a typed
Feedback record, a service that calls the backend with `fetch`, and a modal
form for adding feedback. This project models the logic around those calls:

- `FeedbackTypes` — the Feedback record, `isValidFeedback` and the validating
  constructor `createFeedback` (range check, `Math.floor`, `trim`). One model
  covers `feedbackTypes.ts` and `feedbackTypes.jsx`, which have the same code.
- `FeedbackService` — `getFeedback` and `submitFeedback`: the pre-flight
  guards, the request each would hand to `fetch` (built with a modelled
  `URLSearchParams` for the GET), and how the awaited response becomes a value
  or an error. `fetch` is not performed: its outcome (an `ok` flag,
  `statusText` and the body, or a rejection) is a parameter, and each call
  reports whether a request was issued at all. One model covers the `.ts`
  and `.js` services.
- `Backend` — `get_feedback` and `post_feedback` of `backend/app.py`: the SQL
  text assembled by concatenation (the injection is modelled as it is), the
  key lookups, INSERT, commit, log line and close, each handler returning the
  ordered trace of those effects and the Flask response. What the database
  does with a statement is a function parameter.
- `AddFeedbackPageTs` and `AddFeedbackPageJs` — the two versions of the
  add-feedback modal as classes with the fields `rating`, `message`,
  `isSubmitting` and `error`, the rating and message change handlers, and
  `handleSubmit` split into its synchronous start and its settlement after
  the service call; plus the star preview `renderStars`.
- `JsBuiltins`, `Json`, `Wrappers` — the JavaScript built-ins the code relies
  on (`trim` with the ECMAScript whitespace set, `repeat`, integer `toString`,
  `parseInt` on decimal text), JSON values, and Option/Result.

A JavaScript number is a `real`; thrown values are `Thrown` (an Error with its
message, undefined or null, or any other value with its own `message`
property if it has one). The backend sees the request body as the Python
values `get_json` decodes it to (`PyValue`, with int and float apart), and
Python exceptions become the `str(e)` text the handlers put into
`{"error": ...}`.

## Model

| member | source | states |
|---|---|---|
| `JsBuiltins.TrimStartCuts` | frontend/src/feedbackTypes/feedbackTypes.ts:44 | trimming the start leaves a suffix of the input, everything cut off is whitespace, and the result does not start with whitespace |
| `JsBuiltins.TrimEndCuts` | frontend/src/feedbackTypes/feedbackTypes.ts:44 | trimming the end leaves a prefix of the input, everything cut off is whitespace, and the result does not end with whitespace |
| `JsBuiltins.TrimMeaning` | frontend/src/feedbackTypes/feedbackTypes.ts:44 | trim is the input with its outer whitespace cut off and nothing else: a middle slice with whitespace outside and no whitespace at either end of the result |
| `JsBuiltins.TrimUnique` | frontend/src/feedbackTypes/feedbackTypes.jsx:42 | any such cut of the input is the one trim makes, so the declarative description determines trim |
| `JsBuiltins.Trim` | frontend/src/feedbackTypes/feedbackTypes.ts:44 | String.prototype.trim as trimming the start, then the end; what it computes is stated by the TrimMeaning and TrimUnique lemmas |
| `JsBuiltins.TrimIdempotent` | frontend/src/AddFeedbackPage.tsx:34 | trimming an already trimmed message changes nothing |
| `JsBuiltins.Repeat` | frontend/src/AddFeedbackPage.tsx:73 | repeat throws a RangeError exactly for a negative count, carrying that count; otherwise the result has count times the length of the input and its character k is character k mod the input's length |
| `JsBuiltins.ReplicateChar` | frontend/src/AddFeedbackPage.tsx:73 | repeating a one-character string n times gives n copies of that character and no other character |
| `JsBuiltins.DigitsRoundTrip` | frontend/src/serviceFunctions/feedbackService.ts:20 | the decimal digits of a natural number read back as that number |
| `JsBuiltins.NumberToStringRoundTrip` | frontend/src/serviceFunctions/feedbackService.js:19 | parseInt reads the decimal text of any integer back as that integer, so the filter text names exactly the rating |
| `FeedbackTypes.IsValidFeedback` | frontend/src/feedbackTypes/feedbackTypes.ts:15-24 | isValidFeedback on a Feedback value: the rating lies in 1..5; its agreement with createFeedback is stated by ValidIffConstructs |
| `FeedbackTypes.CreateFeedback` | frontend/src/feedbackTypes/feedbackTypes.ts:33-46 | fails with "Rating must be a number between 1 and 5" exactly when the rating is below 1 or above 5; on success the feedback is valid, its rating is the floor of the input, its message is the trimmed input (the omitted message counting as ""), and it has no id or created_at |
| `FeedbackTypes.CreatedRatingIsStar` | frontend/src/feedbackTypes/feedbackTypes.jsx:41 | a created rating is one of the integers 1, 2, 3, 4, 5 |
| `FeedbackTypes.CreateFeedbackTrimmedArgument` | frontend/src/feedbackTypes/feedbackTypes.ts:33-44 | omitting the message is passing "", and createFeedback(r, m.trim()) equals createFeedback(r, m) |
| `FeedbackTypes.OutOfRangeIsInvalid` | frontend/src/feedbackTypes/feedbackTypes.jsx:17-20 | a rating outside 1..5 is invalid whatever the message |
| `FeedbackTypes.ValidIffConstructs` | frontend/src/feedbackTypes/feedbackTypes.ts:15-36 | the validator and the constructor's range check accept the same ratings |
| `FeedbackTypes.ConstructsItself` | frontend/src/feedbackTypes/feedbackTypes.ts:42-45 | a valid feedback with an integral rating, a trimmed message and no server fields is rebuilt unchanged by createFeedback |
| `FeedbackService.SearchParams.constructor` | frontend/src/serviceFunctions/feedbackService.ts:18 | a new parameter list is empty |
| `FeedbackService.SearchParams.Append` | frontend/src/serviceFunctions/feedbackService.js:17-20 | append adds one name/value pair at the end and keeps the others |
| `FeedbackService.SearchParamsReadBack` | frontend/src/serviceFunctions/feedbackService.ts:23 | the text params.toString() gives reads back, as URLSearchParams parses a query, as exactly the appended pairs in order, whenever no name holds & or = and no value holds & |
| `FeedbackService.QueryStringRoundTrip` | frontend/src/serviceFunctions/feedbackService.ts:18-23 | name=value pairs joined by & parse back, segment by segment, into the same list of pairs |
| `FeedbackService.GetFeedback` | frontend/src/serviceFunctions/feedbackService.ts:12-28 | a rating outside 1..5 fails with "Rating must be between 1 and 5" and issues no request; no rating requests exactly "/feedback?"; a rating in 1..5 requests "/feedback?rating=" and its decimal text; an ok response yields the body unchanged, a non-ok one "Failed to fetch feedback: " + statusText, a rejection propagates |
| `FeedbackService.Settle` | frontend/src/serviceFunctions/feedbackService.ts:24-27 | the mapping both calls apply to the awaited response: the body of an ok response, an Error with prefix and statusText otherwise, a rejection passed on; stated for each call in the GetFeedback and SubmitFeedback contracts |
| `FeedbackService.ToJson` | frontend/src/serviceFunctions/feedbackService.ts:51 | JSON.stringify of the data: absent fields left out, present ones in the order rating, message, id, created_at; that it encodes exactly the input is BodyRoundTrip |
| `FeedbackService.SubmitFeedback` | frontend/src/serviceFunctions/feedbackService.ts:35-59 | an absent or zero rating fails with "Feedback requires at least a rating" before the range check; another rating outside 1..5 fails with "Rating must be between 1 and 5"; a request is issued exactly for ratings in 1..5, message or not, and it is a POST to "/feedback" with Content-Type application/json whose body reads back as the input; a non-ok response gives "Failed to submit feedback: " + statusText |
| `FeedbackService.BodyRoundTrip` | frontend/src/serviceFunctions/feedbackService.js:45-51 | the JSON body serialises exactly the input: reading it back gives every present field and no absent one |
| `Backend.ListQuery` | backend/app.py:47-52 | the SQL text get_feedback assembles by concatenation; its shape is stated by ListQueryFrame, WhereIffFilter, RatingSplicedVerbatim, ListQueryInjective and DefaultQuery |
| `Backend.GetFeedback` | backend/app.py:39-61 | the one statement run is the assembled query; its rows come back with status 200 after the connection is closed; a failing query answers 500 with the error text and leaves the connection unclosed |
| `Backend.ListQueryFrame` | backend/app.py:47-52 | every query starts with "SELECT * FROM feedback" and ends with " ORDER BY created_at " followed by the sort text unvalidated, so ORDER BY follows any WHERE clause |
| `Backend.WhereIffFilter` | backend/app.py:49-51 | a WHERE clause follows the SELECT exactly when the rating argument is present and non-empty |
| `Backend.RatingSplicedVerbatim` | backend/app.py:51 | any non-empty rating text, "1 OR 1=1" included, stands verbatim as SQL between "WHERE rating = " and the ORDER BY clause |
| `Backend.ListQueryInjective` | backend/app.py:51 | two different rating texts never give the same query: nothing of the text is dropped or escaped |
| `Backend.DefaultQuery` | backend/app.py:45-52 | with no sort argument and no (or an empty) rating the query lists all rows ordered by created_at desc |
| `Backend.Slice50` | backend/app.py:80 | `message[:50]` succeeds exactly for a str or a list, giving the prefix of length min(50, length); for None, a bool, an int or a float it fails with "'<type name>' object is not subscriptable", for a dict with "slice(None, 50, None)" |
| `Backend.NumbersFailApart` | backend/app.py:80 | a float message, integral ones such as a decoded 3.0 included, fails with a text different from an int's |
| `Backend.PostFeedback` | backend/app.py:65-86 | a body without "message" (checked first) or without "rating" answers 500 with the KeyError text and executes no INSERT; otherwise exactly one INSERT with (message, rating), no range check, then commit, log line and close with {"status": "ok"}; a failing INSERT answers 500 uncommitted; a committed row with a 500 answer happens exactly when the message cannot be sliced; the connection is closed exactly on success |
| `AddFeedbackPageTs.RenderStars` | frontend/src/AddFeedbackPage.tsx:72-74 | renderStars succeeds exactly for a rating 0..5, and then gives five characters |
| `AddFeedbackPageTs.ErrorText` | frontend/src/AddFeedbackPage.tsx:52 | `err instanceof Error ? err.message : "Failed to submit feedback"`; compared with the .jsx page by ErrorTextsAgree |
| `AddFeedbackPageTs.RenderStarsShape` | frontend/src/AddFeedbackPage.tsx:72-74 | for a rating 0..5 the preview is five characters: that many filled stars, then empty ones |
| `AddFeedbackPageTs.RenderStarsRejects` | frontend/src/AddFeedbackPage.tsx:73 | outside 0..5 the preview throws the RangeError of the negative count |
| `AddFeedbackPageTs.ValidFormAlwaysPosts` | frontend/src/AddFeedbackPage.tsx:34-36 | with a rating 1..5, createFeedback(rating, message.trim()) succeeds and the service posts exactly that rating and the trimmed message |
| `AddFeedbackPageTs.AddFeedbackPage.constructor` | frontend/src/AddFeedbackPage.tsx:15-18 | the form starts with rating 5, message "", not submitting and no error |
| `AddFeedbackPageTs.AddFeedbackPage.HandleRatingChange` | frontend/src/AddFeedbackPage.tsx:64-66 | the rating becomes the parsed option value, one of 1..5 |
| `AddFeedbackPageTs.AddFeedbackPage.HandleMessageChange` | frontend/src/AddFeedbackPage.tsx:68-70 | the message becomes the typed text |
| `AddFeedbackPageTs.AddFeedbackPage.Stars` | frontend/src/AddFeedbackPage.tsx:108-110 | the preview of the current rating has five stars, rating of them filled |
| `AddFeedbackPageTs.AddFeedbackPage.BeginSubmit` | frontend/src/AddFeedbackPage.tsx:29-34 | starting a submit sets isSubmitting, clears the error and builds createFeedback(rating, message.trim()) |
| `AddFeedbackPageTs.AddFeedbackPage.SettleSubmit` | frontend/src/AddFeedbackPage.tsx:36-55 | on success rating returns to 5, message to "" and onFeedbackAdded then onClose run, each only if provided; on failure rating and message stay and error is the Error's message or "Failed to submit feedback"; isSubmitting ends false either way |
| `AddFeedbackPageTs.AddFeedbackPage.HandleSubmit` | frontend/src/AddFeedbackPage.tsx:24-56 | the whole handler: a request is always issued, and the final state is the reset form with no error or the unchanged form with the error text |
| `AddFeedbackPageJs.Payload` | frontend/src/AddFeedbackPage.jsx:23-26 | `{rating: parseInt(rating), message: message.trim()}`, a NaN rating as an absent one; that it is always posted for a reachable rating is ValidFormAlwaysPosts |
| `AddFeedbackPageJs.ErrorText` | frontend/src/AddFeedbackPage.jsx:44 | err.message, or "Failed to submit feedback" when that is falsy: the message of an Error or of another value that has one, the fallback when it is empty or absent, and a TypeError (no text) for undefined or null |
| `AddFeedbackPageJs.ErrorTextsAgree` | frontend/src/AddFeedbackPage.jsx:44 | the two pages show the same error text exactly for an Error with a non-empty message and for another value with no message (or the fallback) of its own; never for undefined or null |
| `AddFeedbackPageJs.ServiceErrorsAgree` | frontend/src/AddFeedbackPage.jsx:44 | every error submitFeedback raises itself is an Error with a non-empty message, so both pages show it alike |
| `AddFeedbackPageJs.ValidFormAlwaysPosts` | frontend/src/AddFeedbackPage.jsx:23-28 | every rating the form can hold, number or option text, parses to 1..5, so the payload passes the service's guards and is posted as built |
| `AddFeedbackPageJs.AddFeedbackPage.constructor` | frontend/src/AddFeedbackPage.jsx:9-12 | the form starts with the number 5, message "", not submitting and no error |
| `AddFeedbackPageJs.AddFeedbackPage.HandleRatingChange` | frontend/src/AddFeedbackPage.jsx:72 | the rating becomes the option's text, unparsed |
| `AddFeedbackPageJs.AddFeedbackPage.HandleMessageChange` | frontend/src/AddFeedbackPage.jsx:88 | the message becomes the typed text |
| `AddFeedbackPageJs.AddFeedbackPage.BeginSubmit` | frontend/src/AddFeedbackPage.jsx:19-26 | starting a submit sets isSubmitting, clears the error and builds {rating: parseInt(rating), message: message.trim()} |
| `AddFeedbackPageJs.AddFeedbackPage.SettleSubmit` | frontend/src/AddFeedbackPage.jsx:28-47 | on success the rating is the number 5 again, the message "", and the callbacks run onFeedbackAdded first; on failure the error is err.message or, when that is empty or absent, "Failed to submit feedback", except that for thrown undefined or null the error is left as it was and the handler's promise rejects; isSubmitting ends false |
| `AddFeedbackPageJs.AddFeedbackPage.HandleSubmit` | frontend/src/AddFeedbackPage.jsx:14-48 | the whole handler: a request is always issued and the final state is reset, or keeps the inputs with the error text (still "" when undefined or null was thrown, and the handler rejects) |

## Left out

- `FeedbackTypes.CreateFeedback`: the `typeof` tests and the "Message must be a string" branch, which the model's types make unreachable, and NaN, which passes both range comparisons in JavaScript (Infinity and -Infinity fail them and throw like any other out-of-range rating).
- `FeedbackTypes.IsValidFeedback`: the truthiness and `typeof object` tests on its argument; only Feedback values are modelled.
- `FeedbackService.GetFeedback`: the filter is an integer; the decimal text JavaScript gives a non-integral number is not modelled. Percent-encoding by URLSearchParams, and the decoding of `+` and `%XX` when it parses, are not modelled either, since the only name and values that occur are letters, digits and a minus sign. A body that `response.json()` cannot parse is not modelled.
- `FeedbackService.SubmitFeedback`: the body is the JSON value JSON.stringify encodes, not its text; object keys are kept in the order rating, message, id, created_at, the order every caller in the repository uses. A body that `response.json()` cannot parse is not modelled.
- `JsBuiltins.ParseInt`: only an optional minus sign followed by decimal digits; leading whitespace, a plus sign, trailing characters and radix prefixes are not modelled (no such text reaches it).
- `JsBuiltins.Repeat`: only integer counts; the RangeError's message text is engine-specific and is represented by the count.
- `Backend.PostFeedback`: the request body is a JSON object (a Python dict); other JSON bodies and `get_json` failures are not modelled. Failures of `init_db`, of opening the connection and of the commit are not modelled.
- `Backend.Slice50`: the text for a dict message is the KeyError Python 3.12 and later raise; earlier versions raise a TypeError with different text. The JSON text itself is not modelled: the body arrives as the Python values it decodes to, so whether a number literal becomes an int or a float (a fraction or an exponent makes a float) is fixed by the caller's choice of `PyInt` or `PyFloat`.
- `AddFeedbackPageJs.ErrorText`: a `message` property that is not a string (a number, an object) is not modelled; such a value is treated as having no message.
- `Backend.GetFeedback`: what rows the query returns, their order and the assignment of ids and timestamps belong to SQLite, which is represented only by the function that runs a query.
- SQLite itself: `init_db`, the CREATE TABLE schema, storage of rows, connection handling, and backend/setup_db.py.
- Flask routing, CORS, logging output and the text of `jsonify`; log lines appear only as the `LogSaved` step whose slicing can raise.
- `fetch`, promises and `async`/`await`: each service call takes the settled outcome as a parameter; the form's intermediate state while awaiting is the state after `BeginSubmit`.
- React rendering, the modal's click handling and `useEffect` refetching; App.tsx and App.jsx (including the "" to null parse at App.tsx:30), errorBoundary.tsx, index.jsx and constants/colors.js.
- The browser's constraint validation: the `required` textarea of the .jsx page keeps `handleSubmit` from running with an empty message, and the disabled submit button keeps it from running twice; the handlers themselves check neither.
- Exceptions thrown by the parent's `onFeedbackAdded` or `onClose` callbacks.

/** The Flask handlers of backend/app.py. The database is not modelled: what
    executing a statement yields is a parameter, and each handler returns the
    trace of database and log effects it performs, in order. */
module Backend {
  import opened Wrappers
  import opened Json

  /** A response as Flask sends it: a status code and the jsonify'd body. */
  datatype HttpResponse = HttpResponse(status: int, body: Json)

  /** `jsonify({"error": str(e)}), 500`: every exception a handler catches. */
  function ErrorResponse(e: string): HttpResponse {
    HttpResponse(500, JObject([("error", JString(e))]))
  }

  /** `jsonify({"status": "ok"})` with Flask's default status. */
  const StatusOk := HttpResponse(200, JObject([("status", JString("ok"))]))

  /** A Python value as `request.get_json()` decodes it: a JSON number
      written with a fraction or an exponent (`3.0`, `1e2`) becomes a float,
      any other number an int. */
  datatype PyValue =
    | PyNone
    | PyBool(b: bool)
    | PyInt(i: int)
    | PyFloat(f: real)
    | PyStr(s: string)
    | PyList(items: seq<PyValue>)
    | PyDict(entries: seq<(string, PyValue)>)

  /** `type(v).__name__`. */
  function TypeName(v: PyValue): string {
    match v
    case PyNone => "NoneType"
    case PyBool(_) => "bool"
    case PyInt(_) => "int"
    case PyFloat(_) => "float"
    case PyStr(_) => "str"
    case PyList(_) => "list"
    case PyDict(_) => "dict"
  }

  /** The steps a handler takes on its connection, and the success log line
      of post_feedback (the one step there that can raise). */
  datatype Effect =
    | RunQuery(sql: string)
    | ExecuteInsert(message: PyValue, rating: PyValue)
    | Commit
    | LogSaved(rating: PyValue, excerpt: PyValue)
    | Close

  type Row = seq<Json>

  // ---------------------------------------------------------------------
  // GET /feedback

  const SelectAll := "SELECT * FROM feedback"
  const WherePrefix := " WHERE rating = "
  const OrderPrefix := " ORDER BY created_at "

  /** `request.args.get(key)`. */
  function Arg(args: map<string, string>, key: string): Option<string> {
    if key in args then Some(args[key]) else None
  }

  /** `request.args.get("sort", "desc")`: the default only replaces an absent
      key; an empty value is kept. */
  function SortArg(args: map<string, string>): string {
    if "sort" in args then args["sort"] else "desc"
  }

  /** Python truthiness of the rating argument: present and non-empty. */
  predicate Filters(rating: Option<string>) {
    rating.Some? && rating.value != ""
  }

  /** The SQL text get_feedback assembles; neither value is escaped or checked. */
  function ListQuery(rating: Option<string>, sort: string): string {
    SelectAll + (if Filters(rating) then WherePrefix + rating.value else "") + OrderPrefix + sort
  }

  /** `jsonify(rows)`: a JSON array holding one array per fetched row. */
  function RowsJson(rows: seq<Row>): Json {
    JArray(seq(|rows|, k requires 0 <= k < |rows| => JArray(rows[k])))
  }

  /** get_feedback: build the query by successive appends, run it, close the
      connection, return every row. A failing query skips the close. */
  method GetFeedback(args: map<string, string>, run: string -> Result<seq<Row>, string>)
    returns (resp: HttpResponse, trace: seq<Effect>)
    ensures |trace| >= 1 && trace[0] == RunQuery(ListQuery(Arg(args, "rating"), SortArg(args)))
    ensures run(trace[0].sql).Ok? ==>
              resp == HttpResponse(200, RowsJson(run(trace[0].sql).value)) &&
              trace == [trace[0], Close]
    ensures run(trace[0].sql).Err? ==>
              resp == ErrorResponse(run(trace[0].sql).error) && trace == [trace[0]]
  {
    var rating := Arg(args, "rating");
    var sort := SortArg(args);
    var query := "SELECT * FROM feedback";
    if rating.Some? && rating.value != "" {
      query := query + " WHERE rating = " + rating.value;
    }
    query := query + " ORDER BY created_at " + sort;
    trace := [RunQuery(query)];
    var rows := run(query);
    if rows.Err? {
      resp := ErrorResponse(rows.error);
      return;
    }
    trace := trace + [Close];
    resp := HttpResponse(200, RowsJson(rows.value));
  }

  /** Every query starts by selecting the whole table and ends with the
      ORDER BY clause and the sort text verbatim, the WHERE clause (if any)
      in between. */
  lemma ListQueryFrame(rating: Option<string>, sort: string)
    ensures var q := ListQuery(rating, sort);
      |q| >= |SelectAll| + |OrderPrefix| + |sort| &&
      q[..|SelectAll|] == "SELECT * FROM feedback" &&
      q[|q| - |OrderPrefix| - |sort|..] == " ORDER BY created_at " + sort
  {
    var w := if Filters(rating) then WherePrefix + rating.value else "";
    var q := ListQuery(rating, sort);
    assert q == SelectAll + (w + (OrderPrefix + sort));
  }

  /** The text right after the SELECT is a WHERE clause exactly when the rating
      argument is present and non-empty. */
  lemma WhereIffFilter(rating: Option<string>, sort: string)
    ensures var q := ListQuery(rating, sort);
      (|q| >= |SelectAll| + |WherePrefix| &&
       q[|SelectAll|..|SelectAll| + |WherePrefix|] == " WHERE rating = ") <==> Filters(rating)
  {
    var q := ListQuery(rating, sort);
    var n := |SelectAll|;
    if Filters(rating) {
      assert q == SelectAll + (WherePrefix + (rating.value + OrderPrefix + sort));
      assert q[n..n + |WherePrefix|] == WherePrefix;
    } else {
      assert q == SelectAll + (OrderPrefix + sort);
      assert q[n + 1] == 'O';
      assert WherePrefix[1] == 'W';
    }
  }

  /** The rating text is spliced in verbatim: whatever the client writes
      (`1 OR 1=1` included) becomes SQL right after `WHERE rating = `,
      followed only by the ORDER BY clause. */
  lemma RatingSplicedVerbatim(r: string, sort: string)
    requires r != ""
    ensures var q := ListQuery(Some(r), sort);
      var i := |SelectAll| + |WherePrefix|;
      |q| == i + |r| + |OrderPrefix| + |sort| &&
      q[..i] == "SELECT * FROM feedback WHERE rating = " &&
      q[i..i + |r|] == r &&
      q[i + |r|..] == " ORDER BY created_at " + sort
  {
    var q := ListQuery(Some(r), sort);
    var i := |SelectAll| + |WherePrefix|;
    assert q == (SelectAll + WherePrefix) + (r + (OrderPrefix + sort));
    assert q[..i] == SelectAll + WherePrefix;
    assert (r + (OrderPrefix + sort))[..|r|] == r;
  }

  /** Distinct filter texts give distinct queries: the splice keeps all of them. */
  lemma ListQueryInjective(a: string, b: string, sort: string)
    requires a != "" && b != ""
    requires ListQuery(Some(a), sort) == ListQuery(Some(b), sort)
    ensures a == b
  {
    RatingSplicedVerbatim(a, sort);
    RatingSplicedVerbatim(b, sort);
  }

  /** With neither argument (or an empty rating) the whole table is listed,
      newest first. */
  lemma DefaultQuery(args: map<string, string>)
    requires "sort" !in args
    requires "rating" !in args || args["rating"] == ""
    ensures ListQuery(Arg(args, "rating"), SortArg(args)) ==
            "SELECT * FROM feedback" + " ORDER BY created_at desc"
  {
    assert ListQuery(Arg(args, "rating"), SortArg(args)) == SelectAll + OrderPrefix + "desc";
    assert OrderPrefix + "desc" == " ORDER BY created_at desc";
  }

  // ---------------------------------------------------------------------
  // POST /feedback

  const SliceLength := 50

  /** `value[:50]` on a decoded body value, or the text of the exception
      slicing raises: a TypeError naming the type for anything that is not a
      sequence, and for a dict the KeyError of the slice (Python 3.12 on). */
  function Slice50(v: PyValue): (r: Result<PyValue, string>)
    ensures r.Ok? <==> v.PyStr? || v.PyList?
    ensures v.PyStr? ==> r.value.PyStr? && r.value.s <= v.s &&
                         |r.value.s| == if |v.s| < 50 then |v.s| else 50
    ensures v.PyList? ==> r.value.PyList? && r.value.items <= v.items &&
                          |r.value.items| == if |v.items| < 50 then |v.items| else 50
    ensures r.Err? && !v.PyDict? ==> r.error == "'" + TypeName(v) + "' object is not subscriptable"
    ensures v.PyDict? ==> r.error == "slice(None, 50, None)"
  {
    match v
    case PyStr(s) => Ok(PyStr(if |s| <= SliceLength then s else s[..SliceLength]))
    case PyList(xs) => Ok(PyList(if |xs| <= SliceLength then xs else xs[..SliceLength]))
    case PyDict(_) => Err("slice(None, 50, None)")
    case _ => Err("'" + TypeName(v) + "' object is not subscriptable")
  }

  /** The two number types fail apart: a float message, integral or not
      (the decoded `3.0`), is reported as a float, never as an int. */
  lemma NumbersFailApart(x: real, n: int)
    ensures Slice50(PyFloat(x)).Err? && Slice50(PyInt(n)).Err?
    ensures Slice50(PyFloat(x)).error != Slice50(PyInt(n)).error
  {
    var a := Slice50(PyFloat(x)).error;
    var b := Slice50(PyInt(n)).error;
    assert a[1] == 'f';
    assert b[1] == 'i';
  }

  predicate NoInsert(trace: seq<Effect>) {
    forall k :: 0 <= k < |trace| ==> !trace[k].ExecuteInsert?
  }

  /** post_feedback on the decoded JSON body `data`. `execute` is what the
      INSERT does with its two parameters: None when it succeeds, otherwise
      the text of the exception. The key lookups happen while the INSERT's
      arguments are evaluated, message first. */
  method PostFeedback(data: map<string, PyValue>, execute: (PyValue, PyValue) -> Option<string>)
    returns (resp: HttpResponse, trace: seq<Effect>)
    ensures "message" !in data ==> resp == ErrorResponse("'message'") && trace == []
    ensures "message" in data && "rating" !in data ==> resp == ErrorResponse("'rating'") && trace == []
    ensures NoInsert(trace) <==> "message" !in data || "rating" !in data
    ensures "message" in data && "rating" in data ==>
              var m, r := data["message"], data["rating"];
              trace[0] == ExecuteInsert(m, r) && NoInsert(trace[1..]) &&
              (execute(m, r).Some? ==> resp == ErrorResponse(execute(m, r).value) && trace == [trace[0]]) &&
              (execute(m, r).None? && Slice50(m).Err? ==>
                 resp == ErrorResponse(Slice50(m).error) && trace == [trace[0], Commit]) &&
              (execute(m, r).None? && Slice50(m).Ok? ==>
                 resp == HttpResponse(200, JObject([("status", JString("ok"))])) &&
                 trace == [trace[0], Commit, LogSaved(r, Slice50(m).value), Close])
    // the row persists yet the client sees 500 exactly when the log line fails
    ensures (Commit in trace && resp.status == 500) <==>
              "message" in data && "rating" in data &&
              execute(data["message"], data["rating"]).None? && Slice50(data["message"]).Err?
    ensures resp.status == 200 <==> Close in trace
  {
    trace := [];
    if "message" !in data {
      resp := ErrorResponse("'message'");
      return;
    }
    var message := data["message"];
    if "rating" !in data {
      resp := ErrorResponse("'rating'");
      return;
    }
    var rating := data["rating"];
    var failure := execute(message, rating);
    trace := trace + [ExecuteInsert(message, rating)];
    assert trace[0] == ExecuteInsert(message, rating);
    if failure.Some? {
      resp := ErrorResponse(failure.value);
      return;
    }
    trace := trace + [Commit];
    assert trace[0] == ExecuteInsert(message, rating);
    var excerpt := Slice50(message);
    if excerpt.Err? {
      resp := ErrorResponse(excerpt.error);
      return;
    }
    trace := trace + [LogSaved(rating, excerpt.value)];
    trace := trace + [Close];
    assert trace[0] == ExecuteInsert(message, rating);
    resp := StatusOk;
  }
}

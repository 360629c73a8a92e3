/** `execute_allowed_query`: look the query name up in the allow-list,
    apply the upper-limit parameter rewrite in place, run the allowed SQL
    against the target database and shape the outcome into text. The SQL
    engine and the rendering of one row (`str(row)`) are parameters. */
module Dispatcher {
  import opened Joining
  import opened AllowedQueries

  /** A parameter or column value as it arrives from the caller or the
      database. */
  datatype Scalar = Int(i: int) | Real(r: real) | Bool(b: bool) | Text(s: string) | Null

  /** Python's `v == 0`: true of the integer 0, the float 0.0 and `False`,
      false of every string and of `None`. */
  predicate IsZero(v: Scalar)
    ensures IsZero(v) ==> v.Int? || v.Real? || v.Bool?
    ensures v.Int? ==> (IsZero(v) <==> v.i == 0)
    ensures v.Real? ==> (IsZero(v) <==> v.r == 0.0)
    ensures v.Bool? ==> (IsZero(v) <==> !v.b)
  {
    v == Int(0) || v == Real(0.0) || v == Bool(false)
  }

  type Row = seq<Scalar>

  /** What the target database does with a statement and its parameters:
      all rows fetched, the message of an sqlite3 error it raised, or any
      other exception raised while binding or executing (an integer outside
      SQLite's 64-bit range, say). */
  datatype EngineResult = Rows(rows: seq<Row>) | SqlError(message: string) | OtherError(exception: string)

  /** How a call ends for its caller: text returned, or an exception that
      propagates. */
  datatype Reply = Returned(text: string) | Raised(exception: string)

  /** A statement handed to the target database. */
  datatype Submission = Submission(sql: string, params: seq<Scalar>)

  const NotAllowed: string := "Query not allowed or does not exist."
  const ErrorPrefix: string := "An error occurred: "

  /** The two queries whose "no upper limit" parameters are rewritten. */
  const UpperLimitQueries: seq<string> := ["purchases_by_amount_range", "customers_by_email_open_rate"]

  const LimitFlag: Scalar := Int(1)
  const UnboundedLimit: Scalar := Int(100000)

  /** The trigger of the rewrite: one of the two named queries, at least
      four parameters, and the fourth equal to 0. */
  predicate RewriteApplies(name: string, ps: seq<Scalar>)
    ensures RewriteApplies(name, ps) <==>
      && (name == "purchases_by_amount_range" || name == "customers_by_email_open_rate")
      && |ps| >= 4
      && IsZero(ps[3])
  {
    name in UpperLimitQueries && |ps| >= 4 && IsZero(ps[3])
  }

  /** The parameters after the rewrite. */
  function Rewrite(name: string, ps: seq<Scalar>): (r: seq<Scalar>)
    ensures |r| == |ps|
    ensures forall i | 0 <= i < |ps| && i != 2 && i != 3 :: r[i] == ps[i]
    ensures RewriteApplies(name, ps) ==> r[2] == LimitFlag && r[3] == UnboundedLimit
    ensures !RewriteApplies(name, ps) ==> r == ps
  {
    if RewriteApplies(name, ps) then ps[2 := LimitFlag][3 := UnboundedLimit] else ps
  }

  /** The rewrite changes the parameters exactly when its trigger holds. */
  lemma RewriteChangesIff(name: string, ps: seq<Scalar>)
    ensures Rewrite(name, ps) != ps <==> RewriteApplies(name, ps)
  {
  }

  /** Applying the rewrite a second time changes nothing: the fourth
      parameter is no longer 0. */
  lemma RewriteIdempotent(name: string, ps: seq<Scalar>)
    ensures Rewrite(name, Rewrite(name, ps)) == Rewrite(name, ps)
  {
  }

  /** Any other name is never rewritten, whatever its parameters. */
  lemma RewriteOnlyNamedQueries(name: string, ps: seq<Scalar>)
    requires name != "purchases_by_amount_range" && name != "customers_by_email_open_rate"
    ensures Rewrite(name, ps) == ps
  {
  }

  /** The documented case: `[10, 20, 0, 0]` for `purchases_by_amount_range`
      becomes `[10, 20, 1, 100000]`; a non-zero fourth parameter or a
      shorter list is left alone; `0.0` and `False` compare equal to 0 and
      trigger it, the string `"0"` does not. */
  lemma RewriteExamples()
    ensures Rewrite("purchases_by_amount_range", [Int(10), Int(20), Int(0), Int(0)])
         == [Int(10), Int(20), Int(1), Int(100000)]
    ensures Rewrite("purchases_by_amount_range", [Int(10), Int(20), Int(0), Int(5)])
         == [Int(10), Int(20), Int(0), Int(5)]
    ensures Rewrite("customers_by_email_open_rate", [Int(10), Int(20), Int(0)])
         == [Int(10), Int(20), Int(0)]
    ensures Rewrite("customers_by_email_open_rate", [Real(0.2), Real(0.9), Null, Real(0.0)])
         == [Real(0.2), Real(0.9), Int(1), Int(100000)]
    ensures Rewrite("customers_by_email_open_rate", [Real(0.2), Real(0.9), Null, Bool(false)])
         == [Real(0.2), Real(0.9), Int(1), Int(100000)]
    ensures Rewrite("purchases_by_amount_range", [Int(10), Int(20), Int(0), Text("0")])
         == [Int(10), Int(20), Int(0), Text("0")]
  {
  }

  /** The caller's request; `params` is the list the dispatcher updates in
      place. */
  class QueryExecutionParams {
    const queryName: string
    const params: array<Scalar>

    constructor (queryName: string, params: array<Scalar>)
      ensures this.queryName == queryName && this.params == params
    {
      this.queryName := queryName;
      this.params := params;
    }
  }

  /** The in-place rewrite of the caller's parameter list: entries 2 and 3
      are overwritten when the trigger holds, nothing else is touched. */
  method ApplyUpperLimitRewrite(name: string, params: array<Scalar>)
    modifies params
    ensures params[..] == Rewrite(name, old(params[..]))
  {
    if name in UpperLimitQueries {
      if params.Length >= 4 && IsZero(params[3]) {
        params[2] := LimitFlag;
        params[3] := UnboundedLimit;
      }
    }
  }

  /** `"\n".join(str(row) for row in results)`: empty for no rows, and
      otherwise led by the first row's text. */
  function RenderRows(rows: seq<Row>, render: Row -> string): (r: string)
    ensures rows == [] ==> r == ""
    ensures rows != [] ==> render(rows[0]) <= r
  {
    Join(seq(|rows|, i requires 0 <= i < |rows| => render(rows[i])), "\n")
  }

  /** No rows render as the empty string, not as a "no match" message;
      otherwise the first row's text comes first and every later row
      follows on its own line, in row order. */
  lemma RenderRowsShape(rows: seq<Row>, render: Row -> string)
    ensures rows == [] ==> RenderRows(rows, render) == ""
    ensures rows != [] ==>
      (RenderRows(rows, render)
       == render(rows[0]) + Prefixed(seq(|rows| - 1, i requires 0 <= i < |rows| - 1 => render(rows[i + 1])), "\n"))
  {
    if rows != [] {
      var lines := seq(|rows|, i requires 0 <= i < |rows| => render(rows[i]));
      JoinIsHeadThenPrefixed(lines, "\n");
      assert lines[1..] == seq(|rows| - 1, i requires 0 <= i < |rows| - 1 => render(rows[i + 1]));
    }
  }

  /** One more row adds a newline and that row's text at the end. */
  lemma RenderRowsSnoc(rows: seq<Row>, row: Row, render: Row -> string)
    requires rows != []
    ensures RenderRows(rows + [row], render) == RenderRows(rows, render) + "\n" + render(row)
  {
    var lines := seq(|rows|, i requires 0 <= i < |rows| => render(rows[i]));
    JoinSnoc(lines, "\n", render(row));
    assert lines + [render(row)] == seq(|rows + [row]|, i requires 0 <= i < |rows + [row]| => render((rows + [row])[i]));
  }

  /** What the caller gets for what the target database did: only sqlite3
      errors are caught, and come back as text carrying their message after
      a fixed prefix; every other exception propagates. */
  function Shape(outcome: EngineResult, render: Row -> string): (r: Reply)
    ensures r.Raised? <==> outcome.OtherError?
    ensures outcome.SqlError? ==>
      r.Returned? && ErrorPrefix <= r.text && r.text[|ErrorPrefix|..] == outcome.message
    ensures outcome.Rows? && outcome.rows == [] ==> r == Returned("")
  {
    match outcome
    case SqlError(msg) => Returned(ErrorPrefix + msg)
    case Rows(rows) => Returned(RenderRows(rows, render))
    case OtherError(e) => Raised(e)
  }

  /** What a call yields and leaves behind: the reply, the caller's
      parameter list afterwards, and the statement handed to the target
      database, if any. */
  datatype Outcome = Outcome(reply: Reply, params: seq<Scalar>, submitted: Option<Submission>)

  /** The whole dispatch, on values. */
  function Dispatch(store: Store, name: string, ps: seq<Scalar>,
                    engine: (string, seq<Scalar>) -> EngineResult, render: Row -> string): (o: Outcome)
    ensures o.submitted.None? <==> !Named(store, name)
    ensures o.submitted.None? ==> o.reply == Returned(NotAllowed) && o.params == ps
    ensures o.submitted.Some? ==> LookupSql(store, name) == Some(o.submitted.value.sql)
    ensures o.submitted.Some? ==> o.params == Rewrite(name, ps) && o.submitted.value.params == o.params
    ensures o.submitted.Some? ==> o.reply == Shape(engine(o.submitted.value.sql, o.params), render)
    ensures o.reply.Raised? <==> o.submitted.Some? && engine(o.submitted.value.sql, o.params).OtherError?
  {
    match LookupSql(store, name)
    case None => Outcome(Returned(NotAllowed), ps, None)
    case Some(sql) =>
      var rewritten := Rewrite(name, ps);
      Outcome(Shape(engine(sql, rewritten), render), rewritten, Some(Submission(sql, rewritten)))
  }

  /** An unknown name is rejected with the fixed message, the parameters
      are untouched and nothing reaches the target database. */
  lemma UnknownNameRejected(store: Store, name: string, ps: seq<Scalar>,
                            engine: (string, seq<Scalar>) -> EngineResult, render: Row -> string)
    requires forall i | 0 <= i < |store| :: store[i].name != name
    ensures Dispatch(store, name, ps, engine, render) == Outcome(Returned(NotAllowed), ps, None)
  {
  }

  /** For a listed name the target database runs the SQL of the first row
      with that name, on the rewritten parameters; an sqlite3 error comes
      back as returned text, rows as newline-joined text, and any other
      exception propagates with the parameters already rewritten. */
  lemma KnownNameExecuted(store: Store, name: string, ps: seq<Scalar>,
                          engine: (string, seq<Scalar>) -> EngineResult, render: Row -> string, i: nat)
    requires i < |store| && store[i].name == name
    requires forall j | 0 <= j < i :: store[j].name != name
    ensures var o := Dispatch(store, name, ps, engine, render);
      && o.submitted == Some(Submission(store[i].sql, Rewrite(name, ps)))
      && o.params == Rewrite(name, ps)
      && (engine(store[i].sql, Rewrite(name, ps)).SqlError? ==>
            o.reply == Returned(ErrorPrefix + engine(store[i].sql, Rewrite(name, ps)).message))
      && (engine(store[i].sql, Rewrite(name, ps)).Rows? ==>
            o.reply == Returned(RenderRows(engine(store[i].sql, Rewrite(name, ps)).rows, render)))
      && (engine(store[i].sql, Rewrite(name, ps)).OtherError? ==>
            o.reply == Raised(engine(store[i].sql, Rewrite(name, ps)).exception))
  {
  }

  /** A listed query that matches no rows returns the empty string, which
      is distinguishable from the rejection of an unknown name. */
  lemma EmptyResultIsNotRejection(store: Store, name: string, ps: seq<Scalar>,
                                  engine: (string, seq<Scalar>) -> EngineResult, render: Row -> string)
    requires Named(store, name)
    requires engine(LookupSql(store, name).value, Rewrite(name, ps)) == Rows([])
    ensures Dispatch(store, name, ps, engine, render).reply == Returned("")
    ensures Dispatch(store, name, ps, engine, render).reply != Returned(NotAllowed)
  {
  }

  /** `execute_allowed_query`. Yields the reply (text, or the exception
      that propagates) and the statement handed to the target database
      (None when the name is rejected before any connection to it is made);
      the request's parameter array is the only thing changed. */
  method ExecuteAllowedQuery(store: Store, request: QueryExecutionParams,
                             engine: (string, seq<Scalar>) -> EngineResult, render: Row -> string)
    returns (reply: Reply, submitted: Option<Submission>)
    modifies request.params
    ensures var o := Dispatch(store, request.queryName, old(request.params[..]), engine, render);
      reply == o.reply && request.params[..] == o.params && submitted == o.submitted
  {
    var allowedQuery := LookupSql(store, request.queryName);
    if allowedQuery.None? {
      return Returned(NotAllowed), None;
    }
    var querySql := allowedQuery.value;

    ApplyUpperLimitRewrite(request.queryName, request.params);

    var bound := request.params[..];
    submitted := Some(Submission(querySql, bound));
    match engine(querySql, bound)
    case Rows(results) =>
      reply := Returned(RenderRows(results, render));
    case SqlError(msg) =>
      reply := Returned(ErrorPrefix + msg);
    case OtherError(e) =>
      reply := Raised(e);
  }
}

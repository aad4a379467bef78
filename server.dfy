/** The table-store server: one row inserted per append, messages listed by
    a query built from the request, and the follow mode that re-runs the
    query for rows after the time of the previous pass. */
module BigQuery {
  import opened Model
  import opened Service
  import opened Query

  // ---------------------------------------------------------------------------
  // Construction

  /** The options the server is constructed with. */
  datatype ServerOption =
    | WithBigQueryClient(client: BigQueryClient)
    | WithLogMetadataManager(lmm: LogMetadataManager)
    | WithKeyManager(km: KeyManager)

  /** The collaborators the options set. */
  datatype Settings = Settings(client: Option<BigQueryClient>, lmm: Option<LogMetadataManager>, km: Option<KeyManager>)

  function Apply(s: Settings, opt: ServerOption): Settings {
    match opt
    case WithBigQueryClient(c) => s.(client := Some(c))
    case WithLogMetadataManager(m) => s.(lmm := Some(m))
    case WithKeyManager(k) => s.(km := Some(k))
  }

  /** The settings after applying `opts` in order. */
  function ApplyAll(s: Settings, opts: seq<ServerOption>): Settings
    decreases |opts|
  {
    if opts == [] then s else Apply(ApplyAll(s, opts[..|opts| - 1]), opts[|opts| - 1])
  }

  predicate SameKind(a: ServerOption, b: ServerOption) {
    a.WithBigQueryClient? == b.WithBigQueryClient? && a.WithLogMetadataManager? == b.WithLogMetadataManager?
  }

  /** The setting of `o`'s kind holds what `o` sets. */
  predicate Holds(s: Settings, o: ServerOption) {
    match o
    case WithBigQueryClient(c) => s.client == Some(c)
    case WithLogMetadataManager(m) => s.lmm == Some(m)
    case WithKeyManager(k) => s.km == Some(k)
  }

  /** The last option of each kind wins, and a kind no option names keeps its
      initial setting. */
  lemma {:induction false} LastOptionWins(s: Settings, opts: seq<ServerOption>, i: nat)
    requires i < |opts|
    requires forall j :: i < j < |opts| ==> !SameKind(opts[i], opts[j])
    ensures Holds(ApplyAll(s, opts), opts[i])
    decreases |opts|
  {
    if i < |opts| - 1 {
      LastOptionWins(s, opts[..|opts| - 1], i);
    }
  }

  lemma {:induction false} UnsetKeepsInitial(s: Settings, opts: seq<ServerOption>)
    ensures (forall o <- opts :: !o.WithBigQueryClient?) ==> ApplyAll(s, opts).client == s.client
    ensures (forall o <- opts :: !o.WithLogMetadataManager?) ==> ApplyAll(s, opts).lmm == s.lmm
    ensures (forall o <- opts :: !o.WithKeyManager?) ==> ApplyAll(s, opts).km == s.km
    decreases |opts|
  {
    if opts != [] {
      UnsetKeepsInitial(s, opts[..|opts| - 1]);
    }
  }

  // ---------------------------------------------------------------------------
  // Rows read back

  /** The cells of a result row: the query selects three columns. */
  type Values = v: seq<BqValue> | |v| >= 3 witness [BNull, BNull, BNull]

  /** One step of the row iterator: a row, or an error for that row. */
  datatype RowResult = Row(values: Values) | RowError(error: Error)

  /** The range of seconds a protocol timestamp can hold: from the start of
      year 1 to the end of year 9999. */
  const MinValidSeconds: int := -62135596800
  const MaxValidSeconds: int := 253402300800

  /** Whether an instant converts to a protocol timestamp; Dafny's division
      by a positive divisor rounds down, like the seconds of a Go time. */
  predicate ProtoRepresentable(t: Time) {
    MinValidSeconds <= t / 1_000_000_000 < MaxValidSeconds
  }

  /** The response for a row: the payload, timestamp and message ID columns
      when they hold a value of their type, the zero value otherwise. */
  function Extract(values: Values): (r: LogMessageListResponse)
    ensures r.payload == (if values[QueryColumnPayload].BBytes? then values[QueryColumnPayload].b else [])
    ensures r.timestamp.Some? <==>
      values[QueryColumnTimestamp].BTime? && ProtoRepresentable(values[QueryColumnTimestamp].t)
    ensures r.timestamp.Some? ==> r.timestamp.value == values[QueryColumnTimestamp].t
    ensures r.logMessageId == (if values[QueryColumnLogMessageID].BString? then values[QueryColumnLogMessageID].s else "")
  {
    var payload := match values[0] case BBytes(b) => b case _ => [];
    var timestamp := match values[1] case BTime(t) => if ProtoRepresentable(t) then Some(t) else None case _ => None;
    var id := match values[2] case BString(s) => s case _ => "";
    LogMessageListResponse(id, payload, timestamp)
  }

  /** The cells a result row holds for a stored row: one per column of the
      SELECT list, in its order, the payload column already decrypted to
      `plain`. */
  function SelectedCells(row: map<string, BqValue>, plain: Bytes): Values
    requires "timestamp" in row && "log_message_id" in row
  {
    seq(3, i requires 0 <= i < 3 =>
      if SelectColumns[i] == DecryptPayload then BBytes(plain) else row[SelectColumns[i]])
  }

  /** A message inserted by an append and read back by the query lists with
      its ID, its decrypted payload and its timestamp: the positions Extract
      reads are those of the SELECT list. */
  lemma ExtractSelectedSave(m: LogMessage, plain: Bytes)
    requires ProtoRepresentable(m.timestamp)
    ensures Extract(SelectedCells(Save(m).row, plain)) == LogMessageListResponse(m.logMessageID, plain, Some(m.timestamp))
  {
    var cells := SelectedCells(Save(m).row, plain);
    assert cells[0] == BBytes(plain) && cells[1] == BTime(m.timestamp) && cells[2] == BString(m.logMessageID);
  }

  /** The responses of one pass: one per row, in order, skipping row errors. */
  function RowResponses(rows: seq<RowResult>): (r: seq<LogMessageListResponse>)
    ensures |r| <= |rows|
    decreases |rows|
  {
    if rows == [] then []
    else RowResponses(rows[..|rows| - 1]) + match rows[|rows| - 1] case Row(v) => [Extract(v)] case RowError(_) => []
  }

  lemma {:induction false} RowResponsesAppend(a: seq<RowResult>, b: seq<RowResult>)
    ensures RowResponses(a + b) == RowResponses(a) + RowResponses(b)
    decreases |b|
  {
    if b == [] {
      assert a + b == a;
    } else {
      assert (a + b)[..|a + b| - 1] == a + b[..|b| - 1];
      RowResponsesAppend(a, b[..|b| - 1]);
    }
  }

  /** A row error contributes nothing: the row is skipped. */
  lemma RowErrorSkipped(a: seq<RowResult>, e: Error, b: seq<RowResult>)
    ensures RowResponses(a + [RowError(e)] + b) == RowResponses(a + b)
  {
    RowResponsesAppend(a + [RowError(e)], b);
    RowResponsesAppend(a, b);
  }

  /** Without row errors, the i-th response is the i-th row's. */
  lemma {:induction false} RowResponsesOfRows(rows: seq<RowResult>)
    requires forall r <- rows :: r.Row?
    ensures |RowResponses(rows)| == |rows|
    ensures forall i :: 0 <= i < |rows| ==> RowResponses(rows)[i] == Extract(rows[i].values)
    decreases |rows|
  {
    if rows != [] {
      var init := rows[..|rows| - 1];
      assert forall r <- init :: r.Row?;
      RowResponsesOfRows(init);
      assert RowResponses(rows) == RowResponses(init) + [Extract(rows[|rows| - 1].values)];
    }
  }

  // ---------------------------------------------------------------------------
  // Listing

  /** The parameters set before the first pass: the log ID and the key
      always, the bounds the request has. */
  function BaseParameters(req: LogMessageListRequest, key: string): map<string, QueryParameter> {
    var p := map["logID" := QueryParameter("logID", Text(req.logId)),
                 "encryptionKey" := QueryParameter("encryptionKey", Text(key))];
    var p := if req.startAt.Some? then p["startAt" := QueryParameter("startAt", FormattedTime(BigQueryTimestampFormat, req.startAt.value))] else p;
    if req.endAt.Some? then p["endAt" := QueryParameter("endAt", FormattedTime(BigQueryTimestampFormat, req.endAt.value))] else p
  }

  /** The parameters of pass `p`: every pass after the first asks for rows
      after the time read just after the previous pass's query. */
  function PassParameters(base: map<string, QueryParameter>, clock: nat -> Time, p: nat): map<string, QueryParameter> {
    if p == 0 then base
    else base["after" := QueryParameter("after", FormattedTime(BigQueryTimestampFormat, clock(p - 1)))]
  }

  /** Setting `after` to the time of pass `p` gives the parameters of the
      next pass. */
  lemma PassParametersNext(base: map<string, QueryParameter>, clock: nat -> Time, p: nat)
    ensures PassParameters(base, clock, p)["after" := QueryParameter("after", FormattedTime(BigQueryTimestampFormat, clock(p)))]
      == PassParameters(base, clock, p + 1)
  {
  }

  /** Which bounds each pass's query has: startAt and endAt exactly when the
      request has them, after on every pass but the first, and never before;
      the log ID and key are always set. */
  lemma PassBounds(req: LogMessageListRequest, key: string, clock: nat -> Time, p: nat)
    ensures var ps := PassParameters(BaseParameters(req, key), clock, p);
      && ps["logID"] == QueryParameter("logID", Text(req.logId))
      && ps["encryptionKey"] == QueryParameter("encryptionKey", Text(key))
      && ("startAt" in ps <==> req.startAt.Some?)
      && ("endAt" in ps <==> req.endAt.Some?)
      && ("after" in ps <==> p > 0)
      && "before" !in ps
      && (p > 0 ==> ps["after"].value == FormattedTime(BigQueryTimestampFormat, clock(p - 1)))
  {
  }

  /** `queries` are the queries of the first |queries| passes, for a client,
      a table and the parameters of the first pass: the p-th is the query
      for the parameters of pass p. */
  ghost predicate PassQueries(queries: seq<BigQuery>, c: BigQueryClient, t: Table,
                              base: map<string, QueryParameter>, clock: nat -> Time)
  {
    forall p :: 0 <= p < |queries| ==> Represents(queries[p], c, t, PassParameters(base, clock, p))
  }

  /** The query of the next pass extends the queries of the passes before. */
  lemma PassQueriesSnoc(queries: seq<BigQuery>, q: BigQuery, c: BigQueryClient, t: Table,
                        base: map<string, QueryParameter>, clock: nat -> Time)
    requires PassQueries(queries, c, t, base, clock)
    requires Represents(q, c, t, PassParameters(base, clock, |queries|))
    ensures PassQueries(queries + [q], c, t, base, clock)
  {
    forall p | 0 <= p < |queries| + 1
      ensures Represents((queries + [q])[p], c, t, PassParameters(base, clock, p))
    {
      if p < |queries| {
        assert (queries + [q])[p] == queries[p];
      }
    }
  }

  /** How a listing ends: with a result, or still following when the passes
      modelled run out. */
  datatype Outcome = Returned(err: Option<Error>) | StillFollowing

  /** The responses sent by the first n passes when the p-th read gives
      `read(p)`: each successful read's rows, in pass order. */
  function SentBy(read: nat -> Result<seq<RowResult>>, n: nat): seq<LogMessageListResponse>
    decreases n
  {
    if n == 0 then []
    else SentBy(read, n - 1) + match read(n - 1) case Success(rows) => RowResponses(rows) case Failure(_) => []
  }

  /** A listing that ran `passes` queries: every read but the last one
      succeeded; a failed last read is the result; without follow there is
      exactly one pass, and with follow a listing whose reads all succeed
      uses up all `fuel + 1` passes modelled and is still following. */
  ghost predicate ListedPasses(follow: bool, read: nat -> Result<seq<RowResult>>, fuel: nat,
                               outcome: Outcome, passes: nat, sent: seq<LogMessageListResponse>)
  {
    && 1 <= passes <= fuel + 1
    && (!follow ==> passes == 1)
    && (forall j :: 0 <= j < passes - 1 ==> read(j).Success?)
    && sent == SentBy(read, passes)
    && (read(passes - 1).Failure? ==> outcome == Returned(Some(read(passes - 1).error)))
    && (read(passes - 1).Success? ==>
          if follow then outcome == StillFollowing && passes == fuel + 1 else outcome == Returned(None))
  }

  /** The first n reads succeed. */
  predicate ReadsSucceed(read: nat -> Result<seq<RowResult>>, n: nat) {
    forall j :: 0 <= j < n ==> read(j).Success?
  }

  /** The pass at index p ends the listing, after p successful passes that
      each went on following: with its read's error, after one pass without
      follow, or as the last pass modelled. */
  lemma {:induction false} LastPass(follow: bool, read: nat -> Result<seq<RowResult>>, fuel: nat, p: nat, passes: nat,
                                    outcome: Outcome, before: seq<LogMessageListResponse>, sent: seq<LogMessageListResponse>)
    requires passes == p + 1 && p <= fuel && (p > 0 ==> follow)
    requires ReadsSucceed(read, p)
    requires before == SentBy(read, p)
    requires read(p).Failure? ==> outcome == Returned(Some(read(p).error)) && sent == before
    requires read(p).Success? ==> sent == before + RowResponses(read(p).value)
    requires read(p).Success? && !follow ==> outcome == Returned(None)
    requires read(p).Success? && follow ==> outcome == StillFollowing && p == fuel
    ensures ListedPasses(follow, read, fuel, outcome, passes, sent)
  {
    assert SentBy(read, p + 1) == SentBy(read, p) + match read(p) case Success(rows) => RowResponses(rows) case Failure(_) => [];
  }

  /** The outcome, the number of passes and what is sent are determined by
      the reads, the follow flag and the passes modelled. */
  lemma ListedPassesUnique(follow: bool, read: nat -> Result<seq<RowResult>>, fuel: nat,
                           o1: Outcome, n1: nat, sent1: seq<LogMessageListResponse>,
                           o2: Outcome, n2: nat, sent2: seq<LogMessageListResponse>)
    requires ListedPasses(follow, read, fuel, o1, n1, sent1)
    requires ListedPasses(follow, read, fuel, o2, n2, sent2)
    ensures o1 == o2 && n1 == n2 && sent1 == sent2
  {
    if n1 < n2 {
      assert false;
    } else if n2 < n1 {
      assert false;
    }
  }

  /** A listing ends with an error exactly when its last read failed, so a
      pass whose read succeeds never ends the listing with an error. */
  lemma ErrorOnlyFromRead(follow: bool, read: nat -> Result<seq<RowResult>>, fuel: nat,
                          outcome: Outcome, passes: nat, sent: seq<LogMessageListResponse>)
    requires ListedPasses(follow, read, fuel, outcome, passes, sent)
    ensures outcome.Returned? && outcome.err.Some? <==> read(passes - 1).Failure?
  {
  }

  /** The rows of the successful reads among the first n, in pass order. */
  function RowsReadBy(read: nat -> Result<seq<RowResult>>, n: nat): seq<RowResult>
    decreases n
  {
    if n == 0 then []
    else RowsReadBy(read, n - 1) + match read(n - 1) case Success(rows) => rows case Failure(_) => []
  }

  /** What the first n passes send is the responses for all the rows their
      successful reads gave, as if read in one pass: a failed read sends
      nothing and pass boundaries do not matter. */
  lemma {:induction false} SentByRowsRead(read: nat -> Result<seq<RowResult>>, n: nat)
    ensures SentBy(read, n) == RowResponses(RowsReadBy(read, n))
    decreases n
  {
    if n > 0 {
      SentByRowsRead(read, n - 1);
      match read(n - 1) {
        case Success(rows) =>
          RowResponsesAppend(RowsReadBy(read, n - 1), rows);
        case Failure(_) =>
          assert RowsReadBy(read, n) == RowsReadBy(read, n - 1);
      }
    }
  }

  // ---------------------------------------------------------------------------
  // The server

  class BigQueryServer {
    const client: Option<BigQueryClient>
    const table: Option<Table>
    const keyManager: Option<KeyManager>
    const logMetadataManager: Option<LogMetadataManager>

    /** The server for `table` with the options applied in order. */
    constructor (table: Option<Table>, opts: seq<ServerOption>)
      ensures this.table == table
      ensures Settings(client, logMetadataManager, keyManager) == ApplyAll(Settings(None, None, None), opts)
    {
      var s := Settings(None, None, None);
      for i := 0 to |opts|
        invariant s == ApplyAll(Settings(None, None, None), opts[..i])
      {
        assert opts[..i + 1][..i] == opts[..i];
        s := Apply(s, opts[i]);
      }
      assert opts[..|opts|] == opts;
      this.table := table;
      client, logMetadataManager, keyManager := s.client, s.lmm, s.km;
    }

    /** Rejects a request without context or name before asking the
        metadata manager; otherwise the manager's log ID, or its error. */
    method Create(req: LogCreateRequest) returns (r: Result<LogCreateResponse>)
      requires logMetadataManager.Some?
      requires ValidCreate(req) ==> logMetadataManager.value.NextCreate(RequestedLog(req)) != Success(None)
      modifies logMetadataManager.value`calls
      ensures !ValidCreate(req) ==>
        r == Failure(ErrInvalid) && logMetadataManager.value.calls == old(logMetadataManager.value.calls)
      ensures ValidCreate(req) ==>
        logMetadataManager.value.calls == old(logMetadataManager.value.calls) + [CreateCall(RequestedLog(req))]
      ensures ValidCreate(req) ==>
        match old(logMetadataManager.value.NextCreate(RequestedLog(req)))
        case Failure(e) => r == Failure(e)
        case Success(lm) => r == Success(LogCreateResponse(lm.value.logID))
    {
      if req.context == "" || req.name == "" {
        return Failure(ErrInvalid);
      }
      var lm := logMetadataManager.value.Create(Log(req.context, req.name));
      if lm.Failure? {
        return Failure(lm.error);
      }
      r := Success(LogCreateResponse(lm.value.value.logID));
    }

    /** A no-op. */
    method Delete(req: LogDeleteRequest) returns (r: Result<Option<LogDeleteResponse>>)
      ensures r == Success(None)
    {
      r := Success(None);
    }

    /** A no-op that sends nothing. */
    method List(req: LogListRequest) returns (err: Option<Error>)
      ensures err == None
    {
      err := None;
    }

    /** Encrypts the payload with the log's key and inserts one row for the
        message, with the fresh ID `freshId` and the caller's timestamp or
        `now`; `put` is the insert's outcome for a batch.  A metadata or
        encryption error is returned before any insert, and a failed insert
        gives its error. */
    method MessageAppend(req: LogMessageAppendRequest, now: Time, freshId: string, put: seq<SavedRow> -> Option<Error>)
      returns (r: Result<LogMessageAppendResponse>, batch: seq<SavedRow>)
      requires logMetadataManager.Some? && keyManager.Some? && table.Some?
      requires logMetadataManager.value.NextGet(req.logId) != Success(None)
      modifies logMetadataManager.value`calls
      ensures logMetadataManager.value.calls == old(logMetadataManager.value.calls) + [GetCall(req.logId)]
      ensures old(logMetadataManager.value.NextGet(req.logId)).Failure? ==>
        r == Failure(old(logMetadataManager.value.NextGet(req.logId)).error) && batch == []
      ensures old(logMetadataManager.value.NextGet(req.logId)).Success? ==>
        var ct := keyManager.value.Encrypt(old(logMetadataManager.value.NextGet(req.logId)).value.value.key, req.payload);
        && (ct.Failure? ==> r == Failure(ct.error) && batch == [])
        && (ct.Success? ==>
              && batch == [Save(LogMessage(req.logId, freshId, AppendTimestamp(req, now), ct.value))]
              && r == match put(batch)
                      case Some(e) => Failure(e)
                      case None => Success(LogMessageAppendResponse(req.logId, freshId)))
    {
      batch := [];
      var lm := logMetadataManager.value.Get(req.logId);
      if lm.Failure? {
        return Failure(lm.error), batch;
      }
      var ct := keyManager.value.Encrypt(lm.value.value.key, req.payload);
      if ct.Failure? {
        return Failure(ct.error), batch;
      }
      var ts := if req.timestamp.Some? then req.timestamp.value else now;
      var message := LogMessage(req.logId, freshId, ts, ct.value);
      batch := [Save(message)];
      var err := put(batch);
      if err.Some? {
        return Failure(err.value), batch;
      }
      r := Success(LogMessageAppendResponse(message.logID, message.logMessageID));
    }

    /** The builder for a listing: this server's client and table, the log
        ID, the key and the request's bounds. */
    method NewListingBuilder(req: LogMessageListRequest, key: string) returns (qb: QueryBuilder)
      requires client.Some? && table.Some?
      ensures fresh(qb) && qb.Valid()
      ensures qb.client == client && qb.table == table
      ensures qb.parameters == BaseParameters(req, key)
    {
      qb := new QueryBuilder();
      qb.WithClient(client.value);
      qb.WithTable(table.value);
      qb.WithLog(req.logId);
      qb.WithEncryptionKey(key);
      if req.startAt.Some? {
        qb.WithStartAt(req.startAt.value);
      }
      if req.endAt.Some? {
        qb.WithEndAt(req.endAt.value);
      }
    }

    /** The responses one pass sends for the rows it reads: one per row, in
        row order, each with the row's columns, row errors skipped. */
    method SendRows(rows: seq<RowResult>) returns (responses: seq<LogMessageListResponse>)
      ensures responses == RowResponses(rows)
    {
      responses := [];
      var i := 0;
      while i < |rows|
        invariant i <= |rows|
        invariant responses == RowResponses(rows[..i])
      {
        assert rows[..i + 1][..i] == rows[..i];
        match rows[i] {
          case RowError(_) =>
          case Row(values) =>
            responses := responses + [Extract(values)];
        }
        i := i + 1;
      }
      assert rows[..|rows|] == rows;
    }

    /** Lists the log's messages.  Each pass builds the query from the
        request (the log ID, the key, the request's bounds and, after the
        first pass, the time taken just after the previous pass's read, as
        given by `clock`), reads it (the p-th read gives `read(p)`) and sends
        one response per row, skipping row errors; failed sends are ignored,
        so `sent` is every response handed to the stream.  A failed read
        ends the listing with its error; otherwise the listing ends after
        one pass without follow, and with follow goes on for `fuel` more
        passes. */
    method MessageList(req: LogMessageListRequest, clock: nat -> Time, read: nat -> Result<seq<RowResult>>, fuel: nat)
      returns (outcome: Outcome, queries: seq<BigQuery>, sent: seq<LogMessageListResponse>)
      requires logMetadataManager.Some? && client.Some? && table.Some?
      requires logMetadataManager.value.NextGet(req.logId) != Success(None)
      modifies logMetadataManager.value`calls
      ensures logMetadataManager.value.calls == old(logMetadataManager.value.calls) + [GetCall(req.logId)]
      ensures old(logMetadataManager.value.NextGet(req.logId)).Failure? ==>
        outcome == Returned(Some(old(logMetadataManager.value.NextGet(req.logId)).error)) && queries == [] && sent == []
      ensures old(logMetadataManager.value.NextGet(req.logId)).Success? ==>
        var key := old(logMetadataManager.value.NextGet(req.logId)).value.value.key;
        && ListedPasses(req.follow, read, fuel, outcome, |queries|, sent)
        && forall p :: 0 <= p < |queries| ==>
             Represents(queries[p], client.value, table.value, PassParameters(BaseParameters(req, key), clock, p))
    {
      var lm := logMetadataManager.value.Get(req.logId);
      if lm.Failure? {
        return Returned(Some(lm.error)), [], [];
      }
      var key := lm.value.value.key;
      var qb := NewListingBuilder(req, key);
      outcome, queries, sent := RunPasses(qb, req.follow, clock, read, fuel);
    }

    /** One pass: the query the builder currently gives, and what reading
        it as the p-th read yields, the read error or the responses sent for
        its rows. */
    method Pass(qb: QueryBuilder, read: nat -> Result<seq<RowResult>>, queries: seq<BigQuery>,
                ghost base: map<string, QueryParameter>, ghost clock: nat -> Time)
      returns (queries': seq<BigQuery>, failed: Option<Error>, responses: seq<LogMessageListResponse>)
      requires qb.Valid() && qb.client == client && qb.table == table
      requires client.Some? && table.Some?
      requires PassQueries(queries, client.value, table.value, base, clock)
      requires qb.parameters == PassParameters(base, clock, |queries|)
      ensures PassQueries(queries', client.value, table.value, base, clock)
      ensures |queries'| == |queries| + 1
      ensures read(|queries|).Failure? ==> failed == Some(read(|queries|).error) && responses == []
      ensures read(|queries|).Success? ==> failed == None && responses == RowResponses(read(|queries|).value)
    {
      var q := qb.Build();
      PassQueriesSnoc(queries, q.value, client.value, table.value, base, clock);
      queries' := queries + [q.value];
      var it := read(|queries|);
      if it.Failure? {
        return queries', Some(it.error), [];
      }
      failed := None;
      responses := SendRows(it.value);
    }

    /** The state of a listing before pass p: the builder holds the
        parameters of pass p, the p queries so far are those of the passes
        before, their reads all succeeded and `sent` is what they sent. */
    ghost predicate Running(qb: QueryBuilder, follow: bool, clock: nat -> Time, read: nat -> Result<seq<RowResult>>,
                            fuel: nat, base: map<string, QueryParameter>, p: nat,
                            queries: seq<BigQuery>, sent: seq<LogMessageListResponse>)
      reads this, qb
    {
      && client.Some? && table.Some? && qb.client == client && qb.table == table
      && p <= fuel && (p > 0 ==> follow)
      && qb.Valid() && qb.parameters == PassParameters(base, clock, p)
      && |queries| == p
      && PassQueries(queries, client.value, table.value, base, clock)
      && ReadsSucceed(read, p)
      && sent == SentBy(read, p)
    }

    /** Pass p of a listing: either the listing ends, or the builder moves
        on to the parameters of the next pass. */
    method Step(qb: QueryBuilder, follow: bool, clock: nat -> Time, read: nat -> Result<seq<RowResult>>,
                fuel: nat, ghost base: map<string, QueryParameter>, p: nat,
                queries: seq<BigQuery>, sent: seq<LogMessageListResponse>)
      returns (done: bool, outcome: Outcome, queries': seq<BigQuery>, sent': seq<LogMessageListResponse>)
      requires Running(qb, follow, clock, read, fuel, base, p, queries, sent)
      modifies qb`parameters
      ensures done ==> ListedPasses(follow, read, fuel, outcome, |queries'|, sent')
      ensures done ==> PassQueries(queries', client.value, table.value, base, clock)
      ensures !done ==> Running(qb, follow, clock, read, fuel, base, p + 1, queries', sent')
    {
      var failed, responses;
      queries', failed, responses := Pass(qb, read, queries, base, clock);
      if failed.Some? {
        LastPass(follow, read, fuel, p, |queries'|, Returned(failed), sent, sent);
        return true, Returned(failed), queries', sent;
      }
      assert ReadsSucceed(read, p + 1);
      sent' := sent + responses;
      if !follow {
        LastPass(follow, read, fuel, p, |queries'|, Returned(None), sent, sent');
        return true, Returned(None), queries', sent';
      }
      if p == fuel {
        LastPass(follow, read, fuel, p, |queries'|, StillFollowing, sent, sent');
        return true, StillFollowing, queries', sent';
      }
      PassParametersNext(base, clock, p);
      qb.After(clock(p));
      done, outcome := false, StillFollowing;
    }

    /** The passes of a listing, from a builder holding the parameters of the
        first pass. */
    method RunPasses(qb: QueryBuilder, follow: bool, clock: nat -> Time, read: nat -> Result<seq<RowResult>>, fuel: nat)
      returns (outcome: Outcome, queries: seq<BigQuery>, sent: seq<LogMessageListResponse>)
      requires qb.Valid() && client.Some? && table.Some?
      requires qb.client == client && qb.table == table
      modifies qb`parameters
      ensures ListedPasses(follow, read, fuel, outcome, |queries|, sent)
      ensures PassQueries(queries, client.value, table.value, old(qb.parameters), clock)
    {
      ghost var base := qb.parameters;
      queries, sent := [], [];
      var p := 0;
      while true
        invariant Running(qb, follow, clock, read, fuel, base, p, queries, sent)
        decreases fuel - p
      {
        var done;
        done, outcome, queries, sent := Step(qb, follow, clock, read, fuel, base, p, queries, sent);
        if done {
          return;
        }
        p := p + 1;
      }
    }
  }
}

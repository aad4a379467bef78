/** The table query builder of the table-store server and the message row it
    inserts: named query parameters recorded in place, the query text built
    from which bounds are present, and the row a LogMessage saves as. */
module Query {
  import opened Model
  import Strings

  // ---------------------------------------------------------------------------
  // Columns of the SELECT list and the time layout

  /** The position of each selected column in a result row. */
  const QueryColumnPayload: nat := 0
  const QueryColumnTimestamp: nat := 1
  const QueryColumnLogMessageID: nat := 2

  /** The layout query times are formatted with. */
  const BigQueryTimestampFormat: string := "2006-01-02 15:04:05.999999 UTC"

  /** The payload column: decrypted inside the query with the key parameter.
      Long literals are written in short pieces so that facts about their
      characters stay cheap to prove. */
  const DecryptPayload: string :=
    "aead.decrypt_bytes(" + "FROM_BASE64(" + "@encryptionKey), " + "encrypted_payload, " + "b'')"

  /** The SELECT list, in the order of the column positions above. */
  const SelectColumns: seq<string> := [DecryptPayload, "timestamp", "log_message_id"]

  // ---------------------------------------------------------------------------
  // Values

  datatype Table = Table(projectID: string, datasetID: string, tableID: string)

  /** An opaque handle on the table store's client. */
  datatype BigQueryClient = BigQueryClient(handle: nat)

  /** A parameter's value: a string, or a time formatted with a layout (the
      formatting itself is not interpreted). */
  datatype ParameterValue = Text(s: string) | FormattedTime(layout: string, t: Time)

  datatype QueryParameter = QueryParameter(name: string, value: ParameterValue)

  /** A query ready to run: its client, its text and its parameter list. */
  datatype BigQuery = BigQuery(client: BigQueryClient, sql: string, parameters: seq<QueryParameter>)

  // ---------------------------------------------------------------------------
  // The query text

  /** An optional bound on the timestamp column, named after its parameter. */
  datatype Bound = Bound(name: string, op: string)

  /** The four bounds, in the order their lines appear. */
  const Bounds: seq<Bound> :=
    [Bound("startAt", ">="), Bound("endAt", "<="), Bound("after", ">"), Bound("before", "<")]

  const SelectLine: string := "SELECT " + DecryptPayload + ", timestamp, " + "log_message_id"

  function FromLine(t: Table): string {
    "FROM `" + Strings.Join([t.projectID, t.datasetID, t.tableID], '.') + "`"
  }

  const WhereLine: string := "WHERE log_id = @logID"

  function BoundLine(b: Bound): string {
    "AND timestamp " + b.op + " TIMESTAMP(@" + b.name + ")"
  }

  const OrderLine: string := "ORDER BY timestamp"

  /** The lines of the bounds among `bounds` whose parameter is present. */
  function BoundLines(bounds: seq<Bound>, present: set<string>): seq<string>
    decreases |bounds|
  {
    if bounds == [] then []
    else (if bounds[0].name in present then [BoundLine(bounds[0])] else [])
         + BoundLines(bounds[1..], present)
  }

  /** The query text for a table and the names of the parameters present. */
  function QueryText(t: Table, present: set<string>): string {
    Strings.Terminated([SelectLine, FromLine(t), WhereLine] + BoundLines(Bounds, present) + [OrderLine])
  }

  /** A table name that keeps the FROM line on one line. */
  predicate OneLine(t: Table) {
    '\n' !in t.projectID && '\n' !in t.datasetID && '\n' !in t.tableID
  }

  /** Lines of text without a line break. */
  predicate OneLines(lines: seq<string>) {
    forall i :: 0 <= i < |lines| ==> '\n' !in lines[i]
  }

  lemma DecryptPayloadOneLine()
    ensures '\n' !in DecryptPayload
  {
    assert '\n' !in "aead.decrypt_bytes(";
    assert '\n' !in "FROM_BASE64(";
    assert '\n' !in "@encryptionKey), ";
    assert '\n' !in "encrypted_payload, ";
    assert '\n' !in "b'')";
  }

  /** The SELECT, FROM and WHERE lines hold no line break. */
  lemma HeaderOneLine(t: Table)
    requires OneLine(t)
    ensures OneLines([SelectLine, FromLine(t), WhereLine])
  {
    DecryptPayloadOneLine();
    assert '\n' !in "SELECT ";
    assert '\n' !in ", timestamp, ";
    assert '\n' !in "log_message_id";
    JoinOneLine([t.projectID, t.datasetID, t.tableID], '.');
    assert '\n' !in "FROM `";
    assert '\n' !in WhereLine;
  }

  /** The bound names and operators and the ORDER BY line hold no line
      break. */
  lemma BoundsOneLine()
    ensures forall b <- Bounds :: '\n' !in b.name && '\n' !in b.op
    ensures '\n' !in OrderLine
  {
    assert '\n' !in "startAt" && '\n' !in ">=";
    assert '\n' !in "endAt" && '\n' !in "<=";
    assert '\n' !in "after" && '\n' !in ">";
    assert '\n' !in "before" && '\n' !in "<";
    assert '\n' !in OrderLine;
  }

  lemma {:induction false} BoundLinesOneLine(bounds: seq<Bound>, present: set<string>)
    requires forall b <- bounds :: '\n' !in b.name && '\n' !in b.op
    ensures OneLines(BoundLines(bounds, present))
    decreases |bounds|
  {
    if bounds != [] {
      BoundLinesOneLine(bounds[1..], present);
      assert '\n' !in "AND timestamp ";
      assert '\n' !in " TIMESTAMP(@";
      var head := if bounds[0].name in present then [BoundLine(bounds[0])] else [];
      assert OneLines(head);
      OneLinesConcat(head, BoundLines(bounds[1..], present));
    }
  }

  lemma OneLinesConcat(a: seq<string>, b: seq<string>)
    requires OneLines(a) && OneLines(b)
    ensures OneLines(a + b)
  {
    assert forall i :: 0 <= i < |a + b| ==> (a + b)[i] == if i < |a| then a[i] else b[i - |a|];
  }

  lemma JoinOneLine(parts: seq<string>, sep: char)
    requires |parts| > 0 && sep != '\n'
    requires forall p <- parts :: '\n' !in p
    ensures '\n' !in Strings.Join(parts, sep)
    decreases |parts|
  {
    if |parts| > 1 {
      JoinOneLine(parts[..|parts| - 1], sep);
    }
  }

  /** Read back line by line, the query text is the SELECT line, the FROM line
      of the table, the WHERE line on the log ID, one line per present bound,
      and the ORDER BY line, then nothing. */
  lemma QueryLines(t: Table, present: set<string>)
    requires OneLine(t)
    ensures Strings.Split(QueryText(t, present), '\n')
      == [SelectLine, FromLine(t), WhereLine] + BoundLines(Bounds, present) + [OrderLine, ""]
  {
    var header, bounds := [SelectLine, FromLine(t), WhereLine], BoundLines(Bounds, present);
    HeaderOneLine(t);
    BoundsOneLine();
    BoundLinesOneLine(Bounds, present);
    assert OneLines([OrderLine]);
    OneLinesConcat(header, bounds);
    OneLinesConcat(header + bounds, [OrderLine]);
    Strings.SplitTerminated(header + bounds + [OrderLine]);
  }

  /** The indices, from `i` on, of the bounds whose parameter is present. */
  ghost function Selected(bounds: seq<Bound>, present: set<string>, i: nat): seq<nat>
    requires i <= |bounds|
    decreases |bounds| - i
  {
    if i == |bounds| then []
    else (if bounds[i].name in present then [i] else []) + Selected(bounds, present, i + 1)
  }

  /** The bound lines of `bounds[i..]` are the lines of exactly the bounds
      whose parameter is present, one each, in the order of the list. */
  lemma {:induction false} BoundLinesFrom(bounds: seq<Bound>, present: set<string>, i: nat)
    requires i <= |bounds|
    ensures var P, L := Selected(bounds, present, i), BoundLines(bounds[i..], present);
      && |L| == |P|
      && (forall k :: 0 <= k < |P| ==> i <= P[k] < |bounds| && L[k] == BoundLine(bounds[P[k]]))
      && (forall k, l :: 0 <= k < l < |P| ==> P[k] < P[l])
      && (forall j :: i <= j < |bounds| ==> (j in P <==> bounds[j].name in present))
    decreases |bounds| - i
  {
    if i < |bounds| {
      BoundLinesFrom(bounds, present, i + 1);
      var P', L' := Selected(bounds, present, i + 1), BoundLines(bounds[i + 1..], present);
      assert bounds[i..][1..] == bounds[i + 1..];
      assert bounds[i..][0] == bounds[i];
      if bounds[i].name in present {
        assert BoundLines(bounds[i..], present) == [BoundLine(bounds[i])] + L';
        assert Selected(bounds, present, i) == [i] + P';
      } else {
        assert BoundLines(bounds[i..], present) == L';
        assert Selected(bounds, present, i) == P';
      }
    }
  }

  /** A bound line appears exactly for each present bound, in the order of the
      bounds: for the query, startAt, endAt, after, before. */
  lemma BoundLinesInOrder(bounds: seq<Bound>, present: set<string>)
    ensures var P, L := Selected(bounds, present, 0), BoundLines(bounds, present);
      && |L| == |P|
      && (forall k :: 0 <= k < |P| ==> P[k] < |bounds| && L[k] == BoundLine(bounds[P[k]]))
      && (forall k, l :: 0 <= k < l < |P| ==> P[k] < P[l])
      && (forall j :: 0 <= j < |bounds| ==> (j in P <==> bounds[j].name in present))
  {
    BoundLinesFrom(bounds, present, 0);
    assert bounds[0..] == bounds;
  }

  /** The literal SELECT line lists the columns in the order of their
      positions. */
  lemma SelectLineColumns()
    ensures SelectLine == "SELECT " + SelectColumns[QueryColumnPayload] + ", "
      + SelectColumns[QueryColumnTimestamp] + ", " + SelectColumns[QueryColumnLogMessageID]
  {
  }

  /** `q` is the query for a client, a table and a parameter map: the text
      for the names present, and each recorded parameter exactly once, in
      some order. */
  ghost predicate Represents(q: BigQuery, c: BigQueryClient, t: Table, parameters: map<string, QueryParameter>) {
    && q.client == c
    && q.sql == QueryText(t, parameters.Keys)
    && multiset(q.parameters) == multiset(parameters.Values)
  }

  /** A query's parameter list holds exactly the recorded parameters, none
      of them twice. */
  lemma RepresentsParameters(q: BigQuery, c: BigQueryClient, t: Table, parameters: map<string, QueryParameter>)
    requires Represents(q, c, t, parameters)
    ensures forall p :: p in q.parameters <==> p in parameters.Values
    ensures forall i, j :: 0 <= i < j < |q.parameters| ==> q.parameters[i] != q.parameters[j]
  {
    var s := q.parameters;
    forall p
      ensures p in s <==> p in parameters.Values
    {
      assert p in s <==> p in multiset(s);
    }
    forall i, j | 0 <= i < j < |s|
      ensures s[i] != s[j]
    {
      if s[i] == s[j] {
        RepeatedTwice(s, i, j);
        assert false;
      }
    }
  }

  /** An element at two positions counts twice. */
  lemma RepeatedTwice<T>(s: seq<T>, i: nat, j: nat)
    requires i < j < |s| && s[i] == s[j]
    ensures multiset(s)[s[j]] >= 2
  {
    assert s == s[..j] + [s[j]] + s[j + 1..];
    assert s[i] in s[..j];
    assert multiset(s) == multiset(s[..j]) + multiset{s[j]} + multiset(s[j + 1..]);
  }

  /** A sequence without repetitions counts each of its elements once. */
  lemma {:induction false} DistinctCounts<T>(s: seq<T>, x: T)
    requires forall i, j :: 0 <= i < j < |s| ==> s[i] != s[j]
    ensures multiset(s)[x] == if x in s then 1 else 0
    decreases |s|
  {
    if s != [] {
      var init := s[..|s| - 1];
      DistinctCounts(init, x);
      assert s == init + [s[|s| - 1]];
      assert s[|s| - 1] !in init;
    }
  }

  /** A list holding each entry of a map keyed by name once is a
      permutation of the map's values. */
  lemma EnumeratesValues(ps: seq<QueryParameter>, parameters: map<string, QueryParameter>)
    requires forall i :: 0 <= i < |ps| ==> ps[i].name in parameters && parameters[ps[i].name] == ps[i]
    requires forall i, j :: 0 <= i < j < |ps| ==> ps[i].name != ps[j].name
    requires forall k :: k in parameters ==> parameters[k] in ps
    ensures multiset(ps) == multiset(parameters.Values)
  {
    forall p | p in parameters.Values
      ensures p in ps
    {
      var k :| k in parameters && parameters[k] == p;
    }
    assert forall i, j :: 0 <= i < j < |ps| ==> ps[i] != ps[j];
    forall x
      ensures multiset(ps)[x] == multiset(parameters.Values)[x]
    {
      DistinctCounts(ps, x);
    }
  }

  // ---------------------------------------------------------------------------
  // The builder

  /** The query builder: an optional client and table, and the parameters
      recorded so far, keyed by name. */
  class QueryBuilder {
    var client: Option<BigQueryClient>
    var table: Option<Table>
    var parameters: map<string, QueryParameter>

    /** Every parameter is recorded under its own name. */
    ghost predicate Valid()
      reads this
    {
      forall k <- parameters :: parameters[k].name == k
    }

    /** A new builder: no client, no table, no parameters. */
    constructor ()
      ensures Valid()
      ensures client == None && table == None && parameters == map[]
    {
      client := None;
      table := None;
      parameters := map[];
    }

    method WithClient(c: BigQueryClient)
      modifies this`client
      ensures client == Some(c)
    {
      client := Some(c);
    }

    method WithTable(t: Table)
      modifies this`table
      ensures table == Some(t)
    {
      table := Some(t);
    }

    method WithLog(logID: string)
      requires Valid()
      modifies this`parameters
      ensures Valid()
      ensures parameters == old(parameters)["logID" := QueryParameter("logID", Text(logID))]
    {
      parameters := parameters["logID" := QueryParameter("logID", Text(logID))];
    }

    method WithEncryptionKey(key: string)
      requires Valid()
      modifies this`parameters
      ensures Valid()
      ensures parameters == old(parameters)["encryptionKey" := QueryParameter("encryptionKey", Text(key))]
    {
      parameters := parameters["encryptionKey" := QueryParameter("encryptionKey", Text(key))];
    }

    method WithStartAt(t: Time)
      requires Valid()
      modifies this`parameters
      ensures Valid()
      ensures parameters == old(parameters)["startAt" :=
        QueryParameter("startAt", FormattedTime(BigQueryTimestampFormat, t))]
    {
      parameters := parameters["startAt" := QueryParameter("startAt", FormattedTime(BigQueryTimestampFormat, t))];
    }

    method WithEndAt(t: Time)
      requires Valid()
      modifies this`parameters
      ensures Valid()
      ensures parameters == old(parameters)["endAt" :=
        QueryParameter("endAt", FormattedTime(BigQueryTimestampFormat, t))]
    {
      parameters := parameters["endAt" := QueryParameter("endAt", FormattedTime(BigQueryTimestampFormat, t))];
    }

    method After(t: Time)
      requires Valid()
      modifies this`parameters
      ensures Valid()
      ensures parameters == old(parameters)["after" :=
        QueryParameter("after", FormattedTime(BigQueryTimestampFormat, t))]
    {
      parameters := parameters["after" := QueryParameter("after", FormattedTime(BigQueryTimestampFormat, t))];
    }

    method Before(t: Time)
      requires Valid()
      modifies this`parameters
      ensures Valid()
      ensures parameters == old(parameters)["before" :=
        QueryParameter("before", FormattedTime(BigQueryTimestampFormat, t))]
    {
      parameters := parameters["before" := QueryParameter("before", FormattedTime(BigQueryTimestampFormat, t))];
    }

    /** The query for the recorded state, or None without a client (the error
        result is never set).  The builder itself is left as it was. */
    method Build() returns (r: Option<BigQuery>)
      requires Valid() && table.Some?
      ensures client.None? ==> r.None?
      ensures client.Some? ==> r.Some? && Represents(r.value, client.value, table.value, parameters)
      ensures r.Some? ==> |r.value.parameters| == |parameters|
    {
      var sql := QueryText(table.value, parameters.Keys);
      if client.None? {
        return None;
      }
      var ps: seq<QueryParameter> := [];
      var remaining := parameters.Keys;
      while remaining != {}
        invariant remaining <= parameters.Keys
        invariant |ps| + |remaining| == |parameters.Keys|
        invariant forall i :: 0 <= i < |ps| ==>
          ps[i].name in parameters && parameters[ps[i].name] == ps[i] && ps[i].name !in remaining
        invariant forall i, j :: 0 <= i < j < |ps| ==> ps[i].name != ps[j].name
        invariant forall k :: k in parameters && k !in remaining ==> parameters[k] in ps
        decreases |remaining|
      {
        var k :| k in remaining;
        ps := ps + [parameters[k]];
        remaining := remaining - {k};
      }
      EnumeratesValues(ps, parameters);
      r := Some(BigQuery(client.value, sql, ps));
    }
  }

  /** Building twice in a row gives the same text and the same parameters,
      possibly listed in another order. */
  method BuildTwice(qb: QueryBuilder) returns (first: Option<BigQuery>, second: Option<BigQuery>)
    requires qb.Valid() && qb.table.Some?
    ensures first.Some? <==> second.Some?
    ensures first.Some? ==> first.value.sql == second.value.sql
    ensures first.Some? ==> multiset(first.value.parameters) == multiset(second.value.parameters)
  {
    first := qb.Build();
    second := qb.Build();
  }

  // ---------------------------------------------------------------------------
  // The message row

  /** A stored message: its payload is the ciphertext. */
  datatype LogMessage = LogMessage(logID: string, logMessageID: string, timestamp: Time, encryptedPayload: Bytes)

  /** The loosely typed cell values of a table row. */
  datatype BqValue =
    | BString(s: string)
    | BBytes(b: Bytes)
    | BTime(t: Time)
    | BNull
    | BOther

  /** A row to insert and its insert ID. */
  datatype SavedRow = SavedRow(row: map<string, BqValue>, insertID: string)

  /** The columns of the message table. */
  const MessageColumns: set<string> := {"log_id", "log_message_id", "timestamp", "encrypted_payload"}

  /** The row a message is inserted as (the error result is never set). */
  function Save(m: LogMessage): (r: SavedRow)
    ensures r.row.Keys == MessageColumns
    ensures r.insertID == ""
  {
    SavedRow(map["log_id" := BString(m.logID), "log_message_id" := BString(m.logMessageID),
                 "timestamp" := BTime(m.timestamp), "encrypted_payload" := BBytes(m.encryptedPayload)], "")
  }

  /** Reads a message back from a row holding its four columns. */
  function Load(row: map<string, BqValue>): Option<LogMessage> {
    if "log_id" in row && row["log_id"].BString? && "log_message_id" in row && row["log_message_id"].BString?
      && "timestamp" in row && row["timestamp"].BTime? && "encrypted_payload" in row && row["encrypted_payload"].BBytes?
    then Some(LogMessage(row["log_id"].s, row["log_message_id"].s, row["timestamp"].t, row["encrypted_payload"].b))
    else None
  }

  /** Every field of a message survives its row. */
  lemma LoadSave(m: LogMessage)
    ensures Load(Save(m).row) == Some(m)
  {
  }
}

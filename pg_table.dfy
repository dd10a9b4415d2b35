/**
 * PostgresTablePollBusDriver over an in-memory model of its table: rows with a
 * serial id, recipient, sender, JSON data and a read flag. Whether the server
 * is reachable, whether an insert fails, and what other writers insert while
 * `receive` waits between polls are parameters.
 */
module PgTableBus {
  import opened Wrappers
  import opened Envelope
  import Bus

  /** The width of the `rcpt` and `sender` columns, VARCHAR(32). */
  const ColumnWidth := 32

  /** One table row; `id` is the SERIAL primary key. */
  datatype Row = Row(id: int, rcpt: Option<string>, sender: Option<string>, data: Data, read: bool)

  /** The values `send` inserts for one message. */
  datatype RowValues = RowValues(rcpt: Option<string>, sender: Option<string>, data: Data)

  /** The open connection, to the DSN it was opened with. */
  datatype Connection = Connection(dsn: string)

  /** What `_fetch_unread_messages` leaves in its two output lists. */
  datatype Fetched = Fetched(ids: seq<int>, messages: seq<BusMessage>)

  /** "postgresql://" + user + ":" + pswd + "@" + host + ":" + port + "/" + db. */
  function Dsn(user: string, pswd: string, host: string, port: int, db: string): string
  {
    "postgresql://" + user + ":" + pswd + "@" + host + ":" + IntStr(port) + "/" + db
  }

  /** Primary keys are strictly increasing in table order and issued by the serial counter. */
  ghost predicate KeysOk(rows: seq<Row>, lastId: nat)
  {
    (forall i, j :: 0 <= i < j < |rows| ==> rows[i].id < rows[j].id) &&
    (forall i :: 0 <= i < |rows| ==> 1 <= rows[i].id <= lastId)
  }

  // ---------------------------------------------------------------- send

  predicate AllSpaces(s: string)
  {
    forall k :: 0 <= k < |s| ==> s[k] == ' '
  }

  /**
   * What assigning a string to a VARCHAR(32) column yields: a longer value
   * whose excess characters are all spaces is cut to 32 characters; any other
   * value is kept as it is (and one still too long makes the insert raise).
   */
  function Stored(v: string): (s: string)
    ensures |s| <= |v| && s == v[..|s|] && AllSpaces(v[|s|..])
    ensures |v| <= ColumnWidth ==> s == v
    ensures |s| <= ColumnWidth <==> |v| <= ColumnWidth || AllSpaces(v[ColumnWidth..])
  {
    if |v| > ColumnWidth && AllSpaces(v[ColumnWidth..]) then v[..ColumnWidth] else v
  }

  /** `str(v) if v else None`: an absent or empty recipient or sender is stored as NULL. */
  function Column(v: Option<string>): (c: Option<string>)
    ensures c.None? <==> v.None? || v.value == ""
    ensures c.Some? ==> c.value == Stored(v.value)
  {
    if v.None? || v.value == "" then None else Some(Stored(v.value))
  }

  function RowValuesOf(m: BusMessage): RowValues
  {
    RowValues(Column(m.rcpt), Column(m.sender), m.data)
  }

  function RowValuesAll(messages: seq<BusMessage>): (r: seq<RowValues>)
    ensures |r| == |messages|
    ensures forall i :: 0 <= i < |messages| ==> r[i] == RowValuesOf(messages[i])
  {
    seq(|messages|, i requires 0 <= i < |messages| => RowValuesOf(messages[i]))
  }

  predicate FitsColumn(c: Option<string>)
  {
    c.None? || |c.value| <= ColumnWidth
  }

  /** Every value fits its VARCHAR(32) column; otherwise the insert raises. */
  predicate Fits(values: seq<RowValues>)
  {
    forall i :: 0 <= i < |values| ==> FitsColumn(values[i].rcpt) && FitsColumn(values[i].sender)
  }

  /** A recipient or sender the column holds as it is: absent or at most 32 characters. */
  predicate Short(v: Option<string>)
  {
    v.None? || |v.value| <= ColumnWidth
  }

  /** A recipient or sender the column accepts: absent, at most 32 characters, or longer by spaces only. */
  predicate Storable(v: Option<string>)
  {
    v.None? || |v.value| <= ColumnWidth || AllSpaces(v.value[ColumnWidth..])
  }

  /**
   * The insert goes through exactly when every recipient and sender is
   * storable: one longer than 32 characters that would lose anything but
   * spaces makes the whole insert raise.
   */
  lemma FitsExactly(messages: seq<BusMessage>)
    ensures Fits(RowValuesAll(messages)) <==>
      forall i :: 0 <= i < |messages| ==> Storable(messages[i].rcpt) && Storable(messages[i].sender)
  {
    var values := RowValuesAll(messages);
    forall i | 0 <= i < |messages|
      ensures FitsColumn(values[i].rcpt) && FitsColumn(values[i].sender) <==> Storable(messages[i].rcpt) && Storable(messages[i].sender)
    {
      assert values[i] == RowValuesOf(messages[i]);
    }
  }

  /** The rows an insert appends: fresh serial ids after lastId, unread. */
  function NewRows(lastId: nat, values: seq<RowValues>): (r: seq<Row>)
    ensures |r| == |values|
    ensures forall i :: 0 <= i < |values| ==>
      r[i] == Row(lastId + 1 + i, values[i].rcpt, values[i].sender, values[i].data, false)
  {
    seq(|values|, i requires 0 <= i < |values| => Row(lastId + 1 + i, values[i].rcpt, values[i].sender, values[i].data, false))
  }

  /**
   * The i-th row `send` inserts: the next serial id, unread, the message's data,
   * and NULL for an absent or empty recipient or sender, which is otherwise
   * stored as the column stores it: as given when it has at most 32
   * characters, cut to 32 when the rest is spaces.
   */
  lemma InsertedRow(lastId: nat, messages: seq<BusMessage>, i: nat)
    requires i < |messages|
    ensures var row := NewRows(lastId, RowValuesAll(messages))[i];
      row.id == lastId + 1 + i && !row.read && row.data == messages[i].data &&
      (row.rcpt.None? <==> messages[i].rcpt.None? || messages[i].rcpt.value == "") &&
      (row.rcpt.Some? ==> row.rcpt.value == Stored(messages[i].rcpt.value)) &&
      (row.rcpt.Some? && |messages[i].rcpt.value| <= ColumnWidth ==> row.rcpt == messages[i].rcpt) &&
      (row.sender.None? <==> messages[i].sender.None? || messages[i].sender.value == "") &&
      (row.sender.Some? ==> row.sender.value == Stored(messages[i].sender.value)) &&
      (row.sender.Some? && |messages[i].sender.value| <= ColumnWidth ==> row.sender == messages[i].sender)
  {
    var values := RowValuesAll(messages);
    assert values[i] == RowValuesOf(messages[i]);
  }

  /** An insert keeps primary keys unique and increasing. */
  lemma InsertKeepsKeys(rows: seq<Row>, lastId: nat, values: seq<RowValues>)
    requires KeysOk(rows, lastId)
    ensures KeysOk(rows + NewRows(lastId, values), lastId + |values|)
  {
    var all := rows + NewRows(lastId, values);
    forall i, j | 0 <= i < j < |all|
      ensures all[i].id < all[j].id
    {
      if j >= |rows| && i < |rows| {
        assert all[i].id <= lastId < all[j].id;
      }
    }
  }

  // ---------------------------------------------------------------- receive

  /** The unread rows addressed to `name`, in table order. */
  function Unread(rows: seq<Row>, name: string): (r: seq<Row>)
    ensures |r| <= |rows|
    ensures forall x :: x in r ==> x in rows && x.rcpt == Some(name) && !x.read
  {
    if rows == [] then []
    else (if rows[0].rcpt == Some(name) && !rows[0].read then [rows[0]] else []) + Unread(rows[1..], name)
  }

  /** Every unread row addressed to `name` is among Unread. */
  lemma {:induction false} UnreadComplete(rows: seq<Row>, name: string, x: Row)
    requires x in rows && x.rcpt == Some(name) && !x.read
    ensures x in Unread(rows, name)
    decreases |rows|
  {
    if rows[0] != x {
      assert x in rows[1..];
      UnreadComplete(rows[1..], name, x);
    }
  }

  lemma {:induction false} UnreadAppend(a: seq<Row>, b: seq<Row>, name: string)
    ensures Unread(a + b, name) == Unread(a, name) + Unread(b, name)
    decreases |a|
  {
    if a == [] {
      assert a + b == b;
    } else {
      assert (a + b)[1..] == a[1..] + b;
      UnreadAppend(a[1..], b, name);
    }
  }

  /**
   * SELECT ... WHERE rcpt = name AND read = FALSE LIMIT limit: the first
   * `limit` unread rows addressed to `name` (in table order; the query has no
   * ORDER BY).
   */
  function Select(rows: seq<Row>, name: string, limit: nat): (r: seq<Row>)
  {
    var u := Unread(rows, name);
    if |u| <= limit then u else u[..limit]
  }

  /**
   * The select returns at most `limit` rows, each unread and addressed to
   * `name`, in table order; when it returns fewer than `limit`, it returns
   * every such row.
   */
  lemma SelectMeetsQuery(rows: seq<Row>, name: string, limit: nat)
    ensures |Select(rows, name, limit)| <= limit
    ensures |Select(rows, name, limit)| <= |Unread(rows, name)|
    ensures Select(rows, name, limit) == Unread(rows, name)[..|Select(rows, name, limit)|]
    ensures |Select(rows, name, limit)| < limit ==> Select(rows, name, limit) == Unread(rows, name)
    ensures forall x :: x in Select(rows, name, limit) ==> x in rows && x.rcpt == Some(name) && !x.read
    ensures |Select(rows, name, limit)| < limit ==>
      forall x :: x in rows && x.rcpt == Some(name) && !x.read ==> x in Select(rows, name, limit)
  {
    var u := Unread(rows, name);
    forall x | x in Select(rows, name, limit)
      ensures x in u
    {
      if |u| > limit {
        assert x in u[..limit];
      }
    }
    if |Select(rows, name, limit)| < limit {
      forall x | x in rows && x.rcpt == Some(name) && !x.read
        ensures x in Select(rows, name, limit)
      {
        UnreadComplete(rows, name, x);
      }
    }
  }

  function IdsOf(rows: seq<Row>): (r: seq<int>)
    ensures |r| == |rows|
    ensures forall i :: 0 <= i < |rows| ==> r[i] == rows[i].id
  {
    seq(|rows|, i requires 0 <= i < |rows| => rows[i].id)
  }

  /** The message a fetched row yields: its data, msg_id data.get("id"), rcpt and sender from the row. */
  function MessageOf(row: Row): BusMessage
  {
    BusMessage(row.data, IdField(row.data), row.rcpt, row.sender)
  }

  /** The id a message read back carries: its data's "id" field, if any. */
  function IdField(data: Data): MsgId
  {
    if "id" in data then Text(data["id"]) else NoId
  }

  /**
   * A message inserted by `send` and fetched back carries the data it was sent
   * with and the id field of that data; its recipient and sender are those it
   * was sent with, except that an empty one comes back as None and one cut by
   * its column comes back cut. So a message with no empty recipient or sender,
   * none longer than 32 characters, whose msg_id is its data's id field,
   * comes back unchanged.
   */
  lemma SentThenFetched(lastId: nat, messages: seq<BusMessage>, i: nat)
    requires i < |messages|
    ensures var m, back := messages[i], MessageOf(NewRows(lastId, RowValuesAll(messages))[i]);
      back.data == m.data && back.msgId == IdField(m.data) &&
      (back.rcpt.None? <==> m.rcpt.None? || m.rcpt == Some("")) &&
      (back.rcpt.Some? ==> back.rcpt.value == Stored(m.rcpt.value)) &&
      (back.sender.None? <==> m.sender.None? || m.sender == Some("")) &&
      (back.sender.Some? ==> back.sender.value == Stored(m.sender.value)) &&
      ((m.rcpt != Some("") && m.sender != Some("") && m.msgId == IdField(m.data) && Short(m.rcpt) && Short(m.sender)) ==> back == m)
  {
    InsertedRow(lastId, messages, i);
  }

  function MessagesOf(rows: seq<Row>): (r: seq<BusMessage>)
    ensures |r| == |rows|
    ensures forall i :: 0 <= i < |rows| ==> r[i] == MessageOf(rows[i])
  {
    seq(|rows|, i requires 0 <= i < |rows| => MessageOf(rows[i]))
  }

  /** UPDATE ... SET read = TRUE WHERE id = ANY(ids): exactly the rows whose id is listed become read. */
  function MarkRead(rows: seq<Row>, ids: seq<int>): (r: seq<Row>)
    ensures |r| == |rows|
    ensures forall i :: 0 <= i < |rows| ==> r[i] == rows[i].(read := rows[i].read || rows[i].id in ids)
  {
    seq(|rows|, i requires 0 <= i < |rows| => rows[i].(read := rows[i].read || rows[i].id in ids))
  }

  /** Once a fetch has marked its rows read, no later select returns any of them again. */
  lemma NoRedelivery(rows: seq<Row>, name: string, limit: nat, name': string, limit': nat)
    ensures var ids := IdsOf(Select(rows, name, limit));
      forall x :: x in Select(MarkRead(rows, ids), name', limit') ==> x.id !in ids
  {
    var ids := IdsOf(Select(rows, name, limit));
    var marked := MarkRead(rows, ids);
    SelectMeetsQuery(marked, name', limit');
    forall x | x in Select(marked, name', limit')
      ensures x.id !in ids
    {
      var j :| 0 <= j < |marked| && marked[j] == x;
      assert !marked[j].read;
    }
  }

  /** Marking read changes nothing but read flags, so primary keys stay as they were. */
  lemma MarkReadKeepsKeys(rows: seq<Row>, lastId: nat, ids: seq<int>)
    requires KeysOk(rows, lastId)
    ensures KeysOk(MarkRead(rows, ids), lastId)
  {
  }

  /** The outcome of the poll loop: the messages returned, and the table and serial counter after it. */
  datatype Polled = Polled(messages: seq<BusMessage>, rows: seq<Row>, lastId: nat)

  /**
   * The receive loop from poll k on: each poll selects and marks read in one
   * transaction; the first poll that finds rows ends the loop; after the last
   * poll before the deadline it returns nothing. Between polls, other writers
   * insert arrivals[k].
   */
  function PollLoop(rows: seq<Row>, lastId: nat, name: string, limit: nat, arrivals: seq<seq<RowValues>>, k: nat): Polled
    requires k <= |arrivals|
    decreases |arrivals| - k
  {
    var got := Select(rows, name, limit);
    if |got| > 0 then Polled(MessagesOf(got), MarkRead(rows, IdsOf(got)), lastId)
    else if k == |arrivals| then Polled([], rows, lastId)
    else PollLoop(rows + NewRows(lastId, arrivals[k]), lastId + |arrivals[k]|, name, limit, arrivals, k + 1)
  }

  /** One poll that finds nothing, followed by the arrivals of the wait after it. */
  lemma PollLoopStep(rows: seq<Row>, lastId: nat, name: string, limit: nat, arrivals: seq<seq<RowValues>>, k: nat)
    requires k < |arrivals| && Select(rows, name, limit) == []
    ensures PollLoop(rows, lastId, name, limit, arrivals, k) ==
      PollLoop(rows + NewRows(lastId, arrivals[k]), lastId + |arrivals[k]|, name, limit, arrivals, k + 1)
  {
  }

  /** A poll that finds rows ends the loop with their messages, marking exactly those rows read. */
  lemma PollLoopFound(rows: seq<Row>, lastId: nat, name: string, limit: nat, arrivals: seq<seq<RowValues>>, k: nat)
    requires k <= |arrivals| && Select(rows, name, limit) != []
    ensures var got := Select(rows, name, limit);
      PollLoop(rows, lastId, name, limit, arrivals, k) == Polled(MessagesOf(got), MarkRead(rows, IdsOf(got)), lastId)
  {
  }

  /** A last poll that finds nothing returns nothing and changes nothing. */
  lemma PollLoopTimeout(rows: seq<Row>, lastId: nat, name: string, limit: nat, arrivals: seq<seq<RowValues>>)
    requires Select(rows, name, limit) == []
    ensures PollLoop(rows, lastId, name, limit, arrivals, |arrivals|) == Polled([], rows, lastId)
  {
  }

  /**
   * A receive only appends rows and sets read flags: the serial counter never
   * goes back, every existing row keeps its id, addressee, sender and data,
   * and a row once read stays read.
   */
  lemma {:induction false} PollLoopKeepsRows(rows: seq<Row>, lastId: nat, name: string, limit: nat, arrivals: seq<seq<RowValues>>, k: nat)
    requires k <= |arrivals|
    ensures var r := PollLoop(rows, lastId, name, limit, arrivals, k);
      lastId <= r.lastId && |rows| <= |r.rows| &&
      forall i :: 0 <= i < |rows| ==> r.rows[i].(read := rows[i].read) == rows[i] && (rows[i].read ==> r.rows[i].read)
    decreases |arrivals| - k
  {
    var got := Select(rows, name, limit);
    if |got| == 0 && k < |arrivals| {
      var rows' := rows + NewRows(lastId, arrivals[k]);
      PollLoopKeepsRows(rows', lastId + |arrivals[k]|, name, limit, arrivals, k + 1);
      forall i | 0 <= i < |rows|
        ensures rows'[i] == rows[i]
      {
      }
    }
  }

  /** A receive returns at most `limit` messages, all addressed to `name`. */
  lemma {:induction false} PollLoopBounded(rows: seq<Row>, lastId: nat, name: string, limit: nat, arrivals: seq<seq<RowValues>>, k: nat)
    requires k <= |arrivals|
    ensures |PollLoop(rows, lastId, name, limit, arrivals, k).messages| <= limit
    ensures forall m :: m in PollLoop(rows, lastId, name, limit, arrivals, k).messages ==> m.rcpt == Some(name)
    decreases |arrivals| - k
  {
    var got := Select(rows, name, limit);
    SelectMeetsQuery(rows, name, limit);
    if |got| > 0 {
      forall m | m in MessagesOf(got)
        ensures m.rcpt == Some(name)
      {
        var i :| 0 <= i < |got| && MessagesOf(got)[i] == m;
        assert got[i] in got;
      }
    } else if k < |arrivals| {
      PollLoopBounded(rows + NewRows(lastId, arrivals[k]), lastId + |arrivals[k]|, name, limit, arrivals, k + 1);
    }
  }

  /** The unread rows for `name` among new rows are those addressed to it. */
  lemma {:induction false} UnreadNone(rows: seq<Row>, name: string)
    requires forall i :: 0 <= i < |rows| ==> rows[i].rcpt != Some(name)
    ensures Unread(rows, name) == []
    decreases |rows|
  {
    if rows != [] {
      UnreadNone(rows[1..], name);
    }
  }

  /** The new rows from arrivals none of which is addressed to `name` hold nothing unread for it. */
  lemma ArrivalsNotForName(rows: seq<Row>, lastId: nat, name: string, arrivals: seq<seq<RowValues>>, k: nat)
    requires k < |arrivals| && Unread(rows, name) == []
    requires forall a, v :: a in arrivals && v in a ==> v.rcpt != Some(name)
    ensures Unread(rows + NewRows(lastId, arrivals[k]), name) == []
  {
    var added := NewRows(lastId, arrivals[k]);
    forall i | 0 <= i < |added|
      ensures added[i].rcpt != Some(name)
    {
      assert arrivals[k][i] in arrivals[k];
    }
    UnreadNone(added, name);
    UnreadAppend(rows, added, name);
  }

  /**
   * With nothing unread for `name` and no other writer addressing it, receive
   * polls until the deadline and returns no messages.
   */
  lemma {:induction false} PollLoopNothingUnread(rows: seq<Row>, lastId: nat, name: string, limit: nat, arrivals: seq<seq<RowValues>>, k: nat)
    requires k <= |arrivals|
    requires Unread(rows, name) == []
    requires forall a, v :: a in arrivals && v in a ==> v.rcpt != Some(name)
    ensures PollLoop(rows, lastId, name, limit, arrivals, k).messages == []
    decreases |arrivals| - k
  {
    if k < |arrivals| {
      ArrivalsNotForName(rows, lastId, name, arrivals, k);
      PollLoopNothingUnread(rows + NewRows(lastId, arrivals[k]), lastId + |arrivals[k]|, name, limit, arrivals, k + 1);
    }
  }

  /** A receive that finds nothing leaves every existing row as it was; it only sees other writers' rows added. */
  lemma {:induction false} PollLoopNothingChanged(rows: seq<Row>, lastId: nat, name: string, limit: nat, arrivals: seq<seq<RowValues>>, k: nat)
    requires k <= |arrivals|
    requires PollLoop(rows, lastId, name, limit, arrivals, k).messages == []
    ensures var after := PollLoop(rows, lastId, name, limit, arrivals, k).rows;
      |rows| <= |after| && after[..|rows|] == rows
    decreases |arrivals| - k
  {
    if Select(rows, name, limit) != [] {
      // Excluded: such a poll returns the rows it found.
    } else if k < |arrivals| {
      var added := NewRows(lastId, arrivals[k]);
      PollLoopNothingChanged(rows + added, lastId + |arrivals[k]|, name, limit, arrivals, k + 1);
      var after := PollLoop(rows + added, lastId + |arrivals[k]|, name, limit, arrivals, k + 1).rows;
      assert after[..|rows|] == after[..|rows + added|][..|rows|];
      assert (rows + added)[..|rows|] == rows;
    } else {
      assert rows[..|rows|] == rows;
    }
  }

  // ---------------------------------------------------------------- the driver

  class PostgresTablePollBusDriver {
    const dsn: string
    const table: string
    var conn: Option<Connection>
    /** The table's rows, in insertion order, and its SERIAL counter. */
    var rows: seq<Row>
    var lastId: nat

    ghost predicate Valid()
      reads this
    {
      KeysOk(rows, lastId) && (conn.Some? ==> conn.value.dsn == dsn)
    }

    constructor (table: string, host: string, port: int, user: string, pswd: string, db: string)
      ensures Valid()
      ensures dsn == Dsn(user, pswd, host, port, db) && this.table == table
      ensures conn.None? && rows == [] && lastId == 0
    {
      dsn := Dsn(user, pswd, host, port, db);
      this.table := table;
      conn := None;
      rows, lastId := [], 0;
    }

    /** start(): connect and create the table if it does not exist; an unreachable server raises. */
    method Start(reachable: bool) returns (ok: bool)
      requires Valid()
      modifies this
      ensures Valid()
      ensures ok == reachable
      ensures conn == (if reachable then Some(Connection(dsn)) else old(conn))
      ensures rows == old(rows) && lastId == old(lastId)
    {
      if !reachable {
        return false;
      }
      conn := Some(Connection(dsn));
      return true;
    }

    /** stop(): close and forget the connection, if any. */
    method Stop()
      requires Valid()
      modifies this
      ensures Valid()
      ensures conn.None?
      ensures rows == old(rows) && lastId == old(lastId)
    {
      if conn.Some? {
        conn := None;
      }
    }

    /**
     * send(messages): connect if needed, build one row per message in order,
     * then insert them all in one atomic executemany; a value too wide for its
     * column, or any other insert failure, inserts nothing.
     */
    method Send(messages: seq<BusMessage>, reachable: bool, insertFails: bool)
      requires Valid()
      modifies this
      ensures Valid()
      ensures conn == (if old(conn).Some? then old(conn) else if reachable then Some(Connection(dsn)) else None)
      ensures var values := RowValuesAll(messages);
        if (old(conn).Some? || reachable) && !insertFails && Fits(values)
        then rows == old(rows) + NewRows(old(lastId), values) && lastId == old(lastId) + |messages|
        else rows == old(rows) && lastId == old(lastId)
    {
      if conn.None? {
        var ok := Start(reachable);
        if !ok {
          return;
        }
      }
      var values := [];
      var i := 0;
      while i < |messages|
        invariant i <= |messages|
        invariant values == RowValuesAll(messages[..i])
      {
        assert RowValuesAll(messages[..i + 1]) == RowValuesAll(messages[..i]) + [RowValuesOf(messages[i])];
        values := values + [RowValuesOf(messages[i])];
        i := i + 1;
      }
      assert messages[..i] == messages;
      if insertFails || !Fits(values) {
        return;
      }
      InsertKeepsKeys(rows, lastId, values);
      rows, lastId := rows + NewRows(lastId, values), lastId + |values|;
    }

    /** Other writers insert rows while receive sleeps between polls. */
    method Arrive(values: seq<RowValues>)
      requires Valid()
      modifies this
      ensures Valid()
      ensures rows == old(rows) + NewRows(old(lastId), values) && lastId == old(lastId) + |values|
      ensures conn == old(conn)
    {
      InsertKeepsKeys(rows, lastId, values);
      rows, lastId := rows + NewRows(lastId, values), lastId + |values|;
    }

    /**
     * _fetch_unread_messages(stream_name, limit, ids, messages): select the
     * unread rows for the stream and append each one's id and message to the
     * two lists, in lockstep. Without a connection, or with a negative limit,
     * the query raises.
     */
    method FetchUnread(name: string, limit: int, ids: seq<int>, messages: seq<BusMessage>) returns (r: Option<Fetched>)
      ensures r.None? <==> conn.None? || limit < 0
      ensures r.Some? ==> var got := Select(rows, name, limit);
        r.value.ids == ids + IdsOf(got) && r.value.messages == messages + MessagesOf(got)
    {
      if conn.None? || limit < 0 {
        return None;
      }
      var got := Select(rows, name, limit);
      var ids', messages' := ids, messages;
      var i := 0;
      while i < |got|
        invariant i <= |got|
        invariant ids' == ids + IdsOf(got[..i]) && messages' == messages + MessagesOf(got[..i])
      {
        assert IdsOf(got[..i + 1]) == IdsOf(got[..i]) + [got[i].id];
        assert MessagesOf(got[..i + 1]) == MessagesOf(got[..i]) + [MessageOf(got[i])];
        ids' := ids' + [got[i].id];
        messages' := messages' + [MessageOf(got[i])];
        i := i + 1;
      }
      assert got[..i] == got;
      return Some(Fetched(ids', messages'));
    }

    /** _mark_as_read(ids): nothing for no ids; otherwise exactly the listed rows become read. */
    method MarkAsRead(ids: seq<int>)
      requires Valid()
      modifies this
      ensures Valid()
      ensures rows == (if ids == [] then old(rows) else MarkRead(old(rows), ids))
      ensures lastId == old(lastId) && conn == old(conn)
    {
      if ids == [] {
        return;
      }
      MarkReadKeepsKeys(rows, lastId, ids);
      rows := MarkRead(rows, ids);
    }

    /**
     * One transaction of the receive loop: fetch the unread rows for the
     * stream into fresh lists, then mark those rows read.
     */
    method PollOnce(name: string, limit: int) returns (r: Option<seq<BusMessage>>)
      requires Valid() && conn.Some?
      modifies this
      ensures Valid() && conn == old(conn) && lastId == old(lastId)
      ensures limit < 0 ==> r.None? && rows == old(rows)
      ensures limit >= 0 ==> var got := Select(old(rows), name, limit);
        r == Some(MessagesOf(got)) && rows == (if got == [] then old(rows) else MarkRead(old(rows), IdsOf(got)))
    {
      var fetched := FetchUnread(name, limit, [], []);
      if fetched.None? {
        return None;
      }
      assert [] + IdsOf(Select(rows, name, limit)) == IdsOf(Select(rows, name, limit));
      assert [] + MessagesOf(Select(rows, name, limit)) == MessagesOf(Select(rows, name, limit));
      MarkAsRead(fetched.value.ids);
      return Some(fetched.value.messages);
    }

    /**
     * receive(stream_name, limit, timeout, poll_interval): connect if needed,
     * then poll until a poll finds messages or the deadline passes; one poll
     * more than there are arrivals.
     */
    method Receive(name: string, limit: int, arrivals: seq<seq<RowValues>>, reachable: bool) returns (r: Option<seq<BusMessage>>)
      requires Valid()
      modifies this
      ensures Valid()
      ensures conn == (if old(conn).Some? || reachable then Some(Connection(dsn)) else None)
      ensures !(old(conn).Some? || reachable) || limit < 0 ==> r.None? && rows == old(rows) && lastId == old(lastId)
      ensures (old(conn).Some? || reachable) && limit >= 0 ==>
        var p := PollLoop(old(rows), old(lastId), name, limit, arrivals, 0);
        r == Some(p.messages) && rows == p.rows && lastId == p.lastId
    {
      if conn.None? {
        var ok := Start(reachable);
        if !ok {
          return None;
        }
      }
      ghost var target := if limit >= 0 then PollLoop(rows, lastId, name, limit, arrivals, 0) else Polled([], rows, lastId);
      var k := 0;
      while true
        invariant k <= |arrivals|
        invariant Valid() && conn == Some(Connection(dsn))
        invariant limit < 0 ==> rows == old(rows) && lastId == old(lastId)
        invariant limit >= 0 ==> target == PollLoop(rows, lastId, name, limit, arrivals, k)
        decreases |arrivals| - k
      {
        if limit >= 0 {
          if Select(rows, name, limit) != [] {
            PollLoopFound(rows, lastId, name, limit, arrivals, k);
          } else if k == |arrivals| {
            PollLoopTimeout(rows, lastId, name, limit, arrivals);
          } else {
            PollLoopStep(rows, lastId, name, limit, arrivals, k);
          }
        }
        var polled := PollOnce(name, limit);
        if polled.None? {
          return None;
        }
        if |polled.value| > 0 || k == |arrivals| {
          return polled;
        }
        Arrive(arrivals[k]);
        k := k + 1;
      }
    }
  }

  /** Loading the module registers the driver under "pg_table". */
  method Load(factory: Bus.BusDriverFactory)
    modifies factory
    ensures factory.registry == old(factory.registry)["pg_table" := Bus.PostgresTablePollBusDriver]
  {
    factory.Register("pg_table", Bus.PostgresTablePollBusDriver);
  }
}

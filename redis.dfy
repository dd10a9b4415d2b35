/**
 * RedisBusDriver over an in-memory model of the Redis server it talks to:
 * one append-only stream of (id, fields) entries per stream name.
 * A backend error is injected as the index of the client call that raises.
 */
module RedisBus {
  import opened Wrappers
  import opened Envelope
  import Bus

  /** One stream entry: the id the server assigned and the stored field map. */
  datatype Entry = Entry(id: nat, fields: Data)

  /** The client call that raises, counted from 0 within one operation, if any. */
  type Fault = Option<nat>

  /** The stream stored under `name`; a missing key reads as an empty stream. */
  function Stream(streams: map<string, seq<Entry>>, name: string): seq<Entry>
  {
    if name in streams then streams[name] else []
  }

  /** Entry ids grow along a stream and none exceeds the last id handed out. */
  ghost predicate StreamOk(s: seq<Entry>, lastId: nat)
  {
    (forall i, j :: 0 <= i < j < |s| ==> s[i].id < s[j].id) &&
    (forall i :: 0 <= i < |s| ==> s[i].id <= lastId)
  }

  ghost predicate StreamsOk(streams: map<string, seq<Entry>>, lastId: nat)
  {
    forall name :: name in streams ==> StreamOk(streams[name], lastId)
  }

  // ---------------------------------------------------------------- send

  /** XADD name * fields: append one entry with a fresh id. */
  function Xadd(streams: map<string, seq<Entry>>, lastId: nat, name: string, fields: Data): map<string, seq<Entry>>
  {
    streams[name := Stream(streams, name) + [Entry(lastId + 1, fields)]]
  }

  /**
   * The xadd of message `i` raises: an injected backend error, no stream name
   * (rcpt None), or no fields (the client refuses an XADD of an empty mapping).
   */
  predicate XaddFails(messages: seq<BusMessage>, i: nat, fault: Fault)
    requires i < |messages|
  {
    fault == Some(i) || messages[i].rcpt.None? || messages[i].data == map[]
  }

  /** How many messages `send` adds before the first xadd that raises (all of them if none does). */
  function Added(messages: seq<BusMessage>, fault: Fault, from: nat): (k: nat)
    requires from <= |messages|
    ensures from <= k <= |messages|
    ensures forall i :: from <= i < k ==> !XaddFails(messages, i, fault)
    ensures k < |messages| ==> XaddFails(messages, k, fault)
    decreases |messages| - from
  {
    if from == |messages| || XaddFails(messages, from, fault) then from
    else Added(messages, fault, from + 1)
  }

  predicate Addressed(messages: seq<BusMessage>)
  {
    forall i :: 0 <= i < |messages| ==> messages[i].rcpt.Some?
  }

  /** The number of messages `send` gets through: those before the first xadd that raises. */
  function Sent(messages: seq<BusMessage>, fault: Fault): (k: nat)
    ensures k <= |messages|
    ensures Addressed(messages[..k])
    ensures forall i :: 0 <= i < k ==> !XaddFails(messages, i, fault)
    ensures k < |messages| ==> XaddFails(messages, k, fault)
  {
    var k := Added(messages, fault, 0);
    assert Addressed(messages[..k]) by {
      forall i | 0 <= i < k ensures messages[..k][i].rcpt.Some? {
        assert !XaddFails(messages, i, fault);
      }
    }
    k
  }

  /** The server state after xadd-ing `messages` in order, ids counting up from lastId + 1. */
  function AddAll(streams: map<string, seq<Entry>>, lastId: nat, messages: seq<BusMessage>): map<string, seq<Entry>>
    requires Addressed(messages)
    decreases |messages|
  {
    if messages == [] then streams
    else AddAll(Xadd(streams, lastId, messages[0].rcpt.value, messages[0].data), lastId + 1, messages[1..])
  }

  /** The field maps of a stream, in stream order. */
  function Fields(s: seq<Entry>): (r: seq<Data>)
    ensures |r| == |s|
  {
    if s == [] then [] else [s[0].fields] + Fields(s[1..])
  }

  /** The data of the messages addressed to `name`, in input order. */
  function DataFor(messages: seq<BusMessage>, name: string): seq<Data>
  {
    if messages == [] then []
    else (if messages[0].rcpt == Some(name) then [messages[0].data] else []) + DataFor(messages[1..], name)
  }

  lemma {:induction false} AddAllSnoc(streams: map<string, seq<Entry>>, lastId: nat, messages: seq<BusMessage>, m: BusMessage)
    requires Addressed(messages)
    requires m.rcpt.Some?
    ensures Addressed(messages + [m])
    ensures AddAll(streams, lastId, messages + [m])
         == Xadd(AddAll(streams, lastId, messages), lastId + |messages|, m.rcpt.value, m.data)
    decreases |messages|
  {
    if messages != [] {
      assert (messages + [m])[1..] == messages[1..] + [m];
      AddAllSnoc(Xadd(streams, lastId, messages[0].rcpt.value, messages[0].data), lastId + 1, messages[1..], m);
    }
  }

  /** One more addressed message: its xadd extends the fold and keeps the stream invariant. */
  lemma SendStep(streams: map<string, seq<Entry>>, lastId: nat, messages: seq<BusMessage>, i: nat)
    requires i < |messages| && messages[i].rcpt.Some?
    requires Addressed(messages[..i])
    requires StreamsOk(AddAll(streams, lastId, messages[..i]), lastId + i)
    ensures Addressed(messages[..i + 1])
    ensures AddAll(streams, lastId, messages[..i + 1])
         == Xadd(AddAll(streams, lastId, messages[..i]), lastId + i, messages[i].rcpt.value, messages[i].data)
    ensures StreamsOk(AddAll(streams, lastId, messages[..i + 1]), lastId + i + 1)
  {
    assert messages[..i + 1] == messages[..i] + [messages[i]];
    AddAllSnoc(streams, lastId, messages[..i], messages[i]);
    XaddKeepsStreamsOk(AddAll(streams, lastId, messages[..i]), lastId + i, messages[i].rcpt.value, messages[i].data);
  }

  /** Appending with the next id keeps every stream's ids growing and bounded. */
  lemma XaddKeepsStreamsOk(streams: map<string, seq<Entry>>, lastId: nat, target: string, fields: Data)
    requires StreamsOk(streams, lastId)
    ensures StreamsOk(Xadd(streams, lastId, target, fields), lastId + 1)
  {
    var next := Xadd(streams, lastId, target, fields);
    forall name | name in next ensures StreamOk(next[name], lastId + 1) {
      if name in streams {
        assert StreamOk(streams[name], lastId);
      }
    }
  }

  lemma XaddStream(streams: map<string, seq<Entry>>, lastId: nat, target: string, fields: Data, name: string)
    ensures Stream(Xadd(streams, lastId, target, fields), name)
         == Stream(streams, name) + (if target == name then [Entry(lastId + 1, fields)] else [])
  {
  }

  /**
   * Each sent message becomes one entry at the end of the stream its rcpt
   * names, holding its data, in input order; every other stream is untouched.
   */
  lemma {:induction false} SendAppendsInOrder(streams: map<string, seq<Entry>>, lastId: nat, messages: seq<BusMessage>, name: string)
    requires Addressed(messages)
    ensures Fields(Stream(AddAll(streams, lastId, messages), name)) == Fields(Stream(streams, name)) + DataFor(messages, name)
    decreases |messages|
  {
    if messages == [] {
      assert DataFor(messages, name) == [];
    } else {
      var m := messages[0];
      var rest := messages[1..];
      var next := Xadd(streams, lastId, m.rcpt.value, m.data);
      var added := if m.rcpt == Some(name) then [m.data] else [];
      var before := Fields(Stream(streams, name));
      AddAllCons(streams, lastId, messages);
      calc {
        Fields(Stream(AddAll(streams, lastId, messages), name));
        Fields(Stream(AddAll(next, lastId + 1, rest), name));
        { SendAppendsInOrder(next, lastId + 1, rest, name); }
        Fields(Stream(next, name)) + DataFor(rest, name);
        { XaddFields(streams, lastId, m.rcpt.value, m.data, name); }
        (before + added) + DataFor(rest, name);
        { AppendAssoc(before, added, DataFor(rest, name)); }
        before + (added + DataFor(rest, name));
        before + DataFor(messages, name);
      }
    }
  }

  lemma AppendAssoc<T>(a: seq<T>, b: seq<T>, c: seq<T>)
    ensures (a + b) + c == a + (b + c)
  {
  }

  lemma AddAllCons(streams: map<string, seq<Entry>>, lastId: nat, messages: seq<BusMessage>)
    requires Addressed(messages) && messages != []
    ensures Addressed(messages[1..])
    ensures AddAll(streams, lastId, messages)
         == AddAll(Xadd(streams, lastId, messages[0].rcpt.value, messages[0].data), lastId + 1, messages[1..])
  {
  }

  /** One xadd appends its fields to the named stream's field list and to no other. */
  lemma XaddFields(streams: map<string, seq<Entry>>, lastId: nat, target: string, fields: Data, name: string)
    ensures Fields(Stream(Xadd(streams, lastId, target, fields), name))
         == Fields(Stream(streams, name)) + (if target == name then [fields] else [])
  {
    XaddStream(streams, lastId, target, fields, name);
    var added := if target == name then [Entry(lastId + 1, fields)] else [];
    FieldsAppend(Stream(streams, name), added);
    assert Fields(added) == (if target == name then [fields] else []);
  }

  /** A stream that no sent message names is left exactly as it was. */
  lemma {:induction false} SendLeavesOthers(streams: map<string, seq<Entry>>, lastId: nat, messages: seq<BusMessage>, name: string)
    requires Addressed(messages)
    requires forall i :: 0 <= i < |messages| ==> messages[i].rcpt != Some(name)
    ensures Stream(AddAll(streams, lastId, messages), name) == Stream(streams, name)
    decreases |messages|
  {
    if messages != [] {
      var m := messages[0];
      var next := Xadd(streams, lastId, m.rcpt.value, m.data);
      assert Addressed(messages[1..]);
      SendLeavesOthers(next, lastId + 1, messages[1..], name);
      XaddStream(streams, lastId, m.rcpt.value, m.data, name);
    }
  }

  lemma {:induction false} FieldsAppend(a: seq<Entry>, b: seq<Entry>)
    ensures Fields(a + b) == Fields(a) + Fields(b)
    decreases |a|
  {
    if a == [] {
      assert a + b == b;
    } else {
      assert (a + b)[1..] == a[1..] + b;
      FieldsAppend(a[1..], b);
    }
  }

  // ---------------------------------------------------------------- receive

  /** XREAD {name: 0} COUNT count: the first `count` entries of the stream, or all if fewer. */
  function Head(s: seq<Entry>, count: int): (r: seq<Entry>)
    requires count >= 1
    ensures |r| <= count && |r| <= |s|
    ensures |r| == if |s| <= count then |s| else count
    ensures r == s[..|r|]
  {
    if |s| <= count then s else s[..count]
  }

  /** One received message per entry: msg_id is the entry id, data its fields. */
  function Messages(entries: seq<Entry>): (r: seq<BusMessage>)
    ensures |r| == |entries|
  {
    if entries == [] then [] else [BusMessage(entries[0].fields, Num(entries[0].id), None, None)] + Messages(entries[1..])
  }

  lemma {:induction false} MessagesAt(entries: seq<Entry>, i: nat)
    requires i < |entries|
    ensures Messages(entries)[i] == BusMessage(entries[i].fields, Num(entries[i].id), None, None)
    decreases i
  {
    if i > 0 {
      MessagesAt(entries[1..], i - 1);
    }
  }

  lemma {:induction false} MessagesSnoc(entries: seq<Entry>, e: Entry)
    ensures Messages(entries + [e]) == Messages(entries) + [BusMessage(e.fields, Num(e.id), None, None)]
    decreases |entries|
  {
    if entries != [] {
      assert (entries + [e])[1..] == entries[1..] + [e];
      MessagesSnoc(entries[1..], e);
    }
  }

  /** The redis client refuses the xread arguments: COUNT below 1 or a negative BLOCK. */
  predicate XreadRejected(count: int, block: int)
  {
    count < 1 || block < 0
  }

  /**
   * What `receive` does to the server and what it returns. Call 0 is the xread,
   * call i + 1 the xdel of the i-th entry read; the first call that raises ends
   * the operation with the fallback None, keeping the deletions done before it.
   * BLOCK 0 on an empty stream waits until an entry arrives, with no time
   * limit; that wait is outside this model, which reads the stream as it is.
   */
  function ReceiveSpec(streams: map<string, seq<Entry>>, name: string, count: int, block: int, fault: Fault)
    : (r: (Option<seq<BusMessage>>, map<string, seq<Entry>>))
    ensures forall other :: other != name ==> Stream(r.1, other) == Stream(streams, other)
    ensures |Stream(r.1, name)| <= |Stream(streams, name)|
    ensures Stream(r.1, name) == Stream(streams, name)[|Stream(streams, name)| - |Stream(r.1, name)|..]
    ensures r.0.Some? ==> |r.0.value| == |Stream(streams, name)| - |Stream(r.1, name)|
  {
    if XreadRejected(count, block) || fault == Some(0) then (None, streams)
    else
      var read := Head(Stream(streams, name), count);
      var deleted := if fault.Some? && fault.value <= |read| then fault.value - 1 else |read|;
      (if deleted == |read| then Some(Messages(read)) else None, Dropped(streams, name, deleted))
  }

  /** The server state once the first `d` entries of stream `name` are deleted. */
  function Dropped(streams: map<string, seq<Entry>>, name: string, d: nat): map<string, seq<Entry>>
    requires d <= |Stream(streams, name)|
  {
    if d == 0 then streams else streams[name := streams[name][d..]]
  }

  /** Deleting a head of one stream keeps every stream's ids growing and bounded. */
  lemma DroppedOk(streams: map<string, seq<Entry>>, lastId: nat, name: string, d: nat)
    requires StreamsOk(streams, lastId)
    requires d <= |Stream(streams, name)|
    ensures StreamsOk(Dropped(streams, name, d), lastId)
  {
    if d > 0 {
      var after := Dropped(streams, name, d);
      forall n | n in after ensures StreamOk(after[n], lastId) {
        assert StreamOk(streams[n], lastId);
        if n == name {
          SuffixOk(streams[name], lastId, d);
        }
      }
    }
  }

  /** The xdel of the next entry read: the stream loses one more entry at its head. */
  lemma XdelStep(streams: map<string, seq<Entry>>, lastId: nat, name: string, d: nat)
    requires StreamsOk(streams, lastId)
    requires d < |Stream(streams, name)|
    ensures name in Dropped(streams, name, d)
    ensures Dropped(streams, name, d)[name] == streams[name][d..]
    ensures Dropped(streams, name, d)[name := WithoutId(streams[name][d..], streams[name][d].id)] == Dropped(streams, name, d + 1)
    ensures StreamsOk(Dropped(streams, name, d + 1), lastId)
  {
    var s := streams[name];
    assert StreamOk(s, lastId);
    SuffixOk(s, lastId, d);
    DeleteFirst(s[d..], lastId);
    assert s[d..][1..] == s[d + 1..];
    DroppedOk(streams, lastId, name, d + 1);
  }

  /** XDEL name id: drop the entries with that id. */
  function WithoutId(s: seq<Entry>, id: nat): (r: seq<Entry>)
    ensures |r| <= |s|
  {
    if s == [] then []
    else if s[0].id == id then WithoutId(s[1..], id)
    else [s[0]] + WithoutId(s[1..], id)
  }

  lemma {:induction false} WithoutAbsentId(s: seq<Entry>, id: nat)
    requires forall i :: 0 <= i < |s| ==> s[i].id != id
    ensures WithoutId(s, id) == s
    decreases |s|
  {
    if s != [] {
      WithoutAbsentId(s[1..], id);
    }
  }

  /** In a stream with growing ids, deleting the first entry's id leaves the rest in order. */
  lemma DeleteFirst(s: seq<Entry>, lastId: nat)
    requires StreamOk(s, lastId) && s != []
    ensures WithoutId(s, s[0].id) == s[1..]
  {
    WithoutAbsentId(s[1..], s[0].id);
  }

  lemma SuffixOk(s: seq<Entry>, lastId: nat, k: nat)
    requires StreamOk(s, lastId) && k <= |s|
    ensures StreamOk(s[k..], lastId)
  {
  }

  // ---------------------------------------------------------------- properties of receive

  /** receive returns at most `count` messages: the first entries of the stream, in order. */
  lemma ReceiveReadsHead(streams: map<string, seq<Entry>>, name: string, count: int, block: int, fault: Fault)
    requires ReceiveSpec(streams, name, count, block, fault).0.Some?
    ensures var r := ReceiveSpec(streams, name, count, block, fault).0.value;
      |r| <= count && |r| <= |Stream(streams, name)| &&
      (|Stream(streams, name)| <= count ==> |r| == |Stream(streams, name)|) &&
      (|Stream(streams, name)| > count ==> |r| == count) &&
      forall i :: 0 <= i < |r| ==>
        r[i].msgId == Num(Stream(streams, name)[i].id) && r[i].data == Stream(streams, name)[i].fields
  {
    var read := Head(Stream(streams, name), count);
    forall i | 0 <= i < |read| ensures Messages(read)[i] == BusMessage(read[i].fields, Num(read[i].id), None, None) {
      MessagesAt(read, i);
    }
  }

  /** A successful receive deletes exactly the entries it returned; the rest keep their order. */
  lemma ReceiveDeletesWhatItReturns(streams: map<string, seq<Entry>>, name: string, count: int, block: int, fault: Fault)
    requires ReceiveSpec(streams, name, count, block, fault).0.Some?
    ensures var (r, after) := ReceiveSpec(streams, name, count, block, fault);
      Stream(after, name) == Stream(streams, name)[|r.value|..] &&
      forall other :: other != name ==> Stream(after, other) == Stream(streams, other) && (other in after <==> other in streams)
  {
  }

  /**
   * A raising backend call yields the fallback None: a failing xread changes
   * nothing, a failing xdel keeps the deletions made before it, and no other
   * stream is touched.
   */
  lemma ReceiveFaultFallsBack(streams: map<string, seq<Entry>>, name: string, count: int, block: int, k: nat)
    requires !XreadRejected(count, block)
    requires k <= |Head(Stream(streams, name), count)|
    ensures ReceiveSpec(streams, name, count, block, Some(k)).0 == None
    ensures k == 0 ==> ReceiveSpec(streams, name, count, block, Some(k)).1 == streams
    ensures k >= 1 ==> ReceiveSpec(streams, name, count, block, Some(k)).1 == Dropped(streams, name, k - 1)
    ensures k >= 1 ==> Stream(ReceiveSpec(streams, name, count, block, Some(k)).1, name) == Stream(streams, name)[k - 1..]
    ensures forall other :: other != name ==>
      Stream(ReceiveSpec(streams, name, count, block, Some(k)).1, other) == Stream(streams, other)
  {
  }

  /** An empty or missing stream reads as the empty list and nothing changes. */
  lemma ReceiveEmpty(streams: map<string, seq<Entry>>, name: string, count: int, block: int)
    requires !XreadRejected(count, block) && block > 0
    requires Stream(streams, name) == []
    ensures ReceiveSpec(streams, name, count, block, None) == (Some([]), streams)
  {
  }

  // ---------------------------------------------------------------- the driver

  class RedisBusDriver {
    /** Connection parameters of redis.Redis(host=..., port=..., db=...). */
    const host: string
    const port: int
    const db: int
    /** The server's streams, keyed by stream name. */
    var streams: map<string, seq<Entry>>
    /** The last entry id the server handed out. */
    var lastId: nat

    ghost predicate Valid()
      reads this
    {
      StreamsOk(streams, lastId)
    }

    constructor (host: string, port: int, db: int)
      ensures Valid()
      ensures this.host == host && this.port == port && this.db == db
      ensures streams == map[] && lastId == 0
    {
      this.host, this.port, this.db := host, port, db;
      streams, lastId := map[], 0;
    }

    /**
     * send(messages): xadd each message's data to the stream its rcpt names,
     * in order; the first xadd that raises ends the call (fallback None).
     */
    method Send(messages: seq<BusMessage>, fault: Fault)
      requires Valid()
      modifies this
      ensures Valid()
      ensures var k := Sent(messages, fault);
        lastId == old(lastId) + k &&
        streams == AddAll(old(streams), old(lastId), messages[..k])
    {
      ghost var k := Sent(messages, fault);
      ghost var start, startId := streams, lastId;
      var i := 0;
      while i < |messages|
        invariant i <= k
        invariant Addressed(messages[..i])
        invariant lastId == startId + i
        invariant streams == AddAll(start, startId, messages[..i])
        invariant Valid()
      {
        if XaddFails(messages, i, fault) {
          return;
        }
        SendStep(start, startId, messages, i);
        streams := Xadd(streams, lastId, messages[i].rcpt.value, messages[i].data);
        lastId := lastId + 1;
        i := i + 1;
      }
    }

    /**
     * receive(stream_name, count, block): read the first `count` entries from
     * offset 0, turn each into a message and xdel it.
     */
    method Receive(name: string, count: int, block: int, fault: Fault) returns (r: Option<seq<BusMessage>>)
      requires Valid()
      modifies this
      ensures Valid()
      ensures lastId == old(lastId)
      ensures r == ReceiveSpec(old(streams), name, count, block, fault).0
      ensures streams == ReceiveSpec(old(streams), name, count, block, fault).1
    {
      if XreadRejected(count, block) || fault == Some(0) {
        return None;
      }
      ghost var start, startId := streams, lastId;
      var read := Head(Stream(streams, name), count);
      var messages := [];
      var i := 0;
      while i < |read|
        invariant i <= |read|
        invariant fault.Some? ==> i < fault.value
        invariant messages == Messages(read[..i])
        invariant streams == Dropped(start, name, i)
        invariant StreamsOk(streams, lastId) && lastId == startId
      {
        assert read[..i + 1] == read[..i] + [read[i]];
        MessagesSnoc(read[..i], read[i]);
        messages := messages + [BusMessage(read[i].fields, Num(read[i].id), None, None)];
        if fault == Some(i + 1) {
          return None;
        }
        XdelStep(start, lastId, name, i);
        streams := streams[name := WithoutId(streams[name], read[i].id)];
        i := i + 1;
      }
      assert read[..i] == read;
      r := Some(messages);
    }
  }

  /** Loading the module registers the driver under "redis". */
  method Load(factory: Bus.BusDriverFactory)
    modifies factory
    ensures factory.registry == old(factory.registry)["redis" := Bus.RedisBusDriver]
  {
    factory.Register("redis", Bus.RedisBusDriver);
  }
}

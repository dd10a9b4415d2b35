/**
 * KafkaBusDriver over in-memory models of its two clients: a producer that
 * logs the records it produced and its flushes, and a consumer that logs its
 * subscriptions and commits. What the broker hands back from one `consume`
 * call, and which client call raises, are parameters.
 */
module KafkaBus {
  import opened Wrappers
  import opened Envelope
  import Bus

  const TopicPrefix := "t."

  /** The settings the producer is built with. */
  datatype ProducerConfig = ProducerConfig(bootstrapServers: string, clientId: string, lingerMs: int, acks: string)

  /** The settings the consumer is built with. */
  datatype ConsumerConfig = ConsumerConfig(
    bootstrapServers: string, groupId: string, clientId: string,
    autoOffsetReset: string, enablePartitionEof: bool, enableAutoCommit: bool)

  function ProducerSettings(servers: string): ProducerConfig
  {
    ProducerConfig(servers, "bus-driver", 5, "0")
  }

  function ConsumerSettings(servers: string, groupId: string): ConsumerConfig
  {
    ConsumerConfig(servers, groupId, "bus-driver", "earliest", false, false)
  }

  /** One produced record: topic, JSON value, and the message id as key. */
  datatype Record = Record(topic: string, value: Data, key: MsgId)

  /** A record as `consume` returns it, and whether committing it raises. */
  datatype Consumed = Consumed(error: bool, key: MsgId, value: Payload, commitRaises: bool)

  /** What one `consume` call yields: it raises a KafkaException, or returns a batch (entries may be None). */
  datatype Poll = ConsumeRaises | Polled(batch: seq<Option<Consumed>>)

  /**
   * What one `produce` call does: it accepts the record, raises a
   * KafkaException, or raises anything else (BufferError when the local queue
   * is full, TypeError for a key the client refuses).
   */
  datatype ProduceFault = Delivered | KafkaError | OtherError

  /**
   * A producer client: its settings, every record handed to it, its flushes,
   * and how many records it still holds queued (what `len(producer)` counts);
   * a flush empties the queue.
   */
  datatype Producer = Producer(config: ProducerConfig, records: seq<Record>, flushes: nat, pending: nat)

  datatype Consumer = Consumer(config: ConsumerConfig, subscriptions: seq<string>, commits: seq<Consumed>)

  function Produced(p: Option<Producer>): seq<Record>
  {
    if p.Some? then p.value.records else []
  }

  function Flushes(p: Option<Producer>): nat
  {
    if p.Some? then p.value.flushes else 0
  }

  function Pending(p: Option<Producer>): nat
  {
    if p.Some? then p.value.pending else 0
  }

  function Subscriptions(c: Option<Consumer>): seq<string>
  {
    if c.Some? then c.value.subscriptions else []
  }

  function Commits(c: Option<Consumer>): seq<Consumed>
  {
    if c.Some? then c.value.commits else []
  }

  // ---------------------------------------------------------------- the lazy producer

  /** A newly built producer: nothing produced, nothing queued. */
  function NewProducer(config: ProducerConfig): Producer
  {
    Producer(config, [], 0, 0)
  }

  /** The `producer` property as intended: build a client when there is none, otherwise keep the one there is. */
  function ProducerOnce(p: Option<Producer>, config: ProducerConfig): (r: Producer)
    ensures p.None? ==> r == NewProducer(config)
    ensures p.Some? ==> r == p.value
  {
    if p.None? then NewProducer(config) else p.value
  }

  /** Once built, the producer is the same client at every later access, with all it was handed. */
  lemma ProducerOnceKeeps(p: Option<Producer>, config: ProducerConfig)
    ensures ProducerOnce(Some(ProducerOnce(p, config)), config) == ProducerOnce(p, config)
    ensures ProducerOnce(p, config).records == Produced(p) && ProducerOnce(p, config).flushes == Flushes(p)
  {
  }

  /**
   * The `producer` property as written: `not self._producer` is also true of a
   * built producer whose queue is empty, because a producer's truth value is
   * its length; such a producer is replaced by a new one.
   */
  function ProducerAsWritten(p: Option<Producer>, config: ProducerConfig): (r: Producer)
    ensures p.Some? && p.value.pending > 0 ==> r == p.value
    ensures p.None? || p.value.pending == 0 ==> r == NewProducer(config)
  {
    if p.None? || p.value.pending == 0 then NewProducer(config) else p.value
  }

  /**
   * As written, a second send([m]) goes through a new client: the first send
   * flushed its producer (queue empty), so the next access builds another one,
   * which holds neither the first record nor its flush. As intended, the same
   * producer is kept.
   */
  lemma FlushedProducerReplacedAsWritten(servers: string, m: BusMessage)
    ensures var first := Producer(ProducerSettings(servers), [RecordOf(m)], 1, 0);
      ProducerAsWritten(Some(first), ProducerSettings(servers)) == NewProducer(ProducerSettings(servers)) &&
      ProducerAsWritten(Some(first), ProducerSettings(servers)) != first &&
      ProducerOnce(Some(first), ProducerSettings(servers)) == first
  {
  }

  // ---------------------------------------------------------------- send

  /** The record `send` produces for a message: topic "t." + str(rcpt), key msg_id. */
  function RecordOf(m: BusMessage): Record
  {
    Record(TopicPrefix + Str(m.rcpt), m.data, m.msgId)
  }

  /**
   * A record reaches the topic a receiver of stream `name` subscribes to
   * exactly when str(rcpt) is `name`: the prefix keeps recipients apart.
   */
  lemma TopicMatchesSubscription(m: BusMessage, name: string)
    ensures RecordOf(m).topic == TopicPrefix + name <==> Str(m.rcpt) == name
  {
    var topic := RecordOf(m).topic;
    if topic == TopicPrefix + name {
      assert Str(m.rcpt) == topic[|TopicPrefix|..] == name;
    }
  }

  function RecordsOf(messages: seq<BusMessage>): (r: seq<Record>)
    ensures |r| == |messages|
    ensures forall i :: 0 <= i < |messages| ==> r[i] == RecordOf(messages[i])
  {
    seq(|messages|, i requires 0 <= i < |messages| => RecordOf(messages[i]))
  }

  /** The outcome of the i-th produce call; calls beyond the given outcomes succeed. */
  function FaultAt(faults: seq<ProduceFault>, i: nat): ProduceFault
  {
    if i < |faults| then faults[i] else Delivered
  }

  /** The index of the first message whose produce raises something other than a KafkaException, or |messages|. */
  function FirstEscape(messages: seq<BusMessage>, faults: seq<ProduceFault>, from: nat): (j: nat)
    requires from <= |messages|
    ensures from <= j <= |messages|
    ensures forall i :: from <= i < j ==> FaultAt(faults, i) != OtherError
    ensures j < |messages| ==> FaultAt(faults, j) == OtherError
    decreases |messages| - from
  {
    if from == |messages| || FaultAt(faults, from) == OtherError then from
    else FirstEscape(messages, faults, from + 1)
  }

  /** The messages among the first j whose produce call succeeded, in order. */
  function Kept(messages: seq<BusMessage>, faults: seq<ProduceFault>, j: nat): (r: seq<BusMessage>)
    requires j <= |messages|
    ensures |r| <= j
  {
    if j == 0 then []
    else Kept(messages, faults, j - 1) + (if FaultAt(faults, j - 1) == Delivered then [messages[j - 1]] else [])
  }

  /** One more message: its record is added exactly when its produce call succeeds. */
  lemma KeptStep(messages: seq<BusMessage>, faults: seq<ProduceFault>, i: nat)
    requires i < |messages|
    ensures |Kept(messages, faults, i + 1)| == |Kept(messages, faults, i)| + (if FaultAt(faults, i) == Delivered then 1 else 0)
    ensures RecordsOf(Kept(messages, faults, i + 1)) ==
      RecordsOf(Kept(messages, faults, i)) + (if FaultAt(faults, i) == Delivered then [RecordOf(messages[i])] else [])
  {
    var k := Kept(messages, faults, i);
    if FaultAt(faults, i) == Delivered {
      assert RecordsOf(k + [messages[i]]) == RecordsOf(k) + [RecordOf(messages[i])];
    } else {
      assert k + [] == k;
    }
  }

  /** With every produce call succeeding, send produces one record per message, in order. */
  lemma {:induction false} KeptAllWhenDelivered(messages: seq<BusMessage>, faults: seq<ProduceFault>, j: nat)
    requires j <= |messages|
    requires forall i :: 0 <= i < j ==> FaultAt(faults, i) == Delivered
    ensures Kept(messages, faults, j) == messages[..j]
    decreases j
  {
    if j > 0 {
      KeptAllWhenDelivered(messages, faults, j - 1);
      assert messages[..j] == messages[..j - 1] + [messages[j - 1]];
    }
  }

  /** A KafkaException on one message loses only that message: the others are still produced, in order. */
  lemma {:induction false} KafkaErrorSkipsOnlyThatMessage(messages: seq<BusMessage>, faults: seq<ProduceFault>, k: nat, j: nat)
    requires k < j <= |messages|
    requires FaultAt(faults, k) == KafkaError
    requires forall i :: 0 <= i < j && i != k ==> FaultAt(faults, i) == Delivered
    ensures Kept(messages, faults, j) == messages[..k] + messages[k + 1..j]
    decreases j
  {
    if j == k + 1 {
      KeptAllWhenDelivered(messages, faults, k);
      assert messages[k + 1..j] == [];
    } else {
      KafkaErrorSkipsOnlyThatMessage(messages, faults, k, j - 1);
      assert messages[k + 1..j] == messages[k + 1..j - 1] + [messages[j - 1]];
    }
  }

  /** Every record send produces goes to "t." + str(rcpt) of a message it was given, keyed by its msg_id. */
  lemma {:induction false} KeptAreGiven(messages: seq<BusMessage>, faults: seq<ProduceFault>, j: nat)
    requires j <= |messages|
    ensures forall m :: m in Kept(messages, faults, j) ==> m in messages[..j]
    decreases j
  {
    if j > 0 {
      KeptAreGiven(messages, faults, j - 1);
      assert messages[..j] == messages[..j - 1] + [messages[j - 1]];
    }
  }

  // ---------------------------------------------------------------- receive

  /** The message built from an accepted record: data from its JSON value, msg_id its key. */
  function MessageOf(key: MsgId, data: Data): BusMessage
  {
    BusMessage(data, key, None, None)
  }

  /** What the receive loop collects and commits, and whether an exception escaped it. */
  datatype Scan = Scan(messages: seq<BusMessage>, commits: seq<Consumed>, escaped: bool)

  /**
   * The receive loop from batch position i on: None entries and error records
   * are skipped; an undecodable value raises out of the loop (it is not a
   * KafkaException); a commit that raises ends the loop after the message was
   * collected; every other record is collected and committed.
   */
  function ScanFrom(batch: seq<Option<Consumed>>, i: nat): Scan
    requires i <= |batch|
    decreases |batch| - i
  {
    if i == |batch| then Scan([], [], false)
    else match batch[i]
      case None => ScanFrom(batch, i + 1)
      case Some(c) =>
        if c.error then ScanFrom(batch, i + 1)
        else match c.value
          case Garbled => Scan([], [], true)
          case Json(data) =>
            if c.commitRaises then Scan([MessageOf(c.key, data)], [], false)
            else
              var rest := ScanFrom(batch, i + 1);
              Scan([MessageOf(c.key, data)] + rest.messages, [c] + rest.commits, rest.escaped)
  }

  /** The scan of a batch remainder, after `messages` and `commits` gathered before it. */
  function Prepend(messages: seq<BusMessage>, commits: seq<Consumed>, rest: Scan): Scan
  {
    Scan(messages + rest.messages, commits + rest.commits, rest.escaped)
  }

  lemma PrependStop(messages: seq<BusMessage>, commits: seq<Consumed>, escaped: bool)
    ensures Prepend(messages, commits, Scan([], [], escaped)) == Scan(messages, commits, escaped)
  {
    assert messages + [] == messages && commits + [] == commits;
  }

  lemma PrependLast(messages: seq<BusMessage>, commits: seq<Consumed>, m: BusMessage)
    ensures Prepend(messages, commits, Scan([m], [], false)) == Scan(messages + [m], commits, false)
  {
    assert commits + [] == commits;
  }

  lemma PrependCons(messages: seq<BusMessage>, commits: seq<Consumed>, m: BusMessage, c: Consumed, rest: Scan)
    ensures Prepend(messages, commits, Scan([m] + rest.messages, [c] + rest.commits, rest.escaped))
         == Prepend(messages + [m], commits + [c], rest)
  {
    assert messages + ([m] + rest.messages) == (messages + [m]) + rest.messages;
    assert commits + ([c] + rest.commits) == (commits + [c]) + rest.commits;
  }

  /** The records the loop accepts from position i on: present and without error, in consume order. */
  function AcceptedFrom(batch: seq<Option<Consumed>>, i: nat): (r: seq<Consumed>)
    requires i <= |batch|
    ensures forall c :: c in r ==> !c.error && Some(c) in batch[i..]
    decreases |batch| - i
  {
    if i == |batch| then []
    else if batch[i].None? || batch[i].value.error then AcceptedFrom(batch, i + 1)
    else [batch[i].value] + AcceptedFrom(batch, i + 1)
  }

  /** Every present, error-free record from position i on is accepted. */
  lemma {:induction false} AcceptedFromComplete(batch: seq<Option<Consumed>>, i: nat)
    requires i <= |batch|
    ensures forall j :: i <= j < |batch| && batch[j].Some? && !batch[j].value.error ==> batch[j].value in AcceptedFrom(batch, i)
    decreases |batch| - i
  {
    if i < |batch| {
      AcceptedFromComplete(batch, i + 1);
    }
  }

  /** Records accepted from earlier batch positions come before those from later ones. */
  lemma {:induction false} AcceptedFromSplit(batch: seq<Option<Consumed>>, i: nat, j: nat)
    requires i <= j <= |batch|
    ensures AcceptedFrom(batch, i) == AcceptedFrom(batch[..j], i) + AcceptedFrom(batch, j)
    decreases j - i
  {
    if i == j {
      assert AcceptedFrom(batch[..j], j) == [];
    } else {
      AcceptedFromSplit(batch, i + 1, j);
      assert batch[..j][i] == batch[i];
      var rest, restPrefix := AcceptedFrom(batch, i + 1), AcceptedFrom(batch[..j], i + 1);
      if batch[i].Some? && !batch[i].value.error {
        assert [batch[i].value] + (restPrefix + AcceptedFrom(batch, j)) == ([batch[i].value] + restPrefix) + AcceptedFrom(batch, j);
      }
    }
  }

  /** The message an accepted record yields; an undecodable one yields an empty payload (it never gets that far). */
  function Collected(c: Consumed): BusMessage
  {
    MessageOf(c.key, if c.value.Json? then c.value.data else map[])
  }

  function CollectedAll(cs: seq<Consumed>): (r: seq<BusMessage>)
    ensures |r| == |cs|
    ensures forall i :: 0 <= i < |cs| ==> r[i] == Collected(cs[i])
  {
    seq(|cs|, i requires 0 <= i < |cs| => Collected(cs[i]))
  }

  /** A record the loop processes without stopping: decodable and committed cleanly. */
  predicate Clean(c: Consumed)
  {
    c.value.Json? && !c.commitRaises
  }

  /**
   * The loop collects a prefix of the accepted records, in consume order, and
   * commits each collected record except the last one when committing it raised.
   */
  lemma {:induction false} ScanCollectsAcceptedPrefix(batch: seq<Option<Consumed>>, i: nat)
    requires i <= |batch|
    ensures var s := ScanFrom(batch, i);
      var acc := AcceptedFrom(batch, i);
      |s.commits| <= |s.messages| <= |acc| &&
      s.commits == acc[..|s.commits|] &&
      s.messages == CollectedAll(acc[..|s.messages|]) &&
      |s.messages| <= |s.commits| + 1
    decreases |batch| - i
  {
    if i < |batch| {
      ScanCollectsAcceptedPrefix(batch, i + 1);
      if batch[i].Some? && !batch[i].value.error {
        var c := batch[i].value;
        var rest := ScanFrom(batch, i + 1);
        var accRest := AcceptedFrom(batch, i + 1);
        var acc := [c] + accRest;
        assert AcceptedFrom(batch, i) == acc;
        if Clean(c) {
          var s := ScanFrom(batch, i);
          assert s == Scan([Collected(c)] + rest.messages, [c] + rest.commits, rest.escaped);
          assert acc[..|s.commits|] == [c] + accRest[..|rest.commits|];
          assert acc[..|s.messages|] == [c] + accRest[..|rest.messages|];
          assert CollectedAll(acc[..|s.messages|]) == [Collected(c)] + CollectedAll(accRest[..|rest.messages|]);
        } else if c.value.Json? {
          assert acc[..1] == [c];
        }
      }
    }
  }

  /** The first accepted record that is not clean exists and is undecodable. */
  predicate GarbledFirst(acc: seq<Consumed>)
  {
    acc != [] && (acc[0].value.Garbled? || (Clean(acc[0]) && GarbledFirst(acc[1..])))
  }

  /**
   * An exception escapes the loop exactly when, among the accepted records in
   * consume order, an undecodable one comes before any whose commit raised.
   */
  lemma {:induction false} ScanEscapesIff(batch: seq<Option<Consumed>>, i: nat)
    requires i <= |batch|
    ensures ScanFrom(batch, i).escaped == GarbledFirst(AcceptedFrom(batch, i))
    decreases |batch| - i
  {
    if i < |batch| {
      ScanEscapesIff(batch, i + 1);
      var accRest := AcceptedFrom(batch, i + 1);
      if batch[i].Some? && !batch[i].value.error {
        var acc := [batch[i].value] + accRest;
        assert AcceptedFrom(batch, i) == acc;
        assert acc[1..] == accRest;
      }
    }
  }

  /** When every accepted record is clean, the loop collects and commits all of them, in consume order. */
  lemma {:induction false} ScanCollectsAllWhenClean(batch: seq<Option<Consumed>>, i: nat)
    requires i <= |batch|
    requires forall j :: i <= j < |batch| && batch[j].Some? && !batch[j].value.error ==> Clean(batch[j].value)
    ensures ScanFrom(batch, i) == Scan(CollectedAll(AcceptedFrom(batch, i)), AcceptedFrom(batch, i), false)
    decreases |batch| - i
  {
    if i < |batch| {
      ScanCollectsAllWhenClean(batch, i + 1);
      var rest, accRest := ScanFrom(batch, i + 1), AcceptedFrom(batch, i + 1);
      if batch[i].Some? && !batch[i].value.error {
        var c := batch[i].value;
        assert ScanFrom(batch, i) == Scan([Collected(c)] + rest.messages, [c] + rest.commits, rest.escaped);
        assert CollectedAll([c] + accRest) == [Collected(c)] + CollectedAll(accRest);
      }
    }
  }

  // ---------------------------------------------------------------- the driver

  class KafkaBusDriver {
    const bootstrapServers: string
    const groupId: string
    /** The lazily built clients (`_producer`, `_consumer`) and the topic subscribed to. */
    var producer: Option<Producer>
    var consumer: Option<Consumer>
    var subscribedTo: Option<string>

    ghost predicate Valid()
      reads this
    {
      (producer.Some? ==> producer.value.config == ProducerSettings(bootstrapServers)) &&
      (consumer.Some? ==> consumer.value.config == ConsumerSettings(bootstrapServers, groupId)) &&
      (subscribedTo.Some? ==>
        consumer.Some? && consumer.value.subscriptions != [] &&
        consumer.value.subscriptions[|consumer.value.subscriptions| - 1] == subscribedTo.value)
    }

    constructor (bootstrapServers: string, groupId: string)
      ensures Valid()
      ensures this.bootstrapServers == bootstrapServers && this.groupId == groupId
      ensures producer.None? && consumer.None? && subscribedTo.None?
    {
      this.bootstrapServers := bootstrapServers;
      this.groupId := groupId;
      producer, consumer, subscribedTo := None, None, None;
    }

    /** The `producer` property, as intended: built on first use, then the same one every time. */
    method GetProducer()
      requires Valid()
      modifies this
      ensures Valid()
      ensures producer == Some(ProducerOnce(old(producer), ProducerSettings(bootstrapServers)))
      ensures old(producer).Some? ==> producer == old(producer)
      ensures old(producer).None? ==> producer == Some(NewProducer(ProducerSettings(bootstrapServers)))
      ensures consumer == old(consumer) && subscribedTo == old(subscribedTo)
    {
      if producer.None? {
        producer := Some(NewProducer(ProducerSettings(bootstrapServers)));
      }
    }

    /** The `consumer` property: built on first use, then the same one every time. */
    method GetConsumer()
      requires Valid()
      modifies this
      ensures Valid()
      ensures old(consumer).Some? ==> consumer == old(consumer)
      ensures old(consumer).None? ==> consumer == Some(Consumer(ConsumerSettings(bootstrapServers, groupId), [], []))
      ensures producer == old(producer) && subscribedTo == old(subscribedTo)
    {
      if consumer.None? {
        consumer := Some(Consumer(ConsumerSettings(bootstrapServers, groupId), [], []));
      }
    }

    /**
     * send(messages): produce one record per message; a KafkaException is
     * logged and the loop goes on; any other exception escapes the loop and the call
     * returns the fallback without flushing; otherwise flush once at the end.
     */
    method Send(messages: seq<BusMessage>, faults: seq<ProduceFault>)
      requires Valid()
      modifies this
      ensures Valid()
      ensures producer.Some? && producer.value.config == ProducerSettings(bootstrapServers)
      ensures var stop := FirstEscape(messages, faults, 0);
        producer.value.records == Produced(old(producer)) + RecordsOf(Kept(messages, faults, stop)) &&
        producer.value.flushes == Flushes(old(producer)) + (if stop == |messages| then 1 else 0) &&
        producer.value.pending == (if stop == |messages| then 0 else Pending(old(producer)) + |Kept(messages, faults, stop)|)
      ensures consumer == old(consumer) && subscribedTo == old(subscribedTo)
    {
      // The producer is built on the first produce call, or by the final flush
      // when there is nothing to send: either way before the call returns.
      GetProducer();
      var p := producer.value;
      ghost var built := p;
      var escaped := false;
      var i := 0;
      label Built:
      while i < |messages| && !escaped
        invariant unchanged@Built(this)
        invariant i <= |messages|
        invariant !escaped ==> i <= FirstEscape(messages, faults, 0)
        invariant escaped ==> i == FirstEscape(messages, faults, 0) < |messages|
        invariant p == built.(records := built.records + RecordsOf(Kept(messages, faults, i)),
                              pending := built.pending + |Kept(messages, faults, i)|)
        decreases |messages| - i, if escaped then 0 else 1
      {
        match FaultAt(faults, i) {
          case OtherError =>
            escaped := true;
          case KafkaError =>
            KeptStep(messages, faults, i);
            i := i + 1;
          case Delivered =>
            KeptStep(messages, faults, i);
            p := p.(records := p.records + [RecordOf(messages[i])], pending := p.pending + 1);
            i := i + 1;
        }
      }
      if !escaped {
        p := p.(flushes := p.flushes + 1, pending := 0);
      }
      producer := Some(p);
    }

    /**
     * consumer_subscribe(stream_name): subscribe to "t." + stream_name unless
     * already subscribed to it. The consumer is built before the subscribe
     * call; a subscribe that raises (`fails`, ok false) leaves the cached
     * topic and the subscriptions as they were.
     */
    method ConsumerSubscribe(name: string, fails: bool) returns (ok: bool)
      requires Valid()
      modifies this
      ensures Valid()
      ensures ok == (old(subscribedTo) == Some(TopicPrefix + name) || !fails)
      ensures ok ==> subscribedTo == Some(TopicPrefix + name)
      ensures !ok ==> subscribedTo == old(subscribedTo)
      ensures consumer.Some?
      ensures Subscriptions(consumer) == Subscriptions(old(consumer)) +
        (if old(subscribedTo) == Some(TopicPrefix + name) || fails then [] else [TopicPrefix + name])
      ensures Commits(consumer) == Commits(old(consumer))
      ensures producer == old(producer)
    {
      var topic := TopicPrefix + name;
      if subscribedTo != Some(topic) {
        GetConsumer();
        if fails {
          return false;
        }
        consumer := Some(consumer.value.(subscriptions := consumer.value.subscriptions + [topic]));
        subscribedTo := Some(topic);
      }
      return true;
    }

    /**
     * receive(stream_name, count, timeout): subscribe, consume one batch and
     * walk it, collecting and committing each accepted record. A subscribe
     * that raises escapes to the wrapper: the fallback None, nothing consumed.
     */
    method Receive(name: string, subscribeFails: bool, poll: Poll) returns (r: Option<seq<BusMessage>>)
      requires Valid()
      modifies this
      ensures Valid()
      ensures consumer.Some? && producer == old(producer)
      ensures Subscriptions(consumer) == Subscriptions(old(consumer)) +
        (if old(subscribedTo) == Some(TopicPrefix + name) || subscribeFails then [] else [TopicPrefix + name])
      ensures old(subscribedTo) != Some(TopicPrefix + name) && subscribeFails ==>
        r.None? && subscribedTo == old(subscribedTo) && Commits(consumer) == Commits(old(consumer))
      ensures old(subscribedTo) == Some(TopicPrefix + name) || !subscribeFails ==>
        subscribedTo == Some(TopicPrefix + name) &&
        (poll.ConsumeRaises? ==> r == Some([]) && Commits(consumer) == Commits(old(consumer))) &&
        (poll.Polled? ==> var s := ScanFrom(poll.batch, 0);
          r == (if s.escaped then None else Some(s.messages)) &&
          Commits(consumer) == Commits(old(consumer)) + s.commits)
    {
      var ok := ConsumerSubscribe(name, subscribeFails);
      if !ok {
        return None;
      }
      GetConsumer();
      if poll.ConsumeRaises? {
        return Some([]);
      }
      var batch := poll.batch;
      var cons := consumer.value;
      var messages := [];
      ghost var committed := [];
      ghost var target := ScanFrom(batch, 0);
      ghost var subscribed := cons;
      var stop, escaped := false, false;
      var i := 0;
      assert target == Prepend([], [], ScanFrom(batch, 0));
      label Subscribed:
      while i < |batch| && !stop
        invariant unchanged@Subscribed(this)
        invariant i <= |batch|
        invariant cons == subscribed.(commits := subscribed.commits + committed)
        invariant !stop ==> !escaped
        invariant target == if stop then Scan(messages, committed, escaped) else Prepend(messages, committed, ScanFrom(batch, i))
        decreases |batch| - i, if stop then 0 else 1
      {
        if batch[i].None? || batch[i].value.error {
          i := i + 1;
        } else {
          var c := batch[i].value;
          if c.value.Garbled? {
            assert ScanFrom(batch, i) == Scan([], [], true);
            PrependStop(messages, committed, true);
            stop, escaped := true, true;
          } else {
            var m := MessageOf(c.key, c.value.data);
            if c.commitRaises {
              assert ScanFrom(batch, i) == Scan([m], [], false);
              PrependLast(messages, committed, m);
              messages := messages + [m];
              stop := true;
            } else {
              ghost var rest := ScanFrom(batch, i + 1);
              assert ScanFrom(batch, i) == Scan([m] + rest.messages, [c] + rest.commits, rest.escaped);
              PrependCons(messages, committed, m, c, rest);
              messages := messages + [m];
              cons := cons.(commits := cons.commits + [c]);
              committed := committed + [c];
              i := i + 1;
            }
          }
        }
      }
      if !stop {
        PrependStop(messages, committed, false);
      }
      consumer := Some(cons);
      return if escaped then None else Some(messages);
    }
  }

  /** Loading the module registers the driver under "kafka". */
  method Load(factory: Bus.BusDriverFactory)
    modifies factory
    ensures factory.registry == old(factory.registry)["kafka" := Bus.KafkaBusDriver]
  {
    factory.Register("kafka", Bus.KafkaBusDriver);
  }
}

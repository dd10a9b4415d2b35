/**
 * NatsBusDriver over an in-memory model of its NATS client: the connection,
 * the subscription it caches, and the publications the server has received.
 * Whether the server is reachable, which publish raises, and what each pull
 * on the subscription yields are parameters.
 */
module NatsBus {
  import opened Wrappers
  import opened Envelope
  import Bus

  const SubjectPrefix := "s"

  /** The client connection; `closed` is `nc.is_closed`. */
  datatype Connection = Connection(servers: string, closed: bool)

  datatype Subscription = Subscription(subject: string)

  /** One publication the server received: subject and JSON payload. */
  datatype Publication = Publication(subject: string, payload: Data)

  /** The index of the publish call that raises, if any. */
  type Fault = Option<nat>

  /** What one `next_msg` call yields: a message (its sid and payload), a timeout, or another error. */
  datatype Pull = Msg(sid: int, payload: Payload) | PullTimeout | PullError

  /** One turn of the receive loop: what the pull yields, and whether the deadline has passed after it. */
  datatype Step = Step(pull: Pull, late: bool)

  /** "nats://" + host + ":" + port. */
  function ServersUrl(host: string, port: int): string
  {
    "nats://" + host + ":" + IntStr(port)
  }

  // ---------------------------------------------------------------- send

  /** The publication `send` makes for a message: subject "s" + str(rcpt), payload its data. */
  function PublicationOf(m: BusMessage): Publication
  {
    Publication(SubjectPrefix + Str(m.rcpt), m.data)
  }

  function PublicationsOf(messages: seq<BusMessage>): (r: seq<Publication>)
    ensures |r| == |messages|
    ensures forall i :: 0 <= i < |messages| ==> r[i] == PublicationOf(messages[i])
  {
    seq(|messages|, i requires 0 <= i < |messages| => PublicationOf(messages[i]))
  }

  /**
   * A message is published on the subject a receiver of stream `name`
   * subscribes to exactly when str(rcpt) is `name`: the prefix keeps
   * recipients apart.
   */
  lemma SubjectMatchesSubscription(m: BusMessage, name: string)
    ensures PublicationOf(m).subject == SubjectPrefix + name <==> Str(m.rcpt) == name
  {
    var subject := PublicationOf(m).subject;
    if subject == SubjectPrefix + name {
      assert Str(m.rcpt) == subject[|SubjectPrefix|..] == name;
    }
  }

  /**
   * How many messages `send` publishes: none without an open connection (the
   * first publish raises), otherwise those before the publish that raises.
   */
  function PublishedCount(up: bool, n: nat, fault: Fault): (k: nat)
    ensures k <= n
    ensures !up ==> k == 0
    ensures up && (fault.None? || fault.value >= n) ==> k == n
    ensures up && fault.Some? && fault.value < n ==> k == fault.value
  {
    if !up then 0 else if fault.Some? && fault.value < n then fault.value else n
  }

  // ---------------------------------------------------------------- receive

  /** The message a pull contributes: a decodable message on a live subscription; errors and bad JSON are logged and dropped. */
  function Received(name: string, live: bool, pull: Pull): seq<BusMessage>
  {
    if live && pull.Msg? && pull.payload.Json? then [BusMessage(pull.payload.data, Num(pull.sid), Some(name), None)]
    else []
  }

  /**
   * The receive loop from step i on, with `acc` gathered so far. Without a
   * subscription every pull raises and is logged. A timeout ends the loop;
   * otherwise it ends once `count` messages are gathered, once the deadline
   * has passed, or when the steps run out (the deadline).
   */
  function PullLoop(name: string, count: int, live: bool, steps: seq<Step>, i: nat, acc: seq<BusMessage>): (r: seq<BusMessage>)
    requires i <= |steps|
    ensures |acc| <= |r| <= |acc| + (|steps| - i)
    ensures r[..|acc|] == acc
    decreases |steps| - i
  {
    if i == |steps| then acc
    else if live && steps[i].pull.PullTimeout? then acc
    else
      var acc' := acc + Received(name, live, steps[i].pull);
      if |acc'| >= count || steps[i].late then acc'
      else
        var r := PullLoop(name, count, live, steps, i + 1, acc');
        assert r[..|acc|] == r[..|acc'|][..|acc|];
        r
  }

  /** The decodable messages among the given pulls, in order. */
  function Decoded(name: string, live: bool, steps: seq<Step>): seq<BusMessage>
  {
    if steps == [] then [] else Received(name, live, steps[0].pull) + Decoded(name, live, steps[1..])
  }

  /** The most messages one receive gathers: `count`, or one when `count` is below one. */
  function Cap(count: int): nat
  {
    if count >= 1 then count else 1
  }

  /** The loop never returns more than `count` messages (one, when `count` is below one). */
  lemma {:induction false} PullLoopBounded(name: string, count: int, live: bool, steps: seq<Step>, i: nat, acc: seq<BusMessage>)
    requires i <= |steps|
    requires |acc| < Cap(count)
    ensures |PullLoop(name, count, live, steps, i, acc)| <= Cap(count)
    decreases |steps| - i
  {
    if i < |steps| && !(live && steps[i].pull.PullTimeout?) {
      var acc' := acc + Received(name, live, steps[i].pull);
      if !(|acc'| >= count || steps[i].late) {
        PullLoopBounded(name, count, live, steps, i + 1, acc');
      }
    }
  }

  /** `m` is the message a pull among `steps` yielded for `name`: its data, the pull's sid, no sender. */
  ghost predicate FromPull(name: string, m: BusMessage, steps: seq<Step>)
  {
    m.rcpt == Some(name) && m.sender.None? &&
    exists k :: 0 <= k < |steps| && steps[k].pull.Msg? &&
      m.msgId == Num(steps[k].pull.sid) && steps[k].pull.payload == Json(m.data)
  }

  /**
   * Every message the loop adds is addressed to `name`, from no sender, and is
   * the decoded payload of a pull, with that pull's sid as its msg_id.
   */
  lemma {:induction false} PullLoopAddressed(name: string, count: int, live: bool, steps: seq<Step>, i: nat, acc: seq<BusMessage>)
    requires i <= |steps|
    requires forall m :: m in acc ==> FromPull(name, m, steps)
    ensures forall m :: m in PullLoop(name, count, live, steps, i, acc) ==> FromPull(name, m, steps)
    decreases |steps| - i
  {
    if i < |steps| && !(live && steps[i].pull.PullTimeout?) {
      var got := Received(name, live, steps[i].pull);
      var acc' := acc + got;
      forall m | m in got ensures FromPull(name, m, steps) {
        assert steps[i].pull.Msg? && m.msgId == Num(steps[i].pull.sid) && steps[i].pull.payload == Json(m.data);
      }
      if !(|acc'| >= count || steps[i].late) {
        PullLoopAddressed(name, count, live, steps, i + 1, acc');
      }
    }
  }

  /**
   * Up to the step j where the loop meets a timeout (or the steps run out),
   * with no deadline passing and `count` never reached, the loop returns every
   * decodable message pulled before j, in order; failed pulls are skipped.
   */
  lemma {:induction false} PullLoopUntilTimeout(name: string, count: int, live: bool, steps: seq<Step>, i: nat, j: nat, acc: seq<BusMessage>)
    requires i <= j <= |steps|
    requires j < |steps| ==> live && steps[j].pull.PullTimeout?
    requires forall k :: i <= k < j ==> !steps[k].late && !(live && steps[k].pull.PullTimeout?)
    requires |acc| + |Decoded(name, live, steps[i..j])| < count
    ensures PullLoop(name, count, live, steps, i, acc) == acc + Decoded(name, live, steps[i..j])
    decreases j - i
  {
    if i == j {
      assert steps[i..j] == [];
    } else {
      var got := Received(name, live, steps[i].pull);
      var acc' := acc + got;
      assert steps[i..j][1..] == steps[i + 1..j];
      assert Decoded(name, live, steps[i..j]) == got + Decoded(name, live, steps[i + 1..j]);
      PullLoopUntilTimeout(name, count, live, steps, i + 1, j, acc');
    }
  }

  /**
   * Up to the step j where it stops because the deadline passed or `count`
   * was reached, with no earlier stop (no timeout, no deadline, fewer than
   * `count` gathered), the loop returns every decodable message pulled up to
   * and including step j, in order.
   */
  lemma {:induction false} PullLoopStopsAt(name: string, count: int, live: bool, steps: seq<Step>, i: nat, j: nat, acc: seq<BusMessage>)
    requires i <= j < |steps|
    requires forall k :: i <= k < j ==> !steps[k].late && !(live && steps[k].pull.PullTimeout?)
    requires j > i ==> |acc| + |Decoded(name, live, steps[i..j])| < count
    requires !(live && steps[j].pull.PullTimeout?)
    requires steps[j].late || |acc| + |Decoded(name, live, steps[i..j + 1])| >= count
    ensures PullLoop(name, count, live, steps, i, acc) == acc + Decoded(name, live, steps[i..j + 1])
    decreases j - i
  {
    var got := Received(name, live, steps[i].pull);
    var acc' := acc + got;
    assert steps[i..j + 1][1..] == steps[i + 1..j + 1];
    assert Decoded(name, live, steps[i..j + 1]) == got + Decoded(name, live, steps[i + 1..j + 1]);
    if i == j {
      assert steps[i + 1..j + 1] == [];
    } else {
      assert steps[i..j][1..] == steps[i + 1..j];
      assert Decoded(name, live, steps[i..j]) == got + Decoded(name, live, steps[i + 1..j]);
      PullLoopStopsAt(name, count, live, steps, i + 1, j, acc');
    }
  }

  /**
   * Whatever stops it, the loop returns a prefix of all the decodable messages
   * pulled, after those gathered before.
   */
  lemma {:induction false} PullLoopPrefix(name: string, count: int, live: bool, steps: seq<Step>, i: nat, acc: seq<BusMessage>)
    requires i <= |steps|
    ensures var r, all := PullLoop(name, count, live, steps, i, acc), acc + Decoded(name, live, steps[i..]);
      |r| <= |all| && r == all[..|r|]
    decreases |steps| - i
  {
    var r := PullLoop(name, count, live, steps, i, acc);
    if i < |steps| {
      var got := Received(name, live, steps[i].pull);
      var acc' := acc + got;
      assert steps[i..][1..] == steps[i + 1..];
      assert Decoded(name, live, steps[i..]) == got + Decoded(name, live, steps[i + 1..]);
      assert acc + Decoded(name, live, steps[i..]) == acc' + Decoded(name, live, steps[i + 1..]);
      if !(live && steps[i].pull.PullTimeout?) && !(|acc'| >= count || steps[i].late) {
        PullLoopPrefix(name, count, live, steps, i + 1, acc');
      }
    }
  }

  /** Without a subscription every pull raises, so the loop gathers nothing more. */
  lemma {:induction false} PullLoopNothingWhenNotLive(name: string, count: int, steps: seq<Step>, i: nat, acc: seq<BusMessage>)
    requires i <= |steps|
    ensures PullLoop(name, count, false, steps, i, acc) == acc
    decreases |steps| - i
  {
    if i < |steps| {
      assert acc + Received(name, false, steps[i].pull) == acc;
      if !(|acc| >= count || steps[i].late) {
        PullLoopNothingWhenNotLive(name, count, steps, i + 1, acc);
      }
    }
  }

  // ---------------------------------------------------------------- the driver

  class NatsBusDriver {
    const servers: string
    var nc: Option<Connection>
    var subscribedTo: Option<string>
    var sub: Option<Subscription>
    /** What the server received from this driver, in order. */
    var published: seq<Publication>
    /** The subjects this driver subscribed to, one per subscribe call made. */
    var subscriptions: seq<string>

    ghost predicate Valid()
      reads this
    {
      (nc.Some? ==> nc.value.servers == servers) &&
      sub == (if subscribedTo.Some? then Some(Subscription(subscribedTo.value)) else None)
    }

    /** The connection is there and not closed. */
    predicate Up()
      reads this
    {
      nc.Some? && !nc.value.closed
    }

    constructor (host: string, port: int)
      ensures Valid()
      ensures servers == ServersUrl(host, port)
      ensures nc.None? && subscribedTo.None? && sub.None? && published == [] && subscriptions == []
    {
      servers := ServersUrl(host, port);
      nc, subscribedTo, sub := None, None, None;
      published, subscriptions := [], [];
    }

    /**
     * _connect(): connect only when there is no connection or it is closed.
     * Connecting to an unreachable server raises (ok false) out of _connect,
     * leaving the connection as it was.
     */
    method Connect(reachable: bool) returns (ok: bool)
      requires Valid()
      modifies this
      ensures Valid()
      ensures ok == (old(Up()) || reachable)
      ensures old(Up()) ==> nc == old(nc)
      ensures !old(Up()) ==> nc == (if reachable then Some(Connection(servers, false)) else old(nc))
      ensures subscribedTo == old(subscribedTo) && sub == old(sub)
      ensures published == old(published) && subscriptions == old(subscriptions)
    {
      if nc.None? || nc.value.closed {
        if !reachable {
          return false;
        }
        nc := Some(Connection(servers, false));
      }
      return true;
    }

    /** start() connects; the error from an unreachable server reaches its caller (ok false). */
    method Start(reachable: bool) returns (ok: bool)
      requires Valid()
      modifies this
      ensures Valid()
      ensures ok == (old(Up()) || reachable)
      ensures old(Up()) ==> nc == old(nc)
      ensures !old(Up()) ==> nc == (if reachable then Some(Connection(servers, false)) else old(nc))
      ensures subscribedTo == old(subscribedTo) && sub == old(sub)
      ensures published == old(published) && subscriptions == old(subscriptions)
    {
      ok := Connect(reachable);
    }

    /** The client closes its connection on its own (server gone, too many reconnects). */
    method ConnectionClosed()
      requires Valid() && nc.Some?
      modifies this
      ensures Valid() && !Up()
      ensures nc == Some(old(nc).value.(closed := true))
      ensures subscribedTo == old(subscribedTo) && sub == old(sub)
      ensures published == old(published) && subscriptions == old(subscriptions)
    {
      nc := Some(nc.value.(closed := true));
    }

    /** stop(): close and forget an open connection; always forget the subscription. */
    method Stop()
      requires Valid()
      modifies this
      ensures Valid()
      ensures old(Up()) ==> nc.None?
      ensures !old(Up()) ==> nc == old(nc)
      ensures subscribedTo.None? && sub.None?
      ensures published == old(published) && subscriptions == old(subscriptions)
    {
      if nc.Some? && !nc.value.closed {
        nc := None;
      }
      subscribedTo, sub := None, None;
    }

    /** send(messages): publish each message in order until a publish raises. */
    method Send(messages: seq<BusMessage>, fault: Fault)
      requires Valid()
      modifies this
      ensures Valid()
      ensures published == old(published) + PublicationsOf(messages[..PublishedCount(old(Up()), |messages|, fault)])
      ensures !old(Up()) ==> published == old(published)
      ensures old(Up()) && fault.None? ==> published == old(published) + PublicationsOf(messages)
      ensures nc == old(nc) && subscribedTo == old(subscribedTo) && sub == old(sub)
      ensures subscriptions == old(subscriptions)
    {
      ghost var k := PublishedCount(Up(), |messages|, fault);
      var i := 0;
      while i < |messages|
        invariant i <= k
        invariant published == old(published) + PublicationsOf(messages[..i])
        invariant nc == old(nc) && subscribedTo == old(subscribedTo) && sub == old(sub)
        invariant subscriptions == old(subscriptions)
      {
        if !Up() || fault == Some(i) {
          return;
        }
        assert PublicationsOf(messages[..i + 1]) == PublicationsOf(messages[..i]) + [PublicationOf(messages[i])];
        published := published + [PublicationOf(messages[i])];
        i := i + 1;
      }
      assert messages[..i] == messages[..k];
    }

    /**
     * _subscribe(name): subscribe to "s" + name unless that is the cached
     * subject; the cached or new subscription is returned, and None when
     * subscribing raises (no open connection).
     */
    method Subscribe(name: string) returns (s: Option<Subscription>)
      requires Valid()
      modifies this
      ensures Valid()
      ensures s.Some? <==> old(subscribedTo) == Some(SubjectPrefix + name) || old(Up())
      ensures s.Some? ==> s == sub && subscribedTo == Some(SubjectPrefix + name)
      ensures subscriptions == old(subscriptions) +
        (if old(subscribedTo) != Some(SubjectPrefix + name) && old(Up()) then [SubjectPrefix + name] else [])
      ensures s.None? ==> subscribedTo == old(subscribedTo) && sub == old(sub)
      ensures nc == old(nc) && published == old(published)
    {
      var subject := SubjectPrefix + name;
      if subscribedTo != Some(subject) {
        if !Up() {
          return None;
        }
        sub := Some(Subscription(subject));
        subscriptions := subscriptions + [subject];
        subscribedTo := Some(subject);
      }
      return sub;
    }

    /**
     * receive(name, count, timeout): subscribe, then pull until a timeout, until
     * `count` messages are gathered or until the deadline; failed pulls are logged.
     */
    method Receive(name: string, count: int, steps: seq<Step>) returns (r: Option<seq<BusMessage>>)
      requires Valid()
      modifies this
      ensures Valid()
      ensures r == Some(PullLoop(name, count, old(subscribedTo) == Some(SubjectPrefix + name) || old(Up()), steps, 0, []))
      ensures old(subscribedTo) == Some(SubjectPrefix + name) || old(Up()) ==>
        subscribedTo == Some(SubjectPrefix + name) && sub == Some(Subscription(SubjectPrefix + name))
      ensures !(old(subscribedTo) == Some(SubjectPrefix + name) || old(Up())) ==>
        subscribedTo == old(subscribedTo) && sub == old(sub)
      ensures subscriptions == old(subscriptions) +
        (if old(subscribedTo) != Some(SubjectPrefix + name) && old(Up()) then [SubjectPrefix + name] else [])
      ensures nc == old(nc) && published == old(published)
    {
      var s := Subscribe(name);
      ghost var live := s.Some?;
      var messages := [];
      var i := 0;
      while i < |steps|
        invariant i <= |steps|
        invariant PullLoop(name, count, live, steps, 0, []) == PullLoop(name, count, live, steps, i, messages)
      {
        var step := steps[i];
        ghost var before := messages;
        if s.Some? {
          match step.pull {
            case Msg(sid, payload) =>
              if payload.Json? {
                messages := messages + [BusMessage(payload.data, Num(sid), Some(name), None)];
              }
            case PullTimeout =>
              break;
            case PullError =>
          }
        }
        assert before + [] == before;
        assert messages == before + Received(name, live, step.pull);
        if |messages| >= count || step.late {
          break;
        }
        i := i + 1;
      }
      return Some(messages);
    }
  }

  /** Loading the module registers the driver under "nats". */
  method Load(factory: Bus.BusDriverFactory)
    modifies factory
    ensures factory.registry == old(factory.registry)["nats" := Bus.NatsBusDriver]
  {
    factory.Register("nats", Bus.NatsBusDriver);
  }
}

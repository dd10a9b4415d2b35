/** DummyBusDriver: the driver that neither sends nor receives. */
module Dummy {
  import opened Wrappers
  import opened Envelope
  import Bus

  /** The dummy driver holds no state: in particular it has no `name`. */
  datatype DummyBusDriver = DummyBusDriver {

    /** send(messages): no effect; returns None. */
    function Send(messages: seq<BusMessage>): (r: Option<seq<BusMessage>>)
      ensures r.None?
    {
      None
    }

    /** receive(stream_id): always the empty list. */
    function Receive(streamId: Option<string>): (r: Option<seq<BusMessage>>)
      ensures r == Some([])
    {
      Some([])
    }
  }

  /** DummyBusDriver(*args, **kwargs): any arguments, nothing kept. */
  function Construct(args: seq<Bus.Arg>): (d: DummyBusDriver)
  {
    DummyBusDriver
  }

  /** Whatever arguments it is given, the dummy driver built is the same stateless one. */
  lemma ConstructIgnoresArgs(args: seq<Bus.Arg>, args': seq<Bus.Arg>)
    ensures Construct(args) == Construct(args')
    ensures Construct(args).Send([]) == None && Construct(args).Receive(None) == Some([])
  {
  }

  /** Loading the module registers the driver under "dummy". */
  method Load(factory: Bus.BusDriverFactory)
    modifies factory
    ensures factory.registry == old(factory.registry)["dummy" := Bus.DummyBusDriver]
  {
    factory.Register("dummy", Bus.DummyBusDriver);
  }
}

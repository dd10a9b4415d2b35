/**
 * The driver contract's base class and the process-wide registry that maps a
 * backend name to the driver class that serves it.
 */
module Bus {
  import opened Wrappers

  /** BusDriver.__init__(name): the base class only remembers its name. */
  class BusDriver {
    var name: string

    constructor (name: string)
      ensures this.name == name
    {
      this.name := name;
    }
  }

  /** The driver classes that register themselves. */
  datatype DriverClass =
    | DummyBusDriver
    | RedisBusDriver
    | KafkaBusDriver
    | NatsBusDriver
    | PostgresTablePollBusDriver

  /** One constructor argument, positional or keyword; passed through untouched. */
  datatype Arg = Positional(value: string) | Keyword(key: string, value: string)

  /** What `cls(*args, **kwargs)` produces: an instance of `cls` built from `args`. */
  datatype Instance = Instance(cls: DriverClass, args: seq<Arg>)

  datatype Error = ValueError(message: string)

  /** The message `create` raises with for a name nobody registered. */
  function NotRegistered(name: string): string
  {
    "Bus driver '" + name + "' not registered."
  }

  /** `create` over a given registry: look the name up and construct, or raise. */
  function CreateFrom(registry: map<string, DriverClass>, name: string, args: seq<Arg>): (r: Result<Instance, Error>)
    ensures r.Failure? <==> name !in registry
    ensures r.Failure? ==> r.error == ValueError(NotRegistered(name))
    ensures r.Success? ==> r.value.cls == registry[name] && r.value.args == args
  {
    if name !in registry then Failure(ValueError(NotRegistered(name)))
    else Success(Instance(registry[name], args))
  }

  /** BusDriverFactory: the class-level `registry` dict and its two class methods. */
  class BusDriverFactory {
    var registry: map<string, DriverClass>

    constructor ()
      ensures registry == map[]
    {
      registry := map[];
    }

    /** register(name, driver_cls): set the entry for `name`, overwriting any earlier one. */
    method Register(name: string, cls: DriverClass)
      modifies this
      ensures registry == old(registry)[name := cls]
      ensures registry[name] == cls
      ensures forall other :: other != name ==> (other in registry <==> other in old(registry))
      ensures forall other :: other != name && other in registry ==> registry[other] == old(registry)[other]
    {
      registry := registry[name := cls];
    }

    /** create(name, *args): an instance of the class registered under `name`, or ValueError. */
    function Create(name: string, args: seq<Arg>): (r: Result<Instance, Error>)
      reads this
      ensures r.Failure? <==> name !in registry
      ensures r.Failure? ==> r.error == ValueError(NotRegistered(name))
      ensures r.Success? ==> r.value == Instance(registry[name], args)
    {
      CreateFrom(registry, name, args)
    }
  }

  /** After register(n, c), create(n, ...) builds an instance of c. */
  lemma CreateAfterRegister(registry: map<string, DriverClass>, name: string, cls: DriverClass, args: seq<Arg>)
    ensures CreateFrom(registry[name := cls], name, args) == Success(Instance(cls, args))
  {
  }

  /** Registering a name twice: the last registration wins. */
  lemma LastRegistrationWins(registry: map<string, DriverClass>, name: string, first: DriverClass, second: DriverClass, args: seq<Arg>)
    ensures CreateFrom(registry[name := first][name := second], name, args) == Success(Instance(second, args))
  {
  }

  /** Registering one name does not change what create returns for any other name. */
  lemma RegisterKeepsOthers(registry: map<string, DriverClass>, name: string, cls: DriverClass, other: string, args: seq<Arg>)
    requires other != name
    ensures CreateFrom(registry[name := cls], other, args) == CreateFrom(registry, other, args)
  {
  }
}

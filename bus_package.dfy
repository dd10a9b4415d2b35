/** The bus package's entry point: get_bus_driver. */
module BusPackage {
  import opened Wrappers
  import opened Bus

  /** get_bus_driver(name, *args): exactly what BusDriverFactory.create returns. */
  function GetBusDriver(factory: BusDriverFactory, name: string, args: seq<Arg>): (r: Result<Instance, Error>)
    reads factory
    ensures r == factory.Create(name, args)
    ensures name !in factory.registry ==> r == Failure(ValueError(NotRegistered(name)))
    ensures name in factory.registry ==> r.Success? && r.value.cls == factory.registry[name]
  {
    factory.Create(name, args)
  }
}

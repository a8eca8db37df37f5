/** The dependency container: a table from type to either a value or a
    factory. Resolving a factory calls it on every resolution; what an async
    factory returns (an awaitable) is itself the value `V`. */
module Container {
  import opened Wrappers
  import opened GatewayApi

  /** A Python type object, by identity. */
  type TypeKey = nat

  /** A registered entry. The runtime-checkable factory protocol only asks
      for `__call__`, so every callable registered, a class object included,
      is a factory; every other object is a plain value. */
  datatype Dependency<V> = Value(v: V) | Factory(make: () -> V)

  /** What resolving an entry yields. */
  function Produce<V>(d: Dependency<V>): (r: V)
    ensures d.Value? ==> r == d.v
    ensures d.Factory? ==> r == d.make()
  {
    match d
    case Value(v) => v
    case Factory(make) => make()
  }

  /** `resolve` over the table `registry`. */
  function ResolveIn<V>(registry: map<TypeKey, Dependency<V>>, key: TypeKey): (r: Result<V, Failure>)
    ensures r.Failure? <==> key !in registry
    ensures r.Failure? ==> r.error == KeyError
    ensures r.Success? ==> r.value == Produce(registry[key])
  {
    if key !in registry then Failure(KeyError) else Success(Produce(registry[key]))
  }

  /** Registering overwrites: the registered key resolves to the new entry and
      every other key resolves as before. */
  lemma ResolveAfterRegister<V>(registry: map<TypeKey, Dependency<V>>, key: TypeKey, d: Dependency<V>, other: TypeKey)
    ensures ResolveIn(registry[key := d], key) == Success(Produce(d))
    ensures other != key ==> ResolveIn(registry[key := d], other) == ResolveIn(registry, other)
  {
  }

  /** Registering never makes a resolvable key fail. */
  lemma RegisterKeepsResolvable<V>(registry: map<TypeKey, Dependency<V>>, key: TypeKey, d: Dependency<V>, other: TypeKey)
    requires ResolveIn(registry, other).Success?
    ensures ResolveIn(registry[key := d], other).Success?
  {
  }

  class DependencyContainer<V> {
    /** `_registry` */
    var registry: map<TypeKey, Dependency<V>>

    constructor ()
      ensures registry == map[]
    {
      registry := map[];
    }

    method Register(key: TypeKey, value: Dependency<V>)
      modifies this
      ensures registry == old(registry)[key := value]
    {
      registry := registry[key := value];
    }

    function Resolve(key: TypeKey): (r: Result<V, Failure>)
      reads this
      ensures r == ResolveIn(registry, key)
      ensures key !in registry ==> r == Failure(KeyError)
      ensures key in registry ==> r == Success(Produce(registry[key]))
    {
      ResolveIn(registry, key)
    }
  }
}

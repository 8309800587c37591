/** The render-engine and file-loader registries that PlatformInit fills
    (Environment.cs:41-44). The constructors the registered callbacks invoke
    belong to other classes; a factory is kept only as the name of what it builds. */
module Registry {
  import opened Wrappers

  datatype Factory = FontSvgCanvas | Html5Canvas | JsFileLoader

  type Registry = map<string, Factory>

  /** `registry[name] = factory`: adds or overwrites one entry. */
  function Register(registry: Registry, name: string, factory: Factory): (r: Registry)
    ensures r.Keys == registry.Keys + {name}
    ensures Lookup(r, name) == Some(factory)
    ensures forall other :: other != name ==> Lookup(r, other) == Lookup(registry, other)
  {
    registry[name := factory]
  }

  function Lookup(registry: Registry, name: string): Option<Factory>
  {
    if name in registry then Some(registry[name]) else None
  }

  /** Registering a name twice keeps only the second factory. */
  lemma LastWriteWins(registry: Registry, name: string, first: Factory, second: Factory)
    ensures Register(Register(registry, name, first), name, second) == Register(registry, name, second)
  {
  }
}

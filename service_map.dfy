/** The process-wide service map: an object whose own properties are service
    tokens, re-initialised from a registry, and its lazily created instance. */
module ServiceMap {
  import opened Common
  import opened ServiceConfig

  class ServiceMap {
    /** The object's own properties: token to live client or descriptor. */
    var entries: map<string, Entry>

    /** A new instance has no own properties. */
    constructor ()
      ensures entries == map[]
    {
      entries := map[];
    }

    /** `_.forOwn(this, (value, key) => _.unset(this, key))`: remove every own
        property, one at a time. */
    method Clear()
      modifies this
      ensures entries == map[]
    {
      while entries != map[]
        decreases |entries|
      {
        var token :| token in entries;
        entries := entries - {token};
      }
    }

    /** `init(config, options)`: remove every own property, validate the
        registry, then assign each token its own build result. A registry that
        fails validation leaves the map empty. */
    method Init(config: Value, env: Env, backend: Backend) returns (r: Result<()>)
      modifies this
      ensures GetServiceMap(config, env, backend).Ok? ==>
                r == Ok(()) && entries == GetServiceMap(config, env, backend).value
      ensures GetServiceMap(config, env, backend).Err? ==>
                r == Err(InvalidConfig) && entries == map[]
    {
      Clear();
      var validated := New(config);
      if validated.Err? {
        return Err(validated.error);
      }
      var sc := validated.value;
      var built := BuildEntries(sc, env, backend);
      SameServiceMap(config, env, backend, built);
      // The cleared map now takes exactly the built entries.
      entries := entries + built;
      assert entries == built;
      r := Ok(());
    }
  }

  /** The build step of `init`: every registered token paired with its own
      build result. */
  method BuildEntries(sc: Config, env: Env, backend: Backend) returns (built: map<string, Entry>)
    ensures built.Keys == sc.registry.Keys
    ensures forall t :: t in built ==> built[t] == ServiceEntry(sc, t, env, backend)
  {
    var tokens := sc.registry.Keys;
    var pending := tokens;
    built := map[];
    while pending != {}
      invariant pending <= tokens
      invariant built.Keys == tokens - pending
      invariant forall t :: t in built ==> t in sc.registry && built[t] == ServiceEntry(sc, t, env, backend)
      decreases pending
    {
      var token :| token in pending;
      built := built[token := ServiceEntry(sc, token, env, backend)];
      pending := pending - {token};
    }
  }

  lemma SameServiceMap(config: Value, env: Env, backend: Backend, built: map<string, Entry>)
    requires New(config).Ok?
    requires built.Keys == New(config).value.registry.Keys
    requires forall t :: t in built ==> built[t] == ServiceEntry(New(config).value, t, env, backend)
    ensures GetServiceMap(config, env, backend) == Ok(built)
  {
    var sc := New(config).value;
    var m := map t | t in sc.registry :: ServiceEntry(sc, t, env, backend);
    assert GetServiceMap(config, env, backend) == Ok(m);
    SameEntries(sc, env, backend, m, built);
  }

  lemma SameEntries(sc: Config, env: Env, backend: Backend, m: map<string, Entry>, built: map<string, Entry>)
    requires m.Keys == sc.registry.Keys && built.Keys == sc.registry.Keys
    requires forall t :: t in m ==> m[t] == ServiceEntry(sc, t, env, backend)
    requires forall t :: t in built ==> built[t] == ServiceEntry(sc, t, env, backend)
    ensures m == built
  {
  }

  /** Holder of the static `#instance` field of the ServiceMap class. */
  class InstanceSlot {
    var instance: ServiceMap?

    /** Before the first access no instance exists. */
    constructor ()
      ensures instance == null
    {
      instance := null;
    }

    /** The static `instance` getter: create the instance on first access and
        return the same object on every access. */
    method Instance() returns (s: ServiceMap)
      modifies this
      ensures old(instance) != null ==> s == old(instance)
      ensures old(instance) == null ==> fresh(s) && s.entries == map[]
      ensures instance == s
    {
      if instance == null {
        instance := new ServiceMap();
      }
      s := instance;
    }
  }

  /** Two accesses to the instance return one and the same object, and the
      second creates nothing. */
  method AccessTwice(slot: InstanceSlot) returns (first: ServiceMap, second: ServiceMap)
    modifies slot
    ensures first == second && slot.instance == first
    ensures old(slot.instance) != null ==> first == old(slot.instance)
  {
    first := slot.Instance();
    second := slot.Instance();
  }
}

/** The stock optional value. */
module Options {
  datatype Option<+T> = None | Some(value: T)
}

/** Trigger bindings, the providers that serve trigger types, and how a binding finds its provider. */
module Bindings {
  import opened Options

  type Id = string
  type Namespace = string
  type WorkerId = nat

  /** What a provider is filed under: the namespace it serves and the type id it answers for. */
  type TypeKey = (Namespace, string)

  const DEFAULT_NAMESPACE: Namespace := "default"

  /** A binding. `config` and `metadata` are opaque here: the registry only carries them. */
  datatype Trigger = Trigger(
    id: Id,
    triggerType: string,
    functionId: string,
    config: string,
    workerId: Option<WorkerId>,
    metadata: Option<string>,
    namespace: Namespace,
    triggerNamespace: Option<Namespace>,
    homeNamespace: Namespace,
    providerNamespace: Namespace)
  {
    /** The provider this binding is bound to. */
    function ProviderKey(): TypeKey {
      (providerNamespace, triggerType)
    }

    /** Served by the fallback while it would prefer a provider at home; explicit bindings never are. */
    predicate IsOnFallback() {
      triggerNamespace.None? && providerNamespace != homeNamespace
    }

    function ServedFrom(namespace: Namespace): Trigger {
      this.(providerNamespace := namespace)
    }

    /** What the caller asked for: everything except where the registry placed the binding. */
    function Intent(): Trigger {
      ServedFrom(homeNamespace)
    }

    /** The first key a resolved lookup reads. */
    function FirstKey(): TypeKey {
      (if triggerNamespace.Some? then triggerNamespace.value else homeNamespace, triggerType)
    }

    /** The key a lookup that missed at home reads next; an explicit binding never reads it. */
    function FallbackKey(): TypeKey {
      (DEFAULT_NAMESPACE, triggerType)
    }
  }

  /** A provider. `registrator` is the identity of the shared handle, compared by pointer in the source. */
  datatype Provider = Provider(registrator: nat, workerId: Option<WorkerId>)

  /** Where the binding's provider lives: the named namespace or nothing; otherwise home, then the default. */
  function Resolve(types: map<TypeKey, Provider>, binding: Trigger): Option<TypeKey> {
    if binding.FirstKey() in types then Some(binding.FirstKey())
    else if binding.triggerNamespace.Some? then None
    else if binding.FallbackKey() in types then Some(binding.FallbackKey())
    else None
  }
}

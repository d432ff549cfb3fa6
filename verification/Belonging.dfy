/** Where a binding belongs and what a caller asked for, said with its own fields: what look-ups and intents mean. */
module Belonging {
  import opened Options
  import opened Bindings

  /** A binding that names a namespace belongs there or nowhere; any other at home, else in the default namespace. */
  predicate BelongsAt(types: map<TypeKey, Provider>, binding: Trigger, namespace: Namespace) {
    && (namespace, binding.triggerType) in types
    && match binding.triggerNamespace
       case Some(named) => namespace == named
       case None =>
         || namespace == binding.homeNamespace
         || (namespace == "default" && (binding.homeNamespace, binding.triggerType) !in types)
  }

  /** No provider the binding could have is there. */
  predicate BelongsNowhere(types: map<TypeKey, Provider>, binding: Trigger) {
    match binding.triggerNamespace
    case Some(named) => (named, binding.triggerType) !in types
    case None =>
      && (binding.homeNamespace, binding.triggerType) !in types
      && ("default", binding.triggerType) !in types
  }

  /** A look-up finds the one provider the binding belongs to, and nothing exactly when there is none. */
  lemma ResolveMeans(types: map<TypeKey, Provider>, binding: Trigger, key: TypeKey)
    ensures Resolve(types, binding) == Some(key) <==> key.1 == binding.triggerType && BelongsAt(types, binding, key.0)
    ensures Resolve(types, binding) == None <==> BelongsNowhere(types, binding)
  {
  }

  /** A binding belongs in one place at most, and in some place unless in none. */
  lemma BelongsOnce(types: map<TypeKey, Provider>, binding: Trigger, one: Namespace, other: Namespace)
    requires BelongsAt(types, binding, one) && BelongsAt(types, binding, other)
    ensures one == other && !BelongsNowhere(types, binding)
  {
  }

  /** Every live binding is with the provider it belongs to, and what is parked belongs nowhere. */
  predicate InTheirPlaces(types: map<TypeKey, Provider>, live: map<Id, Trigger>, pending: map<Id, Trigger>) {
    && (forall id <- live :: live[id].id == id && BelongsAt(types, live[id], live[id].providerNamespace))
    && (forall id <- pending :: pending[id].id == id && BelongsNowhere(types, pending[id]))
  }

  /** An intent is all a caller gave: everything but the namespace of the provider the registry chose. */
  lemma IntentIsThePayload(binding: Trigger, other: Trigger)
    ensures binding.Intent() == other.Intent()
            <==> && binding.id == other.id
                 && binding.triggerType == other.triggerType
                 && binding.functionId == other.functionId
                 && binding.config == other.config
                 && binding.workerId == other.workerId
                 && binding.metadata == other.metadata
                 && binding.namespace == other.namespace
                 && binding.triggerNamespace == other.triggerNamespace
                 && binding.homeNamespace == other.homeNamespace
  {
  }

  /** On the fallback: it names no namespace, and is not where it is at home. */
  lemma OnFallbackMeans(binding: Trigger)
    ensures binding.IsOnFallback()
            <==> binding.triggerNamespace.None? && binding.providerNamespace != binding.homeNamespace
    ensures binding.ProviderKey() == (binding.providerNamespace, binding.triggerType)
  {
  }
}

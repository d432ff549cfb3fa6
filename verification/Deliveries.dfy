/** Calls made to providers, and what it means that exactly certain bindings were sent, each once. */
module Deliveries {
  import opened Options
  import opened Bindings
  import opened Belonging

  /** A binding replayed to a provider, or taken from it. */
  datatype Delivery = Delivery(registrator: nat, binding: Trigger)

  /** How often a call concerned `id`. */
  function Times(deliveries: seq<Delivery>, id: Id): nat {
    if deliveries == [] then 0
    else Times(deliveries[..|deliveries| - 1], id) + if deliveries[|deliveries| - 1].binding.id == id then 1 else 0
  }

  // ---- Whom a binding is sent to -----------------------------------------------------------------------------

  /** The call that a binding gives rise to, if any. */
  type Addressing = Trigger -> Option<Delivery>

  function To(registrator: nat): Addressing {
    (binding: Trigger) => Some(Delivery(registrator, binding))
  }

  /** The provider the binding is bound to, if it is there. */
  function OwnProvider(types: map<TypeKey, Provider>, binding: Trigger): Option<Delivery> {
    if binding.ProviderKey() in types then Some(Delivery(types[binding.ProviderKey()].registrator, binding)) else None
  }

  function ToOwn(types: map<TypeKey, Provider>): Addressing {
    (binding: Trigger) => OwnProvider(types, binding)
  }

  /** The provider the binding resolves to, if any, with the binding as that one serves it. */
  function HomeProvider(types: map<TypeKey, Provider>, binding: Trigger): Option<Delivery> {
    match Resolve(types, binding)
    case Some(key) => Some(Delivery(types[key].registrator, binding.ServedFrom(key.0)))
    case None => None
  }

  function ToHome(types: map<TypeKey, Provider>): Addressing {
    (binding: Trigger) => HomeProvider(types, binding)
  }

  /** The two addresses in terms of namespaces: the provider a binding is with, and the one it belongs to. */
  lemma AddressesMean(types: map<TypeKey, Provider>, binding: Trigger, namespace: Namespace, registrator: nat)
    ensures To(registrator)(binding) == Some(Delivery(registrator, binding))
    ensures ToOwn(types)(binding)
            == var key := (binding.providerNamespace, binding.triggerType);
               if key in types then Some(Delivery(types[key].registrator, binding)) else None
    ensures BelongsAt(types, binding, namespace) ==>
              ToHome(types)(binding)
              == Some(Delivery(types[(namespace, binding.triggerType)].registrator,
                               binding.(providerNamespace := namespace)))
    ensures BelongsNowhere(types, binding) ==> ToHome(types)(binding) == None
  {
    ResolveMeans(types, binding, (namespace, binding.triggerType));
  }

  function Calls(call: Option<Delivery>): seq<Delivery> {
    if call.Some? then [call.value] else []
  }

  // ---- Exactly those, each once ------------------------------------------------------------------------------

  function CallFor(bindings: map<Id, Trigger>, ids: set<Id>, address: Addressing, id: Id): Option<Delivery> {
    if id in ids && id in bindings then address(bindings[id]) else None
  }

  /** `after` adds to `before` the calls that the bindings of `ids` give rise to, each once, and nothing else. */
  ghost predicate Sent(
      before: seq<Delivery>, after: seq<Delivery>, bindings: map<Id, Trigger>, ids: set<Id>, address: Addressing)
  {
    && before <= after
    && forall id ::
         var call := CallFor(bindings, ids, address, id);
         && Times(after[|before|..], id) == (if call.Some? then 1 else 0)
         && (call.Some? ==> call.value in after[|before|..])
  }

  lemma SentNothing(deliveries: seq<Delivery>, bindings: map<Id, Trigger>, address: Addressing)
    ensures Sent(deliveries, deliveries, bindings, {}, address)
  {
    assert deliveries[|deliveries|..] == [];
  }

  lemma OneMore(deliveries: seq<Delivery>, delivery: Delivery, id: Id)
    ensures Times(deliveries + [delivery], id) == Times(deliveries, id) + if delivery.binding.id == id then 1 else 0
    ensures delivery in deliveries + [delivery]
  {
    assert (deliveries + [delivery])[..|deliveries|] == deliveries;
    assert (deliveries + [delivery])[|deliveries|] == delivery;
  }

  /** Sending one more binding; those sent already are as they were. */
  lemma SentOneMore(
      first: seq<Delivery>, before: seq<Delivery>, bindings: map<Id, Trigger>, ids: set<Id>, address: Addressing,
      later: map<Id, Trigger>, id: Id)
    requires Sent(first, before, bindings, ids, address) && id !in ids && id in later
    requires forall other <- ids :: other in bindings && other in later && later[other] == bindings[other]
    requires address(later[id]).Some? ==> address(later[id]).value.binding.id == id
    ensures Sent(first, before + Calls(address(later[id])), later, ids + {id}, address)
  {
    var call := address(later[id]);
    var tail, after := before[|first|..], before + Calls(call);
    assert after[|first|..] == tail + Calls(call);
    forall other
      ensures
        var wanted := CallFor(later, ids + {id}, address, other);
        && Times(after[|first|..], other) == (if wanted.Some? then 1 else 0)
        && (wanted.Some? ==> wanted.value in after[|first|..])
    {
      assert other != id ==> CallFor(later, ids + {id}, address, other) == CallFor(bindings, ids, address, other);
      if call.Some? { OneMore(tail, call.value, other); } else { assert tail + Calls(call) == tail; }
    }
  }

  /** The same, for a binding that has just gone live and is sent to one provider. */
  lemma ToOneMore(
      first: seq<Delivery>, before: seq<Delivery>, live: map<Id, Trigger>, ids: set<Id>, registrator: nat,
      binding: Trigger)
    requires Sent(first, before, live, ids, To(registrator)) && binding.id !in ids && ids <= live.Keys
    ensures Sent(first, before + [Delivery(registrator, binding)], live[binding.id := binding], ids + {binding.id},
                 To(registrator))
  {
    SentOneMore(first, before, live, ids, To(registrator), live[binding.id := binding], binding.id);
  }

  /** The same, for a binding as it was all along that is sent to its own provider. */
  lemma OwnOneMore(
      types: map<TypeKey, Provider>, first: seq<Delivery>, before: seq<Delivery>, live: map<Id, Trigger>, ids: set<Id>,
      id: Id)
    requires Sent(first, before, live, ids, ToOwn(types)) && id in live && id !in ids && ids <= live.Keys
    requires live[id].id == id
    ensures Sent(first, before + Calls(OwnProvider(types, live[id])), live, ids + {id}, ToOwn(types))
  {
    SentOneMore(first, before, live, ids, ToOwn(types), live, id);
  }

  lemma {:induction false} TimesConcat(first: seq<Delivery>, second: seq<Delivery>, id: Id)
    ensures Times(first + second, id) == Times(first, id) + Times(second, id)
    decreases |second|
  {
    if second == [] {
      assert first + second == first;
    } else {
      assert (first + second)[..|first + second| - 1] == first + second[..|second| - 1];
      TimesConcat(first, second[..|second| - 1], id);
    }
  }

  /** Two rounds of calls for different ids: for each id the calls of its own round. */
  lemma TwoRounds(
      first: seq<Delivery>, middle: seq<Delivery>, last: seq<Delivery>, bindings: map<Id, Trigger>, ids: set<Id>,
      address: Addressing, later: map<Id, Trigger>, more: set<Id>, next: Addressing, id: Id)
    requires Sent(first, middle, bindings, ids, address) && Sent(middle, last, later, more, next)
    requires ids !! more
    ensures
      var call := if id in ids then CallFor(bindings, ids, address, id) else CallFor(later, more, next, id);
      && first <= last
      && Times(last[|first|..], id) == (if call.Some? then 1 else 0)
      && (call.Some? ==> call.value in last[|first|..])
  {
    var one, two := middle[|first|..], last[|middle|..];
    assert last[|first|..] == one + two;
    TimesConcat(one, two, id);
    assert CallFor(bindings, ids, address, id).Some? ==> CallFor(bindings, ids, address, id).value in one;
    assert CallFor(later, more, next, id).Some? ==> CallFor(later, more, next, id).value in two;
  }

  /** Two rounds addressed alike are one. */
  lemma SentBoth(
      first: seq<Delivery>, middle: seq<Delivery>, last: seq<Delivery>, bindings: map<Id, Trigger>, ids: set<Id>,
      later: map<Id, Trigger>, more: set<Id>, address: Addressing)
    requires Sent(first, middle, bindings, ids, address) && Sent(middle, last, later, more, address)
    requires ids !! more
    requires forall id <- ids :: id in bindings && id in later && later[id] == bindings[id]
    ensures Sent(first, last, later, ids + more, address)
  {
    forall id
      ensures
        var call := CallFor(later, ids + more, address, id);
        && first <= last
        && Times(last[|first|..], id) == (if call.Some? then 1 else 0)
        && (call.Some? ==> call.value in last[|first|..])
    {
      TwoRounds(first, middle, last, bindings, ids, address, later, more, address, id);
    }
  }

  /** What is said about the same bindings under other maps. */
  lemma SentSame(
      before: seq<Delivery>, after: seq<Delivery>, bindings: map<Id, Trigger>, later: map<Id, Trigger>, ids: set<Id>,
      address: Addressing)
    requires Sent(before, after, bindings, ids, address)
    requires forall id <- ids :: id in bindings && id in later && later[id] == bindings[id]
    ensures Sent(before, after, later, ids, address)
  {
    forall id ensures CallFor(later, ids, address, id) == CallFor(bindings, ids, address, id) {
    }
  }
}

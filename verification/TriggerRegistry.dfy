/**
 The registry object: its critical sections, each equal to its function in `Registries`, and its operations run
 one at a time with providers that accept, each keeping every binding where `Placement` says it belongs.
 */
module TriggerRegistries {
  import opened Options
  import opened Bindings
  import opened Registries
  import opened Placement
  import opened TriggerStores
  import opened Deliveries
  import opened Belonging

  datatype Outcome = Registered | Deferred | Failed
  datatype BindAnswer = Accepted | Refused | Unavailable

  /** A binding claimed by an operation, with the operation's token. */
  datatype Claim = Claim(binding: Trigger, token: nat)

  ghost predicate DistinctIds(orphans: seq<Claim>) {
    forall i, j | 0 <= i < j < |orphans| :: orphans[i].binding.id != orphans[j].binding.id
  }

  /** What is in flight is exactly `orphans[from..]`: live bindings, each claimed once, under its own token. */
  ghost predicate InFlight(r: Registry, orphans: seq<Claim>, from: nat) {
    && from <= |orphans|
    && DistinctIds(orphans)
    && (forall i | from <= i < |orphans| ::
          && r.Current(orphans[i].binding.id, orphans[i].token)
          && Lookup(r.triggers, orphans[i].binding.id) == Some(orphans[i].binding))
    && (forall id <- r.failingOver :: exists i :: from <= i < |orphans| && orphans[i].binding.id == id)
  }

  ghost predicate ListsEach(claims: seq<Claim>, ids: set<Id>) {
    forall id <- ids :: exists i :: 0 <= i < |claims| && claims[i].binding.id == id
  }

  /** A claim on a live binding of `ids`, under a token issued since `before`. */
  predicate IsFresh(before: Registry, after: Registry, claim: Claim, ids: set<Id>) {
    && claim.binding.id in ids
    && Lookup(after.triggers, claim.binding.id) == Some(claim.binding)
    && after.Current(claim.binding.id, claim.token)
    && before.tokens < claim.token <= after.tokens
  }

  /** `claims` holds each of `ids`, live, once and under its own fresh token; nothing else in flight changed. */
  ghost predicate Claimed(before: Registry, after: Registry, claims: seq<Claim>, ids: set<Id>) {
    && after == before.(failingOver := after.failingOver, tokens := after.tokens) && before.tokens <= after.tokens
    && DistinctIds(claims)
    && (forall i | 0 <= i < |claims| :: IsFresh(before, after, claims[i], ids))
    && ListsEach(claims, ids)
    && after.failingOver.Keys == before.failingOver.Keys + ids
    && (forall id <- before.failingOver | id !in ids :: after.failingOver[id] == before.failingOver[id])
  }

  /** The live bindings served at `key`, except those in flight. */
  function LiveAt(r: Registry, key: TypeKey): set<Id> {
    set id | id in r.triggers && r.triggers[id].ProviderKey() == key && id !in r.failingOver
  }

  function OwnedBy(live: map<Id, Trigger>, worker: WorkerId): set<Id> {
    set id | id in live && live[id].workerId == Some(worker)
  }

  /** `after` is `live` with the bindings of `ids` served from `namespace`, and nothing else changed. */
  predicate Rebound(
      live: map<Id, Trigger>, after: map<Id, Trigger>, bindings: map<Id, Trigger>, ids: set<Id>, namespace: Namespace)
  {
    && after.Keys == live.Keys + ids
    && (forall id <- ids :: id in bindings && id in after && after[id] == bindings[id].ServedFrom(namespace))
    && (forall id <- live | id !in ids :: id in after && after[id] == live[id])
  }

  /** Every binding the provider at `key` served is live as it was and was replayed once, to `registrator`. */
  ghost predicate ReplayedAndKept(
      before: Registry, live: map<Id, Trigger>, added: seq<Delivery>, key: TypeKey, registrator: nat)
  {
    forall id <- before.Orphans(key) ::
      && Lookup(live, id) == Some(before.triggers[id])
      && Times(added, id) == 1
      && Delivery(registrator, before.triggers[id]) in added
  }

  class TriggerRegistry {
    var types: map<TypeKey, Provider>
    const triggers: TriggerStore
    var pending: map<Id, Trigger>
    var failingOver: map<Id, Transition>
    var tokens: nat
    ghost var intents: map<Id, Trigger>
    ghost var replays: seq<Delivery>
    ghost var detaches: seq<Delivery>

    ghost function View(): Registry
      reads this, triggers
    {
      Registry(types, triggers.byId, pending, failingOver, tokens)
    }

    ghost predicate Valid()
      reads this, triggers
    {
      triggers.Valid() && forall id <- triggers.byId :: triggers.byId[id].id == id
    }

    /** Nothing but claimed live bindings is in flight, and every other intent is exactly where it resolves to. */
    ghost predicate Resting()
      reads this, triggers
    {
      Valid() && failingOver.Keys <= triggers.byId.Keys && Placed(View(), intents, failingOver.Keys)
    }

    /** At rest: nothing in flight, and every intent exactly where it resolves to. */
    ghost predicate Quiet()
      reads this, triggers
    {
      Valid() && failingOver == map[] && Placed(View(), intents, {})
    }

    constructor ()
      ensures Quiet() && types == map[] && intents == map[] && replays == [] && detaches == [] && fresh(triggers)
    {
      types, pending, failingOver, tokens := map[], map[], map[], 0;
      intents, replays, detaches := map[], [], [];
      triggers := new TriggerStore();
    }

    // ---- Critical sections -----------------------------------------------------------------------------------

    method BeginTransition(binding: Trigger, removing: bool) returns (token: nat)
      requires Valid()
      modifies this`failingOver, this`tokens
      ensures Valid() && View() == old(View()).Begin(binding, removing) && token == tokens
    {
      tokens := tokens + 1;
      token := tokens;
      failingOver := failingOver[binding.id := Transition(token, binding.workerId, removing, binding)];
    }

    method FinishTransition(id: Id, token: nat) returns (finished: bool)
      requires Valid()
      modifies this`failingOver
      ensures Valid() && View() == old(View()).Finish(id, token)
      ensures finished == old(View()).Current(id, token)
    {
      finished := id in failingOver && failingOver[id].token == token;
      if finished {
        failingOver := failingOver - {id};
      }
    }

    method RemoveLive(id: Id) returns (removed: Option<Trigger>)
      requires Valid()
      modifies triggers
      ensures Valid() && triggers.byId == old(triggers.byId) - {id}
      ensures removed == Lookup(old(triggers.byId), id)
    {
      removed := triggers.RemoveIf(id, (_, _) => true);
    }

    method ParkNew(binding: Trigger) returns (superseded: Option<Trigger>)
      requires Valid()
      modifies this`pending, this`failingOver, triggers
      ensures Valid() && View() == old(View()).ParkNew(binding)
      ensures superseded == Lookup(old(triggers.byId), binding.id)
    {
      failingOver := failingOver - {binding.id};
      superseded := RemoveLive(binding.id);
      pending := pending[binding.id := binding];
    }

    method SettleLive(binding: Trigger)
      requires Valid()
      modifies this`pending, this`failingOver, triggers
      ensures Valid() && View() == old(View()).SettleLive(binding)
    {
      failingOver := failingOver - {binding.id};
      pending := pending - {binding.id};
      var _ := triggers.Insert(binding.id, binding);
    }

    method ClaimParked(id: Id, key: TypeKey) returns (claim: Option<Claim>)
      requires Valid()
      modifies this`pending, this`failingOver, this`tokens
      ensures Valid()
      ensures old(View()).CanClaimParked(id) ==>
                && View() == old(View()).ClaimParked(id, key)
                && claim == Some(Claim(old(pending)[id].ServedFrom(key.0), tokens))
      ensures !old(View()).CanClaimParked(id) ==> View() == old(View()) && claim == None
    {
      if (id in failingOver && failingOver[id].removing) || id !in pending {
        return None;
      }
      var binding := pending[id].ServedFrom(key.0);
      pending := pending - {id};
      var token := BeginTransition(binding, false);
      claim := Some(Claim(binding, token));
    }

    method SettleActivation(binding: Trigger, token: nat, accepted: bool) returns (settled: Option<bool>)
      requires Valid()
      modifies this`pending, this`failingOver, triggers
      ensures Valid() && View() == old(View()).SettleActivation(binding, token, accepted)
      ensures settled.Some? <==>
                && old(View()).Current(binding.id, token)
                && binding.id !in old(triggers.byId) && binding.id !in old(pending)
      ensures settled.Some? ==> settled.value == accepted
    {
      settled := None;
      var finished := FinishTransition(binding.id, token);
      if finished && binding.id !in triggers.byId && binding.id !in pending {
        if accepted {
          var _ := triggers.Insert(binding.id, binding);
        } else {
          pending := pending[binding.id := binding];
          assert triggers.byId == triggers.byId - {binding.id};
        }
        settled := Some(accepted);
      }
    }

    method StartFailover(orphan: Trigger, token: nat) returns (moving: Option<Trigger>)
      requires Valid()
      modifies this`failingOver
      ensures Valid() && View() == old(View()).StartFailover(orphan, token)
      ensures moving == if old(View()).Current(orphan.id, token) then Some(old(View()).Redirected(orphan)) else None
    {
      if orphan.id !in failingOver || failingOver[orphan.id].token != token {
        return None;
      }
      var next := Resolve(types, orphan);
      var target := if next.Some? then orphan.ServedFrom(next.value.0) else orphan;
      failingOver := failingOver[orphan.id := failingOver[orphan.id].(target := target)];
      moving := Some(target);
    }

    method SettleMove(moved: Trigger, token: nat, accepted: bool) returns (settled: bool)
      requires Valid()
      modifies this`pending, this`failingOver, triggers
      ensures Valid() && View() == old(View()).SettleMove(moved, token, accepted)
      ensures settled == old(View()).Current(moved.id, token)
    {
      settled := FinishTransition(moved.id, token);
      if settled {
        if accepted {
          var _ := triggers.Insert(moved.id, moved);
        } else {
          var _ := RemoveLive(moved.id);
          pending := pending[moved.id := moved];
        }
      }
    }

    method ClaimRehome(id: Id, key: TypeKey) returns (claim: Option<Claim>)
      requires Valid()
      modifies this`failingOver, this`tokens
      ensures Valid()
      ensures old(View()).CanRehome(id, key) ==>
                && View() == old(View()).ClaimRehome(id, key)
                && claim == Some(Claim(triggers.byId[id].ServedFrom(key.0), tokens))
      ensures !old(View()).CanRehome(id, key) ==> View() == old(View()) && claim == None
    {
      if id !in triggers.byId {
        return None;
      }
      var current := triggers.byId[id];
      if !current.IsOnFallback() || current.homeNamespace != key.0 || current.triggerType != key.1
         || id in failingOver {
        return None;
      }
      var target := current.ServedFrom(key.0);
      var token := BeginTransition(target, false);
      claim := Some(Claim(target, token));
    }

    /** A live binding is claimed for removal; otherwise whatever is claimed or parked under `id` is dropped. */
    method StartRemoval(id: Id) returns (claim: Option<Claim>, dropped: bool)
      requires Valid()
      modifies this`pending, this`failingOver, this`tokens
      ensures Valid() && View() == old(View()).StartRemoval(id)
      ensures claim == if id in old(triggers.byId) then Some(Claim(old(triggers.byId)[id], tokens)) else None
      ensures dropped <==> id !in old(triggers.byId) && (id in old(failingOver) || id in old(pending))
    {
      claim, dropped := None, false;
      if id in triggers.byId {
        var token := BeginTransition(triggers.byId[id], true);
        claim := Some(Claim(triggers.byId[id], token));
      } else {
        dropped := id in failingOver || id in pending;
        failingOver := failingOver - {id};
        pending := pending - {id};
      }
    }

    method SettleRemoval(id: Id, token: nat) returns (removed: bool)
      requires Valid()
      modifies this`pending, this`failingOver, triggers
      ensures Valid() && View() == old(View()).SettleRemoval(id, token)
      ensures removed == old(View()).Current(id, token)
    {
      removed := FinishTransition(id, token);
      if removed {
        var _ := RemoveLive(id);
        pending := pending - {id};
      }
    }

    method RecoverRemoval(id: Id, token: nat, registrator: Option<nat>, runtime: bool) returns (recovery: Recovery)
      requires Valid()
      modifies this`pending, this`failingOver, this`tokens, triggers
      ensures Valid()
      ensures (View(), recovery) == old(View()).RecoverRemoval(id, token, registrator, runtime)
    {
      recovery := Nothing;
      if id !in failingOver || failingOver[id].token != token {
        return;
      }
      var operation := failingOver[id];
      failingOver := failingOver - {id};
      if !operation.removing || (id !in triggers.byId && id !in pending) {
        return;
      }
      var binding := if id in triggers.byId then triggers.byId[id] else pending[id];
      var key := binding.ProviderKey();
      if !runtime {
        var _ := RemoveLive(id);
        pending := pending[id := binding];
      } else if key in types && registrator == Some(types[key].registrator) {
        recovery := Repair(binding);
      } else {
        pending := pending - {id};
        var resumed := BeginTransition(binding, false);
        recovery := Resume(binding, resumed);
      }
    }

    method RecoverActivation(id: Id, token: nat, attached: bool)
      requires Valid()
      modifies this`pending, this`failingOver, triggers
      ensures Valid() && View() == old(View()).RecoverActivation(id, token, attached)
    {
      if id in failingOver && failingOver[id].token == token {
        var operation := failingOver[id];
        failingOver := failingOver - {id};
        if !attached {
          var _ := RemoveLive(id);
          pending := pending[id := operation.target];
        } else if id !in triggers.byId && id !in pending {
          pending := pending[id := operation.target];
        }
      }
    }

    method ParkRejected(id: Id) returns (parked: Option<Trigger>)
      requires Valid()
      modifies this`pending, this`failingOver, triggers
      ensures Valid() && View() == old(View()).ParkRejected(id)
      ensures parked == Lookup(old(triggers.byId), id)
      ensures parked.None? ==> View() == old(View())
      ensures parked.Some? ==>
                && triggers.byId == old(triggers.byId) - {id} && pending == old(pending)[id := parked.value]
                && failingOver == if id in old(failingOver) && old(failingOver)[id].removing then old(failingOver)
                                  else old(failingOver) - {id}
    {
      parked := RemoveLive(id);
      if parked.Some? {
        if !(id in failingOver && failingOver[id].removing) {
          failingOver := failingOver - {id};
        }
        pending := pending[parked.value.id := parked.value];
      } else {
        assert triggers.byId == old(triggers.byId);
      }
    }

    method SweepClaims(worker: WorkerId)
      requires Valid()
      modifies this`pending, this`failingOver
      ensures Valid() && View() == old(View()).SweepClaims(worker)
    {
      failingOver := map id | id in failingOver && failingOver[id].workerId != Some(worker) :: failingOver[id];
      pending := map id | id in pending && pending[id].workerId != Some(worker) :: pending[id];
    }

    /** Another worker's binding that took the id meanwhile stays. */
    method SweepLive(id: Id, worker: WorkerId) returns (removed: Option<Trigger>)
      requires Valid()
      modifies this`failingOver, triggers
      ensures Valid()
      ensures View() == if old(View()).LiveFor(id, worker) then old(View()).SweepLive(id) else old(View())
      ensures removed == if old(View()).LiveFor(id, worker) then Some(old(triggers.byId)[id]) else None
    {
      removed := triggers.RemoveIf(id, (_, binding: Trigger) => binding.workerId == Some(worker));
      if removed.Some? {
        failingOver := failingOver - {id};
      }
    }

    /** The last look for parked intents of a departed worker, outside the lock. */
    method SweepPending(worker: WorkerId)
      requires Valid()
      modifies this`pending
      ensures Valid()
      ensures forall id :: !View().ParkedFor(id, worker)
      ensures forall id <- pending :: id in old(pending) && pending[id] == old(pending)[id]
      ensures forall id <- old(pending) :: id in pending || old(View()).ParkedFor(id, worker)
    {
      pending := map id | id in pending && pending[id].workerId != Some(worker) :: pending[id];
    }

    // ---- Operations, one at a time ---------------------------------------------------------------------------

    /**
     Bind at the provider the binding resolves to, or park it. `missed` says that the first look came too early to
     find that provider; then the intent is parked, a second look finds the provider, and it activates the intent.
     */
    method RegisterTrigger(binding: Trigger, missed: bool, answer: BindAnswer) returns (outcome: Outcome)
      requires Quiet()
      modifies this, triggers
      ensures Valid() && types == old(types)
      ensures answer.Accepted? || BelongsNowhere(types, binding) ==>
                && Quiet()
                && intents == old(intents)[binding.id := binding.Intent()]
                && outcome == (if BelongsNowhere(types, binding) then Deferred else Registered)
                && InTheirPlaces(types, triggers.byId, pending)
                && (binding.id in triggers.byId <==> !BelongsNowhere(types, binding))
                && (binding.id in pending <==> BelongsNowhere(types, binding))
      ensures !missed && answer.Refused? && !BelongsNowhere(types, binding) ==>
                outcome == Failed && View() == old(View()) && intents == old(intents)
      ensures (missed || answer.Unavailable?) && !answer.Accepted? && !BelongsNowhere(types, binding) ==>
                && outcome == Deferred && intents == old(intents)[binding.id := binding.Intent()]
                && View() == old(View()).ParkNew(old(View()).Redirected(binding)).(tokens := tokens)
      ensures replays == old(replays) +
                if missed && answer.Accepted? then Calls(HomeProvider(types, binding)) else []
      ensures detaches == old(detaches) +
                if (missed || BelongsNowhere(types, binding)) && binding.id in old(triggers.byId)
                then Calls(OwnProvider(types, old(triggers.byId)[binding.id])) else []
    {
      ResolveMeans(types, binding, ("", ""));
      if missed || Resolve(types, binding).None? {
        outcome := RegisterParked(binding, answer.Accepted?);
      } else {
        outcome := RegisterAt(binding, answer);
      }
      if answer.Accepted? || Resolve(types, binding).None? { RegisteredMeans(this, binding); }
    }

    /** A registration whose first look finds a provider. */
    method RegisterAt(binding: Trigger, answer: BindAnswer) returns (outcome: Outcome)
      requires Quiet() && Resolve(types, binding).Some?
      modifies this`pending, this`failingOver, this`intents, triggers
      ensures Valid() && outcome == match answer case Accepted => Registered case Refused => Failed case _ => Deferred
      ensures intents == if answer.Refused? then old(intents) else old(intents)[binding.id := binding.Intent()]
      ensures answer.Accepted? ==> Quiet()
      ensures answer.Refused? ==> View() == old(View())
      ensures answer.Unavailable? ==> View() == old(View()).ParkNew(old(View()).Redirected(binding))
    {
      RegisterPlaces(View(), intents, binding);
      var placed := binding.ServedFrom(Resolve(types, binding).value.0);
      match answer
      case Refused =>
        outcome := Failed;
      case Unavailable =>
        var _ := ParkNew(placed);
        intents := intents[binding.id := binding.Intent()];
        outcome := Deferred;
      case Accepted =>
        SettleLive(placed);
        intents := intents[binding.id := binding.Intent()];
        outcome := Registered;
    }

    /** A registration whose first look finds none: park, then look again. */
    method RegisterParked(binding: Trigger, accepted: bool) returns (outcome: Outcome)
      requires Quiet()
      modifies this`pending, this`failingOver, this`tokens, this`intents, this`replays, this`detaches, triggers
      ensures Valid() && intents == old(intents)[binding.id := binding.Intent()]
      ensures accepted || Resolve(types, binding).None? ==> Quiet()
      ensures outcome == if accepted && Resolve(types, binding).Some? then Registered else Deferred
      ensures !accepted && Resolve(types, binding).Some? ==>
                View() == old(View()).ParkNew(old(View()).Redirected(binding)).(tokens := tokens)
      ensures replays == old(replays) + if accepted then Calls(HomeProvider(types, binding)) else []
      ensures detaches == old(detaches) +
                if binding.id in old(triggers.byId) then Calls(OwnProvider(types, old(triggers.byId)[binding.id]))
                else []
    {
      RegisterPlaces(View(), intents, binding);
      if Resolve(types, binding).Some? { LookingAgain(View(), binding, accepted); }
      intents := intents[binding.id := binding.Intent()];
      ParkAndDetach(binding);
      outcome := Deferred;
      var resolved := Resolve(types, binding);
      if resolved.Some? {
        var settled := LookAgain(binding, resolved.value, accepted);
        if settled {
          outcome := Registered;
          MapsPlace(old(View()).SettleLive(old(View()).Redirected(binding)), View(), intents, {});
        }
      }
    }

    /** Park a registration; a live binding it supersedes is taken from its provider. */
    method ParkAndDetach(binding: Trigger)
      requires Valid()
      modifies this`pending, this`failingOver, this`detaches, triggers
      ensures Valid() && View() == old(View()).ParkNew(binding)
      ensures detaches == old(detaches) +
                if binding.id in old(triggers.byId) then Calls(OwnProvider(types, old(triggers.byId)[binding.id]))
                else []
    {
      var superseded := ParkNew(binding);
      if superseded.Some? {
        detaches := detaches + Calls(OwnProvider(types, superseded.value));
      }
    }

    /** The second look of a registration: claim the intent it has just parked, and activate it at `key`. */
    method LookAgain(binding: Trigger, key: TypeKey, accepted: bool) returns (settled: bool)
      requires Valid() && failingOver == map[] && key in types
      requires Lookup(pending, binding.id) == Some(binding) && binding.id !in triggers.byId
      modifies this`pending, this`failingOver, this`tokens, this`replays, triggers
      ensures Valid() && settled == accepted && failingOver == map[]
      ensures View() == LookedAgain(old(View()), binding.ServedFrom(key.0), accepted).(tokens := tokens)
      ensures replays == old(replays) +
                if accepted then [Delivery(types[key].registrator, binding.ServedFrom(key.0))] else []
    {
      var claim := ClaimParked(binding.id, key);
      var activated := SettleActivation(claim.value.binding, claim.value.token, accepted);
      settled := activated == Some(true);
      if settled {
        replays := replays + [Delivery(types[key].registrator, claim.value.binding)];
      }
    }

    /** `None` is the provider's error; then the binding is still where it was. */
    method UnregisterTrigger(id: Id, accepted: bool) returns (result: Option<bool>)
      requires Quiet()
      modifies this, triggers
      ensures Quiet() && types == old(types) && replays == old(replays)
      ensures accepted || id !in old(triggers.byId) ==>
                result == Some(id in old(intents)) && intents == old(intents) - {id}
      ensures detaches == old(detaches) +
                if accepted && id in old(triggers.byId) then Calls(OwnProvider(types, old(triggers.byId)[id])) else []
      ensures !accepted && id in old(triggers.byId) ==>
                result == None && intents == old(intents)
                && triggers.byId == old(triggers.byId) && pending == old(pending)
    {
      assert Tracks(View(), intents, id) && InPlace(View(), intents, id);
      ghost var before := View();
      var claim, dropped := StartRemoval(id);
      if claim.Some? {
        result := FinishRemoval(claim.value, accepted, before);
      } else {
        ForgetPlaces(before, intents, {}, id);
        intents := intents - {id};
        assert View() == before.Interrupt(id).Forget(id);
        result := Some(dropped);
      }
    }

    /** The rest of a removal: ask the provider, then settle, or give the binding back on its error. */
    method FinishRemoval(claim: Claim, accepted: bool, ghost before: Registry) returns (result: Option<bool>)
      requires Valid() && before.failingOver == map[] && Placed(before, intents, {})
      requires claim.binding.id in before.triggers && before.triggers[claim.binding.id] == claim.binding
      requires claim.token == tokens
      requires View() == before.StartRemoval(claim.binding.id)
      modifies this`pending, this`failingOver, this`tokens, this`intents, this`detaches, triggers
      ensures Quiet()
      ensures accepted || claim.binding.ProviderKey() !in types ==>
                && result == Some(true) && intents == old(intents) - {claim.binding.id}
                && detaches == old(detaches) + Calls(OwnProvider(types, claim.binding))
      ensures !accepted && claim.binding.ProviderKey() in types ==>
                && result == None && intents == old(intents) && detaches == old(detaches)
                && triggers.byId == old(triggers.byId) && pending == old(pending)
    {
      var id, key := claim.binding.id, claim.binding.ProviderKey();
      var registrator := if key in types then Some(types[key].registrator) else None;
      if !accepted && registrator.Some? {
        var _ := RecoverRemoval(id, claim.token, registrator, true);
        MapsPlace(before, View(), intents, {});
        return None;
      }
      detaches := detaches + Calls(OwnProvider(types, claim.binding));
      ForgetPlaces(before, intents, {}, id);
      var _ := SettleRemoval(id, claim.token);
      intents := intents - {id};
      MapsPlace(before.Interrupt(id).Forget(id), View(), intents, {});
      result := Some(true);
    }

    /** Re-announce the live bindings served at `key`, except those in flight, each once. */
    method ReplayLive(key: TypeKey)
      requires Valid() && key in types
      modifies this`replays
      ensures Sent(old(replays), replays, triggers.byId, LiveAt(View(), key), To(types[key].registrator))
    {
      var matching := set id | id in triggers.byId && triggers.byId[id].ProviderKey() == key && id !in failingOver;
      ghost var all, registrator := matching, types[key].registrator;
      SentNothing(replays, triggers.byId, To(registrator));
      assert all - matching == {};
      while matching != {}
        invariant matching <= all == LiveAt(View(), key)
        invariant Sent(old(replays), replays, triggers.byId, all - matching, To(registrator))
        decreases matching
      {
        var id :| id in matching;
        SentOneMore(old(replays), replays, triggers.byId, all - matching, To(registrator), triggers.byId, id);
        replays := replays + [Delivery(types[key].registrator, triggers.byId[id])];
        assert all - matching + {id} == all - (matching - {id});
        matching := matching - {id};
      }
      assert all - matching == all;
    }

    /** Claim a parked intent, replay it and settle it live; its provider accepts. */
    method ActivatePending(id: Id, key: TypeKey, ghost loose: set<Id>)
      requires Valid() && key in types && Placed(View(), intents, loose)
      requires id in pending && id !in failingOver && Resolve(types, pending[id]) == Some(key)
      modifies this`pending, this`failingOver, this`tokens, this`replays, triggers
      ensures Valid() && Placed(View(), intents, loose - {id})
      ensures failingOver == old(failingOver) && pending == old(pending) - {id}
      ensures triggers.byId == old(triggers.byId)[id := old(pending)[id].ServedFrom(key.0)]
      ensures replays == old(replays) + [Delivery(types[key].registrator, triggers.byId[id])]
    {
      assert Tracks(View(), intents, id);
      ActivatePlaces(View(), intents, loose, id, key);
      var claim := ClaimParked(id, key);
      replays := replays + [Delivery(types[key].registrator, claim.value.binding)];
      var _ := SettleActivation(claim.value.binding, claim.value.token, true);
    }

    /** Move one binding off the fallback: claim it, take it from its provider, replay it at home, settle it there. */
    method RehomeOne(id: Id, key: TypeKey, ghost loose: set<Id>)
      requires Valid() && key in types && Placed(View(), intents, loose) && View().CanRehome(id, key)
      modifies this`pending, this`failingOver, this`tokens, this`replays, this`detaches, triggers
      ensures Valid() && Placed(View(), intents, loose - {id})
      ensures failingOver == old(failingOver) && pending == old(pending)
      ensures triggers.byId == old(triggers.byId)[id := old(triggers.byId)[id].ServedFrom(key.0)]
      ensures replays == old(replays) + [Delivery(types[key].registrator, triggers.byId[id])]
      ensures detaches == old(detaches) + Calls(OwnProvider(types, old(triggers.byId)[id]))
    {
      RehomePlaces(View(), intents, loose, id, key);
      var claim := ClaimRehome(id, key);
      detaches := detaches + Calls(OwnProvider(types, triggers.byId[id]));
      replays := replays + [Delivery(types[key].registrator, claim.value.binding)];
      var _ := SettleMove(claim.value.binding, claim.value.token, true);
    }

    /** Of the intents that waited for `key` in `before`, those of `done` are live and replayed, and the others wait. */
    ghost predicate PartlyDrained(
        before: Registry, first: seq<Delivery>, key: TypeKey, rest: set<Id>, waiting: set<Id>, done: set<Id>)
      reads this, triggers
    {
      && Valid() && key in types && types == before.types && failingOver == before.failingOver
      && waiting + done == Waiting(before, key) && waiting !! done
      && Placed(View(), intents, rest + waiting)
      && pending == before.pending - done
      && Rebound(before.triggers, triggers.byId, before.pending, done, key.0)
      && Sent(first, replays, triggers.byId, done, To(types[key].registrator))
    }

    method DrainOne(
        ghost before: Registry, ghost first: seq<Delivery>, key: TypeKey, ghost rest: set<Id>, ghost waiting: set<Id>,
        ghost done: set<Id>, id: Id)
      requires PartlyDrained(before, first, key, rest, waiting, done) && id in waiting && id !in failingOver
      modifies this`pending, this`failingOver, this`tokens, this`replays, triggers
      ensures PartlyDrained(before, first, key, rest, waiting - {id}, done + {id})
    {
      ghost var earlier, live := replays, triggers.byId;
      ActivatePending(id, key, rest + waiting);
      assert before.pending - done - {id} == before.pending - (done + {id});
      ToOneMore(first, earlier, live, done, types[key].registrator, triggers.byId[id]);
      ReboundMore(before.triggers, live, before.pending, done, key.0, id);
      PlacedLooser(View(), intents, rest + waiting - {id}, rest + (waiting - {id}));
    }

    /** Activate every parked intent that resolves to the provider at `key`, replaying each once. */
    method DrainPending(key: TypeKey, ghost rest: set<Id>)
      requires Valid() && key in types && failingOver.Keys <= triggers.byId.Keys
      requires Placed(View(), intents, rest + Waiting(View(), key))
      modifies this`pending, this`failingOver, this`tokens, this`replays, triggers
      ensures Valid() && failingOver == old(failingOver) && Placed(View(), intents, rest)
      ensures pending == old(pending) - old(Waiting(View(), key))
      ensures Rebound(old(triggers.byId), triggers.byId, old(pending), old(Waiting(View(), key)), key.0)
      ensures Sent(old(replays), replays, triggers.byId, old(Waiting(View(), key)), To(types[key].registrator))
    {
      var waiting := set id | id in pending && Resolve(types, pending[id]) == Some(key);
      ghost var before, done := View(), {};
      PlacedApart(before, intents, rest + waiting);
      SentNothing(replays, triggers.byId, To(types[key].registrator));
      while waiting != {}
        invariant PartlyDrained(before, old(replays), key, rest, waiting, done)
        decreases waiting
      {
        var id :| id in waiting;
        DrainOne(before, old(replays), key, rest, waiting, done, id);
        waiting, done := waiting - {id}, done + {id};
      }
      assert done == Waiting(before, key);
      PlacedLooser(View(), intents, rest + waiting, rest);
    }

    /** Of the strays of `key` in `before`, those of `done` are home, detached and replayed, and the others are not. */
    ghost predicate PartlyHome(
        before: Registry, first: seq<Delivery>, detached: seq<Delivery>, key: TypeKey, rest: set<Id>, strays: set<Id>,
        done: set<Id>)
      reads this, triggers
    {
      && Valid() && key in types && types == before.types && failingOver == before.failingOver
      && strays + done == Strays(before, key) && strays !! done
      && Placed(View(), intents, rest + strays)
      && pending == before.pending
      && Rebound(before.triggers, triggers.byId, before.triggers, done, key.0)
      && Sent(first, replays, triggers.byId, done, To(types[key].registrator))
      && Sent(detached, detaches, before.triggers, done, ToOwn(types))
    }

    method RehomeNext(
        ghost before: Registry, ghost first: seq<Delivery>, ghost detached: seq<Delivery>, key: TypeKey,
        ghost rest: set<Id>, ghost strays: set<Id>, ghost done: set<Id>, id: Id)
      requires PartlyHome(before, first, detached, key, rest, strays, done) && id in strays
      modifies this`pending, this`failingOver, this`tokens, this`replays, this`detaches, triggers
      ensures PartlyHome(before, first, detached, key, rest, strays - {id}, done + {id})
    {
      ghost var replayed, earlier, live := replays, detaches, triggers.byId;
      RehomeOne(id, key, rest + strays);
      ToOneMore(first, replayed, live, done, types[key].registrator, triggers.byId[id]);
      ReboundMore(before.triggers, live, before.triggers, done, key.0, id);
      OwnOneMore(types, detached, earlier, before.triggers, done, id);
      PlacedLooser(View(), intents, rest + strays - {id}, rest + (strays - {id}));
    }

    /** Move every binding only on the fallback to the provider at its home; each is detached and replayed once. */
    method RehomeFallbackBindings(key: TypeKey, ghost rest: set<Id>)
      requires Valid() && key in types && failingOver.Keys <= triggers.byId.Keys
      requires Placed(View(), intents, rest + Strays(View(), key))
      modifies this`pending, this`failingOver, this`tokens, this`replays, this`detaches, triggers
      ensures Valid() && failingOver == old(failingOver) && Placed(View(), intents, rest) && pending == old(pending)
      ensures Rebound(old(triggers.byId), triggers.byId, old(triggers.byId), old(Strays(View(), key)), key.0)
      ensures Sent(old(replays), replays, triggers.byId, old(Strays(View(), key)), To(types[key].registrator))
      ensures Sent(old(detaches), detaches, old(triggers.byId), old(Strays(View(), key)), ToOwn(types))
    {
      var candidates := set id |
        && id in triggers.byId
        && triggers.byId[id].triggerType == key.1
        && triggers.byId[id].homeNamespace == key.0
        && triggers.byId[id].IsOnFallback()
        && id !in failingOver;
      ghost var before, done := View(), {};
      SentNothing(replays, triggers.byId, To(types[key].registrator));
      SentNothing(detaches, triggers.byId, ToOwn(types));
      assert candidates == Strays(before, key);
      while candidates != {}
        invariant PartlyHome(before, old(replays), old(detaches), key, rest, candidates, done)
        decreases candidates
      {
        var id :| id in candidates;
        RehomeNext(before, old(replays), old(detaches), key, rest, candidates, done, id);
        candidates, done := candidates - {id}, done + {id};
      }
      assert done == Strays(before, key);
      PlacedLooser(View(), intents, rest + candidates, rest);
    }

    /** Drain, then re-home: whatever the provider at `key` unsettled by appearing ends in place, replayed once. */
    method BringHome(key: TypeKey)
      requires Valid() && key in types && failingOver.Keys <= triggers.byId.Keys
      requires Placed(View(), intents, failingOver.Keys + Unsettled(View(), key))
      modifies this`pending, this`failingOver, this`tokens, this`replays, this`detaches, triggers
      ensures Valid() && failingOver == old(failingOver) && Placed(View(), intents, failingOver.Keys)
      ensures Arrived(old(View()), View(), key)
      ensures Sent(old(replays), replays, triggers.byId, old(Unsettled(View(), key)), To(types[key].registrator))
      ensures Sent(old(detaches), detaches, old(triggers.byId), Leavers(old(View()), key), ToOwn(types))
    {
      ghost var claimed, before, strays := failingOver.Keys, View(), Leavers(View(), key);
      PlacedLooser(before, intents, claimed + Unsettled(before, key), claimed + strays + Waiting(before, key));
      PlacedApart(before, intents, claimed + strays + Waiting(before, key));
      DrainPending(key, claimed + strays);
      ghost var drained, replayed := View(), replays;
      DrainKeepsStrays(before, drained, key);
      BringHomeFrom(before, key);
      ArrivedInTwo(before, drained, View(), key, old(replays), replayed, replays, types[key].registrator);
    }

    /** The second half: re-home, unless the provider is the fallback itself. */
    method BringHomeFrom(ghost before: Registry, key: TypeKey)
      requires Valid() && key in types && failingOver.Keys <= triggers.byId.Keys
      requires Placed(View(), intents, failingOver.Keys + Leavers(before, key))
      requires Leavers(View(), key) == Leavers(before, key)
      requires forall id <- Leavers(before, key) ::
                 id in before.triggers && id in triggers.byId && triggers.byId[id] == before.triggers[id]
      modifies this`pending, this`failingOver, this`tokens, this`replays, this`detaches, triggers
      ensures Valid() && failingOver == old(failingOver) && Placed(View(), intents, failingOver.Keys)
      ensures Rebound(old(triggers.byId), triggers.byId, before.triggers, Leavers(before, key), key.0)
      ensures Sent(old(replays), replays, triggers.byId, Leavers(before, key), To(types[key].registrator))
      ensures Sent(old(detaches), detaches, before.triggers, Leavers(before, key), ToOwn(types))
    {
      if key.0 != DEFAULT_NAMESPACE {
        ghost var live := triggers.byId;
        RehomeFallbackBindings(key, failingOver.Keys);
        SentSame(old(detaches), detaches, live, before.triggers, Leavers(before, key), ToOwn(types));
      } else {
        SentNothing(detaches, before.triggers, ToOwn(types));
        SentNothing(replays, triggers.byId, To(types[key].registrator));
        PlacedLooser(View(), intents, failingOver.Keys + Leavers(before, key), failingOver.Keys);
      }
    }

    /**
     Publish the provider, then bring home everything it serves. It is told once of every binding it now serves, and of
     nothing else; bindings in flight are left alone, and what comes home is taken from where it was.
     */
    method RegisterTriggerType(key: TypeKey, provider: Provider)
      requires Resting()
      modifies this`types, this`pending, this`failingOver, this`tokens, this`replays, this`detaches, triggers
      ensures Resting() && failingOver == old(failingOver) && types == old(types)[key := provider]
      ensures forall id <- failingOver :: id in old(triggers.byId) && triggers.byId[id] == old(triggers.byId)[id]
      ensures Sent(old(replays), replays, triggers.byId, LiveAt(View(), key), To(provider.registrator))
      ensures Sent(old(detaches), detaches, old(triggers.byId), Leavers(old(View()), key), ToOwn(types))
    {
      ghost var first := replays;
      Publish(key, provider);
      ghost var before, announced := View(), replays;
      BringHome(key);
      ArrivedServes(before, View(), key);
      SentBoth(first, announced, replays, before.triggers, LiveAt(before, key), triggers.byId, Unsettled(before, key),
               To(provider.registrator));
    }

    /** The first half: publish, then replay what the provider serves already. */
    method Publish(key: TypeKey, provider: Provider)
      requires Resting()
      modifies this`types, this`replays
      ensures Valid() && types == old(types)[key := provider]
      ensures Placed(View(), intents, failingOver.Keys + Unsettled(View(), key))
      ensures triggers.byId.Keys !! pending.Keys
      ensures Sent(old(replays), replays, triggers.byId, LiveAt(View(), key), To(provider.registrator))
    {
      PublishLoosens(View(), intents, failingOver.Keys, key, provider);
      types := types[key := provider];
      PlacedApart(View(), intents, failingOver.Keys + Unsettled(View(), key));
      ReplayLive(key);
    }

    // ---- A provider leaves -----------------------------------------------------------------------------------

    /** Remove the provider if `worker` serves it, and claim in the same step every binding it served. */
    method TakeTriggerTypeIfProvider(key: TypeKey, worker: WorkerId) returns (orphans: Option<seq<Claim>>)
      requires Valid()
      modifies this`types, this`failingOver, this`tokens
      ensures Valid()
      ensures orphans.Some? <==> key in old(types) && old(types)[key].workerId == Some(worker)
      ensures orphans.None? ==> View() == old(View())
      ensures orphans.Some? ==>
                && types == old(types) - {key}
                && Claimed(old(View()).(types := types), View(), orphans.value, old(View()).Orphans(key))
      ensures orphans.Some? && old(Quiet()) ==>
                && Resting() && InFlight(View(), orphans.value, 0)
                && failingOver.Keys == old(View()).Orphans(key)
    {
      if key !in types || types[key].workerId != Some(worker) {
        return None;
      }
      types := types - {key};
      ghost var before := View();
      assert before.Orphans(key) == old(View()).Orphans(key);
      var claims := ClaimOrphans(key);
      if old(Quiet()) {
        TakeLoosens(old(View()), intents, key);
        ClaimedIsAll(before, View(), intents, claims, old(View()).Orphans(key));
      }
      orphans := Some(claims);
    }

    method ClaimNext(ghost before: Registry, claims: seq<Claim>, ghost done: set<Id>, id: Id) returns (more: seq<Claim>)
      requires Valid() && Claimed(before, View(), claims, done) && id !in done && id in triggers.byId
      modifies this`failingOver, this`tokens
      ensures Valid() && Claimed(before, View(), more, done + {id})
    {
      ClaimedMore(before, View(), claims, done, triggers.byId[id]);
      var token := BeginTransition(triggers.byId[id], false);
      more := claims + [Claim(triggers.byId[id], token)];
    }

    /** Claim every live binding served at `key`, superseding any move of it; a removal keeps its token. */
    method ClaimOrphans(key: TypeKey) returns (claims: seq<Claim>)
      requires Valid()
      modifies this`failingOver, this`tokens
      ensures Valid() && Claimed(old(View()), View(), claims, old(View()).Orphans(key))
    {
      var served := set id |
        && id in triggers.byId
        && triggers.byId[id].ProviderKey() == key
        && !(id in failingOver && failingOver[id].removing);
      ghost var all := served;
      claims := [];
      while served != {}
        invariant Valid() && served <= all == old(View()).Orphans(key)
        invariant Claimed(old(View()), View(), claims, all - served)
        decreases served
      {
        var id :| id in served;
        ghost var done := all - served;
        claims := ClaimNext(old(View()), claims, done, id);
        served := served - {id};
        assert all - served == done + {id};
      }
      assert all - served == all;
    }

    /** Move one orphan to the provider it resolves to now, or park it; that provider accepts. */
    method FailOver(orphan: Claim)
      requires Valid() && failingOver.Keys <= triggers.byId.Keys && Placed(View(), intents, failingOver.Keys)
      requires View().Current(orphan.binding.id, orphan.token)
      requires Lookup(triggers.byId, orphan.binding.id) == Some(orphan.binding)
      modifies this`pending, this`failingOver, this`replays, triggers
      ensures Valid() && failingOver == old(failingOver) - {orphan.binding.id}
      ensures Placed(View(), intents, failingOver.Keys)
      ensures forall id <- old(triggers.byId) | id != orphan.binding.id ::
                id in triggers.byId && triggers.byId[id] == old(triggers.byId)[id]
      ensures replays == old(replays) + Calls(HomeProvider(types, orphan.binding))
      ensures Resolve(types, orphan.binding).Some? ==>
                Lookup(triggers.byId, orphan.binding.id)
                == Some(orphan.binding.ServedFrom(Resolve(types, orphan.binding).value.0))
    {
      FailoverPlaces(View(), intents, failingOver.Keys, orphan.binding.id);
      var next := Resolve(types, orphan.binding);
      var moving := StartFailover(orphan.binding, orphan.token);
      if next.Some? {
        replays := replays + [Delivery(types[next.value].registrator, moving.value)];
      }
      var _ := SettleMove(moving.value, orphan.token, next.Some?);
      PlacedLooser(View(), intents, old(failingOver.Keys) - {orphan.binding.id}, failingOver.Keys);
    }

    /** The orphans of `done` have been replayed where they resolve; the others are `orphans[from..]`. */
    ghost predicate PartlyMoved(
        live: map<Id, Trigger>, all: set<Id>, first: seq<Delivery>, orphans: seq<Claim>, from: nat, done: set<Id>)
      reads this, triggers
    {
      && Resting() && InFlight(View(), orphans, from)
      && failingOver.Keys + done == all && failingOver.Keys !! done && all <= live.Keys
      && Sent(first, replays, live, done, ToHome(types))
    }

    method FailOverNext(
        ghost live: map<Id, Trigger>, ghost all: set<Id>, ghost first: seq<Delivery>, orphans: seq<Claim>, i: nat,
        ghost done: set<Id>)
      requires PartlyMoved(live, all, first, orphans, i, done) && i < |orphans|
      requires Lookup(live, orphans[i].binding.id) == Some(orphans[i].binding)
      modifies this`pending, this`failingOver, this`replays, triggers
      ensures PartlyMoved(live, all, first, orphans, i + 1, done + {orphans[i].binding.id})
    {
      FailOverStep(orphans, i);
      SentOneMore(first, old(replays), live, done, ToHome(types), live, orphans[i].binding.id);
    }

    method FailOverStep(orphans: seq<Claim>, i: nat)
      requires Resting() && InFlight(View(), orphans, i) && i < |orphans|
      modifies this`pending, this`failingOver, this`replays, triggers
      ensures Resting() && InFlight(View(), orphans, i + 1)
      ensures orphans[i].binding.id in old(failingOver) && failingOver == old(failingOver) - {orphans[i].binding.id}
      ensures replays == old(replays) + Calls(HomeProvider(types, orphans[i].binding))
    {
      assert View().Current(orphans[i].binding.id, orphans[i].token);
      FailOver(orphans[i]);
      InFlightFewer(old(View()), View(), orphans, i);
      InFlightIsLive(View(), orphans, i + 1);
    }

    /** Every orphan ends in place, and is replayed once to the provider it resolves to, if there is one. */
    method FailOverOrphans(orphans: seq<Claim>)
      requires Resting() && InFlight(View(), orphans, 0)
      modifies this`pending, this`failingOver, this`replays, triggers
      ensures Quiet()
      ensures Sent(old(replays), replays, old(triggers.byId), old(failingOver.Keys), ToHome(types))
    {
      var i := 0;
      ghost var live, done := triggers.byId, {};
      SentNothing(replays, live, ToHome(types));
      while i < |orphans|
        invariant i <= |orphans| && PartlyMoved(live, old(failingOver.Keys), old(replays), orphans, i, done)
      {
        FailOverNext(live, old(failingOver.Keys), old(replays), orphans, i, done);
        done := done + {orphans[i].binding.id};
        i := i + 1;
      }
      assert failingOver == map[];
      assert done == old(failingOver.Keys);
    }

    method RemoveTriggerTypeIfProvider(key: TypeKey, worker: WorkerId) returns (removed: bool)
      requires Quiet()
      modifies this, triggers
      ensures Quiet() && intents == old(intents) && detaches == old(detaches)
      ensures removed <==> key in old(types) && old(types)[key].workerId == Some(worker)
      ensures types == if removed then old(types) - {key} else old(types)
    {
      var orphans := TakeTriggerTypeIfProvider(key, worker);
      removed := orphans.Some?;
      if removed {
        FailOverOrphans(orphans.value);
      }
    }

    /**
     A provider retires its type and registers it again before its bindings have failed over: each of them is
     replayed exactly once, to the new registration, and stays live where it was.
     */
    method HotReload(key: TypeKey, worker: WorkerId, provider: Provider)
      requires Quiet() && key in types && types[key].workerId == Some(worker)
      modifies this, triggers
      ensures Quiet() && types == old(types)[key := provider] && intents == old(intents)
      ensures old(replays) <= replays
      ensures ReplayedAndKept(old(View()), triggers.byId, replays[|old(replays)|..], key, provider.registrator)
    {
      ghost var before, first := View(), replays;
      var orphans := TakeTriggerTypeIfProvider(key, worker);
      ghost var taken := View();
      RegisterTriggerType(key, provider);
      ghost var registered, announced := View(), replays;
      FailOverOrphans(orphans.value);
      assert types == old(types)[key := provider];
      ReloadDelivers(before, registered, View(), intents, first, announced, replays, key);
    }

    // ---- A worker departs ------------------------------------------------------------------------------------

    /** Drop what is live for the worker, one binding at a time; its parked intents are already gone. */
    method DropLive(worker: WorkerId, ghost original: map<Id, Trigger>)
      requires Valid() && failingOver == map[] && PartlySwept(View(), intents, original, worker)
      modifies this`failingOver, this`intents, this`detaches, triggers
      ensures Quiet() && intents == Without(original, worker)
      ensures Sent(old(detaches), detaches, old(triggers.byId), OwnedBy(old(triggers.byId), worker), ToOwn(types))
    {
      var owned := set id | id in triggers.byId && triggers.byId[id].workerId == Some(worker);
      ghost var live, done := triggers.byId, {};
      SentNothing(detaches, live, ToOwn(types));
      while owned != {}
        invariant PartlyDropped(live, original, old(detaches), worker, owned, done)
        decreases owned
      {
        var id :| id in owned;
        DropNext(live, original, old(detaches), worker, owned, done, id);
        owned, done := owned - {id}, done + {id};
      }
      assert done == OwnedBy(live, worker);
      AllSwept(View(), intents, original, worker);
    }

    /** Of the bindings of `worker` in `live`, those of `done` are gone and detached, and the others are live. */
    ghost predicate PartlyDropped(
        live: map<Id, Trigger>, original: map<Id, Trigger>, first: seq<Delivery>, worker: WorkerId, owned: set<Id>,
        done: set<Id>)
      reads this, triggers
    {
      && Valid() && failingOver == map[] && PartlySwept(View(), intents, original, worker)
      && owned + done == OwnedBy(live, worker) && owned !! done && triggers.byId == live - done
      && Sent(first, detaches, live, done, ToOwn(types))
    }

    method DropNext(
        ghost live: map<Id, Trigger>, ghost original: map<Id, Trigger>, ghost first: seq<Delivery>, worker: WorkerId,
        ghost owned: set<Id>, ghost done: set<Id>, id: Id)
      requires PartlyDropped(live, original, first, worker, owned, done) && id in owned
      modifies this`failingOver, this`intents, this`detaches, triggers
      ensures PartlyDropped(live, original, first, worker, owned - {id}, done + {id})
    {
      DropOne(original, worker, id);
      OwnOneMore(types, first, old(detaches), live, done, id);
    }

    method DropOne(ghost original: map<Id, Trigger>, worker: WorkerId, id: Id)
      requires Valid() && failingOver == map[] && PartlySwept(View(), intents, original, worker)
      requires View().LiveFor(id, worker)
      modifies this`failingOver, this`intents, this`detaches, triggers
      ensures Valid() && failingOver == map[] && PartlySwept(View(), intents, original, worker)
      ensures triggers.byId == old(triggers.byId) - {id}
      ensures detaches == old(detaches) + Calls(OwnProvider(types, old(triggers.byId)[id]))
    {
      SweepLivePlaces(View(), intents, original, worker, id);
      var removed := SweepLive(id, worker);
      detaches := detaches + Calls(OwnProvider(types, removed.value));
      intents := intents - {id};
    }

    /** Drop the worker's claims and parked intents, then its live bindings; without overlap none is parked since. */
    method DropBindings(worker: WorkerId)
      requires Quiet()
      modifies this`pending, this`failingOver, this`intents, this`detaches, triggers
      ensures Quiet() && intents == Without(old(intents), worker)
      ensures Sent(old(detaches), detaches, old(triggers.byId), OwnedBy(old(triggers.byId), worker), ToOwn(types))
    {
      SweepPlaces(View(), intents, worker);
      intents := intents - View().SweptIntents(worker);
      SweepClaims(worker);
      DropLive(worker, old(intents));
      ghost var before := View();
      forall id <- pending ensures pending[id].workerId != Some(worker) {
        assert Tracks(before, intents, id);
      }
      SweepPending(worker);
      assert View() == before;
    }

    /** Everything the worker owned goes; what its providers served for others fails over or waits for them. */
    method UnregisterWorker(worker: WorkerId)
      requires Quiet()
      modifies this, triggers
      ensures Quiet() && intents == Without(old(intents), worker)
      ensures Sent(old(detaches), detaches, old(triggers.byId), OwnedBy(old(triggers.byId), worker), ToOwn(old(types)))
      ensures types == map key | key in old(types) && old(types)[key].workerId != Some(worker) :: old(types)[key]
    {
      var keys := set key | key in types && types[key].workerId == Some(worker);
      DropBindings(worker);
      while keys != {}
        invariant Quiet() && intents == Without(old(intents), worker)
        invariant Sent(old(detaches), detaches, old(triggers.byId), OwnedBy(old(triggers.byId), worker),
                       ToOwn(old(types)))
        invariant forall key <- keys :: key in types && types[key].workerId == Some(worker)
        invariant forall key <- types :: key in old(types) && types[key] == old(types)[key]
        invariant forall key <- old(types) :: key in types <==> key in keys || old(types)[key].workerId != Some(worker)
        decreases keys
      {
        var key :| key in keys;
        var _ := RemoveTriggerTypeIfProvider(key, worker);
        keys := keys - {key};
      }
    }

    // ---- Any run -----------------------------------------------------------------------------------------------

    /** Whatever is asked for, in whatever order, every binding ends where the last word on it resolves to. */
    method Run(requests: seq<Request>)
      requires Quiet()
      modifies this, triggers
      ensures Quiet()
      ensures types == ProvidersAfter(old(types), requests) && intents == IntentsAfter(old(intents), requests)
      ensures InTheirPlaces(types, triggers.byId, pending)
    {
      var i := 0;
      assert requests[..0] == [];
      while i < |requests|
        invariant i <= |requests| && Quiet()
        invariant types == ProvidersAfter(old(types), requests[..i])
        invariant intents == IntentsAfter(old(intents), requests[..i])
      {
        assert requests[..i + 1][..i] == requests[..i];
        match requests[i] {
          case Bind(binding) =>
            var missed: bool := *;
            var _ := RegisterTrigger(binding, missed, Accepted);
          case Unbind(id) => var _ := UnregisterTrigger(id, true);
          case Provide(key, provider) => RegisterTriggerType(key, provider);
          case Retire(key, worker) => var _ := RemoveTriggerTypeIfProvider(key, worker);
          case Depart(worker) => UnregisterWorker(worker);
        }
        i := i + 1;
      }
      assert requests[..i] == requests;
      QuietMeans(this);
    }
  }

  /** Where a second look leaves the intent it finds parked. */
  function LookedAgain(r: Registry, placed: Trigger, accepted: bool): Registry {
    if accepted then r.(triggers := r.triggers[placed.id := placed], pending := r.pending - {placed.id})
    else r.(pending := r.pending[placed.id := placed])
  }

  /** Parking and looking again comes to what the first look would have led to. */
  lemma LookingAgain(r: Registry, binding: Trigger, accepted: bool)
    requires r.failingOver == map[] && Resolve(r.types, binding).Some?
    ensures LookedAgain(r.ParkNew(binding), r.Redirected(binding), accepted)
            == if accepted then r.SettleLive(r.Redirected(binding)) else r.ParkNew(r.Redirected(binding))
  {
  }

  lemma RegisteredMeans(registry: TriggerRegistry, binding: Trigger)
    requires registry.Quiet() && Lookup(registry.intents, binding.id) == Some(binding.Intent())
    ensures InTheirPlaces(registry.types, registry.triggers.byId, registry.pending)
    ensures binding.id in registry.triggers.byId <==> !BelongsNowhere(registry.types, binding)
    ensures binding.id in registry.pending <==> BelongsNowhere(registry.types, binding)
  {
    QuietMeans(registry);
    assert Tracks(registry.View(), registry.intents, binding.id);
    if binding.id in registry.triggers.byId {
      var live := registry.triggers.byId[binding.id];
      ResolveMeans(registry.types, live, (live.providerNamespace, live.triggerType));
    }
  }

  /** In a quiet registry every live binding is with the provider it belongs to, and what is parked has none. */
  lemma QuietMeans(registry: TriggerRegistry)
    requires registry.Quiet()
    ensures InTheirPlaces(registry.types, registry.triggers.byId, registry.pending)
    ensures registry.triggers.byId.Keys + registry.pending.Keys == registry.intents.Keys
  {
    PlacedMeans(registry.View(), registry.intents);
  }

  /** A call to the registry, in a run where calls do not overlap and providers accept. */
  datatype Request =
    | Bind(binding: Trigger)
    | Unbind(id: Id)
    | Provide(key: TypeKey, provider: Provider)
    | Retire(key: TypeKey, worker: WorkerId)
    | Depart(worker: WorkerId)

  function ProvidersThen(types: map<TypeKey, Provider>, request: Request): map<TypeKey, Provider> {
    match request
    case Bind(_) => types
    case Unbind(_) => types
    case Provide(key, provider) => types[key := provider]
    case Retire(key, worker) => if key in types && types[key].workerId == Some(worker) then types - {key} else types
    case Depart(worker) => map key | key in types && types[key].workerId != Some(worker) :: types[key]
  }

  function IntentsThen(intents: map<Id, Trigger>, request: Request): map<Id, Trigger> {
    match request
    case Bind(binding) => intents[binding.id := binding.Intent()]
    case Unbind(id) => intents - {id}
    case Provide(_, _) => intents
    case Retire(_, _) => intents
    case Depart(worker) => Without(intents, worker)
  }

  function Fold<S>(step: (S, Request) -> S, start: S, requests: seq<Request>): S {
    if requests == [] then start
    else step(Fold(step, start, requests[..|requests| - 1]), requests[|requests| - 1])
  }

  /** Which providers are there, going by the requests alone. */
  function ProvidersAfter(types: map<TypeKey, Provider>, requests: seq<Request>): map<TypeKey, Provider> {
    Fold(ProvidersThen, types, requests)
  }

  /** Which intents stand, going by the requests alone. */
  function IntentsAfter(intents: map<Id, Trigger>, requests: seq<Request>): map<Id, Trigger> {
    Fold(IntentsThen, intents, requests)
  }

  lemma {:induction false} FoldsCompose<S>(
      step: (S, Request) -> S, start: S, first: seq<Request>, later: seq<Request>)
    ensures Fold(step, start, first + later) == Fold(step, Fold(step, start, first), later)
    decreases |later|
  {
    if later == [] {
      assert first + later == first;
    } else {
      assert (first + later)[..|first + later| - 1] == first + later[..|later| - 1];
      FoldsCompose(step, start, first, later[..|later| - 1]);
    }
  }

  /** Two requests in a row. */
  lemma FoldTwo<S>(step: (S, Request) -> S, start: S, earlier: seq<Request>, first: Request, second: Request)
    ensures Fold(step, start, earlier + [first, second]) == step(step(Fold(step, start, earlier), first), second)
  {
    assert (earlier + [first, second])[..|earlier| + 1] == earlier + [first];
    assert (earlier + [first])[..|earlier|] == earlier;
  }

  /** A worker that binds before its project's provider announces itself ends where it would have, had it waited. */
  lemma StartOrderDoesNotMatter(
      r1: Registry, r2: Registry, earlier: seq<Request>, binding: Trigger, key: TypeKey, provider: Provider,
      later: seq<Request>)
    requires
      var run := earlier + [Bind(binding), Provide(key, provider)] + later;
      r1.types == ProvidersAfter(map[], run) && Placed(r1, IntentsAfter(map[], run), {})
    requires
      var run := earlier + [Provide(key, provider), Bind(binding)] + later;
      r2.types == ProvidersAfter(map[], run) && Placed(r2, IntentsAfter(map[], run), {})
    ensures r1.types == r2.types && r1.triggers == r2.triggers && r1.pending.Keys == r2.pending.Keys
  {
    var bindFirst, provideFirst :=
      earlier + [Bind(binding), Provide(key, provider)], earlier + [Provide(key, provider), Bind(binding)];
    FoldTwo(ProvidersThen, map[], earlier, Bind(binding), Provide(key, provider));
    FoldTwo(ProvidersThen, map[], earlier, Provide(key, provider), Bind(binding));
    FoldTwo(IntentsThen, map[], earlier, Bind(binding), Provide(key, provider));
    FoldTwo(IntentsThen, map[], earlier, Provide(key, provider), Bind(binding));
    FoldsCompose(ProvidersThen, map[], bindFirst, later);
    FoldsCompose(ProvidersThen, map[], provideFirst, later);
    FoldsCompose(IntentsThen, map[], bindFirst, later);
    FoldsCompose(IntentsThen, map[], provideFirst, later);
    PlacementIsUnique(r1, r2, IntentsAfter(map[], bindFirst + later));
  }

  /** A binding served at `key` is back where it was once the same keys are provided again. */
  lemma StaysInPlace(before: Registry, after: Registry, intents: map<Id, Trigger>, key: TypeKey, id: Id)
    requires Placed(before, intents, {}) && Placed(after, intents, {})
    requires before.types.Keys == after.types.Keys && id in before.Orphans(key)
    ensures Lookup(after.triggers, id) == Some(before.triggers[id])
    ensures Resolve(after.types, before.triggers[id]) == Some(key)
    ensures before.triggers[id].ServedFrom(key.0) == before.triggers[id]
    ensures before.triggers[id].id == id
  {
    assert Tracks(before, intents, id) && InPlace(before, intents, id);
    assert Tracks(after, intents, id) && InPlace(after, intents, id);
    ResolveReadsKeys(before.types, after.types, intents[id]);
  }

  /** The live bindings that a provider appearing at `key` takes from the fallback. */
  function Leavers(r: Registry, key: TypeKey): set<Id> {
    if key.0 == DEFAULT_NAMESPACE then {} else Strays(r, key)
  }

  /** What the provider at `key` unsettled by appearing is live with it; every other live binding is as it was. */
  predicate Arrived(before: Registry, after: Registry, key: TypeKey) {
    && after.types == before.types && after.failingOver == before.failingOver
    && after.triggers.Keys == before.triggers.Keys + Unsettled(before, key)
    && (forall id <- Unsettled(before, key) :: id in after.triggers && after.triggers[id].ProviderKey() == key)
    && (forall id <- before.triggers | id !in Unsettled(before, key) ::
          id in after.triggers && after.triggers[id] == before.triggers[id])
  }

  lemma ReboundMore(
      live: map<Id, Trigger>, after: map<Id, Trigger>, bindings: map<Id, Trigger>, ids: set<Id>, namespace: Namespace,
      id: Id)
    requires Rebound(live, after, bindings, ids, namespace) && id in bindings
    ensures Rebound(live, after[id := bindings[id].ServedFrom(namespace)], bindings, ids + {id}, namespace)
  {
  }

  lemma PlacedApart(r: Registry, intents: map<Id, Trigger>, loose: set<Id>)
    requires Placed(r, intents, loose)
    ensures r.triggers.Keys !! r.pending.Keys
  {
    forall id | id in r.triggers ensures id !in r.pending {
      assert Tracks(r, intents, id);
    }
  }

  lemma DrainKeepsStrays(before: Registry, drained: Registry, key: TypeKey)
    requires before.types == drained.types && before.failingOver == drained.failingOver
    requires before.triggers.Keys !! before.pending.Keys
    requires Rebound(before.triggers, drained.triggers, before.pending, Waiting(before, key), key.0)
    ensures Leavers(drained, key) == Leavers(before, key)
    ensures forall id <- Leavers(before, key) :: id in before.triggers && drained.triggers[id] == before.triggers[id]
  {
    forall id ensures id in Strays(drained, key) <==> id in Strays(before, key) {
      assert id in Waiting(before, key) ==> drained.triggers[id] == before.pending[id].ServedFrom(key.0);
    }
  }

  lemma ReboundTwice(before: Registry, drained: Registry, after: Registry, key: TypeKey)
    requires after.types == before.types && after.failingOver == before.failingOver
    requires before.triggers.Keys !! before.pending.Keys
    requires Rebound(before.triggers, drained.triggers, before.pending, Waiting(before, key), key.0)
    requires Rebound(drained.triggers, after.triggers, before.triggers, Leavers(before, key), key.0)
    ensures Arrived(before, after, key)
    ensures Unsettled(before, key) == Waiting(before, key) + Leavers(before, key)
    ensures Waiting(before, key) !! Leavers(before, key)
    ensures forall id <- Waiting(before, key) ::
              id in drained.triggers && id in after.triggers && after.triggers[id] == drained.triggers[id]
  {
    assert Unsettled(before, key) == Waiting(before, key) + Leavers(before, key);
  }

  /** The drained and the re-homed together are what the provider unsettled, each replayed once. */
  lemma ArrivedInTwo(
      before: Registry, drained: Registry, after: Registry, key: TypeKey, first: seq<Delivery>,
      replayed: seq<Delivery>, last: seq<Delivery>, registrator: nat)
    requires after.types == before.types && after.failingOver == before.failingOver
    requires before.triggers.Keys !! before.pending.Keys
    requires Rebound(before.triggers, drained.triggers, before.pending, Waiting(before, key), key.0)
    requires Rebound(drained.triggers, after.triggers, before.triggers, Leavers(before, key), key.0)
    requires Sent(first, replayed, drained.triggers, Waiting(before, key), To(registrator))
    requires Sent(replayed, last, after.triggers, Leavers(before, key), To(registrator))
    ensures Arrived(before, after, key)
    ensures Sent(first, last, after.triggers, Unsettled(before, key), To(registrator))
  {
    ReboundTwice(before, drained, after, key);
    SentBoth(first, replayed, last, drained.triggers, Waiting(before, key), after.triggers, Leavers(before, key),
             To(registrator));
  }

  /** What a provider serves in the end is what it served already and what arrived. */
  lemma ArrivedServes(before: Registry, after: Registry, key: TypeKey)
    requires before.triggers.Keys !! before.pending.Keys && Arrived(before, after, key)
    requires before.failingOver.Keys <= before.triggers.Keys
    ensures LiveAt(before, key) !! Unsettled(before, key)
    ensures LiveAt(after, key) == LiveAt(before, key) + Unsettled(before, key)
    ensures forall id <- LiveAt(before, key) :: id in after.triggers && after.triggers[id] == before.triggers[id]
    ensures forall id <- before.failingOver :: id in after.triggers && after.triggers[id] == before.triggers[id]
  {
  }

  /** Each orphan of a hot reload is live as before, and in the added replays once, to the new provider. */
  lemma ReloadDelivers(
      before: Registry, registered: Registry, after: Registry, intents: map<Id, Trigger>, first: seq<Delivery>,
      announced: seq<Delivery>, last: seq<Delivery>, key: TypeKey)
    requires Placed(before, intents, {}) && Placed(after, intents, {})
    requires key in before.types && before.types.Keys == after.types.Keys
    requires registered.failingOver.Keys == before.Orphans(key)
    requires forall id <- before.Orphans(key) ::
               id in registered.triggers && registered.triggers[id] == before.triggers[id]
    requires Sent(first, announced, registered.triggers, LiveAt(registered, key), To(after.types[key].registrator))
    requires Sent(announced, last, registered.triggers, before.Orphans(key), ToHome(after.types))
    ensures first <= last
    ensures ReplayedAndKept(before, after.triggers, last[|first|..], key, after.types[key].registrator)
  {
    assert LiveAt(registered, key) !! before.Orphans(key);
    forall id <- before.Orphans(key)
      ensures Lookup(after.triggers, id) == Some(before.triggers[id])
      ensures Times(last[|first|..], id) == 1
      ensures Delivery(after.types[key].registrator, before.triggers[id]) in last[|first|..]
    {
      StaysInPlace(before, after, intents, key, id);
      TwoRounds(first, announced, last, registered.triggers, LiveAt(registered, key),
                To(after.types[key].registrator), registered.triggers, before.Orphans(key), ToHome(after.types), id);
    }
  }

  lemma InFlightIsLive(r: Registry, orphans: seq<Claim>, from: nat)
    requires InFlight(r, orphans, from)
    ensures r.failingOver.Keys <= r.triggers.Keys
  {
  }

  /** Where nothing was in flight, what is claimed is all there is in flight. */
  lemma ClaimedIsAll(before: Registry, after: Registry, intents: map<Id, Trigger>, claims: seq<Claim>, ids: set<Id>)
    requires Claimed(before, after, claims, ids) && before.failingOver == map[] && Placed(before, intents, ids)
    ensures InFlight(after, claims, 0) && after.failingOver.Keys == ids && Placed(after, intents, ids)
  {
    MapsPlace(before, after, intents, ids);
  }

  lemma ClaimedMore(first: Registry, r: Registry, claims: seq<Claim>, ids: set<Id>, binding: Trigger)
    requires Claimed(first, r, claims, ids)
    requires binding.id !in ids && Lookup(r.triggers, binding.id) == Some(binding)
    ensures Claimed(first, r.Begin(binding, false), claims + [Claim(binding, r.tokens + 1)], ids + {binding.id})
  {
    var r', claims' := r.Begin(binding, false), claims + [Claim(binding, r.tokens + 1)];
    forall i | 0 <= i < |claims'| ensures IsFresh(first, r', claims'[i], ids + {binding.id}) {
      assert i < |claims| ==> claims'[i] == claims[i] && IsFresh(first, r, claims[i], ids);
    }
    ListsOneMore(claims, ids, Claim(binding, r.tokens + 1));
  }

  lemma ListsOneMore(claims: seq<Claim>, ids: set<Id>, claim: Claim)
    requires ListsEach(claims, ids)
    ensures ListsEach(claims + [claim], ids + {claim.binding.id})
  {
    forall id <- ids + {claim.binding.id}
      ensures exists i :: 0 <= i < |claims + [claim]| && (claims + [claim])[i].binding.id == id
    {
      if id == claim.binding.id {
        assert (claims + [claim])[|claims|].binding.id == id;
      } else {
        var i :| 0 <= i < |claims| && claims[i].binding.id == id;
        assert (claims + [claim])[i].binding.id == id;
      }
    }
  }

  lemma InFlightFewer(r: Registry, r': Registry, orphans: seq<Claim>, from: nat)
    requires InFlight(r, orphans, from) && from < |orphans|
    requires r'.failingOver == r.failingOver - {orphans[from].binding.id}
    requires forall id <- r.triggers | id != orphans[from].binding.id ::
               id in r'.triggers && r'.triggers[id] == r.triggers[id]
    ensures InFlight(r', orphans, from + 1)
  {
    forall id <- r'.failingOver ensures exists i :: from + 1 <= i < |orphans| && orphans[i].binding.id == id {
      var i :| from <= i < |orphans| && orphans[i].binding.id == id;
      assert i != from;
    }
    forall i | from + 1 <= i < |orphans|
      ensures r'.Current(orphans[i].binding.id, orphans[i].token)
      ensures Lookup(r'.triggers, orphans[i].binding.id) == Some(orphans[i].binding)
    {
      assert r.Current(orphans[i].binding.id, orphans[i].token);
      assert orphans[from].binding.id != orphans[i].binding.id;
    }
  }

}

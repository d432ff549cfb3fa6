/**
 What each step of the protocol does to the id it is about, and that it leaves every other id alone: where the binding
 is afterwards, what is in flight on it, and who holds that.
 */
module Outcomes {
  import opened Options
  import opened Bindings
  import opened Registries
  import opened Protocol
  import opened Safety
  import opened Belonging

  function Find<T>(m: map<Id, T>, id: Id): Option<T> {
    if id in m then Some(m[id]) else None
  }

  /** All the registry knows of `id`: live as, parked as, in flight as. */
  predicate Stands(
      r: Registry, id: Id, live: Option<Trigger>, parked: Option<Trigger>, flight: Option<Transition>)
  {
    Find(r.triggers, id) == live && Find(r.pending, id) == parked && Find(r.failingOver, id) == flight
  }

  /** Nothing the registry knows of `id` has changed. */
  predicate Unmoved(r: Registry, r': Registry, id: Id) {
    Stands(r', id, Find(r.triggers, id), Find(r.pending, id), Find(r.failingOver, id))
  }

  /** Of the bindings, only `id` has changed, and of the providers none. */
  ghost predicate Only(r: Registry, r': Registry, id: Id) {
    r'.types == r.types && forall other | other != id :: Unmoved(r, r', other)
  }

  /** A move, activation or failover under a token. */
  function Move(token: nat, target: Trigger): Option<Transition> {
    Some(Transition(token, target.workerId, false, target))
  }

  // ---- Registrations -----------------------------------------------------------------------------------------

  /** A call that found a provider goes to it with the binding as that one serves it; one that found none parks. */
  lemma RegisterStarts(w: World, pid: nat, binding: Trigger, found: Option<TypeKey>)
    ensures
      var w' := Begun(w, pid, Register(binding, found));
      && w'.reg == w.reg && w'.holders == w.holders && w'.log == w.log
      && w'.drivers == w.drivers[pid := match found
                                        case Some(key) => AwaitingRegister(binding.(providerNamespace := key.0))
                                        case None => Parking(binding)]
  {
  }

  /** Accepted: live, and nothing else of the id is left. Refused: nothing happened. Unreachable: parked. */
  lemma RegisterEnds(w: World, pid: nat, answer: Answer)
    requires pid in w.drivers && w.drivers[pid].AwaitingRegister?
    ensures
      var binding, w' := w.drivers[pid].binding, Advanced(w, pid, Deliver(answer));
      && w'.drivers == w.drivers - {pid} && w'.holders == w.holders && Only(w.reg, w'.reg, binding.id)
      && match answer
         case Accepted => Stands(w'.reg, binding.id, Some(binding), None, None) && w'.log == w.log + [Settled(binding)]
         case Refused => w'.reg == w.reg && w'.log == w.log
         case Unavailable =>
           Stands(w'.reg, binding.id, None, Some(binding), None) && w'.log == w.log + [Settled(binding)]
  {
  }

  /** A parked registration supersedes every other form of its id, and looks again. */
  lemma ParkEnds(w: World, pid: nat)
    requires pid in w.drivers && w.drivers[pid].Parking?
    ensures
      var binding, w' := w.drivers[pid].binding, Advanced(w, pid, Park);
      && w'.drivers == w.drivers[pid := Rechecking(binding, AtFirst)] && w'.holders == w.holders
      && Stands(w'.reg, binding.id, None, Some(binding), None) && Only(w.reg, w'.reg, binding.id)
      && w'.log == w.log + [Settled(binding)]
  {
  }

  /** The second look reads the named namespace, or home and then the default one. */
  lemma LooksAgain(w: World, pid: nat)
    requires pid in w.drivers && w.drivers[pid].Rechecking? && !w.drivers[pid].look.Found?
    ensures
      var Rechecking(binding, look) := w.drivers[pid];
      var first := match binding.triggerNamespace case Some(named) => named case None => binding.homeNamespace;
      var next := if look.AtFirst? then Advanced(w, pid, LookFirst) else Advanced(w, pid, LookFallback);
      var read := (if look.AtFirst? then first else "default", binding.triggerType);
      && next.reg == w.reg && next.holders == w.holders && next.log == w.log
      && next.drivers == if read in w.reg.types then w.drivers[pid := Rechecking(binding, Found(read))]
                         else if look.AtFirst? && binding.triggerNamespace.None?
                         then w.drivers[pid := Rechecking(binding, AtFallback)]
                         else w.drivers - {pid}
  {
  }

  // ---- Claims on parked intents ------------------------------------------------------------------------------

  /** A parked intent that is not being removed goes in flight, bound to the namespace it is claimed for. */
  lemma ClaimTakes(w: World, id: Id, key: TypeKey)
    requires Inv(w)
    ensures
      var w', token := TryClaimParked(w, id, key), w.reg.tokens + 1;
      if id in w.reg.pending && !(id in w.reg.failingOver && w.reg.failingOver[id].removing) then
        var target := w.reg.pending[id].(providerNamespace := key.0);
        && Stands(w'.reg, id, None, None, Move(token, target)) && Only(w.reg, w'.reg, id)
        && w'.holders == w.holders[token := Activating(target)]
        && w'.drivers == w.drivers && w'.log == w.log && w'.reg.tokens == token
      else w' == w
  {
    assert Kept(w.reg, w.log, id);
  }

  /** A scan lists an intent exactly when it belongs to the provider it scans for. */
  lemma ScanLists(w: World, pid: nat, id: Id)
    requires pid in w.drivers && w.drivers[pid].Scanning?
    ensures
      var Scanning(key, unseen, work) := w.drivers[pid];
      var w' := Advanced(w, pid, ScanVisit(id));
      var listed := id in w.reg.pending && w.reg.pending[id].triggerType == key.1
                    && BelongsAt(w.reg.types, w.reg.pending[id], key.0);
      && w'.reg == w.reg && w'.holders == w.holders && w'.log == w.log
      && w'.drivers == w.drivers[pid := Scanning(key, unseen - {id}, if listed then work + {id} else work)]
  {
    var Scanning(key, _, _) := w.drivers[pid];
    if id in w.reg.pending { ResolveMeans(w.reg.types, w.reg.pending[id], key); }
  }

  /** An activation that is still current ends live or parked, by its answer; a superseded one changes nothing. */
  lemma ActivationEnds(w: World, token: nat, accepted: bool)
    requires Inv(w) && token in w.holders && w.holders[token].Activating?
    ensures
      var target, w' := w.holders[token].target, Received(w, token, Activated(accepted));
      && w'.holders == w.holders - {token} && w'.drivers == w.drivers && w'.log == w.log
      && Only(w.reg, w'.reg, target.id)
      && if !w.reg.Current(target.id, token) then w'.reg == w.reg
         else if accepted then Stands(w'.reg, target.id, Some(target), None, None)
         else Stands(w'.reg, target.id, None, Some(target), None)
  {
    var id := w.holders[token].target.id;
    assert Kept(w.reg, w.log, id) && Held(w.reg, w.holders, id);
  }

  // ---- Late rejections ---------------------------------------------------------------------------------------

  /** The binding that was live waits in `pending` as it was; a move of it is over, a removal of it goes on. */
  lemma RejectionParks(w: World, pid: nat, id: Id, reporter: WorkerId)
    requires Inv(w)
    ensures
      var w' := Begun(w, pid, Reject(id, reporter));
      if id in w.reg.triggers then
        var binding := w.reg.triggers[id];
        var removal := id in w.reg.failingOver && w.reg.failingOver[id].removing;
        && Stands(w'.reg, id, None, Some(binding), if removal then Some(w.reg.failingOver[id]) else None)
        && Only(w.reg, w'.reg, id) && w'.holders == w.holders && w'.log == w.log
        && w'.drivers
           == w.drivers[pid := Rejected(id, (binding.providerNamespace, binding.triggerType), reporter)]
      else w' == w
  {
    assert Kept(w.reg, w.log, id);
  }

  /** It is offered to the provider that serves its key by now, unless that is the one that rejected it. */
  lemma RejectedIsOffered(w: World, pid: nat)
    requires pid in w.drivers && w.drivers[pid].Rejected?
    ensures
      var Rejected(id, key, reporter) := w.drivers[pid];
      var w' := Advanced(w, pid, LookRejected);
      && w'.reg == w.reg && w'.holders == w.holders && w'.log == w.log
      && w'.drivers == if key in w.reg.types && w.reg.types[key].workerId != Some(reporter)
                       then w.drivers[pid := Reclaiming(id, key)] else w.drivers - {pid}
  {
  }

  /** That provider gets it back, if it still waits and nobody is removing it. */
  lemma RejectedIsTakenBack(w: World, pid: nat)
    requires Inv(w) && pid in w.drivers && w.drivers[pid].Reclaiming?
    ensures
      var Reclaiming(id, key) := w.drivers[pid];
      var w', token := Advanced(w, pid, Reclaim), w.reg.tokens + 1;
      && w'.drivers == w.drivers - {pid}
      && if id in w.reg.pending && !(id in w.reg.failingOver && w.reg.failingOver[id].removing) then
           var target := w.reg.pending[id].(providerNamespace := key.0);
           && Stands(w'.reg, id, None, None, Move(token, target)) && Only(w.reg, w'.reg, id)
           && w'.holders == w.holders[token := Activating(target)]
         else w'.reg == w.reg && w'.holders == w.holders
  {
    ClaimTakes(w, w.drivers[pid].id, w.drivers[pid].key);
  }

  /** A provider that registers is there at once; the rest is up to its scan. */
  lemma PublishStarts(w: World, pid: nat, key: TypeKey, provider: Provider)
    ensures
      var w' := Begun(w, pid, Publish(key, provider));
      && w'.reg == w.reg.(types := w.reg.types[key := provider]) && w'.holders == w.holders && w'.log == w.log
      && w'.drivers == w.drivers[pid := Published(key)]
  {
  }

  /** A survey lists a live binding exactly when it is at home with the provider, elsewhere, and not in flight. */
  lemma SurveyLists(w: World, pid: nat, id: Id)
    requires pid in w.drivers && w.drivers[pid].Surveying?
    ensures
      var Surveying(key, unseen, work) := w.drivers[pid];
      var w' := Advanced(w, pid, SurveyVisit(id));
      var listed := id in w.reg.triggers && id !in w.reg.failingOver
                    && var binding := w.reg.triggers[id];
                       && binding.triggerNamespace.None? && binding.providerNamespace != binding.homeNamespace
                       && key == (binding.homeNamespace, binding.triggerType);
      && w'.reg == w.reg && w'.holders == w.holders && w'.log == w.log
      && w'.drivers == w.drivers[pid := Surveying(key, unseen - {id}, if listed then work + {id} else work)]
  {
  }

  // ---- Moves -------------------------------------------------------------------------------------------------

  /** A re-homing claims a stray: live where it was, in flight to its home, with its old provider to be asked first. */
  lemma RehomeStarts(w: World, id: Id, key: TypeKey, attached: bool)
    requires Inv(w) && w.reg.CanRehome(id, key)
    ensures
      var w', token := StartRehome(w, id, key, attached), w.reg.tokens + 1;
      var source := w.reg.triggers[id];
      var target := source.(providerNamespace := source.homeNamespace);
      && source.triggerNamespace.None? && source.providerNamespace != source.homeNamespace
      && key == (source.homeNamespace, source.triggerType)
      && Stands(w'.reg, id, Some(source), None, Move(token, target)) && Only(w.reg, w'.reg, id)
      && w'.holders == w.holders[token := Rehoming(source, target, attached, !attached)]
      && w'.drivers == w.drivers && w'.log == w.log
  {
    assert Kept(w.reg, w.log, id);
  }

  /** A current failover goes to the provider its binding belongs to now, and has nowhere to go without one. */
  lemma MoveStarts(w: World, token: nat, reached: bool, namespace: Namespace)
    requires Inv(w) && token in w.holders && w.holders[token].Orphaned?
    requires w.reg.Current(w.holders[token].target.id, token)
    requires var orphan := w.holders[token].target;
      BelongsAt(w.reg.types, orphan, namespace)
      || (BelongsNowhere(w.reg.types, orphan) && namespace == orphan.providerNamespace)
    ensures
      var orphan, w' := w.holders[token].target, Received(w, token, Started(reached));
      var target := orphan.(providerNamespace := namespace);
      && Stands(w'.reg, orphan.id, Find(w.reg.triggers, orphan.id), Find(w.reg.pending, orphan.id), Move(token, target))
      && Only(w.reg, w'.reg, orphan.id)
      && w'.holders
         == w.holders[token := FailingOver(target, reached && !BelongsNowhere(w.reg.types, orphan))]
      && w'.drivers == w.drivers && w'.log == w.log
  {
    var orphan := w.holders[token].target;
    assert Held(w.reg, w.holders, orphan.id);
    ResolveMeans(w.reg.types, orphan, (namespace, orphan.triggerType));
  }

  /** A current move ends live at its target, or parked as that; a superseded one changes nothing. */
  lemma MoveEnds(w: World, token: nat, accepted: bool)
    requires Inv(w) && token in w.holders && CanReceive(w.holders[token], Moved(accepted))
    ensures
      var target, w' := w.holders[token].target, Received(w, token, Moved(accepted));
      && w'.holders == w.holders - {token} && w'.drivers == w.drivers && w'.log == w.log
      && Only(w.reg, w'.reg, target.id)
      && if !w.reg.Current(target.id, token) then w'.reg == w.reg
         else if accepted then Stands(w'.reg, target.id, Some(target), None, None)
         else Stands(w'.reg, target.id, None, Some(target), None)
  {
    var id := w.holders[token].target.id;
    assert Kept(w.reg, w.log, id) && Held(w.reg, w.holders, id);
  }

  /** A source that could not be detached stays; one that was goes on to its replay, if the move is still current. */
  lemma DetachEnds(w: World, token: nat, detached: bool)
    requires Inv(w) && token in w.holders && CanReceive(w.holders[token], Detached(detached))
    ensures
      var Rehoming(source, target, attached, _) := w.holders[token];
      var w', current := Received(w, token, Detached(detached)), w.reg.Current(source.id, token);
      && w'.drivers == w.drivers && w'.log == w.log && Only(w.reg, w'.reg, source.id)
      && (current && !detached ==>
            Stands(w'.reg, source.id, Find(w.reg.triggers, source.id), Find(w.reg.pending, source.id), None))
      && (current && detached ==>
            w'.reg == w.reg && w'.holders == w.holders[token := Rehoming(source, target, attached, true)])
      && (!current ==> w'.reg == w.reg)
      && (!(current && detached) ==> w'.holders == w.holders - {token})
  {
  }

  /**
   A caller dropped at an await: an attached move leaves its source live as it was; any other intent waits parked as
   it was to be placed.
   */
  lemma CancelEnds(w: World, token: nat)
    requires Inv(w) && token in w.holders && CanReceive(w.holders[token], Cancelled)
    ensures
      var holder, w' := w.holders[token], Received(w, token, Cancelled);
      var id := holder.target.id;
      && w'.holders == w.holders - {token} && w'.drivers == w.drivers && w'.log == w.log && Only(w.reg, w'.reg, id)
      && if !w.reg.Current(id, token) then w'.reg == w.reg
         else if holder.Rehoming? && holder.attached
         then id in w.reg.triggers && Stands(w'.reg, id, Some(w.reg.triggers[id]), None, None)
         else Stands(w'.reg, id, None, Some(holder.target), None)
  {
    var id := w.holders[token].target.id;
    assert Kept(w.reg, w.log, id) && Held(w.reg, w.holders, id);
  }

  // ---- Removals ----------------------------------------------------------------------------------------------

  /** A live binding stays so while its provider is asked; anything else of the id goes at once. */
  lemma UnregisterStarts(w: World, id: Id, registrator: Option<nat>)
    requires Inv(w)
    ensures
      var w', token := Unregistering(w, id, registrator), w.reg.tokens + 1;
      && Only(w.reg, w'.reg, id) && w'.drivers == w.drivers
      && if id in w.reg.triggers then
           var binding := w.reg.triggers[id];
           && Stands(w'.reg, id, Some(binding), None, Some(Transition(token, binding.workerId, true, binding)))
           && w'.holders == w.holders[token := Removing(binding, registrator)] && w'.log == w.log
         else Stands(w'.reg, id, None, None, None) && w'.holders == w.holders && w'.log == w.log + [Dropped({id})]
  {
    assert Kept(w.reg, w.log, id);
  }

  lemma RemovalEnds(w: World, token: nat)
    requires token in w.holders && w.holders[token].Removing?
    ensures
      var id, w' := w.holders[token].target.id, Received(w, token, Removed);
      && w'.holders == w.holders - {token} && w'.drivers == w.drivers && Only(w.reg, w'.reg, id)
      && if w.reg.Current(id, token)
         then Stands(w'.reg, id, None, None, None) && w'.log == w.log + [Dropped({id})]
         else w'.reg == w.reg && w'.log == w.log
  {
  }

  /**
   A removal that failed or was dropped gives the binding back: parked when nothing can run any more, as it was when
   the provider that was asked still serves it, and else in flight under a fresh token.
   */
  lemma AbandonEnds(w: World, token: nat, runtime: bool)
    requires Inv(w) && token in w.holders && w.holders[token].Removing?
    requires w.reg.Current(w.holders[token].target.id, token)
    ensures
      var Removing(target, registrator) := w.holders[token];
      var id, w', live, parked := target.id, AbandonRemoval(w, token, runtime), Find(w.reg.triggers, target.id),
        Find(w.reg.pending, target.id);
      && Only(w.reg, w'.reg, id) && w'.drivers == w.drivers && w'.log == w.log
      && if live.None? && parked.None? then
           Stands(w'.reg, id, None, None, None) && w'.holders == w.holders - {token}
         else
           var binding := if live.Some? then live.value else parked.value;
           var key, next := (binding.providerNamespace, binding.triggerType), w.reg.tokens + 1;
           if !runtime then Stands(w'.reg, id, None, Some(binding), None) && w'.holders == w.holders - {token}
           else if key in w.reg.types && registrator == Some(w.reg.types[key].registrator) then
             Stands(w'.reg, id, live, parked, None) && w'.holders == w.holders - {token}
           else
             && Stands(w'.reg, id, live, None, Move(next, binding))
             && w'.holders == (w.holders - {token})[next := Orphaned(binding)]
  {
    var id := w.holders[token].target.id;
    assert Kept(w.reg, w.log, id) && Held(w.reg, w.holders, id);
  }

  // ---- Departures --------------------------------------------------------------------------------------------

  /** Every claim and parked intent the worker owns is gone; nothing else has changed. */
  lemma DepartStarts(w: World, pid: nat, worker: WorkerId, id: Id)
    requires Inv(w)
    ensures
      var w', flight, parked := Begun(w, pid, Depart(worker)), Find(w.reg.failingOver, id), Find(w.reg.pending, id);
      && w'.reg.types == w.reg.types && w'.holders == w.holders && w'.drivers == w.drivers[pid := Sweeping(worker)]
      && Stands(w'.reg, id, Find(w.reg.triggers, id),
                if parked.Some? && parked.value.workerId == Some(worker) then None else parked,
                if flight.Some? && flight.value.workerId == Some(worker) then None else flight)
  {
  }

  /** The sweep drops one live or parked binding of the worker, with what is in flight on a live one. */
  lemma SweepEnds(w: World, pid: nat, id: Id)
    requires Inv(w) && pid in w.drivers && w.drivers[pid].Sweeping?
    ensures CanAdvance(w, w.drivers[pid], SweepLive(id)) ==>
              && id in w.reg.triggers && w.reg.triggers[id].workerId == Some(w.drivers[pid].worker)
              && var w' := Advanced(w, pid, SweepLive(id));
                 Stands(w'.reg, id, None, None, None) && Only(w.reg, w'.reg, id) && w'.log == w.log + [Dropped({id})]
    ensures CanAdvance(w, w.drivers[pid], SweepPending(id)) ==>
              && id in w.reg.pending && w.reg.pending[id].workerId == Some(w.drivers[pid].worker)
              && var w' := Advanced(w, pid, SweepPending(id));
                 && Stands(w'.reg, id, None, None, Find(w.reg.failingOver, id)) && Only(w.reg, w'.reg, id)
                 && w'.log == w.log + [Dropped({id})]
  {
    assert Kept(w.reg, w.log, id);
  }

  /** A claim of `id` on behalf of the provider that left: live as it was, in flight, and held as an orphan. */
  ghost predicate IsOrphaned(w: World, w': World, id: Id) {
    && id in w.reg.triggers && id in w'.reg.failingOver
    && var token := w'.reg.failingOver[id].token;
       && w.reg.tokens < token <= w'.reg.tokens
       && Find(w'.reg.failingOver, id) == Move(token, w.reg.triggers[id])
       && token in w'.holders && w'.holders[token] == Orphaned(w.reg.triggers[id])
  }

  lemma TakeAllEnds(w: World, order: seq<Id>, id: Id)
    requires Inv(w) && forall taken <- order :: taken in w.reg.triggers
    requires forall i, j :: 0 <= i < j < |order| ==> order[i] != order[j]
    ensures
      var w' := TakeAll(w, order);
      && w'.reg == w.reg.(failingOver := w'.reg.failingOver, tokens := w'.reg.tokens) && w.reg.tokens <= w'.reg.tokens
      && w'.drivers == w.drivers && w'.log == w.log
      && (forall token | token <= w.reg.tokens :: token in w.holders ==>
            token in w'.holders && w'.holders[token] == w.holders[token])
      && if id in order then IsOrphaned(w, w', id)
         else Find(w'.reg.failingOver, id) == Find(w.reg.failingOver, id)
    decreases order
  {
    if order != [] {
      var orphan := w.reg.triggers[order[0]];
      assert order[0] in order && Kept(w.reg, w.log, order[0]);
      ClaimKeepsInv(w, w.reg, orphan, Orphaned(orphan));
      TakeAllEnds(Claim(w, w.reg, orphan, Orphaned(orphan)), order[1..], id);
      assert id in order <==> id == order[0] || id in order[1..];
      if id == order[0] { assert id !in order[1..]; }
    }
  }

  /** A provider that leaves orphans every live binding it served, but for those being removed, and no other. */
  lemma TakeEnds(w: World, key: TypeKey, worker: WorkerId, order: seq<Id>, id: Id)
    requires Inv(w) && Enabled(w, TypeTake(key, worker, order))
    ensures
      var w' := Next(w, TypeTake(key, worker, order));
      && w'.reg.types == w.reg.types - {key} && w'.reg.triggers == w.reg.triggers && w'.reg.pending == w.reg.pending
      && w'.drivers == w.drivers && w'.log == w.log
      && if && id in w.reg.triggers
            && (w.reg.triggers[id].providerNamespace, w.reg.triggers[id].triggerType) == key
            && !(id in w.reg.failingOver && w.reg.failingOver[id].removing)
         then IsOrphaned(w, w', id)
         else Find(w'.reg.failingOver, id) == Find(w.reg.failingOver, id)
  {
    var less := w.(reg := w.reg.(types := w.reg.types - {key}));
    QuietKeepsInv(w, less);
    TakeAllEnds(less, order, id);
  }
}

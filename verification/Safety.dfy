/**
 What every interleaving keeps: the newest settled intent of an id wins, it is never lost, a dropped one never
 comes back, and no token outlives the operation that holds it.
 */
module Safety {
  import opened Options
  import opened Bindings
  import opened Registries
  import opened Protocol

  /** `binding` is, up to placement, the newest settled intent of `id`. */
  predicate Intended(log: seq<Event>, id: Id, binding: Trigger) {
    binding.id == id && Latest(log, id) == Some(binding.Intent())
  }

  /** What the maps hold for one id agrees with the history: nothing stale, nothing lost, one bucket. */
  predicate Kept(reg: Registry, log: seq<Event>, id: Id) {
    && (id in reg.triggers ==> id !in reg.pending && Intended(log, id, reg.triggers[id]))
    && (id in reg.pending ==> !reg.BeingMoved(id) && Intended(log, id, reg.pending[id]))
    && (reg.BeingMoved(id) ==> Intended(log, id, reg.failingOver[id].target))
    && (Latest(log, id).Some? ==> id in reg.triggers || id in reg.pending || reg.BeingMoved(id))
  }

  /** The transition filed under an id names just what its holder is about to place, and where. */
  predicate Matches(reg: Registry, id: Id, holder: Holder) {
    id in reg.failingOver &&
    var transition := reg.failingOver[id];
    && holder.target == transition.target
    && transition.target.id == id
    && transition.workerId == transition.target.workerId
    && transition.removing == holder.Removing?
    && (holder.Activating? ==> id !in reg.triggers)
    && (holder.Rehoming? ==> id in reg.triggers && holder.source.id == id)
  }

  /** Every transition on `id` has its one holder. */
  predicate Held(reg: Registry, holders: map<nat, Holder>, id: Id) {
    id in reg.failingOver ==>
      && reg.failingOver[id].token in holders
      && Matches(reg, id, holders[reg.failingOver[id].token])
  }

  predicate TokensIssued(reg: Registry, holders: map<nat, Holder>) {
    forall token <- holders :: token <= reg.tokens
  }

  ghost predicate Inv(w: World) {
    && (forall id :: Kept(w.reg, w.log, id))
    && (forall id :: Held(w.reg, w.holders, id))
    && TokensIssued(w.reg, w.holders)
  }

  // ---- How the history grows ---------------------------------------------------------------------------------

  lemma LatestAfter(log: seq<Event>, event: Event)
    ensures forall id :: Latest(log + [event], id) == Says(event, id, Latest(log, id))
  {
    assert (log + [event])[..|log|] == log;
  }

  /** `event` is a word on `id`. */
  predicate Concerns(event: Event, id: Id) {
    match event
    case Settled(binding) => binding.id == id
    case Dropped(ids) => id in ids
  }

  /** The newest intent of an id is the last word on it: the binding it settled, or none when it dropped it. */
  lemma {:induction false} LatestIsTheLastWord(log: seq<Event>, id: Id)
    ensures
      match Latest(log, id)
      case Some(intent) =>
        exists k :: 0 <= k < |log| && log[k].Settled? && log[k].binding.id == id && log[k].binding.Intent() == intent
                    && forall j | k < j < |log| :: !Concerns(log[j], id)
      case None =>
        || (forall j | 0 <= j < |log| :: !Concerns(log[j], id))
        || exists k :: 0 <= k < |log| && log[k].Dropped? && id in log[k].ids
                       && forall j | k < j < |log| :: !Concerns(log[j], id)
    decreases |log|
  {
    if log != [] {
      var init, last := log[..|log| - 1], |log| - 1;
      LatestIsTheLastWord(init, id);
      if !Concerns(log[last], id) {
        assert forall j | 0 <= j < last :: init[j] == log[j];
        if Latest(init, id).Some? {
          var k :| 0 <= k < |init| && init[k].Settled? && init[k].binding.id == id
                   && init[k].binding.Intent() == Latest(init, id).value
                   && forall j | k < j < |init| :: !Concerns(init[j], id);
          assert log[k] == init[k] && forall j | k < j < |log| :: !Concerns(log[j], id);
        } else if exists j :: 0 <= j < |init| && Concerns(init[j], id) {
          var k :| 0 <= k < |init| && init[k].Dropped? && id in init[k].ids
                   && forall j | k < j < |init| :: !Concerns(init[j], id);
          assert log[k] == init[k] && forall j | k < j < |log| :: !Concerns(log[j], id);
        }
      }
    }
  }

  // ---- One lemma per kind of step ----------------------------------------------------------------------------

  lemma ClaimKeepsInv(w: World, reg: Registry, binding: Trigger, holder: Holder)
    requires reg.tokens == w.reg.tokens
    requires TokensIssued(w.reg, w.holders)
    requires forall id | id != binding.id :: Kept(reg, w.log, id) && Held(reg, w.holders, id)
    requires Kept(reg.Begin(binding, holder.Removing?), w.log, binding.id)
    requires holder.target == binding
    requires holder.Activating? ==> binding.id !in reg.triggers
    requires holder.Rehoming? ==> binding.id in reg.triggers && holder.source.id == binding.id
    ensures Inv(Claim(w, reg, binding, holder))
  {
    var w' := Claim(w, reg, binding, holder);
    forall id ensures Kept(w'.reg, w'.log, id) && Held(w'.reg, w'.holders, id) {
      if id != binding.id {
        assert Kept(reg, w.log, id) && Held(reg, w.holders, id);
      }
    }
  }

  lemma TryClaimKeepsInv(w: World, id: Id, key: TypeKey)
    requires Inv(w)
    ensures Inv(TryClaimParked(w, id, key))
  {
    if w.reg.CanClaimParked(id) {
      assert Kept(w.reg, w.log, id);
      var target := w.reg.pending[id].ServedFrom(key.0);
      var reg := w.reg.(pending := w.reg.pending - {id});
      forall other | other != target.id ensures Kept(reg, w.log, other) && Held(reg, w.holders, other) {
        assert Kept(w.reg, w.log, other) && Held(w.reg, w.holders, other);
      }
      ClaimKeepsInv(w, reg, target, Activating(target));
    }
  }

  /** Steps that only move a driver, or publish a provider. */
  lemma QuietKeepsInv(w: World, w': World)
    requires Inv(w)
    requires w'.reg.(types := w.reg.types) == w.reg && w'.holders == w.holders && w'.log == w.log
    ensures Inv(w')
  {
    forall id ensures Kept(w'.reg, w'.log, id) && Held(w'.reg, w'.holders, id) {
      assert Kept(w.reg, w.log, id) && Held(w.reg, w.holders, id);
    }
  }

  lemma SettledKeepsInv(w: World, w': World, binding: Trigger)
    requires Inv(w)
    requires w'.reg == w.reg.SettleLive(binding) || w'.reg == w.reg.ParkNew(binding)
    requires w'.holders == w.holders && w'.log == w.log + [Settled(binding)]
    ensures Inv(w')
  {
    LatestAfter(w.log, Settled(binding));
    forall id ensures Kept(w'.reg, w'.log, id) && Held(w'.reg, w'.holders, id) {
      assert Kept(w.reg, w.log, id) && Held(w.reg, w.holders, id);
    }
  }

  lemma ActivationKeepsInv(w: World, token: nat, accepted: bool)
    requires Inv(w) && token in w.holders && w.holders[token].Activating?
    ensures Inv(Release(w, token, w.reg.SettleActivation(w.holders[token].target, token, accepted)))
  {
    var target := w.holders[token].target;
    var w' := Release(w, token, w.reg.SettleActivation(target, token, accepted));
    assert Kept(w.reg, w.log, target.id) && Held(w.reg, w.holders, target.id);
    assert Kept(w'.reg, w'.log, target.id) && Held(w'.reg, w'.holders, target.id);
    forall id | id != target.id ensures Kept(w'.reg, w'.log, id) && Held(w'.reg, w'.holders, id) {
      assert Kept(w.reg, w.log, id) && Held(w.reg, w.holders, id);
    }
  }

  lemma CancelKeepsInv(w: World, token: nat)
    requires Inv(w) && token in w.holders && !w.holders[token].Removing?
    ensures Inv(Release(w, token, w.reg.RecoverActivation(w.holders[token].target.id, token,
                                                         w.holders[token].Rehoming? && w.holders[token].attached)))
  {
    var w' := Release(w, token, w.reg.RecoverActivation(w.holders[token].target.id, token,
                                                       w.holders[token].Rehoming? && w.holders[token].attached));
    forall id ensures Kept(w'.reg, w'.log, id) && Held(w'.reg, w'.holders, id) {
      assert Kept(w.reg, w.log, id) && Held(w.reg, w.holders, id);
      assert Held(w.reg, w.holders, w.holders[token].target.id);
    }
  }

  lemma MoveKeepsInv(w: World, token: nat, accepted: bool)
    requires Inv(w) && token in w.holders && (w.holders[token].FailingOver? || w.holders[token].Rehoming?)
    ensures Inv(Release(w, token, w.reg.SettleMove(w.holders[token].target, token, accepted)))
  {
    var w' := Release(w, token, w.reg.SettleMove(w.holders[token].target, token, accepted));
    forall id ensures Kept(w'.reg, w'.log, id) && Held(w'.reg, w'.holders, id) {
      assert Kept(w.reg, w.log, id) && Held(w.reg, w.holders, id);
      assert Held(w.reg, w.holders, w.holders[token].target.id);
    }
  }

  lemma RehomeClaimKeepsInv(w: World, id: Id, key: TypeKey, attached: bool)
    requires Inv(w) && w.reg.CanRehome(id, key)
    ensures Inv(StartRehome(w, id, key, attached))
  {
    var target := w.reg.triggers[id].ServedFrom(key.0);
    assert Kept(w.reg, w.log, id);
    ClaimKeepsInv(w, w.reg, target, Rehoming(w.reg.triggers[id], target, attached, !attached));
  }

  lemma TakeAllKeepsInv(w: World, order: seq<Id>)
    requires Inv(w)
    requires forall id <- order :: id in w.reg.triggers
    ensures Inv(TakeAll(w, order))
    decreases order
  {
    if order != [] {
      var orphan := w.reg.triggers[order[0]];
      assert order[0] in order && Kept(w.reg, w.log, order[0]);
      ClaimKeepsInv(w, w.reg, orphan, Orphaned(orphan));
      TakeAllKeepsInv(Claim(w, w.reg, orphan, Orphaned(orphan)), order[1..]);
    }
  }

  lemma StartKeepsInv(w: World, token: nat, reached: bool)
    requires Inv(w) && token in w.holders && w.holders[token].Orphaned?
    ensures Inv(StartMove(w, token, reached))
  {
    var orphan := w.holders[token].target;
    assert Held(w.reg, w.holders, orphan.id) && Kept(w.reg, w.log, orphan.id);
    var w' := StartMove(w, token, reached);
    if w.reg.Current(orphan.id, token) {
      assert w'.reg == w.reg.StartFailover(orphan, token);
      assert w.reg.Redirected(orphan).Intent() == orphan.Intent();
    }
    forall id ensures Kept(w'.reg, w'.log, id) && Held(w'.reg, w'.holders, id) {
      assert Kept(w.reg, w.log, id) && Held(w.reg, w.holders, id);
    }
  }

  lemma ForgottenKeepsInv(w: World, token: nat)
    requires Inv(w) && token in w.holders && w.holders[token].Orphaned?
    ensures Inv(w.(holders := w.holders[token := Forsaken(w.holders[token].target)]))
  {
    var w' := w.(holders := w.holders[token := Forsaken(w.holders[token].target)]);
    forall id ensures Kept(w'.reg, w'.log, id) && Held(w'.reg, w'.holders, id) {
      assert Kept(w.reg, w.log, id) && Held(w.reg, w.holders, id);
    }
  }

  lemma DetachKeepsInv(w: World, token: nat, detached: bool)
    requires Inv(w) && token in w.holders && w.holders[token].Rehoming?
    ensures Inv(AnswerDetach(w, token, detached))
  {
    var w' := AnswerDetach(w, token, detached);
    assert Held(w.reg, w.holders, w.holders[token].target.id);
    forall id ensures Kept(w'.reg, w'.log, id) && Held(w'.reg, w'.holders, id) {
      assert Kept(w.reg, w.log, id) && Held(w.reg, w.holders, id);
    }
  }

  lemma UnregisterKeepsInv(w: World, id: Id, registrator: Option<nat>)
    requires Inv(w)
    ensures Inv(Unregistering(w, id, registrator))
  {
    var w' := Unregistering(w, id, registrator);
    assert Kept(w.reg, w.log, id);
    if id in w.reg.triggers {
      ClaimKeepsInv(w, w.reg, w.reg.triggers[id], Removing(w.reg.triggers[id], registrator));
    } else {
      LatestAfter(w.log, Dropped({id}));
      forall other ensures Kept(w'.reg, w'.log, other) && Held(w'.reg, w'.holders, other) {
        assert Kept(w.reg, w.log, other) && Held(w.reg, w.holders, other);
      }
    }
  }

  lemma RemovalKeepsInv(w: World, token: nat)
    requires Inv(w) && token in w.holders && w.holders[token].Removing?
    ensures Inv(CompleteRemoval(w, token, w.holders[token].target.id))
  {
    var removed := w.holders[token].target.id;
    var w' := CompleteRemoval(w, token, removed);
    LatestAfter(w.log, Dropped({removed}));
    assert Held(w.reg, w.holders, removed) && Kept(w.reg, w.log, removed);
    assert Kept(w'.reg, w'.log, removed) && Held(w'.reg, w'.holders, removed);
    forall id | id != removed ensures Kept(w'.reg, w'.log, id) && Held(w'.reg, w'.holders, id) {
      assert Kept(w.reg, w.log, id) && Held(w.reg, w.holders, id);
    }
  }

  /** Without its token, or with a provider to repair or a parking to do, an abandoned removal only lets go. */
  lemma LetGoKeepsInv(w: World, token: nat, runtime: bool)
    requires Inv(w) && token in w.holders && w.holders[token].Removing?
    requires !w.reg.RecoverRemoval(w.holders[token].target.id, token, w.holders[token].registrator, runtime).1.Resume?
    ensures Inv(AbandonRemoval(w, token, runtime))
  {
    var w', target := AbandonRemoval(w, token, runtime), w.holders[token].target.id;
    assert Kept(w.reg, w.log, target) && Held(w.reg, w.holders, target);
    forall id ensures Kept(w'.reg, w'.log, id) && Held(w'.reg, w'.holders, id) {
      assert Kept(w.reg, w.log, id) && Held(w.reg, w.holders, id);
    }
  }

  lemma AbandonKeepsInv(w: World, token: nat, runtime: bool)
    requires Inv(w) && token in w.holders && w.holders[token].Removing?
    ensures Inv(AbandonRemoval(w, token, runtime))
  {
    var holder := w.holders[token];
    var id := holder.target.id;
    if w.reg.RecoverRemoval(id, token, holder.registrator, runtime).1.Resume? {
      var binding := w.reg.Surviving(id).value;
      var freed := w.reg.Interrupt(id).(pending := w.reg.pending - {id});
      var released := Release(w, token, freed);
      assert Kept(w.reg, w.log, id);
      forall other | other != id ensures Kept(freed, w.log, other) && Held(freed, released.holders, other) {
        assert Kept(w.reg, w.log, other) && Held(w.reg, w.holders, other);
      }
      ClaimKeepsInv(released, freed, binding, Orphaned(binding));
    } else {
      LetGoKeepsInv(w, token, runtime);
    }
  }

  /** Parking a live binding whose move, if any, is interrupted. */
  lemma ParkKeepsInv(w: World, w': World, id: Id)
    requires Inv(w) && id in w.reg.triggers
    requires w'.holders == w.holders && w'.log == w.log
    requires w'.reg == if w.reg.BeingRemoved(id) then w.reg.Park(w.reg.triggers[id])
                       else w.reg.Interrupt(id).Park(w.reg.triggers[id])
    ensures Inv(w')
  {
    assert Kept(w.reg, w.log, id) && Held(w.reg, w.holders, id);
    assert Kept(w'.reg, w'.log, id);
    assert Held(w'.reg, w'.holders, id);
    forall other | other != id ensures Kept(w'.reg, w'.log, other) && Held(w'.reg, w'.holders, other) {
      assert Kept(w.reg, w.log, other) && Held(w.reg, w.holders, other);
    }
  }

  lemma RejectionKeepsInv(w: World, w': World, id: Id)
    requires Inv(w)
    requires w'.reg == w.reg.ParkRejected(id) && w'.holders == w.holders && w'.log == w.log
    ensures Inv(w')
  {
    if id in w.reg.triggers { ParkKeepsInv(w, w', id); } else { QuietKeepsInv(w, w'); }
  }

  lemma SweepStartKeepsInv(w: World, w': World, worker: WorkerId)
    requires Inv(w)
    requires w'.reg == w.reg.SweepClaims(worker) && w'.holders == w.holders
    requires w'.log == w.log + [Dropped(w.reg.SweptIntents(worker))]
    ensures Inv(w')
  {
    LatestAfter(w.log, Dropped(w.reg.SweptIntents(worker)));
    forall id ensures Kept(w'.reg, w'.log, id) && Held(w'.reg, w'.holders, id) {
      assert Kept(w.reg, w.log, id) && Held(w.reg, w.holders, id);
    }
  }

  lemma SweepOneKeepsInv(w: World, w': World, id: Id)
    requires Inv(w)
    requires w'.reg == w.reg.SweepLive(id) || (id in w.reg.pending && w'.reg == w.reg.SweepPending(id))
    requires id in w.reg.triggers || id in w.reg.pending
    requires w'.holders == w.holders && w'.log == w.log + [Dropped({id})]
    requires w'.reg == w.reg.SweepLive(id) ==> id in w.reg.triggers
    ensures Inv(w')
  {
    LatestAfter(w.log, Dropped({id}));
    assert Kept(w.reg, w.log, id);
    forall other ensures Kept(w'.reg, w'.log, other) && Held(w'.reg, w'.holders, other) {
      assert Kept(w.reg, w.log, other) && Held(w.reg, w.holders, other);
    }
  }

  lemma BegunKeepsInv(w: World, pid: nat, request: Request)
    requires Inv(w)
    ensures Inv(Begun(w, pid, request))
  {
    var w' := Begun(w, pid, request);
    match request
    case Reject(id, _) => RejectionKeepsInv(w, w', id);
    case Depart(worker) => SweepStartKeepsInv(w, w', worker);
    case _ => QuietKeepsInv(w, w');
  }

  lemma AdvancedKeepsInv(w: World, pid: nat, action: Action)
    requires Inv(w) && pid in w.drivers && CanAdvance(w, w.drivers[pid], action)
    ensures Inv(Advanced(w, pid, action))
  {
    var driver, w' := w.drivers[pid], Advanced(w, pid, action);
    match action
    case Park => SettledKeepsInv(w, w', driver.binding);
    case Deliver(answer) =>
      if answer.Refused? { QuietKeepsInv(w, w'); } else { SettledKeepsInv(w, w', driver.binding); }
    case ClaimFound => TryClaimKeepsInv(w, driver.binding.id, driver.look.key);
    case DrainClaim(id) => TryClaimKeepsInv(w, id, driver.key);
    case RehomeClaim(id, attached) =>
      RehomeClaimKeepsInv(w, id, driver.key, attached);
      QuietKeepsInv(StartRehome(w, id, driver.key, attached), w');
    case Reclaim => TryClaimKeepsInv(w, driver.id, driver.key);
    case SweepLive(id) => SweepOneKeepsInv(w, w', id);
    case SweepPending(id) => SweepOneKeepsInv(w, w', id);
    case _ => QuietKeepsInv(w, w');
  }

  lemma ReceivedKeepsInv(w: World, token: nat, reply: Reply)
    requires Inv(w) && token in w.holders && CanReceive(w.holders[token], reply)
    ensures Inv(Received(w, token, reply))
  {
    match reply
    case Activated(accepted) => ActivationKeepsInv(w, token, accepted);
    case Started(reached) => StartKeepsInv(w, token, reached);
    case Forgotten => ForgottenKeepsInv(w, token);
    case Moved(accepted) => MoveKeepsInv(w, token, accepted);
    case Detached(ok) => DetachKeepsInv(w, token, ok);
    case Removed => RemovalKeepsInv(w, token);
    case Abandoned(runtime) => AbandonKeepsInv(w, token, runtime);
    case Cancelled => CancelKeepsInv(w, token);
  }

  lemma StepKeepsInv(w: World, s: Step)
    requires Inv(w) && Enabled(w, s)
    ensures Inv(Next(w, s))
  {
    match s
    case Call(pid, request) => BegunKeepsInv(w, pid, request);
    case Advance(pid, action) => AdvancedKeepsInv(w, pid, action);
    case Receive(token, reply) => ReceivedKeepsInv(w, token, reply);
    case TypeTake(key, _, order) =>
      var taken := w.(reg := w.reg.(types := w.reg.types - {key}));
      QuietKeepsInv(w, taken);
      TakeAllKeepsInv(taken, order);
    case Unregister(id, registrator) => UnregisterKeepsInv(w, id, registrator);
  }

  lemma {:induction false} RunKeepsInv(w: World, steps: seq<Step>)
    requires Inv(w) && IsRun(w, steps)
    ensures Inv(After(w, steps))
    decreases |steps|
  {
    if steps != [] {
      StepKeepsInv(w, steps[0]);
      RunKeepsInv(Next(w, steps[0]), steps[1..]);
    }
  }

  // ---- The promises, over every run from an empty registry ---------------------------------------------------

  /** Whatever is live, parked or about to be placed is what was last settled; what was dropped is nowhere. */
  lemma NewestIntentWins(steps: seq<Step>, id: Id)
    requires IsRun(Initial, steps)
    ensures
      var w := After(Initial, steps);
      && (id in w.reg.triggers ==> Latest(w.log, id) == Some(w.reg.triggers[id].Intent()))
      && (id in w.reg.pending ==> Latest(w.log, id) == Some(w.reg.pending[id].Intent()))
      && (w.reg.BeingMoved(id) ==> Latest(w.log, id) == Some(w.reg.failingOver[id].target.Intent()))
      && (Latest(w.log, id).None? ==> id !in w.reg.triggers && id !in w.reg.pending && !w.reg.BeingMoved(id))
  {
    RunKeepsInv(Initial, steps);
    assert Kept(After(Initial, steps).reg, After(Initial, steps).log, id);
  }

  /** A settled intent is tracked somewhere until it is dropped, and in one bucket only. */
  lemma NothingIsLost(steps: seq<Step>, id: Id)
    requires IsRun(Initial, steps)
    ensures
      var w := After(Initial, steps);
      && (Latest(w.log, id).Some? <==> id in w.reg.triggers || id in w.reg.pending || w.reg.BeingMoved(id))
      && !(id in w.reg.triggers && id in w.reg.pending)
      && !(id in w.reg.pending && w.reg.BeingMoved(id))
  {
    RunKeepsInv(Initial, steps);
    assert Kept(After(Initial, steps).reg, After(Initial, steps).log, id);
  }

  /** `s` is a caller's word on `id`, or the departure of the worker that owns it. */
  predicate AsksAbout(w: World, s: Step, id: Id) {
    var newest := Latest(w.log, id);
    match s
    case Call(_, Depart(worker)) => newest.Some? && newest.value.workerId == Some(worker)
    case Advance(pid, action) =>
      pid in w.drivers &&
      (match w.drivers[pid]
       case Parking(binding) => action.Park? && binding.id == id
       case AwaitingRegister(binding) => action.Deliver? && !action.answer.Refused? && binding.id == id
       case Sweeping(worker) => newest.Some? && newest.value.workerId == Some(worker)
       case _ => false)
    case Receive(token, Removed) => token in w.holders && w.holders[token].target.id == id
    case Unregister(removed, _) => removed == id
    case _ => false
  }

  lemma TakeAllKeepsLog(w: World, order: seq<Id>)
    requires forall id <- order :: id in w.reg.triggers
    ensures TakeAll(w, order).log == w.log
    decreases order
  {
    if order != [] {
      var orphan := w.reg.triggers[order[0]];
      TakeAllKeepsLog(Claim(w, w.reg, orphan, Orphaned(orphan)), order[1..]);
    }
  }

  lemma DepartureAsks(w: World, pid: nat, worker: WorkerId, id: Id)
    requires Inv(w) && Latest(Begun(w, pid, Depart(worker)).log, id) != Latest(w.log, id)
    ensures Latest(w.log, id).Some? && Latest(w.log, id).value.workerId == Some(worker)
  {
    LatestAfter(w.log, Dropped(w.reg.SweptIntents(worker)));
    assert Kept(w.reg, w.log, id) && Held(w.reg, w.holders, id);
  }

  lemma AdvanceAsks(w: World, pid: nat, action: Action, id: Id)
    requires Inv(w) && pid in w.drivers && CanAdvance(w, w.drivers[pid], action)
    requires Latest(Advanced(w, pid, action).log, id) != Latest(w.log, id)
    ensures AsksAbout(w, Advance(pid, action), id)
  {
    match action
    case Park => LatestAfter(w.log, Settled(w.drivers[pid].binding));
    case Deliver(_) => LatestAfter(w.log, Settled(w.drivers[pid].binding));
    case SweepLive(swept) =>
      LatestAfter(w.log, Dropped({swept}));
      assert Kept(w.reg, w.log, id);
    case SweepPending(swept) =>
      LatestAfter(w.log, Dropped({swept}));
      assert Kept(w.reg, w.log, id);
    case _ =>
  }

  /** Nothing else changes the newest intent of an id: no arrival, failover, rejection or cancellation drops it. */
  lemma OnlyCallersChangeIntents(w: World, s: Step, id: Id)
    requires Inv(w) && Enabled(w, s)
    requires Latest(Next(w, s).log, id) != Latest(w.log, id)
    ensures AsksAbout(w, s, id)
  {
    match s
    case Call(pid, request) => if request.Depart? { DepartureAsks(w, pid, request.worker, id); }
    case Advance(pid, action) => AdvanceAsks(w, pid, action, id);
    case Receive(token, reply) =>
      if reply.Removed? { LatestAfter(w.log, Dropped({w.holders[token].target.id})); }
    case TypeTake(key, _, order) =>
      TakeAllKeepsLog(w.(reg := w.reg.(types := w.reg.types - {key})), order);
    case Unregister(removed, _) => LatestAfter(w.log, Dropped({removed}));
  }

  /** The two extra emptiness checks of an activation never decide: a current claim is in neither map. */
  lemma ActivationChecksNeverFire(steps: seq<Step>, token: nat)
    requires IsRun(Initial, steps)
    requires var w := After(Initial, steps); token in w.holders && w.holders[token].Activating?
    ensures
      var w := After(Initial, steps);
      var binding := w.holders[token].target;
      w.reg.Current(binding.id, token) ==> binding.id !in w.reg.triggers && binding.id !in w.reg.pending
  {
    RunKeepsInv(Initial, steps);
    var w := After(Initial, steps);
    assert Kept(w.reg, w.log, w.holders[token].target.id) && Held(w.reg, w.holders, w.holders[token].target.id);
  }

  /**
   After a removal fails or is dropped its binding is not left on a provider that is no longer the one asked: it is
   being moved, or parked, or still served by that very registrator.
   */
  lemma AbandonedRemovalFindsAProvider(w: World, token: nat, runtime: bool)
    requires Inv(w) && token in w.holders && w.holders[token].Removing?
    requires w.reg.Current(w.holders[token].target.id, token)
    ensures
      var Removing(target, registrator) := w.holders[token];
      var w', moving := AbandonRemoval(w, token, runtime), w.reg.tokens + 1;
      && !w'.reg.BeingRemoved(target.id)
      && (w'.reg.BeingMoved(target.id) ==>
            w'.reg.Current(target.id, moving) && moving in w'.holders && w'.holders[moving].Orphaned?)
      && (target.id in w'.reg.triggers && !w'.reg.BeingMoved(target.id) ==>
            w'.reg.Serves(w'.reg.triggers[target.id].ProviderKey(), registrator))
  {
    var id := w.holders[token].target.id;
    assert Kept(w.reg, w.log, id) && Held(w.reg, w.holders, id);
  }

  // ---- Tokens ------------------------------------------------------------------------------------------------

  ghost predicate Retired(w: World, token: nat) {
    token <= w.reg.tokens && forall id :: !w.reg.Current(id, token)
  }

  /** The replies with which an operation that holds a token ends: its answer, its failure, its cancellation. */
  predicate Ends(reply: Reply) {
    !reply.Started? && (reply.Detached? ==> !reply.ok)
  }

  /**
   An operation that ends, even by being dropped at an await, leaves no entry behind under its token, with one
   exception: a current claim on an orphan, dropped before its failover started, keeps its entry.
   */
  lemma EndedTokenIsRetired(w: World, token: nat, reply: Reply)
    requires Inv(w) && Enabled(w, Receive(token, reply)) && Ends(reply)
    ensures Retired(Next(w, Receive(token, reply)), token)
            <==> !(reply.Forgotten? && w.reg.Current(w.holders[token].target.id, token))
  {
    ReceivedKeepsInv(w, token, reply);
    var w' := Received(w, token, reply);
    if reply.Forgotten? {
      forall id | w.reg.Current(id, token) ensures id == w.holders[token].target.id {
        assert Held(w.reg, w.holders, id);
      }
    } else {
      forall id ensures !w'.reg.Current(id, token) {
        assert Held(w'.reg, w'.holders, id);
      }
    }
  }

  /** Tokens only grow, and an entry's token is the one it had or one issued by this step. */
  predicate TokensGrow(before: Registry, after: Registry, id: Id) {
    && before.tokens <= after.tokens
    && (id in after.failingOver ==>
          || before.Current(id, after.failingOver[id].token)
          || before.tokens < after.failingOver[id].token <= after.tokens)
  }

  lemma TakeAllTokensGrow(w: World, order: seq<Id>, id: Id)
    requires forall id <- order :: id in w.reg.triggers
    ensures TokensGrow(w.reg, TakeAll(w, order).reg, id)
    decreases order
  {
    if order != [] {
      var orphan := w.reg.triggers[order[0]];
      TakeAllTokensGrow(Claim(w, w.reg, orphan, Orphaned(orphan)), order[1..], id);
    }
  }

  lemma BegunTokensGrow(w: World, pid: nat, request: Request, id: Id)
    ensures TokensGrow(w.reg, Begun(w, pid, request).reg, id)
  {
  }

  lemma ClaimTokensGrow(w: World, id: Id, key: TypeKey, other: Id)
    ensures TokensGrow(w.reg, TryClaimParked(w, id, key).reg, other)
  {
  }

  lemma AdvancedTokensGrow(w: World, pid: nat, action: Action, id: Id)
    requires pid in w.drivers && CanAdvance(w, w.drivers[pid], action)
    ensures TokensGrow(w.reg, Advanced(w, pid, action).reg, id)
  {
    var driver := w.drivers[pid];
    match action
    case ClaimFound => ClaimTokensGrow(w, driver.binding.id, driver.look.key, id);
    case DrainClaim(parked) => ClaimTokensGrow(w, parked, driver.key, id);
    case Reclaim => ClaimTokensGrow(w, driver.id, driver.key, id);
    case _ =>
  }

  lemma RecoveryTokensGrow(reg: Registry, id: Id, token: nat, registrator: Option<nat>, runtime: bool, other: Id)
    ensures TokensGrow(reg, reg.RecoverRemoval(id, token, registrator, runtime).0, other)
    ensures TokensGrow(reg, reg.RecoverActivation(id, token, runtime), other)
  {
  }

  lemma ReceivedTokensGrow(w: World, token: nat, reply: Reply, id: Id)
    requires token in w.holders && CanReceive(w.holders[token], reply)
    ensures TokensGrow(w.reg, Received(w, token, reply).reg, id)
  {
    var holder := w.holders[token];
    match reply
    case Abandoned(runtime) => RecoveryTokensGrow(w.reg, holder.target.id, token, holder.registrator, runtime, id);
    case Cancelled =>
      RecoveryTokensGrow(w.reg, holder.target.id, token, None, holder.Rehoming? && holder.attached, id);
    case _ =>
  }

  lemma StepTokensGrow(w: World, s: Step, id: Id)
    requires Enabled(w, s)
    ensures TokensGrow(w.reg, Next(w, s).reg, id)
  {
    match s {
      case Call(pid, request) => BegunTokensGrow(w, pid, request, id);
      case Advance(pid, action) => AdvancedTokensGrow(w, pid, action, id);
      case Receive(token, reply) => ReceivedTokensGrow(w, token, reply, id);
      case TypeTake(key, _, order) =>
        TakeAllTokensGrow(w.(reg := w.reg.(types := w.reg.types - {key})), order, id);
      case Unregister(_, _) =>
    }
  }

  /** A token that was finished once is never current again, so no stale completion can publish under it. */
  lemma {:induction false} RetiredForGood(w: World, steps: seq<Step>, token: nat)
    requires Retired(w, token) && IsRun(w, steps)
    ensures Retired(After(w, steps), token)
    decreases |steps|
  {
    if steps != [] {
      forall id ensures !Next(w, steps[0]).reg.Current(id, token) {
        StepTokensGrow(w, steps[0], id);
      }
      StepTokensGrow(w, steps[0], "");
      RetiredForGood(Next(w, steps[0]), steps[1..], token);
    }
  }

  /**
   In every reachable state each transition belongs to one operation, and only one. That operation is still in
   progress unless it is a forsaken claim: one taken from a departing provider and dropped before its failover began.
   */
  lemma NoAbandonedToken(steps: seq<Step>, id: Id)
    requires IsRun(Initial, steps)
    requires id in After(Initial, steps).reg.failingOver
    ensures
      var w := After(Initial, steps);
      var token := w.reg.failingOver[id].token;
      && token in w.holders
      && w.holders[token].target == w.reg.failingOver[id].target
      && w.holders[token].target.id == id
      && forall other | other != id :: !w.reg.Current(other, token)
  {
    RunKeepsInv(Initial, steps);
    var w := After(Initial, steps);
    assert Held(w.reg, w.holders, id);
    forall other | other != id ensures !w.reg.Current(other, w.reg.failingOver[id].token) {
      assert Held(w.reg, w.holders, other);
    }
  }
}

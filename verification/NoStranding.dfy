/**
 Publish-then-drain against park-then-recheck: however registrations of bindings and of providers overlap, once
 all of them have returned no parked intent has a provider it could have had.
 */
module NoStranding {
  import opened Options
  import opened Bindings
  import opened Registries
  import opened Protocol
  import opened Safety
  import opened Belonging

  /** Registrations only, every provider accepts, nobody leaves and no caller is dropped midway. */
  predicate Cooperative(s: Step) {
    match s
    case Call(_, request) => request.Register? || request.Publish?
    case Advance(_, action) => (action.Deliver? ==> action.answer.Accepted?) && !action.Drop?
    case Receive(_, reply) => reply == Activated(true) || reply == Moved(true) || reply == Detached(true)
    case TypeTake(_, _, _) => false
    case Unregister(_, _) => false
  }

  ghost predicate CooperativeRun(w: World, steps: seq<Step>) {
    IsRun(w, steps) && forall s <- steps :: Cooperative(s)
  }

  /** `driver` has yet to look at the parked `binding` on behalf of `key`. */
  predicate Covers(driver: Driver, binding: Trigger, key: TypeKey) {
    match driver
    case Rechecking(own, look) => own == binding && (look.AtFallback? ==> key == binding.FallbackKey())
    case Published(published) => published == key
    case Scanning(scanned, unseen, work) => scanned == key && (binding.id in unseen || binding.id in work)
    case Draining(drained, work) => drained == key && binding.id in work
    case _ => false
  }

  ghost predicate Covered(w: World, binding: Trigger, key: TypeKey) {
    exists pid :: pid in w.drivers && Covers(w.drivers[pid], binding, key)
  }

  /** Nothing is being removed, and a provider that was found is still there. */
  predicate Undisturbed(w: World) {
    && (forall id <- w.reg.failingOver :: !w.reg.failingOver[id].removing)
    && (forall pid <- w.drivers :: w.drivers[pid].Rechecking? && w.drivers[pid].look.Found? ==>
          w.drivers[pid].look.key in w.reg.types)
  }

  /** Every parked intent that resolves now has someone on the way to claim it. */
  ghost predicate Attended(w: World) {
    && Inv(w)
    && Undisturbed(w)
    && (forall id | id in w.reg.pending && Resolve(w.reg.types, w.reg.pending[id]).Some? ::
          Covered(w, w.reg.pending[id], Resolve(w.reg.types, w.reg.pending[id]).value))
  }

  lemma CallKeepsAttended(w: World, pid: nat, request: Request)
    requires Attended(w) && Enabled(w, Call(pid, request)) && Cooperative(Call(pid, request))
    ensures Attended(Begun(w, pid, request))
  {
    var w' := Begun(w, pid, request);
    BegunKeepsInv(w, pid, request);
    forall id | id in w'.reg.pending && Resolve(w'.reg.types, w'.reg.pending[id]).Some?
      ensures Covered(w', w'.reg.pending[id], Resolve(w'.reg.types, w'.reg.pending[id]).value)
    {
      var binding, key := w'.reg.pending[id], Resolve(w'.reg.types, w'.reg.pending[id]).value;
      if request.Publish? && key == request.key {
        assert Covers(w'.drivers[pid], binding, key);
      } else {
        assert Covered(w, binding, key);
        var other :| other in w.drivers && Covers(w.drivers[other], binding, key);
        assert w'.drivers[other] == w.drivers[other];
      }
    }
  }

  /** A parked intent is still the same one, or was just parked by the caller that is about to look again. */
  lemma AdvanceKeepsParked(w: World, pid: nat, action: Action, id: Id)
    requires Attended(w) && Enabled(w, Advance(pid, action)) && Cooperative(Advance(pid, action))
    requires id in Advanced(w, pid, action).reg.pending
    ensures
      var w' := Advanced(w, pid, action);
      || (id in w.reg.pending && w'.reg.pending[id] == w.reg.pending[id])
      || (action.Park? && pid in w'.drivers && w'.drivers[pid] == Rechecking(w'.reg.pending[id], AtFirst))
  {
  }

  /** The driver that covers an intent moves on to covering it, until it claims it. */
  lemma OwnAdvanceKeepsCover(w: World, pid: nat, action: Action, id: Id)
    requires Attended(w) && Enabled(w, Advance(pid, action)) && Cooperative(Advance(pid, action))
    requires id in w.reg.pending && Resolve(w.reg.types, w.reg.pending[id]).Some?
    requires Covers(w.drivers[pid], w.reg.pending[id], Resolve(w.reg.types, w.reg.pending[id]).value)
    requires id in Advanced(w, pid, action).reg.pending
    ensures
      var w' := Advanced(w, pid, action);
      && pid in w'.drivers
      && Covers(w'.drivers[pid], w.reg.pending[id], Resolve(w.reg.types, w.reg.pending[id]).value)
  {
    assert Kept(w.reg, w.log, id);
    assert !w.reg.BeingRemoved(id);
  }

  lemma AdvanceKeepsUndisturbed(w: World, pid: nat, action: Action)
    requires Undisturbed(w) && Enabled(w, Advance(pid, action)) && Cooperative(Advance(pid, action))
    ensures Undisturbed(Advanced(w, pid, action)) && Advanced(w, pid, action).reg.types == w.reg.types
  {
  }

  lemma AdvanceKeepsAttended(w: World, pid: nat, action: Action)
    requires Attended(w) && Enabled(w, Advance(pid, action)) && Cooperative(Advance(pid, action))
    ensures Attended(Advanced(w, pid, action))
  {
    var w' := Advanced(w, pid, action);
    AdvancedKeepsInv(w, pid, action);
    AdvanceKeepsUndisturbed(w, pid, action);
    forall id | id in w'.reg.pending && Resolve(w'.reg.types, w'.reg.pending[id]).Some?
      ensures Covered(w', w'.reg.pending[id], Resolve(w'.reg.types, w'.reg.pending[id]).value)
    {
      var binding, key := w'.reg.pending[id], Resolve(w.reg.types, w'.reg.pending[id]).value;
      AdvanceKeepsParked(w, pid, action, id);
      if id in w.reg.pending && binding == w.reg.pending[id] {
        assert Covered(w, binding, key);
        var other :| other in w.drivers && Covers(w.drivers[other], binding, key);
        if other == pid { OwnAdvanceKeepsCover(w, pid, action, id); }
        assert other in w'.drivers && Covers(w'.drivers[other], binding, key);
      } else {
        assert Covers(w'.drivers[pid], binding, key);
      }
    }
  }

  lemma ReceiveKeepsAttended(w: World, token: nat, reply: Reply)
    requires Attended(w) && Enabled(w, Receive(token, reply)) && Cooperative(Receive(token, reply))
    ensures Attended(Received(w, token, reply))
  {
    var w' := Received(w, token, reply);
    ReceivedKeepsInv(w, token, reply);
    assert w'.drivers == w.drivers && w'.reg.types == w.reg.types && w'.reg.pending == w.reg.pending;
  }

  lemma {:induction false} RunKeepsAttended(w: World, steps: seq<Step>)
    requires Attended(w) && CooperativeRun(w, steps)
    ensures Attended(After(w, steps))
    decreases |steps|
  {
    if steps != [] {
      assert steps[0] in steps && forall s <- steps[1..] :: s in steps;
      match steps[0] {
        case Call(pid, request) => CallKeepsAttended(w, pid, request);
        case Advance(pid, action) => AdvanceKeepsAttended(w, pid, action);
        case Receive(token, reply) => ReceiveKeepsAttended(w, token, reply);
      }
      RunKeepsAttended(Next(w, steps[0]), steps[1..]);
    }
  }

  /** Once every registration has returned, whatever is still parked resolves to no registered provider. */
  lemma NoStrandedIntent(steps: seq<Step>, id: Id)
    requires CooperativeRun(Initial, steps)
    ensures
      var w := After(Initial, steps);
      w.drivers == map[] && id in w.reg.pending ==> BelongsNowhere(w.reg.types, w.reg.pending[id])
  {
    RunKeepsAttended(Initial, steps);
    var w := After(Initial, steps);
    if id in w.reg.pending { ResolveMeans(w.reg.types, w.reg.pending[id], ("", "")); }
  }
}

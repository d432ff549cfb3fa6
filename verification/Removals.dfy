/**
 An explicit unregister wins: once it has claimed its binding, no rejection, drain, failover, departing provider or
 other operation that was under way before it brings the binding back.
 */
module Removals {
  import opened Options
  import opened Bindings
  import opened Registries
  import opened Protocol
  import opened Safety

  /** `token` is a removal in flight on `id`. */
  predicate UnderRemoval(w: World, id: Id, token: nat) {
    w.reg.Current(id, token) && token in w.holders && w.holders[token].Removing? && w.holders[token].target.id == id
  }

  /** A newer word on `id`, the removal's own reply, or the departure of the worker that owns the binding. */
  predicate Overrules(w: World, s: Step, id: Id, token: nat) {
    match s
    case Call(_, Depart(worker)) => id in w.reg.failingOver && w.reg.failingOver[id].workerId == Some(worker)
    case Advance(pid, Park) => pid in w.drivers && w.drivers[pid].Parking? && w.drivers[pid].binding.id == id
    case Advance(pid, Deliver(answer)) =>
      !answer.Refused? && pid in w.drivers && w.drivers[pid].AwaitingRegister? && w.drivers[pid].binding.id == id
    case Advance(_, SweepLive(swept)) => swept == id
    case Receive(own, _) => own == token
    case Unregister(removed, _) => removed == id
    case _ => false
  }

  lemma ClaimSparesRemoval(w: World, claimed: Id, key: TypeKey, id: Id, token: nat)
    requires Inv(w) && UnderRemoval(w, id, token)
    ensures UnderRemoval(TryClaimParked(w, claimed, key), id, token)
  {
    assert Held(w.reg, w.holders, id) && Kept(w.reg, w.log, claimed);
  }

  lemma TakeAllSparesRemoval(w: World, order: seq<Id>, id: Id, token: nat)
    requires Inv(w) && UnderRemoval(w, id, token) && id !in order
    requires forall taken <- order :: taken in w.reg.triggers
    ensures UnderRemoval(TakeAll(w, order), id, token)
    decreases order
  {
    if order != [] {
      var orphan := w.reg.triggers[order[0]];
      assert order[0] in order && Kept(w.reg, w.log, order[0]) && orphan.id != id;
      var w' := Claim(w, w.reg, orphan, Orphaned(orphan));
      ClaimKeepsInv(w, w.reg, orphan, Orphaned(orphan));
      TakeAllSparesRemoval(w', order[1..], id, token);
    }
  }

  lemma AdvanceSparesRemoval(w: World, pid: nat, action: Action, id: Id, token: nat)
    requires Inv(w) && UnderRemoval(w, id, token)
    requires Enabled(w, Advance(pid, action)) && !Overrules(w, Advance(pid, action), id, token)
    ensures UnderRemoval(Advanced(w, pid, action), id, token)
  {
    var driver := w.drivers[pid];
    match action
    case ClaimFound => ClaimSparesRemoval(w, driver.binding.id, driver.look.key, id, token);
    case DrainClaim(claimed) => ClaimSparesRemoval(w, claimed, driver.key, id, token);
    case Reclaim => ClaimSparesRemoval(w, driver.id, driver.key, id, token);
    case RehomeClaim(claimed, _) => assert Kept(w.reg, w.log, claimed);
    case _ =>
  }

  lemma AbandonSparesRemoval(w: World, other: nat, runtime: bool, id: Id, token: nat)
    requires Inv(w) && UnderRemoval(w, id, token) && other != token
    requires other in w.holders && w.holders[other].Removing?
    ensures UnderRemoval(AbandonRemoval(w, other, runtime), id, token)
  {
    var target := w.holders[other].target.id;
    assert Held(w.reg, w.holders, target) && Kept(w.reg, w.log, target) && token <= w.reg.tokens;
  }

  lemma ReceiveSparesRemoval(w: World, other: nat, reply: Reply, id: Id, token: nat)
    requires Inv(w) && UnderRemoval(w, id, token) && other != token && Enabled(w, Receive(other, reply))
    ensures UnderRemoval(Received(w, other, reply), id, token)
  {
    if reply.Abandoned? {
      AbandonSparesRemoval(w, other, reply.runtime, id, token);
    } else {
      assert Held(w.reg, w.holders, w.holders[other].target.id);
    }
  }

  /** A removal in flight keeps its token and its holder through every step that does not overrule it. */
  lemma StepSparesRemoval(w: World, s: Step, id: Id, token: nat)
    requires Inv(w) && UnderRemoval(w, id, token) && Enabled(w, s) && !Overrules(w, s, id, token)
    ensures UnderRemoval(Next(w, s), id, token)
  {
    match s
    case Call(pid, request) =>
      if request.Reject? { assert Kept(w.reg, w.log, request.id); }
    case Advance(pid, action) => AdvanceSparesRemoval(w, pid, action, id, token);
    case Receive(other, reply) => ReceiveSparesRemoval(w, other, reply, id, token);
    case TypeTake(key, _, order) =>
      var taken := w.(reg := w.reg.(types := w.reg.types - {key}));
      QuietKeepsInv(w, taken);
      assert Held(w.reg, w.holders, id);
      TakeAllSparesRemoval(taken, order, id, token);
    case Unregister(removed, _) => assert Kept(w.reg, w.log, removed);
  }

  /** No step of the run overrules the removal. */
  ghost predicate Unchallenged(w: World, steps: seq<Step>, id: Id, token: nat)
    requires IsRun(w, steps)
    decreases |steps|
  {
    steps == [] ||
    (!Overrules(w, steps[0], id, token) && Unchallenged(Next(w, steps[0]), steps[1..], id, token))
  }

  lemma {:induction false} RunSparesRemoval(w: World, steps: seq<Step>, id: Id, token: nat)
    requires Inv(w) && UnderRemoval(w, id, token) && IsRun(w, steps) && Unchallenged(w, steps, id, token)
    ensures Inv(After(w, steps)) && UnderRemoval(After(w, steps), id, token)
    decreases |steps|
  {
    if steps != [] {
      StepKeepsInv(w, steps[0]);
      StepSparesRemoval(w, steps[0], id, token);
      RunSparesRemoval(Next(w, steps[0]), steps[1..], id, token);
    }
  }

  /** The provider's answer completes a removal that still has its token: the id is nowhere, and dropped. */
  lemma ReplyRemoves(w: World, id: Id, token: nat)
    requires UnderRemoval(w, id, token)
    ensures Enabled(w, Receive(token, Removed))
    ensures
      var w' := Next(w, Receive(token, Removed));
      && id !in w'.reg.triggers && id !in w'.reg.pending && id !in w'.reg.failingOver
      && Latest(w'.log, id).None?
  {
    LatestAfter(w.log, Dropped({id}));
  }

  /**
   An unregister of a live binding wins over whatever was under way: unless a newer word overrules it, its provider's
   answer leaves the id nowhere, whatever rejections, drains, failovers and departures of providers came in between.
   */
  lemma UnregisterWins(w: World, id: Id, registrator: Option<nat>, steps: seq<Step>)
    requires Inv(w) && id in w.reg.triggers
    requires IsRun(Unregistering(w, id, registrator), steps)
    requires Unchallenged(Unregistering(w, id, registrator), steps, id, w.reg.tokens + 1)
    ensures
      var before, reply := After(Unregistering(w, id, registrator), steps), Receive(w.reg.tokens + 1, Removed);
      && Enabled(before, reply)
      && var after := Next(before, reply);
         && id !in after.reg.triggers && id !in after.reg.pending && id !in after.reg.failingOver
         && Latest(after.log, id).None?
  {
    assert Kept(w.reg, w.log, id);
    UnregisterKeepsInv(w, id, registrator);
    RunSparesRemoval(Unregistering(w, id, registrator), steps, id, w.reg.tokens + 1);
    ReplyRemoves(After(Unregistering(w, id, registrator), steps), id, w.reg.tokens + 1);
  }

  /** With no live binding an unregister is done at once: what was parked or claimed under the id is gone. */
  lemma UnregisterOfParkedIsImmediate(w: World, id: Id, registrator: Option<nat>)
    requires id !in w.reg.triggers
    ensures
      var w' := Unregistering(w, id, registrator);
      && id !in w'.reg.triggers && id !in w'.reg.pending && id !in w'.reg.failingOver
      && Latest(w'.log, id).None?
  {
    LatestAfter(w.log, Dropped({id}));
  }
}

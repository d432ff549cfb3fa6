/**
 Where overlapping registrations leave live bindings. A call that settles does not look again for a provider that
 appeared at home meanwhile, and a claim does not look again what it claims; away from those two gaps every binding
 ends exactly where it resolves.
 */
module Overlap {
  import opened Options
  import opened Bindings
  import opened Registries
  import opened Protocol
  import opened Safety
  import opened NoStranding
  import opened Placement
  import opened Belonging

  /** `key` is one of the at most two keys a look-up for `binding` reads. */
  predicate Suits(binding: Trigger, key: TypeKey) {
    key == binding.FirstKey() || (binding.triggerNamespace.None? && key == binding.FallbackKey())
  }

  /** Bound to a provider that is there, under a key the binding may be served at. */
  predicate Seated(types: map<TypeKey, Provider>, binding: Trigger) {
    binding.ProviderKey() in types && Suits(binding, binding.ProviderKey())
  }

  /** On the fallback although there is a provider at home: what a second look would find. */
  predicate Overtaken(types: map<TypeKey, Provider>, binding: Trigger) {
    binding.IsOnFallback() && (binding.homeNamespace, binding.triggerType) in types
  }

  predicate WellPlaced(types: map<TypeKey, Provider>, binding: Trigger) {
    Resolve(types, binding) == Some(binding.ProviderKey())
  }

  /** The binding that step `s` makes live, if it settles a registration or an activation. */
  function Settling(w: World, s: Step): Option<Trigger> {
    match s
    case Advance(pid, Deliver(Accepted)) =>
      if pid in w.drivers && w.drivers[pid].AwaitingRegister? then Some(w.drivers[pid].binding) else None
    case Receive(token, Activated(true)) =>
      if token in w.holders && w.holders[token].Activating? && w.reg.Current(w.holders[token].target.id, token)
      then Some(w.holders[token].target) else None
    case _ => None
  }

  /** A settle leaves its binding where it resolves exactly when no home provider has appeared meanwhile. */
  lemma SettleIsPlaced(w: World, s: Step)
    requires Inv(w) && Enabled(w, s) && Settling(w, s).Some? && Seated(w.reg.types, Settling(w, s).value)
    ensures
      var binding, reg := Settling(w, s).value, Next(w, s).reg;
      && binding.id in reg.triggers && reg.triggers[binding.id] == binding
      && (WellPlaced(reg.types, binding) <==> !Overtaken(w.reg.types, binding))
  {
    var id := Settling(w, s).value.id;
    assert Kept(w.reg, w.log, id) && Held(w.reg, w.holders, id);
  }

  /** A claimed intent is bound to the claim's key exactly when it has its type, and rightly when it resolves there. */
  lemma ClaimFitsItsKey(r: Registry, id: Id, key: TypeKey)
    requires r.CanClaimParked(id) && r.pending[id].id == id
    ensures
      var target := r.ClaimParked(id, key).failingOver[id].target;
      && (target.ProviderKey() == key <==> r.pending[id].triggerType == key.1)
      && (target.ProviderKey() == key && WellPlaced(r.types, target) <==> Resolve(r.types, r.pending[id]) == Some(key))
  {
  }

  // ---- Runs away from the two gaps ---------------------------------------------------------------------------

  /** The intent and the key of the claim that step `s` makes, if any. */
  function Claiming(w: World, s: Step): Option<(Id, TypeKey)> {
    match s
    case Advance(pid, ClaimFound) =>
      if pid in w.drivers && w.drivers[pid].Rechecking? && w.drivers[pid].look.Found?
      then Some((w.drivers[pid].binding.id, w.drivers[pid].look.key)) else None
    case Advance(pid, DrainClaim(id)) =>
      if pid in w.drivers && w.drivers[pid].Draining? then Some((id, w.drivers[pid].key)) else None
    case _ => None
  }

  /**
   A look-up returns a key it reads and finds filed; a claim takes an intent its key suits; and when a settle meets a
   provider that appeared at home meanwhile, that provider has yet to look for bindings to bring home.
   */
  ghost predicate Smooth(w: World, s: Step)
    requires Enabled(w, s)
  {
    && Cooperative(s)
    && (s.Call? && s.request.Register? && s.request.found.Some? ==>
          s.request.found.value in w.reg.types && Suits(s.request.binding, s.request.found.value))
    && (Claiming(w, s).Some? && Claiming(w, s).value.0 in w.reg.pending ==>
          Suits(w.reg.pending[Claiming(w, s).value.0], Claiming(w, s).value.1))
    && (Settling(w, s).Some? && Overtaken(w.reg.types, Settling(w, s).value) ==>
          Awaited(Next(w, s), Settling(w, s).value.id, Settling(w, s).value.FirstKey()))
  }

  ghost predicate SmoothRun(w: World, steps: seq<Step>)
    decreases |steps|
  {
    steps == [] || (Enabled(w, steps[0]) && Smooth(w, steps[0]) && SmoothRun(Next(w, steps[0]), steps[1..]))
  }

  /** `driver` has yet to look at the live binding `id` on behalf of the provider at `key`. */
  predicate WillRehome(driver: Driver, id: Id, key: TypeKey) {
    match driver
    case Published(published) => published == key
    case Scanning(scanned, _, _) => scanned == key
    case Draining(drained, _) => drained == key
    case Surveying(surveyed, unseen, work) => surveyed == key && (id in unseen || id in work)
    case RehomingFor(home, work) => home == key && id in work
    case _ => false
  }

  predicate MovingHome(w: World, id: Id) {
    id in w.reg.failingOver && w.reg.failingOver[id].token in w.holders
    && w.holders[w.reg.failingOver[id].token].Rehoming?
  }

  /** An overtaken binding has someone on the way to bring it home, or is on its way. */
  ghost predicate Awaited(w: World, id: Id, key: TypeKey) {
    MovingHome(w, id) || exists pid :: pid in w.drivers && WillRehome(w.drivers[pid], id, key)
  }

  predicate DriverServes(types: map<TypeKey, Provider>, driver: Driver) {
    match driver
    case AwaitingRegister(binding) => Seated(types, binding)
    case Published(key) => key in types
    case Scanning(key, _, _) => key in types
    case Draining(key, _) => key in types
    case Surveying(key, _, _) => key in types
    case RehomingFor(key, _) => key in types
    case _ => driver.Parking? || driver.Rechecking?
  }

  predicate HolderServes(types: map<TypeKey, Provider>, holder: Holder) {
    match holder
    case Activating(target) => Seated(types, target)
    case Rehoming(_, target, _, _) =>
      Seated(types, target) && target.triggerNamespace.None? && target.ProviderKey() == target.FirstKey()
    case _ => false
  }

  ghost predicate HousedAt(w: World, id: Id) {
    id in w.reg.triggers ==>
      && Seated(w.reg.types, w.reg.triggers[id])
      && (Overtaken(w.reg.types, w.reg.triggers[id]) ==> Awaited(w, id, w.reg.triggers[id].FirstKey()))
  }

  ghost predicate Served(w: World) {
    && (forall pid <- w.drivers :: DriverServes(w.reg.types, w.drivers[pid]))
    && (forall token <- w.holders :: HolderServes(w.reg.types, w.holders[token]))
  }

  ghost predicate Housed(w: World) {
    Attended(w) && Served(w) && forall id :: HousedAt(w, id)
  }

  /** Off the fallback, or without a provider at home, a seated binding is where it resolves. */
  lemma SeatedIsWellPlaced(types: map<TypeKey, Provider>, binding: Trigger)
    requires Seated(types, binding)
    ensures WellPlaced(types, binding) <==> !Overtaken(types, binding)
  {
  }

  lemma CallKeepsHoused(w: World, pid: nat, request: Request)
    requires Housed(w) && Enabled(w, Call(pid, request)) && Smooth(w, Call(pid, request))
    ensures Housed(Begun(w, pid, request))
  {
    var w' := Begun(w, pid, request);
    CallKeepsAttended(w, pid, request);
    forall id ensures HousedAt(w', id) {
      assert HousedAt(w, id);
      if id in w.reg.triggers && Overtaken(w'.reg.types, w.reg.triggers[id]) {
        var key := w.reg.triggers[id].FirstKey();
        if Overtaken(w.reg.types, w.reg.triggers[id]) {
          if !MovingHome(w, id) {
            var other :| other in w.drivers && WillRehome(w.drivers[other], id, key);
            assert w'.drivers[other] == w.drivers[other];
          }
        } else {
          assert WillRehome(w'.drivers[pid], id, key);
        }
      }
    }
  }

  /** Actions that only move their driver. */
  predicate Looks(action: Action) {
    !(action.Park? || action.Deliver? || action.ClaimFound? || action.DrainClaim? || action.RehomeClaim?)
  }

  lemma LooksChangeNothing(w: World, pid: nat, action: Action)
    requires pid in w.drivers && CanAdvance(w, w.drivers[pid], action) && Looks(action)
    requires DriverServes(w.reg.types, w.drivers[pid])
    ensures Advanced(w, pid, action).reg == w.reg && Advanced(w, pid, action).holders == w.holders
  {
  }

  lemma ClaimServes(w: World, id: Id, key: TypeKey)
    requires Housed(w) && key in w.reg.types && (id in w.reg.pending ==> Suits(w.reg.pending[id], key))
    ensures forall token <- TryClaimParked(w, id, key).holders ::
              HolderServes(w.reg.types, TryClaimParked(w, id, key).holders[token])
  {
  }

  lemma AdvanceKeepsHoldersServed(w: World, pid: nat, action: Action)
    requires Housed(w) && Enabled(w, Advance(pid, action)) && Smooth(w, Advance(pid, action))
    ensures
      var w' := Advanced(w, pid, action);
      forall token <- w'.holders :: HolderServes(w.reg.types, w'.holders[token])
  {
    var driver := w.drivers[pid];
    assert DriverServes(w.reg.types, driver);
    match action
    case Park =>
    case Deliver(_) =>
    case ClaimFound => ClaimServes(w, driver.binding.id, driver.look.key);
    case DrainClaim(id) => ClaimServes(w, id, driver.key);
    case RehomeClaim(id, _) => assert HousedAt(w, id);
    case _ => LooksChangeNothing(w, pid, action);
  }

  lemma AdvanceKeepsDriversServed(w: World, pid: nat, action: Action)
    requires Housed(w) && Enabled(w, Advance(pid, action)) && Smooth(w, Advance(pid, action))
    ensures
      var w' := Advanced(w, pid, action);
      forall other <- w'.drivers :: DriverServes(w.reg.types, w'.drivers[other])
  {
    assert DriverServes(w.reg.types, w.drivers[pid]);
  }

  lemma ClaimKeepsMoving(w: World, claimed: Id, key: TypeKey, id: Id)
    requires Inv(w) && id in w.reg.triggers && MovingHome(w, id)
    ensures MovingHome(TryClaimParked(w, claimed, key), id)
  {
    assert w.reg.failingOver[id].token <= w.reg.tokens;
    assert Kept(w.reg, w.log, id) && Kept(w.reg, w.log, claimed);
  }

  lemma RehomeKeepsMoving(w: World, claimed: Id, key: TypeKey, attached: bool, id: Id)
    requires Inv(w) && w.reg.CanRehome(claimed, key) && MovingHome(w, id)
    ensures MovingHome(StartRehome(w, claimed, key, attached), id)
  {
    assert w.reg.failingOver[id].token <= w.reg.tokens;
    assert Kept(w.reg, w.log, claimed);
  }

  /** A binding on its way home stays so. */
  lemma AdvanceKeepsMoving(w: World, pid: nat, action: Action, id: Id)
    requires Inv(w) && pid in w.drivers && CanAdvance(w, w.drivers[pid], action) && !action.Deliver?
    requires DriverServes(w.reg.types, w.drivers[pid])
    requires id in w.reg.triggers && MovingHome(w, id) && id in Advanced(w, pid, action).reg.triggers
    ensures MovingHome(Advanced(w, pid, action), id)
  {
    var driver := w.drivers[pid];
    match action
    case Park => assert id != driver.binding.id;
    case ClaimFound => ClaimKeepsMoving(w, driver.binding.id, driver.look.key, id);
    case DrainClaim(claimed) => ClaimKeepsMoving(w, claimed, driver.key, id);
    case RehomeClaim(claimed, attached) => RehomeKeepsMoving(w, claimed, driver.key, attached, id);
    case _ => LooksChangeNothing(w, pid, action);
  }

  /** Whoever is on the way to a live binding that is not in flight stays on the way, or claims it. */
  lemma AdvanceKeepsWill(w: World, pid: nat, action: Action, id: Id, key: TypeKey)
    requires Housed(w) && Enabled(w, Advance(pid, action)) && Smooth(w, Advance(pid, action))
    requires id in w.reg.triggers && !MovingHome(w, id) && WillRehome(w.drivers[pid], id, key)
    requires Overtaken(w.reg.types, w.reg.triggers[id]) && key == w.reg.triggers[id].FirstKey()
    requires w.reg.triggers[id].triggerNamespace.None?
    requires w.reg.triggers[id].ProviderKey() == w.reg.triggers[id].FallbackKey()
    ensures
      var w' := Advanced(w, pid, action);
      MovingHome(w', id) || (pid in w'.drivers && WillRehome(w'.drivers[pid], id, key))
  {
    assert Kept(w.reg, w.log, id) && Held(w.reg, w.holders, id);
    NotMovingIsFree(w, id);
    assert w.reg.CanRehome(id, key);
  }

  /** In these runs only a re-homing has a live binding in flight. */
  lemma NotMovingIsFree(w: World, id: Id)
    requires Housed(w) && id in w.reg.triggers && !MovingHome(w, id)
    ensures id !in w.reg.failingOver
  {
    assert Kept(w.reg, w.log, id) && Held(w.reg, w.holders, id);
    assert id in w.reg.failingOver ==> HolderServes(w.reg.types, w.holders[w.reg.failingOver[id].token]);
  }

  /** A binding that stays live keeps whoever is on the way to it. */
  lemma AdvanceKeepsAwaited(w: World, pid: nat, action: Action, id: Id)
    requires Housed(w) && Enabled(w, Advance(pid, action)) && Smooth(w, Advance(pid, action))
    requires !action.Deliver?
    requires id in w.reg.triggers && Overtaken(w.reg.types, w.reg.triggers[id])
    requires id in Advanced(w, pid, action).reg.triggers
    ensures Awaited(Advanced(w, pid, action), id, w.reg.triggers[id].FirstKey())
  {
    var w', key := Advanced(w, pid, action), w.reg.triggers[id].FirstKey();
    assert HousedAt(w, id);
    if MovingHome(w, id) {
      assert DriverServes(w.reg.types, w.drivers[pid]);
      AdvanceKeepsMoving(w, pid, action, id);
    } else {
      var other :| other in w.drivers && WillRehome(w.drivers[other], id, key);
      if other == pid {
        AdvanceKeepsWill(w, pid, action, id, key);
      } else {
        OthersStandStill(w, pid, action, other);
      }
    }
  }

  lemma OthersStandStill(w: World, pid: nat, action: Action, other: nat)
    requires Enabled(w, Advance(pid, action)) && other != pid
    ensures
      var w' := Advanced(w, pid, action);
      && (other in w'.drivers <==> other in w.drivers)
      && (other in w.drivers ==> w'.drivers[other] == w.drivers[other])
  {
  }

  /** A registration that settles touches its own id alone. */
  lemma DeliveryKeepsAwaited(w: World, pid: nat, id: Id)
    requires Housed(w) && Enabled(w, Advance(pid, Deliver(Accepted)))
    requires id in w.reg.triggers && id != w.drivers[pid].binding.id && Overtaken(w.reg.types, w.reg.triggers[id])
    ensures Awaited(Advanced(w, pid, Deliver(Accepted)), id, w.reg.triggers[id].FirstKey())
  {
    var w', key := Advanced(w, pid, Deliver(Accepted)), w.reg.triggers[id].FirstKey();
    assert HousedAt(w, id);
    if MovingHome(w, id) {
      assert MovingHome(w', id);
    } else {
      var other :| other in w.drivers && WillRehome(w.drivers[other], id, key);
      assert w'.drivers[other] == w.drivers[other];
    }
  }

  /** A binding live after a step that settles nothing was live before, as it is. */
  lemma AdvanceMovesNothing(w: World, pid: nat, action: Action)
    requires Enabled(w, Advance(pid, action)) && Smooth(w, Advance(pid, action))
    ensures
      var reg := Advanced(w, pid, action).reg;
      && reg.types == w.reg.types
      && (Settling(w, Advance(pid, action)).None? ==>
            forall id <- reg.triggers :: id in w.reg.triggers && reg.triggers[id] == w.reg.triggers[id])
      && (Settling(w, Advance(pid, action)).Some? ==>
            reg.triggers == w.reg.triggers[w.drivers[pid].binding.id := w.drivers[pid].binding])
  {
  }

  lemma AdvanceKeepsHoused(w: World, pid: nat, action: Action)
    requires Housed(w) && Enabled(w, Advance(pid, action)) && Smooth(w, Advance(pid, action))
    ensures Housed(Advanced(w, pid, action))
  {
    var w', settling := Advanced(w, pid, action), Settling(w, Advance(pid, action));
    AdvanceKeepsAttended(w, pid, action);
    AdvanceKeepsDriversServed(w, pid, action);
    AdvanceKeepsHoldersServed(w, pid, action);
    AdvanceMovesNothing(w, pid, action);
    forall id | id in w'.reg.triggers ensures HousedAt(w', id) {
      if settling.Some? && settling.value.id == id {
        assert DriverServes(w.reg.types, w.drivers[pid]);
      } else {
        assert HousedAt(w, id);
        if Overtaken(w.reg.types, w.reg.triggers[id]) {
          if settling.Some? { DeliveryKeepsAwaited(w, pid, id); } else { AdvanceKeepsAwaited(w, pid, action, id); }
        }
      }
    }
  }

  /** What a reply leaves of another operation's id. */
  lemma ReceiveKeepsOthers(w: World, token: nat, reply: Reply, id: Id)
    requires Enabled(w, Receive(token, reply)) && Cooperative(Receive(token, reply))
    requires !w.reg.Current(id, token)
    ensures
      var w' := Received(w, token, reply);
      && (id in w'.reg.triggers ==> id in w.reg.triggers && w'.reg.triggers[id] == w.reg.triggers[id])
      && (MovingHome(w, id) ==> MovingHome(w', id))
  {
  }

  /** What a reply leaves of its own id. */
  lemma ReceiveKeepsOwn(w: World, token: nat, reply: Reply, id: Id)
    requires Housed(w) && Enabled(w, Receive(token, reply)) && Smooth(w, Receive(token, reply))
    requires w.reg.Current(id, token) && id in Received(w, token, reply).reg.triggers
    ensures HousedAt(Received(w, token, reply), id)
  {
    assert HolderServes(w.reg.types, w.holders[token]);
    assert HousedAt(w, id) && Kept(w.reg, w.log, id) && Held(w.reg, w.holders, id);
  }

  lemma ReceiveKeepsServed(w: World, token: nat, reply: Reply)
    requires Housed(w) && Enabled(w, Receive(token, reply)) && Smooth(w, Receive(token, reply))
    ensures
      var w' := Received(w, token, reply);
      Served(w') && w'.drivers == w.drivers && w'.reg.types == w.reg.types
  {
    assert HolderServes(w.reg.types, w.holders[token]);
  }

  lemma ReceiveKeepsHoused(w: World, token: nat, reply: Reply)
    requires Housed(w) && Enabled(w, Receive(token, reply)) && Smooth(w, Receive(token, reply))
    ensures Housed(Received(w, token, reply))
  {
    var w' := Received(w, token, reply);
    ReceiveKeepsAttended(w, token, reply);
    ReceiveKeepsServed(w, token, reply);
    forall id | id in w'.reg.triggers ensures HousedAt(w', id) {
      if w.reg.Current(id, token) {
        ReceiveKeepsOwn(w, token, reply, id);
      } else {
        ReceiveKeepsOthers(w, token, reply, id);
        assert HousedAt(w, id);
      }
    }
  }

  lemma {:induction false} RunKeepsHoused(w: World, steps: seq<Step>)
    requires Housed(w) && SmoothRun(w, steps)
    ensures IsRun(w, steps) && Housed(After(w, steps))
    decreases |steps|
  {
    if steps != [] {
      match steps[0] {
        case Call(pid, request) => CallKeepsHoused(w, pid, request);
        case Advance(pid, action) => AdvanceKeepsHoused(w, pid, action);
        case Receive(token, reply) => ReceiveKeepsHoused(w, token, reply);
      }
      RunKeepsHoused(Next(w, steps[0]), steps[1..]);
    }
  }

  /** `intents` holds what the history says last, for every id. */
  ghost predicate Records(intents: map<Id, Trigger>, log: seq<Event>) {
    forall id :: Latest(log, id) == if id in intents then Some(intents[id]) else None
  }

  /**
   However registrations overlap, once all have returned every binding is exactly where it resolves, provided no call
   settled behind a provider that had appeared at home and was done looking, and no claim took an intent its key does
   not suit. So the history and the providers alone decide the placement, as they do without overlap.
   */
  lemma OverlapEndsPlaced(steps: seq<Step>)
    requires SmoothRun(Initial, steps)
    ensures IsRun(Initial, steps)
    ensures
      var w := After(Initial, steps);
      w.drivers == map[] && w.holders == map[] ==>
        && InTheirPlaces(w.reg.types, w.reg.triggers, w.reg.pending)
        && (forall intents | Records(intents, w.log) :: Placed(w.reg, intents, {}))
  {
    RunKeepsHoused(Initial, steps);
    var w := After(Initial, steps);
    if w.drivers == map[] && w.holders == map[] {
      forall id <- w.reg.triggers ensures WellPlaced(w.reg.types, w.reg.triggers[id]) {
        assert HousedAt(w, id);
        SeatedIsWellPlaced(w.reg.types, w.reg.triggers[id]);
      }
      EndsInPlace(w);
      forall intents | Records(intents, w.log) ensures Placed(w.reg, intents, {}) {
        EndsPlaced(w, intents);
      }
    }
  }

  lemma EndsInPlace(w: World)
    requires Inv(w)
    requires forall id <- w.reg.triggers :: WellPlaced(w.reg.types, w.reg.triggers[id])
    requires forall id <- w.reg.pending :: Resolve(w.reg.types, w.reg.pending[id]).None?
    ensures InTheirPlaces(w.reg.types, w.reg.triggers, w.reg.pending)
  {
    forall id
      ensures id in w.reg.triggers ==>
                w.reg.triggers[id].id == id
                && BelongsAt(w.reg.types, w.reg.triggers[id], w.reg.triggers[id].providerNamespace)
      ensures id in w.reg.pending ==>
                w.reg.pending[id].id == id && BelongsNowhere(w.reg.types, w.reg.pending[id])
    {
      assert Kept(w.reg, w.log, id);
      if id in w.reg.triggers { ResolveMeans(w.reg.types, w.reg.triggers[id], w.reg.triggers[id].ProviderKey()); }
      if id in w.reg.pending { ResolveMeans(w.reg.types, w.reg.pending[id], ("", "")); }
    }
  }

  lemma EndsPlaced(w: World, intents: map<Id, Trigger>)
    requires Inv(w) && w.holders == map[] && Records(intents, w.log)
    requires forall id <- w.reg.triggers :: WellPlaced(w.reg.types, w.reg.triggers[id])
    requires forall id <- w.reg.pending :: Resolve(w.reg.types, w.reg.pending[id]).None?
    ensures Placed(w.reg, intents, {})
  {
    forall id ensures Tracks(w.reg, intents, id) && InPlace(w.reg, intents, id) {
      assert Kept(w.reg, w.log, id) && Held(w.reg, w.holders, id);
    }
  }

  // ---- And only then -----------------------------------------------------------------------------------------

  /** Live on the fallback beside a provider at home, with nobody on the way to bring it there. */
  ghost predicate Stranded(w: World, id: Id) {
    && id in w.reg.triggers
    && Overtaken(w.reg.types, w.reg.triggers[id])
    && id !in w.reg.failingOver
    && !Awaited(w, id, w.reg.triggers[id].FirstKey())
  }

  /** A settle strands its binding exactly when a provider at home is filed and done looking for it. */
  lemma SettleStrands(w: World, s: Step)
    requires Inv(w) && Enabled(w, s) && Settling(w, s).Some?
    ensures
      var binding, w' := Settling(w, s).value, Next(w, s);
      Stranded(w', binding.id)
      <==> Overtaken(w.reg.types, binding) && !Awaited(w', binding.id, binding.FirstKey())
  {
    var id := Settling(w, s).value.id;
    assert Kept(w.reg, w.log, id) && Held(w.reg, w.holders, id);
  }

  /**
   What can free a stranded binding: a new word on its id or the departure of its worker; a rejection; the departure of
   the provider it is with or of the one at home; a provider at home that registers, or looks, again; and a survey for
   it that began before the binding was live and happens to meet it all the same.
   */
  predicate Frees(w: World, s: Step, id: Id) {
    id in w.reg.triggers &&
    var binding := w.reg.triggers[id];
    match s
    case Call(_, Publish(key, _)) => key == binding.FirstKey()
    case Call(_, Rehome(key)) => key == binding.FirstKey()
    case Call(_, Reject(rejected, _)) => rejected == id
    case Advance(pid, Park) => pid in w.drivers && w.drivers[pid].Parking? && w.drivers[pid].binding.id == id
    case Advance(pid, Deliver(answer)) =>
      !answer.Refused? && pid in w.drivers && w.drivers[pid].AwaitingRegister? && w.drivers[pid].binding.id == id
    case Advance(_, SweepLive(swept)) => swept == id
    case Advance(pid, SurveyVisit(visited)) =>
      visited == id && pid in w.drivers && w.drivers[pid].Surveying? && w.drivers[pid].key == binding.FirstKey()
    case TypeTake(key, _, _) => key == binding.FirstKey() || key == binding.ProviderKey()
    case Unregister(removed, _) => removed == id
    case _ => false
  }

  /** The binding is live, as it was, and nothing is in flight on it. */
  predicate Untouched(w: World, w': World, id: Id) {
    && id in w.reg.triggers && id in w'.reg.triggers && w'.reg.triggers[id] == w.reg.triggers[id]
    && id !in w'.reg.failingOver
  }

  lemma ClaimLeavesStranded(w: World, claimed: Id, key: TypeKey, id: Id)
    requires Inv(w) && Stranded(w, id)
    ensures Untouched(w, TryClaimParked(w, claimed, key), id)
  {
    assert Kept(w.reg, w.log, id) && Kept(w.reg, w.log, claimed);
  }

  lemma TakeAllLeavesStranded(w: World, order: seq<Id>, id: Id)
    requires Inv(w) && id in w.reg.triggers && id !in w.reg.failingOver && id !in order
    requires forall taken <- order :: taken in w.reg.triggers
    ensures Untouched(w, TakeAll(w, order), id)
    ensures TakeAll(w, order).drivers == w.drivers && TakeAll(w, order).reg.types == w.reg.types
    decreases order
  {
    if order != [] {
      var orphan := w.reg.triggers[order[0]];
      assert order[0] in order && Kept(w.reg, w.log, order[0]);
      ClaimKeepsInv(w, w.reg, orphan, Orphaned(orphan));
      TakeAllLeavesStranded(Claim(w, w.reg, orphan, Orphaned(orphan)), order[1..], id);
    }
  }

  lemma AdvanceLeavesStranded(w: World, pid: nat, action: Action, id: Id)
    requires Inv(w) && Stranded(w, id)
    requires Enabled(w, Advance(pid, action)) && !Frees(w, Advance(pid, action), id)
    ensures Untouched(w, Advanced(w, pid, action), id)
  {
    var driver := w.drivers[pid];
    match action
    case ClaimFound => ClaimLeavesStranded(w, driver.binding.id, driver.look.key, id);
    case DrainClaim(claimed) => ClaimLeavesStranded(w, claimed, driver.key, id);
    case Reclaim => ClaimLeavesStranded(w, driver.id, driver.key, id);
    case RehomeClaim(claimed, _) => assert Kept(w.reg, w.log, claimed);
    case _ =>
  }

  /** No driver takes up a binding it was not on the way to. */
  lemma AdvanceTakesUpNothing(w: World, pid: nat, action: Action, id: Id, key: TypeKey)
    requires Enabled(w, Advance(pid, action)) && !WillRehome(w.drivers[pid], id, key)
    requires action == SurveyVisit(id) ==> w.drivers[pid].key != key
    ensures
      var w' := Advanced(w, pid, action);
      pid in w'.drivers ==> !WillRehome(w'.drivers[pid], id, key)
  {
  }

  lemma AdvanceKeepsTypes(w: World, pid: nat, action: Action)
    requires Enabled(w, Advance(pid, action))
    ensures Advanced(w, pid, action).reg.types == w.reg.types
  {
  }

  lemma AbandonLeavesStranded(w: World, token: nat, runtime: bool, id: Id)
    requires Inv(w) && Stranded(w, id) && token in w.holders && w.holders[token].Removing?
    ensures Untouched(w, AbandonRemoval(w, token, runtime), id)
  {
    var target := w.holders[token].target.id;
    assert Held(w.reg, w.holders, target) && Kept(w.reg, w.log, target);
  }

  lemma ReceiveLeavesStranded(w: World, token: nat, reply: Reply, id: Id)
    requires Inv(w) && Stranded(w, id) && Enabled(w, Receive(token, reply))
    ensures Untouched(w, Received(w, token, reply), id)
    ensures Received(w, token, reply).drivers == w.drivers && Received(w, token, reply).reg.types == w.reg.types
  {
    if reply.Abandoned? {
      AbandonLeavesStranded(w, token, reply.runtime, id);
    } else {
      assert Held(w.reg, w.holders, w.holders[token].target.id);
    }
  }

  /** A stranded binding stays stranded until something frees it. */
  lemma StrandedStays(w: World, s: Step, id: Id)
    requires Inv(w) && Stranded(w, id) && Enabled(w, s) && !Frees(w, s, id)
    ensures Stranded(Next(w, s), id) && Next(w, s).reg.triggers[id] == w.reg.triggers[id]
  {
    var key := w.reg.triggers[id].FirstKey();
    match s
    case Call(pid, request) => CallLeavesStranded(w, pid, request, id);
    case Advance(pid, action) =>
      AdvanceLeavesStranded(w, pid, action, id);
      AdvanceTakesUpNothing(w, pid, action, id, key);
      AdvanceKeepsTypes(w, pid, action);
      forall other | other in Next(w, s).drivers ensures !WillRehome(Next(w, s).drivers[other], id, key) {
        if other != pid { OthersStandStill(w, pid, action, other); }
      }
    case Receive(token, reply) => ReceiveLeavesStranded(w, token, reply, id);
    case TypeTake(taken, _, order) =>
      var less := w.(reg := w.reg.(types := w.reg.types - {taken}));
      QuietKeepsInv(w, less);
      TakeAllLeavesStranded(less, order, id);
    case Unregister(removed, registrator) => assert Kept(w.reg, w.log, removed);
  }

  lemma CallLeavesStranded(w: World, pid: nat, request: Request, id: Id)
    requires Inv(w) && Stranded(w, id) && Enabled(w, Call(pid, request)) && !Frees(w, Call(pid, request), id)
    ensures Stranded(Begun(w, pid, request), id)
    ensures Begun(w, pid, request).reg.triggers[id] == w.reg.triggers[id]
  {
    var w', key := Begun(w, pid, request), w.reg.triggers[id].FirstKey();
    if request.Reject? { assert Kept(w.reg, w.log, request.id); }
    forall other | other in w'.drivers ensures !WillRehome(w'.drivers[other], id, key) {
      if other != pid { assert w'.drivers[other] == w.drivers[other]; }
    }
  }

  ghost predicate NeverFreed(w: World, steps: seq<Step>, id: Id)
    requires IsRun(w, steps)
    decreases |steps|
  {
    steps == [] || (!Frees(w, steps[0], id) && NeverFreed(Next(w, steps[0]), steps[1..], id))
  }

  lemma {:induction false} StrandedForGood(w: World, steps: seq<Step>, id: Id)
    requires Inv(w) && Stranded(w, id) && IsRun(w, steps) && NeverFreed(w, steps, id)
    ensures Stranded(After(w, steps), id)
    decreases |steps|
  {
    if steps != [] {
      StepKeepsInv(w, steps[0]);
      StrandedStays(w, steps[0], id);
      StrandedForGood(Next(w, steps[0]), steps[1..], id);
    }
  }

  /**
   The converse of `OverlapEndsPlaced`: in any run at all, a binding that settles behind a provider that has appeared at
   home and is done looking is not where it resolves, however the run goes on, until something frees it.
   */
  lemma GapStrands(w: World, s: Step, steps: seq<Step>)
    requires Inv(w) && Enabled(w, s) && Settling(w, s).Some? && Overtaken(w.reg.types, Settling(w, s).value)
    requires !Awaited(Next(w, s), Settling(w, s).value.id, Settling(w, s).value.FirstKey())
    requires IsRun(Next(w, s), steps) && NeverFreed(Next(w, s), steps, Settling(w, s).value.id)
    ensures
      var id, reg := Settling(w, s).value.id, After(Next(w, s), steps).reg;
      id in reg.triggers && !WellPlaced(reg.types, reg.triggers[id])
  {
    var id := Settling(w, s).value.id;
    StepKeepsInv(w, s);
    SettleStrands(w, s);
    StrandedForGood(Next(w, s), steps, id);
  }
}

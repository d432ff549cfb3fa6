/**
 The registry as a concurrent protocol. A step is one critical section, or one map operation the source
 performs outside `park_transition`. Steps of different operations interleave freely; what a provider answers,
 when a caller is dropped, and what an unlocked look-up happened to see are choices of the step.
 */
module Protocol {
  import opened Options
  import opened Bindings
  import opened Registries

  /** What callers and departing workers asked for, in the order the registry settled it. */
  datatype Event = Settled(binding: Trigger) | Dropped(ids: set<Id>)

  /** What `id`'s newest intent becomes when `event` follows `before`. */
  function Says(event: Event, id: Id, before: Option<Trigger>): Option<Trigger> {
    match event
    case Settled(binding) => if binding.id == id then Some(binding.Intent()) else before
    case Dropped(ids) => if id in ids then None else before
  }

  /** The newest settled intent for `id`, read off the history alone. */
  function Latest(log: seq<Event>, id: Id): Option<Trigger> {
    if log == [] then None else Says(log[|log| - 1], id, Latest(log[..|log| - 1], id))
  }

  /** An operation that began a transition, filed under the token it was given. */
  datatype Holder =
    | Activating(target: Trigger)
    | Orphaned(target: Trigger)
    | Forsaken(target: Trigger)
    | FailingOver(target: Trigger, reached: bool)
    | Rehoming(source: Trigger, target: Trigger, attached: bool, replaying: bool)
    | Removing(target: Trigger, registrator: Option<nat>)

  /** How far a caller's second look at the provider table has got. */
  datatype Look = AtFirst | AtFallback | Found(key: TypeKey)

  /** An operation in progress that holds no token of its own. */
  datatype Driver =
    | Parking(binding: Trigger)
    | AwaitingRegister(binding: Trigger)
    | Rechecking(binding: Trigger, look: Look)
    | Published(key: TypeKey)
    | Scanning(key: TypeKey, unseen: set<Id>, work: set<Id>)
    | Draining(key: TypeKey, work: set<Id>)
    | Surveying(key: TypeKey, unseen: set<Id>, work: set<Id>)
    | RehomingFor(key: TypeKey, work: set<Id>)
    | Rejected(id: Id, key: TypeKey, reporter: WorkerId)
    | Reclaiming(id: Id, key: TypeKey)
    | Sweeping(worker: WorkerId)

  datatype Answer = Accepted | Refused | Unavailable

  datatype World = World(reg: Registry, holders: map<nat, Holder>, drivers: map<nat, Driver>, log: seq<Event>)

  const Initial: World := World(Registry(map[], map[], map[], map[], 0), map[], map[], [])

  /** A call arriving; `found` is what the caller's unlocked look-up happened to return. */
  datatype Request =
    | Register(binding: Trigger, found: Option<TypeKey>)
    | Publish(key: TypeKey, provider: Provider)
    | Rehome(key: TypeKey)
    | Reject(id: Id, reporter: WorkerId)
    | Depart(worker: WorkerId)

  /** What an operation without a token does next; `Drop` ends it, or drops its caller at an await. */
  datatype Action =
    | Park
    | Deliver(answer: Answer)
    | LookFirst
    | LookFallback
    | Miss
    | ClaimFound
    | ScanStart
    | ScanVisit(id: Id)
    | ScanEnd
    | DrainClaim(id: Id)
    | DrainEnd
    | SurveyVisit(id: Id)
    | SurveyEnd
    | RehomeClaim(id: Id, attached: bool)
    | RehomeSkip(id: Id)
    | RehomeEnd
    | LookRejected
    | Reclaim
    | SweepLive(id: Id)
    | SweepPending(id: Id)
    | Drop

  /** What happens to an operation that holds a token; `Forgotten` drops a claim whose failover never started. */
  datatype Reply =
    | Activated(accepted: bool)
    | Started(reached: bool)
    | Forgotten
    | Moved(accepted: bool)
    | Detached(ok: bool)
    | Removed
    | Abandoned(runtime: bool)
    | Cancelled

  datatype Step =
    | Call(pid: nat, request: Request)
    | Advance(pid: nat, action: Action)
    | Receive(token: nat, reply: Reply)
    | TypeTake(key: TypeKey, worker: WorkerId, order: seq<Id>)
    | Unregister(id: Id, registrator: Option<nat>)

  // ---- What a step needs -------------------------------------------------------------------------------------

  predicate CanAdvance(w: World, driver: Driver, action: Action) {
    match action
    case Park => driver.Parking?
    case Deliver(_) => driver.AwaitingRegister?
    case LookFirst => driver.Rechecking? && driver.look.AtFirst?
    case LookFallback => driver.Rechecking? && driver.look.AtFallback?
    case Miss => driver.Rechecking? && driver.look.Found? && driver.look.key !in w.reg.types
    case ClaimFound => driver.Rechecking? && driver.look.Found?
    case ScanStart => driver.Published?
    case ScanVisit(_) => driver.Scanning?
    case ScanEnd => driver.Scanning? && driver.unseen == {}
    case DrainClaim(id) => driver.Draining? && id in driver.work
    case DrainEnd => driver.Draining? && driver.work == {}
    case SurveyVisit(_) => driver.Surveying?
    case SurveyEnd => driver.Surveying? && driver.unseen == {}
    case RehomeClaim(id, _) => driver.RehomingFor? && id in driver.work && w.reg.CanRehome(id, driver.key)
    case RehomeSkip(id) => driver.RehomingFor? && id in driver.work && !w.reg.CanRehome(id, driver.key)
    case RehomeEnd => driver.RehomingFor? && driver.work == {}
    case LookRejected => driver.Rejected?
    case Reclaim => driver.Reclaiming?
    case SweepLive(id) => driver.Sweeping? && w.reg.LiveFor(id, driver.worker)
    case SweepPending(id) => driver.Sweeping? && w.reg.ParkedFor(id, driver.worker)
    case Drop => true
  }

  predicate CanReceive(holder: Holder, reply: Reply) {
    match reply
    case Activated(_) => holder.Activating?
    case Started(_) => holder.Orphaned?
    case Forgotten => holder.Orphaned?
    case Moved(accepted) =>
      (holder.FailingOver? && (accepted ==> holder.reached)) || (holder.Rehoming? && holder.replaying)
    case Detached(_) => holder.Rehoming? && !holder.replaying
    case Removed => holder.Removing?
    case Abandoned(_) => holder.Removing?
    case Cancelled => holder.Activating? || (holder.FailingOver? && holder.reached) || holder.Rehoming?
  }

  /** `order` lists every member of `ids` once: the order in which a map iteration happened to yield them. */
  ghost predicate Enumerates(order: seq<Id>, ids: set<Id>) {
    && (forall i, j :: 0 <= i < j < |order| ==> order[i] != order[j])
    && (forall id :: id in order <==> id in ids)
  }

  ghost predicate Enabled(w: World, s: Step) {
    match s
    case Call(pid, request) => pid !in w.drivers && (request.Rehome? ==> request.key in w.reg.types)
    case Advance(pid, action) => pid in w.drivers && CanAdvance(w, w.drivers[pid], action)
    case Receive(token, reply) => token in w.holders && CanReceive(w.holders[token], reply)
    case TypeTake(key, worker, order) =>
      && key in w.reg.types
      && w.reg.types[key].workerId == Some(worker)
      && Enumerates(order, w.reg.Orphans(key))
    case Unregister(_, _) => true
  }

  // ---- What a step does --------------------------------------------------------------------------------------

  /** Begin a transition on `binding` and file its holder under the new token. */
  function Claim(w: World, reg: Registry, binding: Trigger, holder: Holder): World {
    w.(reg := reg.Begin(binding, holder.Removing?), holders := w.holders[reg.tokens + 1 := holder])
  }

  function Leave(w: World, pid: nat): World {
    w.(drivers := w.drivers - {pid})
  }

  function Become(w: World, pid: nat, driver: Driver): World {
    w.(drivers := w.drivers[pid := driver])
  }

  /** The holder of `token` ends, leaving the registry as `reg`. */
  function Release(w: World, token: nat, reg: Registry): World {
    w.(reg := reg, holders := w.holders - {token})
  }

  /** claim_parked for `key`, if the intent is there and not being removed. */
  function TryClaimParked(w: World, id: Id, key: TypeKey): World {
    if !w.reg.CanClaimParked(id) then w
    else
      w.(reg := w.reg.ClaimParked(id, key),
         holders := w.holders[w.reg.tokens + 1 := Activating(w.reg.pending[id].ServedFrom(key.0))])
  }

  function TakeAll(w: World, order: seq<Id>): World
    requires forall id <- order :: id in w.reg.triggers
    decreases order
  {
    if order == [] then w
    else
      var orphan := w.reg.triggers[order[0]];
      TakeAll(Claim(w, w.reg, orphan, Orphaned(orphan)), order[1..])
  }

  /** rehome_fallback_bindings claims one binding; `attached` says whether its old provider was still filed. */
  function StartRehome(w: World, id: Id, key: TypeKey, attached: bool): World
    requires w.reg.CanRehome(id, key)
  {
    var source := w.reg.triggers[id];
    w.(reg := w.reg.ClaimRehome(id, key),
       holders := w.holders[w.reg.tokens + 1 := Rehoming(source, source.ServedFrom(key.0), attached, !attached)])
  }

  /** unregister_trigger claims a live binding; otherwise it drops the parked or claimed intent at once. */
  function Unregistering(w: World, id: Id, registrator: Option<nat>): World {
    if id in w.reg.triggers then
      w.(reg := w.reg.StartRemoval(id),
         holders := w.holders[w.reg.tokens + 1 := Removing(w.reg.triggers[id], registrator)])
    else w.(reg := w.reg.StartRemoval(id), log := w.log + [Dropped({id})])
  }

  /** fail_over resolves afresh; without its token it ends at once. */
  function StartMove(w: World, token: nat, reached: bool): World
    requires token in w.holders && w.holders[token].Orphaned?
  {
    var orphan := w.holders[token].target;
    if !w.reg.Current(orphan.id, token) then Release(w, token, w.reg)
    else
      w.(reg := w.reg.StartFailover(orphan, token),
         holders := w.holders[token := FailingOver(w.reg.Redirected(orphan),
                                                   Resolve(w.reg.types, orphan).Some? && reached)])
  }

  /** The old provider answered: a failed detach keeps the source, a superseded move ends, else the replay is next. */
  function AnswerDetach(w: World, token: nat, detached: bool): World
    requires token in w.holders && w.holders[token].Rehoming?
  {
    var Rehoming(source, target, attached, _) := w.holders[token];
    if !detached then Release(w, token, w.reg.Finish(source.id, token))
    else if !w.reg.Current(source.id, token) then Release(w, token, w.reg)
    else w.(holders := w.holders[token := Rehoming(source, target, attached, true)])
  }

  /** Only a removal whose token survived its provider's answer removes. */
  function CompleteRemoval(w: World, token: nat, id: Id): World {
    if w.reg.Current(id, token)
    then Release(w, token, w.reg.SettleRemoval(id, token)).(log := w.log + [Dropped({id})])
    else Release(w, token, w.reg)
  }

  function AbandonRemoval(w: World, token: nat, runtime: bool): World
    requires token in w.holders && w.holders[token].Removing?
  {
    var holder := w.holders[token];
    var (reg, recovery) := w.reg.RecoverRemoval(holder.target.id, token, holder.registrator, runtime);
    var released := Release(w, token, reg);
    if recovery.Resume? then released.(holders := released.holders[recovery.token := Orphaned(recovery.binding)])
    else released
  }

  function Begun(w: World, pid: nat, request: Request): World {
    match request
    case Register(binding, found) =>
      Become(w, pid,
             if found.Some? then AwaitingRegister(binding.ServedFrom(found.value.0)) else Parking(binding))
    case Publish(key, provider) =>
      Become(w.(reg := w.reg.(types := w.reg.types[key := provider])), pid, Published(key))
    case Rehome(key) => Become(w, pid, Surveying(key, w.reg.triggers.Keys, {}))
    case Reject(id, reporter) =>
      if id !in w.reg.triggers then w
      else
        Become(w.(reg := w.reg.ParkRejected(id)), pid, Rejected(id, w.reg.triggers[id].ProviderKey(), reporter))
    case Depart(worker) =>
      Become(w.(reg := w.reg.SweepClaims(worker), log := w.log + [Dropped(w.reg.SweptIntents(worker))]),
             pid, Sweeping(worker))
  }

  function Advanced(w: World, pid: nat, action: Action): World
    requires pid in w.drivers && CanAdvance(w, w.drivers[pid], action)
  {
    var driver := w.drivers[pid];
    match action
    case Park =>
      Become(w.(reg := w.reg.ParkNew(driver.binding), log := w.log + [Settled(driver.binding)]),
             pid, Rechecking(driver.binding, AtFirst))
    case Deliver(Accepted) =>
      Leave(w.(reg := w.reg.SettleLive(driver.binding), log := w.log + [Settled(driver.binding)]), pid)
    case Deliver(Refused) => Leave(w, pid)
    case Deliver(Unavailable) =>
      Leave(w.(reg := w.reg.ParkNew(driver.binding), log := w.log + [Settled(driver.binding)]), pid)
    case LookFirst =>
      var key := driver.binding.FirstKey();
      if key in w.reg.types then Become(w, pid, Rechecking(driver.binding, Found(key)))
      else if driver.binding.triggerNamespace.Some? then Leave(w, pid)
      else Become(w, pid, Rechecking(driver.binding, AtFallback))
    case LookFallback =>
      var key := driver.binding.FallbackKey();
      if key in w.reg.types then Become(w, pid, Rechecking(driver.binding, Found(key))) else Leave(w, pid)
    case Miss => Leave(w, pid)
    case ClaimFound => Leave(TryClaimParked(w, driver.binding.id, driver.look.key), pid)
    case ScanStart => Become(w, pid, Scanning(driver.key, w.reg.pending.Keys, {}))
    case ScanVisit(id) =>
      var matches := id in w.reg.pending && Resolve(w.reg.types, w.reg.pending[id]) == Some(driver.key);
      Become(w, pid, Scanning(driver.key, driver.unseen - {id}, if matches then driver.work + {id} else driver.work))
    case ScanEnd => Become(w, pid, Draining(driver.key, driver.work))
    case DrainClaim(id) => Become(TryClaimParked(w, id, driver.key), pid, Draining(driver.key, driver.work - {id}))
    case DrainEnd =>
      if driver.key.0 != DEFAULT_NAMESPACE then Become(w, pid, Surveying(driver.key, w.reg.triggers.Keys, {}))
      else Leave(w, pid)
    case SurveyVisit(id) =>
      Become(w, pid, Surveying(driver.key, driver.unseen - {id},
                               if w.reg.CanRehome(id, driver.key) then driver.work + {id} else driver.work))
    case SurveyEnd => Become(w, pid, RehomingFor(driver.key, driver.work))
    case RehomeClaim(id, attached) =>
      Become(StartRehome(w, id, driver.key, attached), pid, RehomingFor(driver.key, driver.work - {id}))
    case RehomeSkip(id) => Become(w, pid, RehomingFor(driver.key, driver.work - {id}))
    case RehomeEnd => Leave(w, pid)
    case LookRejected =>
      if driver.key in w.reg.types && w.reg.types[driver.key].workerId != Some(driver.reporter)
      then Become(w, pid, Reclaiming(driver.id, driver.key)) else Leave(w, pid)
    case Reclaim => Leave(TryClaimParked(w, driver.id, driver.key), pid)
    case SweepLive(id) => w.(reg := w.reg.SweepLive(id), log := w.log + [Dropped({id})])
    case SweepPending(id) => w.(reg := w.reg.SweepPending(id), log := w.log + [Dropped({id})])
    case Drop => Leave(w, pid)
  }

  function Received(w: World, token: nat, reply: Reply): World
    requires token in w.holders && CanReceive(w.holders[token], reply)
  {
    var holder := w.holders[token];
    match reply
    case Activated(accepted) => Release(w, token, w.reg.SettleActivation(holder.target, token, accepted))
    case Started(reached) => StartMove(w, token, reached)
    case Forgotten => w.(holders := w.holders[token := Forsaken(holder.target)])
    case Moved(accepted) => Release(w, token, w.reg.SettleMove(holder.target, token, accepted))
    case Detached(ok) => AnswerDetach(w, token, ok)
    case Removed => CompleteRemoval(w, token, holder.target.id)
    case Abandoned(runtime) => AbandonRemoval(w, token, runtime)
    case Cancelled =>
      Release(w, token, w.reg.RecoverActivation(holder.target.id, token, holder.Rehoming? && holder.attached))
  }

  ghost function Next(w: World, s: Step): World
    requires Enabled(w, s)
  {
    match s
    case Call(pid, request) => Begun(w, pid, request)
    case Advance(pid, action) => Advanced(w, pid, action)
    case Receive(token, reply) => Received(w, token, reply)
    case TypeTake(key, _, order) => TakeAll(w.(reg := w.reg.(types := w.reg.types - {key})), order)
    case Unregister(id, registrator) => Unregistering(w, id, registrator)
  }

  // ---- Runs --------------------------------------------------------------------------------------------------

  /** `steps` can be taken one after the other from `w`. */
  ghost predicate IsRun(w: World, steps: seq<Step>)
    decreases |steps|
  {
    steps == [] || (Enabled(w, steps[0]) && IsRun(Next(w, steps[0]), steps[1..]))
  }

  /** Where a run leads. */
  ghost function After(w: World, steps: seq<Step>): World
    requires IsRun(w, steps)
    decreases |steps|
  {
    if steps == [] then w else After(Next(w, steps[0]), steps[1..])
  }
}

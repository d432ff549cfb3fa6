/**
 The registry's shared state and its critical sections, one function per section.
 Every section runs under `park_transition` in the source and is atomic there.
 */
module Registries {
  import opened Options
  import opened Bindings

  /** A tokened operation in flight on one binding. */
  datatype Transition = Transition(token: nat, workerId: Option<WorkerId>, removing: bool, target: Trigger)

  /** What is left to do once an abandoned removal has released its token. */
  datatype Recovery = Nothing | Repair(binding: Trigger) | Resume(binding: Trigger, token: nat)

  datatype Registry = Registry(
    types: map<TypeKey, Provider>,
    triggers: map<Id, Trigger>,
    pending: map<Id, Trigger>,
    failingOver: map<Id, Transition>,
    tokens: nat)
  {
    predicate Current(id: Id, token: nat) {
      id in failingOver && failingOver[id].token == token
    }

    predicate BeingRemoved(id: Id) {
      id in failingOver && failingOver[id].removing
    }

    /** Held by an operation that will put the binding somewhere when it ends. */
    predicate BeingMoved(id: Id) {
      id in failingOver && !failingOver[id].removing
    }

    function Interrupt(id: Id): Registry {
      this.(failingOver := failingOver - {id})
    }

    function Begin(binding: Trigger, removing: bool): Registry {
      this.(tokens := tokens + 1,
            failingOver := failingOver[binding.id := Transition(tokens + 1, binding.workerId, removing, binding)])
    }

    function GoLive(binding: Trigger): Registry {
      this.(triggers := triggers[binding.id := binding])
    }

    function Park(binding: Trigger): Registry {
      this.(triggers := triggers - {binding.id}, pending := pending[binding.id := binding])
    }

    function Forget(id: Id): Registry {
      this.(triggers := triggers - {id}, pending := pending - {id})
    }

    /** An accepted registration supersedes the parked intent and any move of the same id. */
    function SettleLive(binding: Trigger): Registry {
      Interrupt(binding.id).(pending := pending - {binding.id}).GoLive(binding)
    }

    /** A registration without a reachable provider supersedes the live binding and any move of the same id. */
    function ParkNew(binding: Trigger): Registry {
      Interrupt(binding.id).Park(binding)
    }

    predicate CanClaimParked(id: Id) {
      id in pending && !BeingRemoved(id)
    }

    function ClaimParked(id: Id, key: TypeKey): Registry
      requires CanClaimParked(id)
    {
      this.(pending := pending - {id}).Begin(pending[id].ServedFrom(key.0), false)
    }

    /** A claimed intent settles only while its token is current and the id is in neither map. */
    function SettleActivation(binding: Trigger, token: nat, accepted: bool): Registry {
      if !Current(binding.id, token) then this
      else if binding.id in triggers || binding.id in pending then Interrupt(binding.id)
      else if accepted then Interrupt(binding.id).GoLive(binding)
      else Interrupt(binding.id).Park(binding)
    }

    /** The binding as its failover will place it: at the provider it resolves to now, else as it was. */
    function Redirected(binding: Trigger): Trigger {
      match Resolve(types, binding)
      case Some(key) => binding.ServedFrom(key.0)
      case None => binding
    }

    function StartFailover(binding: Trigger, token: nat): Registry {
      if !Current(binding.id, token) then this
      else this.(failingOver :=
                   failingOver[binding.id := failingOver[binding.id].(target := Redirected(binding))])
    }

    /** How a failover and a re-homing both end: live at the new provider, or parked. */
    function SettleMove(moved: Trigger, token: nat, accepted: bool): Registry {
      if !Current(moved.id, token) then this
      else if accepted then Interrupt(moved.id).GoLive(moved)
      else Interrupt(moved.id).Park(moved)
    }

    predicate CanRehome(id: Id, key: TypeKey) {
      && id in triggers
      && triggers[id].IsOnFallback()
      && triggers[id].homeNamespace == key.0
      && triggers[id].triggerType == key.1
      && id !in failingOver
    }

    function ClaimRehome(id: Id, key: TypeKey): Registry
      requires CanRehome(id, key)
    {
      Begin(triggers[id].ServedFrom(key.0), false)
    }

    function Finish(id: Id, token: nat): Registry {
      if Current(id, token) then Interrupt(id) else this
    }

    /** Claims a live binding for removal; with no live binding, cancels the claim and drops the parked intent. */
    function StartRemoval(id: Id): Registry {
      if id in triggers then Begin(triggers[id], true)
      else Interrupt(id).(pending := pending - {id})
    }

    function SettleRemoval(id: Id, token: nat): Registry {
      if Current(id, token) then Interrupt(id).Forget(id) else this
    }

    predicate Serves(key: TypeKey, registrator: Option<nat>) {
      key in types && registrator == Some(types[key].registrator)
    }

    /** The binding an abandoned removal has to give back. */
    function Surviving(id: Id): Option<Trigger> {
      if id in triggers then Some(triggers[id]) else if id in pending then Some(pending[id]) else None
    }

    /** A failed or cancelled removal releases its token: keep the binding, or move it if its provider changed. */
    function RecoverRemoval(id: Id, token: nat, registrator: Option<nat>, runtime: bool): (Registry, Recovery) {
      if !Current(id, token) then (this, Nothing)
      else
        var freed := Interrupt(id);
        if !failingOver[id].removing || Surviving(id).None? then (freed, Nothing)
        else
          var binding := Surviving(id).value;
          if !runtime then
            (freed.(triggers := triggers - {id}, pending := pending[id := binding]), Nothing)
          else if Serves(binding.ProviderKey(), registrator) then (freed, Repair(binding))
          else (freed.(pending := pending - {id}).Begin(binding, false), Resume(binding, tokens + 1))
    }

    /** A cancelled activation or move releases its token and keeps its intent in one of the two maps. */
    function RecoverActivation(id: Id, token: nat, attached: bool): Registry {
      if !Current(id, token) then this
      else
        var freed, target := Interrupt(id), failingOver[id].target;
        if !attached then freed.(triggers := triggers - {id}, pending := pending[id := target])
        else if id !in triggers && id !in pending then freed.(pending := pending[id := target])
        else freed
    }

    /** A late rejection parks the live binding; a removal in flight keeps its token. */
    function ParkRejected(id: Id): Registry {
      if id !in triggers then this
      else if BeingRemoved(id) then Park(triggers[id])
      else Interrupt(id).Park(triggers[id])
    }

    /** The bindings orphaned when the provider at `key` leaves. */
    function Orphans(key: TypeKey): set<Id> {
      set id | id in triggers && triggers[id].ProviderKey() == key && !BeingRemoved(id)
    }

    /** First step of a worker's departure: its claims and its parked intents go. */
    function SweepClaims(worker: WorkerId): Registry {
      this.(failingOver := map id | id in failingOver && failingOver[id].workerId != Some(worker) :: failingOver[id],
            pending := map id | id in pending && pending[id].workerId != Some(worker) :: pending[id])
    }

    /** The intents that exist nowhere once the claims and parked intents of `worker` are gone. */
    function SweptIntents(worker: WorkerId): set<Id> {
      (set id | id in pending && pending[id].workerId == Some(worker))
      + (set id | id in failingOver && id !in triggers && id !in pending && failingOver[id].workerId == Some(worker))
    }

    predicate LiveFor(id: Id, worker: WorkerId) {
      id in triggers && triggers[id].workerId == Some(worker)
    }

    function SweepLive(id: Id): Registry {
      Interrupt(id).(triggers := triggers - {id})
    }

    predicate ParkedFor(id: Id, worker: WorkerId) {
      id in pending && pending[id].workerId == Some(worker)
    }

    function SweepPending(id: Id): Registry {
      this.(pending := pending - {id})
    }
  }
}

/** Short runs that do fall into the gaps of `Overlap`, built from fragments. */
module OverlapRuns {
  import opened Options
  import opened Bindings
  import opened Registries
  import opened Protocol
  import opened Safety
  import opened NoStranding
  import opened Overlap

  /** A run leads from `w` to `w'`. */
  ghost predicate Leads(w: World, steps: seq<Step>, w': World) {
    IsRun(w, steps) && After(w, steps) == w'
  }

  predicate AllCooperative(steps: seq<Step>) {
    forall s <- steps :: Cooperative(s)
  }

  lemma LeadsOne(w: World, s: Step, w': World)
    requires Enabled(w, s) && Next(w, s) == w'
    ensures Leads(w, [s], w')
  {
    assert [s][1..] == [];
  }

  lemma {:induction false} LeadsOn(w: World, first: seq<Step>, middle: World, second: seq<Step>, w': World)
    requires Leads(w, first, middle) && Leads(middle, second, w')
    ensures Leads(w, first + second, w')
    decreases |first|
  {
    if first == [] {
      assert first + second == second;
    } else {
      LeadsOn(Next(w, first[0]), first[1..], middle, second, w');
      assert (first + second)[1..] == first[1..] + second;
    }
  }

  /** Extend a run by one step. */
  lemma LeadsFurther(w: World, steps: seq<Step>, middle: World, s: Step, w': World)
    requires Leads(w, steps, middle) && Enabled(middle, s) && Next(middle, s) == w'
    ensures Leads(w, steps + [s], w')
  {
    LeadsOne(middle, s, w');
    LeadsOn(w, steps, middle, [s], w');
  }

  function Filed(w: World, key: TypeKey, provider: Provider): World {
    w.(reg := w.reg.(types := w.reg.types[key := provider]))
  }

  function Parked(w: World, binding: Trigger): World {
    w.(reg := w.reg.ParkNew(binding), log := w.log + [Settled(binding)])
  }

  // ---- Single steps of one driver ----------------------------------------------------------------------------

  /** In `w`, the driver `from` goes on to `to` by `action`. */
  ghost predicate Turns(w: World, pid: nat, from: Driver, action: Action, to: Driver) {
    Enabled(Become(w, pid, from), Advance(pid, action))
    && Next(Become(w, pid, from), Advance(pid, action)) == Become(w, pid, to)
  }

  /** In `w`, the driver `from` ends by `action`. */
  ghost predicate Returns(w: World, pid: nat, from: Driver, action: Action) {
    Enabled(Become(w, pid, from), Advance(pid, action)) && Next(Become(w, pid, from), Advance(pid, action)) == w
  }

  lemma ScanTurns(w: World, pid: nat, key: TypeKey, work: set<Id>)
    ensures Turns(w, pid, Published(key), ScanStart, Scanning(key, w.reg.pending.Keys, {}))
    ensures Turns(w, pid, Scanning(key, {}, work), ScanEnd, Draining(key, work))
  {
  }

  lemma VisitTurns(w: World, pid: nat, key: TypeKey, id: Id)
    requires id in w.reg.pending && Resolve(w.reg.types, w.reg.pending[id]) == Some(key)
    ensures Turns(w, pid, Scanning(key, {id}, {}), ScanVisit(id), Scanning(key, {}, {id}))
  {
    assert {id} - {id} == {} && {} + {id} == {id};
  }

  lemma LeaveUndoesBecome(w: World, pid: nat, driver: Driver)
    requires pid !in w.drivers
    ensures Leave(Become(w, pid, driver), pid) == w
  {
    assert Leave(Become(w, pid, driver), pid).drivers == w.drivers;
  }

  lemma DrainTurns(w: World, pid: nat, key: TypeKey)
    requires pid !in w.drivers
    ensures key.0 == DEFAULT_NAMESPACE ==> Returns(w, pid, Draining(key, {}), DrainEnd)
    ensures key.0 != DEFAULT_NAMESPACE ==>
              Turns(w, pid, Draining(key, {}), DrainEnd, Surveying(key, w.reg.triggers.Keys, {}))
  {
    LeaveUndoesBecome(w, pid, Draining(key, {}));
  }

  lemma SurveyTurns(w: World, pid: nat, key: TypeKey)
    requires pid !in w.drivers
    ensures Turns(w, pid, Surveying(key, {}, {}), SurveyEnd, RehomingFor(key, {}))
    ensures Returns(w, pid, RehomingFor(key, {}), RehomeEnd)
  {
    LeaveUndoesBecome(w, pid, RehomingFor(key, {}));
  }

  lemma ParkTurns(w: World, pid: nat, binding: Trigger)
    ensures Enabled(Become(w, pid, Parking(binding)), Advance(pid, Park))
    ensures Next(Become(w, pid, Parking(binding)), Advance(pid, Park))
            == Become(Parked(w, binding), pid, Rechecking(binding, AtFirst))
  {
  }

  lemma LookTurns(w: World, pid: nat, binding: Trigger)
    requires pid !in w.drivers && binding.triggerNamespace.None?
    requires binding.FirstKey() !in w.reg.types && binding.FallbackKey() !in w.reg.types
    ensures Turns(w, pid, Rechecking(binding, AtFirst), LookFirst, Rechecking(binding, AtFallback))
    ensures Returns(w, pid, Rechecking(binding, AtFallback), LookFallback)
  {
    LeaveUndoesBecome(w, pid, Rechecking(binding, AtFallback));
  }

  // ---- Fragments ---------------------------------------------------------------------------------------------

  /** A provider registers: publish and scan. */
  function Scanned(pid: nat, key: TypeKey, provider: Provider): seq<Step> {
    [Call(pid, Publish(key, provider))] + [Advance(pid, ScanStart)]
  }

  lemma ScannedLeads(w: World, pid: nat, key: TypeKey, provider: Provider)
    requires pid !in w.drivers
    ensures Leads(w, Scanned(pid, key, provider),
                  Become(Filed(w, key, provider), pid, Scanning(key, w.reg.pending.Keys, {})))
  {
    var there := Filed(w, key, provider);
    LeadsOne(w, Call(pid, Publish(key, provider)), Become(there, pid, Published(key)));
    ScanTurns(there, pid, key, {});
    LeadsFurther(w, [Call(pid, Publish(key, provider))], Become(there, pid, Published(key)), Advance(pid, ScanStart),
                 Become(there, pid, Scanning(key, w.reg.pending.Keys, {})));
  }

  /** The scan finds nothing, and the drain has nothing to do. */
  function Drained(pid: nat, key: TypeKey, provider: Provider): seq<Step> {
    Scanned(pid, key, provider) + [Advance(pid, ScanEnd)] + [Advance(pid, DrainEnd)]
  }

  lemma DrainedLeads(w: World, pid: nat, key: TypeKey, provider: Provider)
    requires pid !in w.drivers && w.reg.pending == map[]
    ensures Leads(w, Drained(pid, key, provider),
                  if key.0 == DEFAULT_NAMESPACE then Filed(w, key, provider)
                  else Become(Filed(w, key, provider), pid, Surveying(key, w.reg.triggers.Keys, {})))
  {
    var there := Filed(w, key, provider);
    var done := if key.0 == DEFAULT_NAMESPACE then there
                else Become(there, pid, Surveying(key, w.reg.triggers.Keys, {}));
    ScannedLeads(w, pid, key, provider);
    assert w.reg.pending.Keys == {};
    ScanTurns(there, pid, key, {});
    LeadsFurther(w, Scanned(pid, key, provider), Become(there, pid, Scanning(key, {}, {})), Advance(pid, ScanEnd),
                 Become(there, pid, Draining(key, {})));
    DrainTurns(there, pid, key);
    LeadsFurther(w, Scanned(pid, key, provider) + [Advance(pid, ScanEnd)], Become(there, pid, Draining(key, {})),
                 Advance(pid, DrainEnd), done);
  }

  /** A provider registers while nothing is live or parked; it has nobody to bring home either. */
  function Idle(pid: nat, key: TypeKey, provider: Provider): seq<Step> {
    Drained(pid, key, provider) + [Advance(pid, SurveyEnd)] + [Advance(pid, RehomeEnd)]
  }

  lemma IdleLeads(w: World, pid: nat, key: TypeKey, provider: Provider)
    requires pid !in w.drivers && w.reg.pending == map[] && w.reg.triggers == map[] && key.0 != DEFAULT_NAMESPACE
    ensures Leads(w, Idle(pid, key, provider), Filed(w, key, provider))
  {
    var there, steps := Filed(w, key, provider), Drained(pid, key, provider);
    DrainedLeads(w, pid, key, provider);
    assert w.reg.triggers.Keys == {};
    SurveyTurns(there, pid, key);
    LeadsFurther(w, steps, Become(there, pid, Surveying(key, {}, {})), Advance(pid, SurveyEnd),
                 Become(there, pid, RehomingFor(key, {})));
    LeadsFurther(w, steps + [Advance(pid, SurveyEnd)], Become(there, pid, RehomingFor(key, {})),
                 Advance(pid, RehomeEnd), there);
  }

  /** A registration that finds no provider, twice, and stays parked. */
  function Unserved(pid: nat, binding: Trigger): seq<Step> {
    [Call(pid, Register(binding, None))] + [Advance(pid, Park)] + [Advance(pid, LookFirst)]
    + [Advance(pid, LookFallback)]
  }

  lemma UnservedLeads(w: World, pid: nat, binding: Trigger)
    requires pid !in w.drivers && binding.triggerNamespace.None?
    requires binding.FirstKey() !in w.reg.types && binding.FallbackKey() !in w.reg.types
    ensures Leads(w, Unserved(pid, binding), Parked(w, binding))
  {
    var parked, start := Parked(w, binding), [Call(pid, Register(binding, None))];
    var first, second := Become(parked, pid, Rechecking(binding, AtFirst)),
      Become(parked, pid, Rechecking(binding, AtFallback));
    LeadsOne(w, Call(pid, Register(binding, None)), Become(w, pid, Parking(binding)));
    ParkTurns(w, pid, binding);
    LeadsFurther(w, start, Become(w, pid, Parking(binding)), Advance(pid, Park), first);
    LookTurns(parked, pid, binding);
    LeadsFurther(w, start + [Advance(pid, Park)], first, Advance(pid, LookFirst), second);
    LeadsFurther(w, start + [Advance(pid, Park)] + [Advance(pid, LookFirst)], second, Advance(pid, LookFallback),
                 parked);
  }

  /** A provider registers, and its scan finds the one parked intent. */
  function ScanFinds(pid: nat, key: TypeKey, provider: Provider, id: Id): seq<Step> {
    Scanned(pid, key, provider) + [Advance(pid, ScanVisit(id))] + [Advance(pid, ScanEnd)]
  }

  lemma ScanFindsLeads(w: World, pid: nat, key: TypeKey, provider: Provider, id: Id)
    requires pid !in w.drivers && w.reg.pending.Keys == {id}
    requires Resolve(Filed(w, key, provider).reg.types, w.reg.pending[id]) == Some(key)
    ensures Leads(w, ScanFinds(pid, key, provider, id), Become(Filed(w, key, provider), pid, Draining(key, {id})))
  {
    var there, steps := Filed(w, key, provider), Scanned(pid, key, provider);
    ScannedLeads(w, pid, key, provider);
    VisitTurns(there, pid, key, id);
    LeadsFurther(w, steps, Become(there, pid, Scanning(key, {id}, {})), Advance(pid, ScanVisit(id)),
                 Become(there, pid, Scanning(key, {}, {id})));
    ScanTurns(there, pid, key, {id});
    LeadsFurther(w, steps + [Advance(pid, ScanVisit(id))], Become(there, pid, Scanning(key, {}, {id})),
                 Advance(pid, ScanEnd), Become(there, pid, Draining(key, {id})));
  }

  /** A drain claims the one intent it has left to look at, and is done. */
  function ClaimsLast(pid: nat, id: Id): seq<Step> {
    [Advance(pid, DrainClaim(id))] + [Advance(pid, DrainEnd)]
  }

  lemma ClaimsLastLeads(w: World, pid: nat, key: TypeKey, id: Id)
    requires pid !in w.drivers && key.0 == DEFAULT_NAMESPACE && w.reg.CanClaimParked(id)
    ensures Leads(Become(w, pid, Draining(key, {id})), ClaimsLast(pid, id), TryClaimParked(w, id, key))
  {
    var draining, claimed := Become(w, pid, Draining(key, {id})), TryClaimParked(w, id, key);
    assert {id} - {id} == {};
    assert Next(draining, Advance(pid, DrainClaim(id))).drivers == w.drivers[pid := Draining(key, {})];
    LeadsOne(draining, Advance(pid, DrainClaim(id)), Become(claimed, pid, Draining(key, {})));
    DrainTurns(claimed, pid, key);
    LeadsFurther(draining, [Advance(pid, DrainClaim(id))], Become(claimed, pid, Draining(key, {})),
                 Advance(pid, DrainEnd), claimed);
  }

  lemma BothCooperative(first: seq<Step>, second: seq<Step>)
    requires AllCooperative(first) && AllCooperative(second)
    ensures AllCooperative(first + second)
  {
  }

  lemma ScanIsCooperative(pid: nat, key: TypeKey, provider: Provider, id: Id)
    ensures AllCooperative(Scanned(pid, key, provider)) && AllCooperative(ClaimsLast(pid, id))
    ensures AllCooperative(ScanFinds(pid, key, provider, id))
  {
    BothCooperative(Scanned(pid, key, provider), [Advance(pid, ScanVisit(id))]);
    BothCooperative(Scanned(pid, key, provider) + [Advance(pid, ScanVisit(id))], [Advance(pid, ScanEnd)]);
  }

  lemma ArrivalIsCooperative(pid: nat, key: TypeKey, provider: Provider)
    ensures AllCooperative(Drained(pid, key, provider)) && AllCooperative(Idle(pid, key, provider))
  {
    ScanIsCooperative(pid, key, provider, "");
    BothCooperative(Scanned(pid, key, provider), [Advance(pid, ScanEnd)]);
    BothCooperative(Scanned(pid, key, provider) + [Advance(pid, ScanEnd)], [Advance(pid, DrainEnd)]);
    BothCooperative(Drained(pid, key, provider), [Advance(pid, SurveyEnd)]);
    BothCooperative(Drained(pid, key, provider) + [Advance(pid, SurveyEnd)], [Advance(pid, RehomeEnd)]);
  }

  lemma UnservedIsCooperative(pid: nat, binding: Trigger)
    ensures AllCooperative(Unserved(pid, binding))
  {
  }

  // ---- The runs ----------------------------------------------------------------------------------------------

  /** A binding at home in `shop` that names no namespace. */
  const SHOP_BINDING := Trigger("t", "cron", "f", "", None, None, "shop", None, "shop", "default")
  const CRON_KEY: TypeKey := ("default", "cron")
  const SHOP_KEY: TypeKey := ("shop", "cron")
  const ENGINE_PROVIDER := Provider(0, None)
  const SHOP_PROVIDER := Provider(1, Some(1))

  /** All calls have returned, and the binding is on the fallback with a provider at home. */
  predicate LeftOnFallback(w: World) {
    && w.drivers == map[] && w.holders == map[]
    && "t" in w.reg.triggers
    && w.reg.triggers["t"].ProviderKey() == CRON_KEY
    && Resolve(w.reg.types, w.reg.triggers["t"]) == Some(SHOP_KEY)
  }

  /** `shop`'s provider registers while a registration is on its way to the engine's. */
  const LATE_REGISTRATION: seq<Step> :=
    Drained(0, CRON_KEY, ENGINE_PROVIDER) + [Call(1, Register(SHOP_BINDING, Some(CRON_KEY)))]
    + Idle(2, SHOP_KEY, SHOP_PROVIDER) + [Advance(1, Deliver(Accepted))]

  /**
   Placement does need a second look: re-homing looks at live bindings only, so a registration whose provider call is
   outstanding is missed and settles on the fallback although its home provider is there.
   */
  lemma RegistrationStrands()
    ensures exists w :: Leads(Initial, LATE_REGISTRATION, w) && LeftOnFallback(w)
  {
    var w1 := Filed(Initial, CRON_KEY, ENGINE_PROVIDER);
    var w2 := Become(w1, 1, AwaitingRegister(SHOP_BINDING));
    var w3 := Filed(w2, SHOP_KEY, SHOP_PROVIDER);
    DrainedLeads(Initial, 0, CRON_KEY, ENGINE_PROVIDER);
    LeadsFurther(Initial, Drained(0, CRON_KEY, ENGINE_PROVIDER), w1, Call(1, Register(SHOP_BINDING, Some(CRON_KEY))),
                 w2);
    IdleLeads(w2, 2, SHOP_KEY, SHOP_PROVIDER);
    var steps := Drained(0, CRON_KEY, ENGINE_PROVIDER) + [Call(1, Register(SHOP_BINDING, Some(CRON_KEY)))];
    LeadsOn(Initial, steps, w2, Idle(2, SHOP_KEY, SHOP_PROVIDER), w3);
    var w4 := Next(w3, Advance(1, Deliver(Accepted)));
    LeadsFurther(Initial, steps + Idle(2, SHOP_KEY, SHOP_PROVIDER), w3, Advance(1, Deliver(Accepted)), w4);
    assert Leads(Initial, LATE_REGISTRATION, w4) && LeftOnFallback(w4);
  }

  /** `shop`'s provider registers while the engine's is taking the parked intent. */
  const LATE_ACTIVATION: seq<Step> :=
    Unserved(1, SHOP_BINDING) + ScanFinds(0, CRON_KEY, ENGINE_PROVIDER, "t") + ClaimsLast(0, "t")
    + Idle(2, SHOP_KEY, SHOP_PROVIDER) + [Receive(1, Activated(true))]

  /** An activation in flight is missed in the same way: the intent is in neither map while `shop` re-homes. */
  lemma ActivationStrands()
    ensures exists w :: Leads(Initial, LATE_ACTIVATION, w) && LeftOnFallback(w)
  {
    var w1 := Parked(Initial, SHOP_BINDING);
    var w2 := Filed(w1, CRON_KEY, ENGINE_PROVIDER);
    var w3 := TryClaimParked(w2, "t", CRON_KEY);
    var w4 := Filed(w3, SHOP_KEY, SHOP_PROVIDER);
    UnservedLeads(Initial, 1, SHOP_BINDING);
    ScanFindsLeads(w1, 0, CRON_KEY, ENGINE_PROVIDER, "t");
    var s2 := Unserved(1, SHOP_BINDING) + ScanFinds(0, CRON_KEY, ENGINE_PROVIDER, "t");
    LeadsOn(Initial, Unserved(1, SHOP_BINDING), w1, ScanFinds(0, CRON_KEY, ENGINE_PROVIDER, "t"),
            Become(w2, 0, Draining(CRON_KEY, {"t"})));
    ClaimsLastLeads(w2, 0, CRON_KEY, "t");
    LeadsOn(Initial, s2, Become(w2, 0, Draining(CRON_KEY, {"t"})), ClaimsLast(0, "t"), w3);
    IdleLeads(w3, 2, SHOP_KEY, SHOP_PROVIDER);
    LeadsOn(Initial, s2 + ClaimsLast(0, "t"), w3, Idle(2, SHOP_KEY, SHOP_PROVIDER), w4);
    var w5 := Next(w4, Receive(1, Activated(true)));
    LeadsFurther(Initial, s2 + ClaimsLast(0, "t") + Idle(2, SHOP_KEY, SHOP_PROVIDER), w4, Receive(1, Activated(true)),
                 w5);
    assert Leads(Initial, LATE_ACTIVATION, w5) && LeftOnFallback(w5);
  }

  /** The same id, registered again for another type. */
  const QUEUE_BINDING := SHOP_BINDING.(triggerType := "queue")

  /** The id is parked again under another type between the drain's scan and its claim. */
  const STALE_CLAIM: seq<Step> :=
    Unserved(1, SHOP_BINDING) + ScanFinds(0, CRON_KEY, ENGINE_PROVIDER, "t") + Unserved(2, QUEUE_BINDING)
    + ClaimsLast(0, "t") + [Receive(1, Activated(true))]

  /** The claim takes whatever is parked: the `queue` binding goes live with a `cron` provider; nothing serves it. */
  lemma StaleClaimStrands()
    ensures
      exists w ::
        && Leads(Initial, STALE_CLAIM, w)
        && w.drivers == map[] && w.holders == map[]
        && "t" in w.reg.triggers && w.reg.triggers["t"].triggerType == "queue"
        && w.reg.triggers["t"].ProviderKey() !in w.reg.types
        && Resolve(w.reg.types, w.reg.triggers["t"]) == None
  {
    var w1 := Parked(Initial, SHOP_BINDING);
    var w2 := Become(Filed(w1, CRON_KEY, ENGINE_PROVIDER), 0, Draining(CRON_KEY, {"t"}));
    var w3 := Parked(w2, QUEUE_BINDING);
    var free := Parked(Filed(w1, CRON_KEY, ENGINE_PROVIDER), QUEUE_BINDING);
    var w4 := TryClaimParked(free, "t", CRON_KEY);
    UnservedLeads(Initial, 1, SHOP_BINDING);
    ScanFindsLeads(w1, 0, CRON_KEY, ENGINE_PROVIDER, "t");
    var s2 := Unserved(1, SHOP_BINDING) + ScanFinds(0, CRON_KEY, ENGINE_PROVIDER, "t");
    LeadsOn(Initial, Unserved(1, SHOP_BINDING), w1, ScanFinds(0, CRON_KEY, ENGINE_PROVIDER, "t"), w2);
    UnservedLeads(w2, 2, QUEUE_BINDING);
    LeadsOn(Initial, s2, w2, Unserved(2, QUEUE_BINDING), w3);
    assert w3 == Become(free, 0, Draining(CRON_KEY, {"t"}));
    ClaimsLastLeads(free, 0, CRON_KEY, "t");
    LeadsOn(Initial, s2 + Unserved(2, QUEUE_BINDING), w3, ClaimsLast(0, "t"), w4);
    var w5 := Next(w4, Receive(1, Activated(true)));
    LeadsFurther(Initial, s2 + Unserved(2, QUEUE_BINDING) + ClaimsLast(0, "t"), w4, Receive(1, Activated(true)), w5);
    assert Leads(Initial, STALE_CLAIM, w5);
  }

  /** None of these runs needs a refusal, a departure or a dropped caller. */
  lemma RunsAreCooperative()
    ensures AllCooperative(LATE_REGISTRATION) && AllCooperative(LATE_ACTIVATION) && AllCooperative(STALE_CLAIM)
  {
    var register, deliver, activated :=
      [Call(1, Register(SHOP_BINDING, Some(CRON_KEY)))], [Advance(1, Deliver(Accepted))], [Receive(1, Activated(true))];
    assert AllCooperative(register) && AllCooperative(deliver) && AllCooperative(activated);
    ArrivalIsCooperative(0, CRON_KEY, ENGINE_PROVIDER);
    ArrivalIsCooperative(2, SHOP_KEY, SHOP_PROVIDER);
    ScanIsCooperative(0, CRON_KEY, ENGINE_PROVIDER, "t");
    UnservedIsCooperative(1, SHOP_BINDING);
    UnservedIsCooperative(2, QUEUE_BINDING);
    var drained, idle := Drained(0, CRON_KEY, ENGINE_PROVIDER), Idle(2, SHOP_KEY, SHOP_PROVIDER);
    BothCooperative(drained, register);
    BothCooperative(drained + register, idle);
    BothCooperative(drained + register + idle, deliver);
    var found := Unserved(1, SHOP_BINDING) + ScanFinds(0, CRON_KEY, ENGINE_PROVIDER, "t");
    BothCooperative(Unserved(1, SHOP_BINDING), ScanFinds(0, CRON_KEY, ENGINE_PROVIDER, "t"));
    BothCooperative(found, ClaimsLast(0, "t"));
    BothCooperative(found + ClaimsLast(0, "t"), idle);
    BothCooperative(found + ClaimsLast(0, "t") + idle, activated);
    BothCooperative(found, Unserved(2, QUEUE_BINDING));
    BothCooperative(found + Unserved(2, QUEUE_BINDING), ClaimsLast(0, "t"));
    BothCooperative(found + Unserved(2, QUEUE_BINDING) + ClaimsLast(0, "t"), activated);
  }

  /** A provider leaves, and the claim on the binding it served is dropped before its failover starts. */
  const FORSAKEN_CLAIM: seq<Step> :=
    Drained(0, CRON_KEY, SHOP_PROVIDER) + [Call(1, Register(SHOP_BINDING, Some(CRON_KEY)))]
    + [Advance(1, Deliver(Accepted))] + [TypeTake(CRON_KEY, 1, ["t"])] + [Receive(1, Forgotten)]

  /** Its token stays: the binding is live with no provider, and in flight with nobody to move it. */
  lemma ForsakenClaimKeepsItsToken()
    ensures
      exists w ::
        && Leads(Initial, FORSAKEN_CLAIM, w)
        && w.drivers == map[] && w.reg.types == map[]
        && "t" in w.reg.triggers
        && w.reg.Current("t", 1) && w.holders == map[1 := Forsaken(w.reg.triggers["t"])]
  {
    var steps := Drained(0, CRON_KEY, SHOP_PROVIDER);
    var w1 := Filed(Initial, CRON_KEY, SHOP_PROVIDER);
    DrainedLeads(Initial, 0, CRON_KEY, SHOP_PROVIDER);
    var w2 := Become(w1, 1, AwaitingRegister(SHOP_BINDING));
    LeadsFurther(Initial, steps, w1, Call(1, Register(SHOP_BINDING, Some(CRON_KEY))), w2);
    var w3 := Next(w2, Advance(1, Deliver(Accepted)));
    LeadsFurther(Initial, steps + [Call(1, Register(SHOP_BINDING, Some(CRON_KEY)))], w2, Advance(1, Deliver(Accepted)),
                 w3);
    assert w3.reg.triggers == map["t" := SHOP_BINDING] && w3.reg.failingOver == map[];
    assert w3.reg.Orphans(CRON_KEY) == {"t"};
    TakeOne(w3, CRON_KEY, "t");
    var w4 := Next(w3, TypeTake(CRON_KEY, 1, ["t"]));
    LeadsFurther(Initial, steps + [Call(1, Register(SHOP_BINDING, Some(CRON_KEY)))] + [Advance(1, Deliver(Accepted))],
                 w3, TypeTake(CRON_KEY, 1, ["t"]), w4);
    var w5 := Next(w4, Receive(1, Forgotten));
    LeadsFurther(Initial, steps + [Call(1, Register(SHOP_BINDING, Some(CRON_KEY)))] + [Advance(1, Deliver(Accepted))]
                 + [TypeTake(CRON_KEY, 1, ["t"])], w4, Receive(1, Forgotten), w5);
    assert Leads(Initial, FORSAKEN_CLAIM, w5);
  }

  lemma TakeOne(w: World, key: TypeKey, id: Id)
    requires id in w.reg.triggers
    ensures
      var less := w.(reg := w.reg.(types := w.reg.types - {key}));
      TakeAll(less, [id]) == Claim(less, less.reg, w.reg.triggers[id], Orphaned(w.reg.triggers[id]))
  {
    assert [id][1..] == [];
  }
}

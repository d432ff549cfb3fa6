/**
 Where every binding belongs when operations do not overlap and providers accept: live at exactly the provider it
 resolves to now, or parked when it resolves to none. Stated on registry values, one lemma per section.
 */
module Placement {
  import opened Options
  import opened Bindings
  import opened Registries
  import opened Belonging

  /** The maps hold the intent of `id` once, under its own id, and nothing else. */
  predicate Tracks(r: Registry, intents: map<Id, Trigger>, id: Id) {
    && (id in r.triggers ==>
          id !in r.pending && id in intents && r.triggers[id].id == id && r.triggers[id].Intent() == intents[id])
    && (id in r.pending ==> id in intents && r.pending[id].id == id && r.pending[id].Intent() == intents[id])
    && (id in intents ==> id in r.triggers || id in r.pending)
  }

  /** The intent of `id` is where it resolves to, and nowhere else. */
  predicate InPlace(r: Registry, intents: map<Id, Trigger>, id: Id) {
    id in intents ==>
      match Resolve(r.types, intents[id])
      case Some(key) => id in r.triggers && r.triggers[id] == intents[id].ServedFrom(key.0)
      case None => id in r.pending
  }

  /** Every intent is tracked, and those outside `loose` are in place. */
  ghost predicate Placed(r: Registry, intents: map<Id, Trigger>, loose: set<Id>) {
    forall id :: Tracks(r, intents, id) && (id !in loose ==> InPlace(r, intents, id))
  }

  lemma ResolveReadsKeys(types: map<TypeKey, Provider>, others: map<TypeKey, Provider>, binding: Trigger)
    requires types.Keys == others.Keys
    ensures Resolve(types, binding) == Resolve(others, binding)
  {
    assert forall key :: key in types <==> key in types.Keys;
    assert forall key :: key in others <==> key in others.Keys;
  }

  /** What it means for a registry that everything is in place. */
  lemma PlacedMeans(r: Registry, intents: map<Id, Trigger>)
    requires Placed(r, intents, {})
    ensures InTheirPlaces(r.types, r.triggers, r.pending)
    ensures r.triggers.Keys + r.pending.Keys == intents.Keys && r.triggers.Keys !! r.pending.Keys
  {
    forall id
      ensures id in r.triggers ==>
                r.triggers[id].id == id && BelongsAt(r.types, r.triggers[id], r.triggers[id].providerNamespace)
      ensures id in r.pending ==> r.pending[id].id == id && BelongsNowhere(r.types, r.pending[id])
      ensures (id in r.triggers || id in r.pending <==> id in intents) && !(id in r.triggers && id in r.pending)
    {
      assert Tracks(r, intents, id) && InPlace(r, intents, id);
      if id in r.triggers { ResolveMeans(r.types, intents[id], r.triggers[id].ProviderKey()); }
      if id in r.pending { ResolveMeans(r.types, intents[id], ("", "")); }
    }
  }

  /** A failover goes to the provider its binding belongs to, and leaves it as it is when there is none. */
  lemma RedirectedMeans(r: Registry, binding: Trigger, namespace: Namespace)
    ensures BelongsAt(r.types, binding, namespace) ==> r.Redirected(binding) == binding.(providerNamespace := namespace)
    ensures BelongsNowhere(r.types, binding) ==> r.Redirected(binding) == binding
  {
    ResolveMeans(r.types, binding, (namespace, binding.triggerType));
  }

  /** The provider keys and the intents alone decide which bindings are live, where, and which are parked. */
  lemma PlacementIsUnique(r1: Registry, r2: Registry, intents: map<Id, Trigger>)
    requires Placed(r1, intents, {}) && Placed(r2, intents, {})
    requires r1.types.Keys == r2.types.Keys
    ensures InTheirPlaces(r1.types, r1.triggers, r1.pending)
    ensures r1.triggers == r2.triggers
    ensures r1.pending.Keys == r2.pending.Keys
    ensures forall id <- r1.pending :: r1.pending[id].Intent() == r2.pending[id].Intent()
  {
    PlacedMeans(r1, intents);
    forall id
      ensures id in r1.triggers <==> id in r2.triggers
      ensures id in r1.pending <==> id in r2.pending
      ensures id in r1.triggers ==> r1.triggers[id] == r2.triggers[id]
      ensures id in r1.pending ==> r1.pending[id].Intent() == r2.pending[id].Intent()
    {
      assert Tracks(r1, intents, id) && InPlace(r1, intents, id);
      assert Tracks(r2, intents, id) && InPlace(r2, intents, id);
      if id in intents { ResolveReadsKeys(r1.types, r2.types, intents[id]); }
    }
  }

  lemma RegisterPlaces(r: Registry, intents: map<Id, Trigger>, binding: Trigger)
    requires Placed(r, intents, {})
    ensures Placed(if Resolve(r.types, binding).Some? then r.SettleLive(r.Redirected(binding)) else r.ParkNew(binding),
                   intents[binding.id := binding.Intent()], {})
  {
    var intents' := intents[binding.id := binding.Intent()];
    var r' := if Resolve(r.types, binding).Some? then r.SettleLive(r.Redirected(binding)) else r.ParkNew(binding);
    assert Resolve(r.types, binding) == Resolve(r.types, binding.Intent());
    forall id ensures Tracks(r', intents', id) && InPlace(r', intents', id) {
      assert Tracks(r, intents, id) && InPlace(r, intents, id);
    }
  }

  lemma ForgetPlaces(r: Registry, intents: map<Id, Trigger>, loose: set<Id>, gone: Id)
    requires Placed(r, intents, loose)
    ensures Placed(r.Interrupt(gone).Forget(gone), intents - {gone}, loose)
  {
    var r', intents' := r.Interrupt(gone).Forget(gone), intents - {gone};
    forall id ensures Tracks(r', intents', id) && (id !in loose ==> InPlace(r', intents', id)) {
      assert Tracks(r, intents, id) && (id !in loose ==> InPlace(r, intents, id));
    }
  }

  /** Tokens and claims do not place anything. */
  lemma MapsPlace(r: Registry, r': Registry, intents: map<Id, Trigger>, loose: set<Id>)
    requires Placed(r, intents, loose)
    requires r'.types == r.types && r'.triggers == r.triggers && r'.pending == r.pending
    ensures Placed(r', intents, loose)
  {
    forall id ensures Tracks(r', intents, id) && (id !in loose ==> InPlace(r', intents, id)) {
      assert Tracks(r, intents, id) && (id !in loose ==> InPlace(r, intents, id));
    }
  }

  lemma PlacedLooser(r: Registry, intents: map<Id, Trigger>, loose: set<Id>, looser: set<Id>)
    requires Placed(r, intents, loose) && loose <= looser
    ensures Placed(r, intents, looser)
  {
  }

  /** A section that moves one binding to where it resolves leaves one loose binding fewer. */
  lemma OneMovePlaces(r: Registry, r': Registry, intents: map<Id, Trigger>, loose: set<Id>, moved: Id)
    requires Placed(r, intents, loose)
    requires r'.types == r.types
    requires forall id | id != moved ::
      && (id in r'.triggers <==> id in r.triggers) && (id in r.triggers ==> r'.triggers[id] == r.triggers[id])
      && (id in r'.pending <==> id in r.pending) && (id in r.pending ==> r'.pending[id] == r.pending[id])
    requires Tracks(r', intents, moved) && InPlace(r', intents, moved)
    ensures Placed(r', intents, loose - {moved})
  {
    forall id ensures Tracks(r', intents, id) && (id !in loose - {moved} ==> InPlace(r', intents, id)) {
      assert Tracks(r, intents, id) && (id !in loose ==> InPlace(r, intents, id));
    }
  }

  /** The parked intents that a provider appearing at `key` makes resolvable. */
  function Waiting(r: Registry, key: TypeKey): set<Id> {
    set id | id in r.pending && Resolve(r.types, r.pending[id]) == Some(key)
  }

  /** The live bindings on the fallback that the provider at `key` may claim back. */
  function Strays(r: Registry, key: TypeKey): set<Id> {
    set id | id in r.triggers && r.CanRehome(id, key)
  }

  /** Everything a provider appearing at `key` has to take over; one in the default namespace re-homes nothing. */
  function Unsettled(r: Registry, key: TypeKey): set<Id> {
    Waiting(r, key) + if key.0 == DEFAULT_NAMESPACE then {} else Strays(r, key)
  }

  /** A provider that appears unsettles only the intents it serves now: parked ones, and live ones on the fallback. */
  lemma PublishLoosens(r: Registry, intents: map<Id, Trigger>, loose: set<Id>, key: TypeKey, provider: Provider)
    requires Placed(r, intents, loose) && r.failingOver.Keys <= loose
    ensures
      var r' := r.(types := r.types[key := provider]);
      Placed(r', intents, loose + Unsettled(r', key))
  {
    var r' := r.(types := r.types[key := provider]);
    var loose' := loose + Unsettled(r', key);
    forall id ensures Tracks(r', intents, id) && (id !in loose' ==> InPlace(r', intents, id)) {
      assert Tracks(r, intents, id) && (id !in loose ==> InPlace(r, intents, id));
      if id in intents && Resolve(r'.types, intents[id]) != Resolve(r.types, intents[id]) {
        assert Resolve(r'.types, intents[id]) == Some(key);
        assert id in r.pending ==> id in Waiting(r', key);
      }
    }
  }

  /** A provider that leaves unsettles only the bindings it served. */
  lemma TakeLoosens(r: Registry, intents: map<Id, Trigger>, key: TypeKey)
    requires Placed(r, intents, {}) && r.failingOver == map[]
    ensures Placed(r.(types := r.types - {key}), intents, r.Orphans(key))
  {
    var r' := r.(types := r.types - {key});
    forall id ensures Tracks(r', intents, id) && (id !in r.Orphans(key) ==> InPlace(r', intents, id)) {
      assert Tracks(r, intents, id) && InPlace(r, intents, id);
    }
  }

  lemma ActivatePlaces(r: Registry, intents: map<Id, Trigger>, loose: set<Id>, id: Id, key: TypeKey)
    requires Placed(r, intents, loose)
    requires id in r.pending && id !in r.failingOver && Resolve(r.types, r.pending[id]) == Some(key)
    ensures
      var r' := r.ClaimParked(id, key).SettleActivation(r.pending[id].ServedFrom(key.0), r.tokens + 1, true);
      && Placed(r', intents, loose - {id})
      && r' == r.(triggers := r.triggers[id := r.pending[id].ServedFrom(key.0)], pending := r.pending - {id},
                  tokens := r.tokens + 1)
  {
    var r' := r.ClaimParked(id, key).SettleActivation(r.pending[id].ServedFrom(key.0), r.tokens + 1, true);
    assert Tracks(r, intents, id);
    assert r.ClaimParked(id, key).failingOver - {id} == r.failingOver;
    assert Resolve(r.types, intents[id]) == Some(key);
    OneMovePlaces(r, r', intents, loose, id);
  }

  lemma RehomePlaces(r: Registry, intents: map<Id, Trigger>, loose: set<Id>, id: Id, key: TypeKey)
    requires Placed(r, intents, loose)
    requires r.CanRehome(id, key) && key in r.types
    ensures
      var r' := r.ClaimRehome(id, key).SettleMove(r.triggers[id].ServedFrom(key.0), r.tokens + 1, true);
      && Placed(r', intents, loose - {id})
      && r' == r.(triggers := r.triggers[id := r.triggers[id].ServedFrom(key.0)], tokens := r.tokens + 1)
  {
    var r' := r.ClaimRehome(id, key).SettleMove(r.triggers[id].ServedFrom(key.0), r.tokens + 1, true);
    assert Tracks(r, intents, id);
    assert r.ClaimRehome(id, key).failingOver - {id} == r.failingOver;
    assert Resolve(r.types, intents[id]) == Some(key);
    OneMovePlaces(r, r', intents, loose, id);
  }

  lemma FailoverPlaces(r: Registry, intents: map<Id, Trigger>, loose: set<Id>, id: Id)
    requires Placed(r, intents, loose)
    requires id in r.triggers && id in r.failingOver
    ensures
      var orphan, token := r.triggers[id], r.failingOver[id].token;
      var accepted := Resolve(r.types, orphan).Some?;
      var r' := r.StartFailover(orphan, token).SettleMove(r.Redirected(orphan), token, accepted);
      && Placed(r', intents, loose - {id})
      && r' == if accepted then r.Interrupt(id).GoLive(r.Redirected(orphan)) else r.Interrupt(id).Park(orphan)
  {
    assert Tracks(r, intents, id);
    var orphan, token := r.triggers[id], r.failingOver[id].token;
    var started := r.StartFailover(orphan, token);
    var r' := started.SettleMove(r.Redirected(orphan), token, Resolve(r.types, orphan).Some?);
    assert started.failingOver - {id} == r.failingOver - {id};
    assert Resolve(r.types, intents[id]) == Resolve(r.types, orphan);
    OneMovePlaces(r, r', intents, loose, id);
  }

  /** The intents left when `worker` is gone. */
  function Without(intents: map<Id, Trigger>, worker: WorkerId): map<Id, Trigger> {
    map id | id in intents && intents[id].workerId != Some(worker) :: intents[id]
  }

  /** A worker's parked intents are gone; of the original intents at most others of its own are. */
  ghost predicate PartlySwept(r: Registry, intents: map<Id, Trigger>, original: map<Id, Trigger>, worker: WorkerId) {
    && Placed(r, intents, {})
    && (forall id :: !r.ParkedFor(id, worker))
    && (forall id <- intents :: id in original && original[id] == intents[id])
    && (forall id <- original :: id in intents || original[id].workerId == Some(worker))
  }

  lemma SweepPlaces(r: Registry, intents: map<Id, Trigger>, worker: WorkerId)
    requires Placed(r, intents, {}) && r.failingOver == map[]
    ensures PartlySwept(r.SweepClaims(worker), intents - r.SweptIntents(worker), intents, worker)
    ensures r.SweepClaims(worker).failingOver == map[]
  {
    var r', intents' := r.SweepClaims(worker), intents - r.SweptIntents(worker);
    forall id ensures Tracks(r', intents', id) && InPlace(r', intents', id) {
      assert Tracks(r, intents, id) && InPlace(r, intents, id);
    }
    forall id <- intents ensures id in intents' || intents[id].workerId == Some(worker) {
      assert Tracks(r, intents, id);
    }
  }

  lemma SweepLivePlaces(
      r: Registry, intents: map<Id, Trigger>, original: map<Id, Trigger>, worker: WorkerId, gone: Id)
    requires PartlySwept(r, intents, original, worker) && r.LiveFor(gone, worker)
    ensures PartlySwept(r.SweepLive(gone), intents - {gone}, original, worker)
  {
    assert Tracks(r, intents, gone);
    ForgetPlaces(r, intents, {}, gone);
    MapsPlace(r.Interrupt(gone).Forget(gone), r.SweepLive(gone), intents - {gone}, {});
    forall id ensures !r.SweepLive(gone).ParkedFor(id, worker) {
      assert !r.ParkedFor(id, worker);
    }
  }

  /** With no live binding of `worker` left either, none of its intents are left. */
  lemma AllSwept(r: Registry, intents: map<Id, Trigger>, original: map<Id, Trigger>, worker: WorkerId)
    requires PartlySwept(r, intents, original, worker)
    requires forall id :: !r.LiveFor(id, worker)
    ensures intents == Without(original, worker)
  {
    forall id <- intents ensures intents[id].workerId != Some(worker) {
      assert Tracks(r, intents, id) && !r.LiveFor(id, worker) && !r.ParkedFor(id, worker);
    }
  }
}

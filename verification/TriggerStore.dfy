/**
 Live triggers with an index for dispatch by trigger type: the store as callers use it, and its writers at the
 grain of single map operations, where a dispatch can run in between.
 */
module TriggerStores {
  import opened Options
  import opened Bindings

  type Index = map<string, map<Id, Trigger>>

  function Lookup(byId: map<Id, Trigger>, id: Id): Option<Trigger> {
    if id in byId then Some(byId[id]) else None
  }

  /** What the index files for `id` under `triggerType`. */
  function Target(byType: Index, triggerType: string, id: Id): Option<Trigger> {
    if triggerType in byType then Lookup(byType[triggerType], id) else None
  }

  /** The index files `id` as `filed` says: under that binding's own type, as that binding, and nowhere else. */
  ghost predicate FiledAs(byType: Index, id: Id, filed: Option<Trigger>) {
    forall triggerType ::
      Target(byType, triggerType, id) == if filed.Some? && filed.value.triggerType == triggerType then filed else None
  }

  predicate NoEmptyBucket(byType: Index) {
    forall triggerType <- byType :: byType[triggerType] != map[]
  }

  ghost predicate Agrees(byType: Index, byId: map<Id, Trigger>) {
    NoEmptyBucket(byType) && forall id :: FiledAs(byType, id, Lookup(byId, id))
  }

  function TypesOf(byId: map<Id, Trigger>): set<string> {
    set id | id in byId :: byId[id].triggerType
  }

  /** The index a set of live triggers calls for. */
  function IndexOf(byId: map<Id, Trigger>): Index {
    map triggerType | triggerType in TypesOf(byId) ::
      map id | id in byId && byId[id].triggerType == triggerType :: byId[id]
  }

  /** Agreement leaves no freedom: the index is a function of the primary map. */
  lemma AgreementIsExact(byType: Index, byId: map<Id, Trigger>)
    ensures Agrees(byType, byId) <==> byType == IndexOf(byId)
  {
    var index := IndexOf(byId);
    forall triggerType <- index ensures index[triggerType] != map[] {
      var id :| id in byId && byId[id].triggerType == triggerType;
      assert id in index[triggerType];
    }
    forall id, triggerType
      ensures Target(index, triggerType, id)
              == if id in byId && byId[id].triggerType == triggerType then Lookup(byId, id) else None
    {
      if id in byId && byId[id].triggerType == triggerType { assert triggerType in index; }
    }
    if Agrees(byType, byId) {
      forall triggerType ensures triggerType in byType <==> triggerType in index {
        if triggerType in byType {
          var id :| id in byType[triggerType];
          assert Target(byType, triggerType, id).Some? && FiledAs(byType, id, Lookup(byId, id));
        }
        if triggerType in index {
          var id :| id in index[triggerType];
          assert Target(index, triggerType, id).Some? && FiledAs(byType, id, Lookup(byId, id));
          assert Target(byType, triggerType, id).Some?;
        }
      }
      forall triggerType <- byType ensures byType[triggerType] == index[triggerType] {
        forall id ensures Lookup(byType[triggerType], id) == Lookup(index[triggerType], id) {
          assert FiledAs(byType, id, Lookup(byId, id));
          assert Target(byType, triggerType, id) == Target(index, triggerType, id);
        }
        assert forall id :: id in byType[triggerType] <==> Lookup(byType[triggerType], id).Some?;
        assert forall id :: id in index[triggerType] <==> Lookup(index[triggerType], id).Some?;
        forall id <- byType[triggerType] ensures byType[triggerType][id] == index[triggerType][id] {
          assert Lookup(byType[triggerType], id) == Lookup(index[triggerType], id);
        }
      }
    }
  }

  // ---- The two index operations ------------------------------------------------------------------------------

  function WithTarget(byType: Index, id: Id, trigger: Trigger): Index {
    var bucket := if trigger.triggerType in byType then byType[trigger.triggerType] else map[];
    byType[trigger.triggerType := bucket[id := trigger]]
  }

  /** An emptied bucket goes in the same operation as its last entry. */
  function WithoutTarget(byType: Index, id: Id, triggerType: string): Index {
    if triggerType !in byType then byType
    else if byType[triggerType] - {id} == map[] then byType - {triggerType}
    else byType[triggerType := byType[triggerType] - {id}]
  }

  lemma WithTargetFiles(byType: Index, id: Id, trigger: Trigger)
    requires NoEmptyBucket(byType)
    requires FiledAs(byType, id, None)
             || (exists filed :: FiledAs(byType, id, Some(filed)) && filed.triggerType == trigger.triggerType)
    ensures NoEmptyBucket(WithTarget(byType, id, trigger))
    ensures FiledAs(WithTarget(byType, id, trigger), id, Some(trigger))
    ensures forall other, filed | other != id && FiledAs(byType, other, filed) ::
              FiledAs(WithTarget(byType, id, trigger), other, filed)
  {
    var byType' := WithTarget(byType, id, trigger);
    assert id in byType'[trigger.triggerType];
    forall triggerType, other
      ensures Target(byType', triggerType, other)
              == if other == id && triggerType == trigger.triggerType then Some(trigger)
                 else Target(byType, triggerType, other)
    {
    }
    forall triggerType | triggerType != trigger.triggerType ensures Target(byType, triggerType, id).None? {
    }
  }

  lemma WithoutTargetFiles(byType: Index, id: Id, filed: Trigger)
    requires NoEmptyBucket(byType) && FiledAs(byType, id, Some(filed))
    ensures NoEmptyBucket(WithoutTarget(byType, id, filed.triggerType))
    ensures FiledAs(WithoutTarget(byType, id, filed.triggerType), id, None)
    ensures forall other, f | other != id && FiledAs(byType, other, f) ::
              FiledAs(WithoutTarget(byType, id, filed.triggerType), other, f)
  {
    var byType' := WithoutTarget(byType, id, filed.triggerType);
    forall triggerType, other
      ensures Target(byType', triggerType, other)
              == if other == id && triggerType == filed.triggerType then None else Target(byType, triggerType, other)
    {
      if triggerType == filed.triggerType && triggerType in byType && other in byType[triggerType] && other != id {
        assert other in byType[triggerType] - {id};
      }
    }
  }

  // ---- The store ---------------------------------------------------------------------------------------------

  class TriggerStore {
    var byId: map<Id, Trigger>
    var byType: Index

    ghost predicate Valid()
      reads this
    {
      Agrees(byType, byId)
    }

    constructor ()
      ensures Valid() && byId == map[]
    {
      byId, byType := map[], map[];
    }

    /** File `trigger` under `id` and hand back what it replaces. */
    method Insert(id: Id, trigger: Trigger) returns (previous: Option<Trigger>)
      requires Valid()
      modifies this
      ensures Valid()
      ensures byId == old(byId)[id := trigger]
      ensures previous == Lookup(old(byId), id)
    {
      previous := Lookup(byId, id);
      assert FiledAs(byType, id, previous);
      ghost var before := byType;
      if previous.Some? && previous.value.triggerType != trigger.triggerType {
        WithoutTargetFiles(byType, id, previous.value);
        RemoveTarget(id, previous.value.triggerType);
      }
      assert forall other | other != id :: FiledAs(before, other, Lookup(old(byId), other));
      WithTargetFiles(byType, id, trigger);
      InsertTarget(id, trigger);
      byId := byId[id := trigger];
      forall other ensures FiledAs(byType, other, Lookup(byId, other)) {
        if other != id { assert Lookup(byId, other) == Lookup(old(byId), other); }
      }
    }

    /** Remove `id` if it is there and `accepts` it, and hand back what was removed. */
    method RemoveIf(id: Id, accepts: (Id, Trigger) -> bool) returns (removed: Option<Trigger>)
      requires Valid()
      modifies this
      ensures Valid()
      ensures removed == if id in old(byId) && accepts(id, old(byId)[id]) then Some(old(byId)[id]) else None
      ensures byId == if removed.Some? then old(byId) - {id} else old(byId)
    {
      removed := None;
      if id in byId && accepts(id, byId[id]) {
        removed := Some(byId[id]);
        assert FiledAs(byType, id, Lookup(byId, id));
        WithoutTargetFiles(byType, id, byId[id]);
        RemoveTarget(id, byId[id].triggerType);
        byId := byId - {id};
        forall other ensures FiledAs(byType, other, Lookup(byId, other)) {
          if other != id { assert Lookup(byId, other) == Lookup(old(byId), other); }
        }
      }
    }

    /** Dispatch reads the index alone; it finds exactly the live bindings of the type. */
    method TargetsForType(triggerType: string) returns (targets: map<Id, Trigger>)
      requires Valid()
      ensures targets == map id | id in byId && byId[id].triggerType == triggerType :: byId[id]
    {
      targets := if triggerType in byType then byType[triggerType] else map[];
      AgreementIsExact(byType, byId);
      if triggerType !in byType {
        assert forall id | id in byId :: byId[id].triggerType in byType;
      }
    }

    method InsertTarget(id: Id, trigger: Trigger)
      modifies this`byType
      ensures byType == WithTarget(old(byType), id, trigger)
    {
      if trigger.triggerType !in byType {
        byType := byType[trigger.triggerType := map[]];
      }
      byType := byType[trigger.triggerType := byType[trigger.triggerType][id := trigger]];
    }

    method RemoveTarget(id: Id, triggerType: string)
      modifies this`byType
      ensures byType == WithoutTarget(old(byType), id, triggerType)
    {
      if triggerType in byType {
        var targets := byType[triggerType] - {id};
        if targets == map[] {
          byType := byType - {triggerType};
        } else {
          byType := byType[triggerType := targets];
        }
      }
    }
  }

  // ---- Writers in the middle of a write ----------------------------------------------------------------------

  /** How far the writer holding an id's lock has got. */
  datatype Writer =
    | Entering(trigger: Trigger)
    | Displacing(trigger: Trigger)
    | Indexed(trigger: Trigger)
    | Leaving
    | Unindexed

  datatype Store = Store(byId: map<Id, Trigger>, byType: Index, writers: map<Id, Writer>)

  datatype WriterStep =
    | LockForInsert(id: Id, trigger: Trigger)
    | DropOld(id: Id)
    | PutTarget(id: Id)
    | PublishEntry(id: Id)
    | LockForRemove(id: Id)
    | DropTarget(id: Id)
    | EraseEntry(id: Id)

  predicate CanWrite(s: Store, step: WriterStep) {
    match step
    case LockForInsert(id, _) => id !in s.writers
    case DropOld(id) => id in s.writers && s.writers[id].Entering? && TypeChanges(s, id)
    case PutTarget(id) =>
      id in s.writers && ((s.writers[id].Entering? && !TypeChanges(s, id)) || s.writers[id].Displacing?)
    case PublishEntry(id) => id in s.writers && s.writers[id].Indexed?
    case LockForRemove(id) => id !in s.writers && id in s.byId
    case DropTarget(id) => id in s.writers && s.writers[id].Leaving? && id in s.byId
    case EraseEntry(id) => id in s.writers && s.writers[id].Unindexed?
  }

  predicate TypeChanges(s: Store, id: Id)
    requires id in s.writers && s.writers[id].Entering?
  {
    id in s.byId && s.byId[id].triggerType != s.writers[id].trigger.triggerType
  }

  function Write(s: Store, step: WriterStep): Store
    requires CanWrite(s, step)
  {
    var id := step.id;
    match step
    case LockForInsert(_, trigger) => s.(writers := s.writers[id := Entering(trigger)])
    case DropOld(_) =>
      s.(byType := WithoutTarget(s.byType, id, s.byId[id].triggerType),
         writers := s.writers[id := Displacing(s.writers[id].trigger)])
    case PutTarget(_) =>
      s.(byType := WithTarget(s.byType, id, s.writers[id].trigger),
         writers := s.writers[id := Indexed(s.writers[id].trigger)])
    case PublishEntry(_) => s.(byId := s.byId[id := s.writers[id].trigger], writers := s.writers - {id})
    case LockForRemove(_) => s.(writers := s.writers[id := Leaving])
    case DropTarget(_) =>
      s.(byType := WithoutTarget(s.byType, id, s.byId[id].triggerType), writers := s.writers[id := Unindexed])
    case EraseEntry(_) => s.(byId := s.byId - {id}, writers := s.writers - {id})
  }

  /** What dispatch sees of `id`: the settled binding, nothing while it changes bucket or leaves, then the new one. */
  function Visible(s: Store, id: Id): Option<Trigger> {
    if id !in s.writers then Lookup(s.byId, id)
    else
      match s.writers[id]
      case Entering(_) => Lookup(s.byId, id)
      case Displacing(_) => None
      case Indexed(trigger) => Some(trigger)
      case Leaving => Lookup(s.byId, id)
      case Unindexed => None
  }

  ghost predicate Consistent(s: Store) {
    && NoEmptyBucket(s.byType)
    && forall id :: FiledAs(s.byType, id, Visible(s, id))
  }

  lemma WriteKeepsConsistent(s: Store, step: WriterStep)
    requires Consistent(s) && CanWrite(s, step)
    ensures Consistent(Write(s, step))
  {
    var s', id := Write(s, step), step.id;
    assert FiledAs(s.byType, id, Visible(s, id));
    match step {
      case DropOld(_) => WithoutTargetFiles(s.byType, id, s.byId[id]);
      case DropTarget(_) => WithoutTargetFiles(s.byType, id, s.byId[id]);
      case PutTarget(_) => WithTargetFiles(s.byType, id, s.writers[id].trigger);
      case _ =>
    }
    forall other ensures FiledAs(s'.byType, other, Visible(s', other)) {
      assert FiledAs(s.byType, other, Visible(s, other));
      if other != id { assert Visible(s', other) == Visible(s, other); }
    }
  }

  ghost predicate IsWriting(s: Store, steps: seq<WriterStep>)
    decreases |steps|
  {
    steps == [] || (CanWrite(s, steps[0]) && IsWriting(Write(s, steps[0]), steps[1..]))
  }

  ghost function AfterWriting(s: Store, steps: seq<WriterStep>): Store
    requires IsWriting(s, steps)
    decreases |steps|
  {
    if steps == [] then s else AfterWriting(Write(s, steps[0]), steps[1..])
  }

  lemma {:induction false} WritingKeepsConsistent(s: Store, steps: seq<WriterStep>)
    requires Consistent(s) && IsWriting(s, steps)
    ensures Consistent(AfterWriting(s, steps))
    decreases |steps|
  {
    if steps != [] {
      WriteKeepsConsistent(s, steps[0]);
      WritingKeepsConsistent(Write(s, steps[0]), steps[1..]);
    }
  }

  /** However writers interleave: an id is in one bucket at most, and in exactly its own whenever nobody writes it. */
  lemma IndexAgreesBetweenSubSteps(steps: seq<WriterStep>, id: Id, triggerType: string, other: string)
    requires IsWriting(Store(map[], map[], map[]), steps)
    ensures
      var s := AfterWriting(Store(map[], map[], map[]), steps);
      && NoEmptyBucket(s.byType)
      && (Target(s.byType, triggerType, id).Some? && Target(s.byType, other, id).Some? ==> triggerType == other)
      && (id !in s.writers ==>
            (Target(s.byType, triggerType, id).Some? <==> id in s.byId && s.byId[id].triggerType == triggerType)
            && (Target(s.byType, triggerType, id).Some? ==> Target(s.byType, triggerType, id) == Some(s.byId[id])))
      && (s.writers == map[] ==> s.byType == IndexOf(s.byId))
  {
    WritingKeepsConsistent(Store(map[], map[], map[]), steps);
    var s := AfterWriting(Store(map[], map[], map[]), steps);
    assert FiledAs(s.byType, id, Visible(s, id));
    if s.writers == map[] {
      forall any ensures FiledAs(s.byType, any, Lookup(s.byId, any)) {
        assert FiledAs(s.byType, any, Visible(s, any));
      }
      AgreementIsExact(s.byType, s.byId);
    }
  }
}

/**
 The repair of a provider that a late call may have left out of step. Between any two of its calls the desired
 binding may have changed; every read and every answer is an input here.
 */
module Reconciling {
  import opened Options
  import opened Bindings

  /** A binding behind a shared handle; handles are compared by identity. */
  datatype Shared = Shared(handle: nat, binding: Trigger)

  /** The operation in flight on the id, as far as a repair reads it. */
  datatype Flight = Flight(removing: bool, target: Shared)

  /** What one locked read sees of the id and of the providers. */
  datatype Reading = Reading(flight: Option<Flight>, live: Option<Shared>, types: map<TypeKey, Provider>)

  /** The binding that should be running at the repaired provider's key, and who serves that key. */
  datatype Desired = Desired(current: Shared, registrator: nat)

  /** The provider's answer, or the deadline passing while it is awaited. */
  datatype Response = Taken | Rejected | Late

  /** One turn of the loop: the read before the call, the answer, and the read after it. */
  datatype Turn = Turn(before: Reading, answer: Response, after: Reading)

  datatype Call = Replay(registrator: nat, binding: Trigger) | Detach(registrator: nat, binding: Trigger)

  datatype Exit = Repaired | GaveUp | TimedOut

  /** A removal wants nothing; a move wants its target; otherwise the live binding, if it is served at `key`. */
  function DesiredIn(reading: Reading, key: TypeKey): Option<Desired> {
    if reading.flight.Some? && reading.flight.value.removing then None
    else if reading.flight.None? && reading.live.None? then None
    else
      var current := if reading.flight.Some? then reading.flight.value.target else reading.live.value;
      if current.binding.ProviderKey() != key || key !in reading.types then None
      else Some(Desired(current, reading.types[key].registrator))
  }

  /** Handles are what the source compares; the same handle is the same immutable binding. */
  ghost predicate HandlesAgree(turns: seq<Turn>, key: TypeKey) {
    forall i | 0 <= i < |turns| ::
      var before, after := DesiredIn(turns[i].before, key), DesiredIn(turns[i].after, key);
      before.Some? && after.Some? && before.value.current.handle == after.value.current.handle ==>
        before.value.current == after.value.current
  }

  /** A turn's call: the wanted binding replayed if the provider at hand serves it, else the stale one detached. */
  predicate Fits(call: Call, provider: nat, before: Option<Desired>, stale: Trigger) {
    && call.registrator == provider
    && (call.Replay? <==> before.Some? && before.value.registrator == provider)
    && call.binding == if call.Replay? && before.Some? then before.value.current.binding else stale
  }

  /** After this turn nothing is left to do: what was replayed is still wanted there, or nothing is wanted. */
  predicate LeavesNothing(call: Call, turn: Turn, key: TypeKey) {
    var before, after := DesiredIn(turn.before, key), DesiredIn(turn.after, key);
    match call
    case Replay(_, _) =>
      && before.Some? && after.Some?
      && before.value.current.handle == after.value.current.handle
      && before.value.registrator == after.value.registrator
    case Detach(_, _) => after.None?
  }

  /** Whom the next call goes to: after a detach the provider that serves the binding now, else the same again. */
  function NextProvider(call: Call, turn: Turn, key: TypeKey): nat {
    var after := DesiredIn(turn.after, key);
    if call.Detach? && after.Some? then after.value.registrator else call.registrator
  }

  /** Whom call `i` goes to. */
  function ProviderAt(registrator: nat, calls: seq<Call>, turns: seq<Turn>, key: TypeKey, i: nat): nat
    requires i <= |calls| <= |turns|
  {
    if i == 0 then registrator else NextProvider(calls[i - 1], turns[i - 1], key)
  }

  /** Call `i` goes where the calls before it say, with what its turn asks for. */
  predicate FitsAt(stale: Trigger, registrator: nat, calls: seq<Call>, turns: seq<Turn>, i: nat)
    requires i < |calls| <= |turns|
  {
    var key := stale.ProviderKey();
    Fits(calls[i], ProviderAt(registrator, calls, turns, key, i), DesiredIn(turns[i].before, key), stale)
  }

  /** Turn `i` was taken and left something to do. */
  predicate GoesOn(calls: seq<Call>, turns: seq<Turn>, key: TypeKey, i: nat)
    requires i < |calls| <= |turns|
  {
    turns[i].answer == Taken && !LeavesNothing(calls[i], turns[i], key)
  }

  /** The repair wants the same thing throughout, and every provider takes what it is told. */
  ghost predicate Calm(turns: seq<Turn>, key: TypeKey, desired: Option<Desired>) {
    forall i | 0 <= i < |turns| ::
      && DesiredIn(turns[i].before, key) == desired
      && DesiredIn(turns[i].after, key) == desired
      && turns[i].answer == Taken
  }

  /**
   What a repair does: each call fits its turn, only the last turn ends it, and it ends repaired exactly when that turn
   was taken and left nothing to do.
   */
  ghost predicate Conducted(stale: Trigger, registrator: nat, turns: seq<Turn>, exit: Exit, calls: seq<Call>) {
    var key, last := stale.ProviderKey(), |calls| - 1;
    && |calls| <= |turns|
    && (forall i | 0 <= i < |calls| :: FitsAt(stale, registrator, calls, turns, i))
    && (forall i | 0 <= i < last :: GoesOn(calls, turns, key, i))
    && match exit
       case Repaired => calls != [] && turns[last].answer == Taken && LeavesNothing(calls[last], turns[last], key)
       case GaveUp => calls != [] && turns[last].answer == Rejected
       case TimedOut =>
         || (calls != [] && turns[last].answer == Late)
         || (|calls| == |turns| && (calls != [] ==> GoesOn(calls, turns, key, last)))
  }

  /**
   Settle the provider `registrator` for the superseded `stale`. `turns` is what the loop would meet before its
   deadline; the calls made are returned in order.
   */
  method ReconcileProvider(stale: Trigger, registrator: nat, turns: seq<Turn>) returns (exit: Exit, calls: seq<Call>)
    ensures Conducted(stale, registrator, turns, exit, calls)
  {
    var key := stale.ProviderKey();
    var touched := registrator;
    calls := [];
    while |calls| < |turns|
      invariant |calls| <= |turns|
      invariant touched == ProviderAt(registrator, calls, turns, key, |calls|)
      invariant forall i | 0 <= i < |calls| :: FitsAt(stale, registrator, calls, turns, i)
      invariant forall i | 0 <= i < |calls| :: GoesOn(calls, turns, key, i)
      decreases |turns| - |calls|
    {
      var turn := turns[|calls|];
      var before := DesiredIn(turn.before, key);
      var replay := before.Some? && before.value.registrator == touched;
      ghost var earlier := calls;
      calls := calls + [if replay then Replay(touched, before.value.current.binding) else Detach(touched, stale)];
      forall i | 0 <= i < |earlier|
        ensures FitsAt(stale, registrator, calls, turns, i) && GoesOn(calls, turns, key, i)
      {
        assert FitsAt(stale, registrator, earlier, turns, i) && GoesOn(earlier, turns, key, i);
      }
      if turn.answer == Rejected {
        return GaveUp, calls;
      }
      if turn.answer == Late {
        return TimedOut, calls;
      }
      var after := DesiredIn(turn.after, key);
      if replay {
        if after.Some?
           && before.value.current.handle == after.value.current.handle
           && before.value.registrator == after.value.registrator {
          return Repaired, calls;
        }
      } else {
        if after.None? {
          return Repaired, calls;
        }
        touched := after.value.registrator;
      }
    }
    exit := TimedOut;
  }

  /**
   A finished repair is in step with the state read after its last call: the binding wanted then was replayed to the
   provider that serves it then, or nothing is wanted and the stale binding was detached where it was.
   */
  lemma RepairMatchesLastReading(stale: Trigger, registrator: nat, turns: seq<Turn>, exit: Exit, calls: seq<Call>)
    requires HandlesAgree(turns, stale.ProviderKey())
    requires Conducted(stale, registrator, turns, exit, calls) && exit == Repaired
    ensures
      var key, last := stale.ProviderKey(), |calls| - 1;
      match DesiredIn(turns[last].after, key)
      case Some(wanted) => calls[last] == Replay(wanted.registrator, wanted.current.binding)
      case None => calls[last] == Detach(ProviderAt(registrator, calls, turns, key, last), stale)
  {
    assert FitsAt(stale, registrator, calls, turns, |calls| - 1);
  }

  /** Undisturbed and with providers that accept, a repair is done within two turns. */
  lemma CalmRepairIsShort(
      stale: Trigger, registrator: nat, turns: seq<Turn>, exit: Exit, calls: seq<Call>, wanted: Option<Desired>)
    requires Conducted(stale, registrator, turns, exit, calls) && Calm(turns, stale.ProviderKey(), wanted)
    ensures |calls| <= 2
    ensures 2 <= |turns| ==> exit == Repaired
  {
    if |calls| >= 2 {
      assert FitsAt(stale, registrator, calls, turns, 0) && GoesOn(calls, turns, stale.ProviderKey(), 0);
      assert FitsAt(stale, registrator, calls, turns, 1);
      assert |calls| > 2 ==> GoesOn(calls, turns, stale.ProviderKey(), 1);
    }
  }

  // ---- What the readings say ---------------------------------------------------------------------------------

  /** No binding should be with a provider at `key`: it is being removed, or there is none, or it is for another key. */
  predicate Unwanted(reading: Reading, key: TypeKey) {
    || key !in reading.types
    || match reading.flight
       case Some(flight) =>
         flight.removing || (flight.target.binding.providerNamespace, flight.target.binding.triggerType) != key
       case None =>
         reading.live.None?
         || (reading.live.value.binding.providerNamespace, reading.live.value.binding.triggerType) != key
  }

  /** The binding that should be there otherwise: what is being moved there, never its source, or what is live. */
  predicate IsWanted(reading: Reading, key: TypeKey, binding: Trigger, registrator: nat) {
    && !Unwanted(reading, key)
    && registrator == reading.types[key].registrator
    && binding == match reading.flight
                  case Some(flight) => flight.target.binding
                  case None => reading.live.value.binding
  }

  lemma DesiredMeans(reading: Reading, key: TypeKey)
    ensures DesiredIn(reading, key).None? <==> Unwanted(reading, key)
    ensures DesiredIn(reading, key).Some? ==>
              IsWanted(reading, key, DesiredIn(reading, key).value.current.binding,
                       DesiredIn(reading, key).value.registrator)
  {
  }

  /**
   Every call of a repair, going by the fields read before it: the stale binding is detached when nothing is wanted or
   another provider serves the key, and else what is wanted is replayed to the provider filed there.
   */
  lemma CallsFollowReadings(
      stale: Trigger, registrator: nat, turns: seq<Turn>, exit: Exit, calls: seq<Call>, i: nat)
    requires Conducted(stale, registrator, turns, exit, calls) && i < |calls|
    ensures
      var key, before := (stale.providerNamespace, stale.triggerType), turns[i].before;
      match calls[i]
      case Replay(to, binding) => IsWanted(before, key, binding, to)
      case Detach(from, binding) =>
        binding == stale && (Unwanted(before, key) || before.types[key].registrator != from)
  {
    assert FitsAt(stale, registrator, calls, turns, i);
    DesiredMeans(turns[i].before, stale.ProviderKey());
  }

  /** A binding under removal is never given back to its provider. */
  lemma RemovalIsDetached(stale: Trigger, registrator: nat, turns: seq<Turn>, exit: Exit, calls: seq<Call>, i: nat)
    requires Conducted(stale, registrator, turns, exit, calls) && i < |calls|
    requires turns[i].before.flight.Some? && turns[i].before.flight.value.removing
    ensures calls[i].Detach? && calls[i].binding == stale
  {
    CallsFollowReadings(stale, registrator, turns, exit, calls, i);
  }

  /** The next call goes to the provider filed at the key if a detach left something wanted, else to the same one. */
  lemma ProvidersFollowReadings(
      stale: Trigger, registrator: nat, turns: seq<Turn>, exit: Exit, calls: seq<Call>, i: nat)
    requires Conducted(stale, registrator, turns, exit, calls) && i < |calls|
    ensures
      var key := (stale.providerNamespace, stale.triggerType);
      calls[i].registrator
      == if i == 0 then registrator
         else if calls[i - 1].Detach? && !Unwanted(turns[i - 1].after, key)
         then turns[i - 1].after.types[key].registrator
         else calls[i - 1].registrator
  {
    assert FitsAt(stale, registrator, calls, turns, i);
    if i > 0 { DesiredMeans(turns[i - 1].after, stale.ProviderKey()); }
  }

  /** A finished repair is in step with the fields read after its last call. */
  lemma RepairFollowsLastReading(stale: Trigger, registrator: nat, turns: seq<Turn>, exit: Exit, calls: seq<Call>)
    requires HandlesAgree(turns, stale.ProviderKey())
    requires Conducted(stale, registrator, turns, exit, calls) && exit == Repaired
    ensures
      var key, last := (stale.providerNamespace, stale.triggerType), |calls| - 1;
      match calls[last]
      case Replay(to, binding) => IsWanted(turns[last].after, key, binding, to)
      case Detach(_, binding) => binding == stale && Unwanted(turns[last].after, key)
  {
    RepairMatchesLastReading(stale, registrator, turns, exit, calls);
    DesiredMeans(turns[|calls| - 1].after, stale.ProviderKey());
  }
}

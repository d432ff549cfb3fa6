/** The bounded limiter behind deprecation warnings, and the sliding-window bound on what it lets through. */
module RateLimiting {
  /** A warning is remembered per entry point and caller. */
  type Key = (string, string)

  const FALLBACK_CALLER_KEY := "*"

  datatype Visit = Visit(entry: string, caller: string, now: nat)

  datatype Limits = Limits(interval: nat, maxKeys: nat)

  /** Time since `at`, zero when `at` is later. */
  function Since(now: nat, at: nat): nat {
    if now < at then 0 else now - at
  }

  function Unexpired(limits: Limits, last: map<Key, nat>, now: nat): map<Key, nat> {
    map key | key in last && Since(now, last[key]) < limits.interval :: last[key]
  }

  /** A new key that finds the map full. */
  predicate Crowded(limits: Limits, last: map<Key, nat>, visit: Visit) {
    (visit.entry, visit.caller) !in last && |last| >= limits.maxKeys
  }

  function Room(limits: Limits, last: map<Key, nat>, visit: Visit): map<Key, nat> {
    if Crowded(limits, last, visit) then Unexpired(limits, last, visit.now) else last
  }

  /** The key the visit is charged to: its own, or its entry point's shared one when there is no room. */
  function Slot(limits: Limits, last: map<Key, nat>, visit: Visit): Key {
    if Crowded(limits, last, visit) && |Room(limits, last, visit)| >= limits.maxKeys
    then (visit.entry, FALLBACK_CALLER_KEY) else (visit.entry, visit.caller)
  }

  predicate Warns(limits: Limits, last: map<Key, nat>, visit: Visit) {
    var room, slot := Room(limits, last, visit), Slot(limits, last, visit);
    slot in room ==> Since(visit.now, room[slot]) >= limits.interval
  }

  function Record(limits: Limits, last: map<Key, nat>, visit: Visit): map<Key, nat> {
    var room := Room(limits, last, visit);
    if Warns(limits, last, visit) then room[Slot(limits, last, visit) := visit.now] else room
  }

  /** What is remembered after a sequence of visits. */
  function Remembered(limits: Limits, visits: seq<Visit>): map<Key, nat> {
    if visits == [] then map[] else Record(limits, Remembered(limits, visits[..|visits| - 1]), visits[|visits| - 1])
  }

  class RateLimiter {
    const limits: Limits
    var last: map<Key, nat>
    ghost var visits: seq<Visit>

    ghost predicate Valid()
      reads this
    {
      last == Remembered(limits, visits)
    }

    constructor (interval: nat, maxKeys: nat)
      ensures Valid() && limits == Limits(interval, maxKeys) && visits == []
    {
      limits := Limits(interval, maxKeys);
      last, visits := map[], [];
    }

    method ShouldWarn(entry: string, caller: string, now: nat) returns (warn: bool)
      requires Valid()
      modifies this
      ensures Valid() && visits == old(visits) + [Visit(entry, caller, now)]
      ensures warn == Warned(limits, visits, |visits| - 1)
    {
      var key := (entry, caller);
      if key !in last && |last| >= limits.maxKeys {
        last := map k | k in last && Since(now, last[k]) < limits.interval :: last[k];
        if |last| >= limits.maxKeys {
          key := (entry, FALLBACK_CALLER_KEY);
        }
      }
      if key in last {
        warn := Since(now, last[key]) >= limits.interval;
        if warn {
          last := last[key := now];
        }
      } else {
        last := last[key := now];
        warn := true;
      }
      visits := visits + [Visit(entry, caller, now)];
      assert visits[..|visits| - 1] == old(visits);
    }
  }

  // ---- What a run of visits warns about ----------------------------------------------------------------------

  predicate Warned(limits: Limits, visits: seq<Visit>, i: nat)
    requires i < |visits|
  {
    Warns(limits, Remembered(limits, visits[..i]), visits[i])
  }

  function SlotAt(limits: Limits, visits: seq<Visit>, i: nat): Key
    requires i < |visits|
  {
    Slot(limits, Remembered(limits, visits[..i]), visits[i])
  }

  function Entries(visits: seq<Visit>): set<string> {
    set visit | visit in visits :: visit.entry
  }

  ghost predicate InOrder(visits: seq<Visit>) {
    forall i, j | 0 <= i <= j < |visits| :: visits[i].now <= visits[j].now
  }

  /** The visits `lo..hi` span less than the interval. */
  ghost predicate Window(limits: Limits, visits: seq<Visit>, lo: nat, hi: nat) {
    && InOrder(visits)
    && lo <= hi <= |visits|
    && (lo < hi ==> visits[hi - 1].now - visits[lo].now < limits.interval)
  }

  function WarnedIn(limits: Limits, visits: seq<Visit>, lo: nat, hi: nat): set<nat>
    requires lo <= hi <= |visits|
  {
    set i | lo <= i < hi && Warned(limits, visits, i)
  }

  // ---- Counting ----------------------------------------------------------------------------------------------

  lemma InjectionBound<A, B>(s: set<A>, t: set<B>, image: map<A, B>)
    requires s <= image.Keys
    requires forall a <- s :: image[a] in t
    requires forall a, b | a in s && b in s && a != b :: image[a] != image[b]
    ensures |s| <= |t|
  {
    if s != {} {
      var a :| a in s;
      InjectionBound(s - {a}, t - {image[a]}, image);
    }
  }

  /** Keys charged to callers never outnumber the limit; the others are one per entry point. */
  ghost predicate Bounded(limits: Limits, last: map<Key, nat>, entries: set<string>) {
    && |set key | key in last && key.1 != FALLBACK_CALLER_KEY| <= limits.maxKeys
    && forall key <- last :: key.0 in entries
  }

  lemma RecordKeepsBounded(limits: Limits, last: map<Key, nat>, visit: Visit, entries: set<string>)
    requires Bounded(limits, last, entries)
    ensures Bounded(limits, Record(limits, last, visit), entries + {visit.entry})
  {
    var room, slot, last' := Room(limits, last, visit), Slot(limits, last, visit), Record(limits, last, visit);
    var own := set key | key in last && key.1 != FALLBACK_CALLER_KEY;
    var ownRoom := set key | key in room && key.1 != FALLBACK_CALLER_KEY;
    var own' := set key | key in last' && key.1 != FALLBACK_CALLER_KEY;
    Subset(ownRoom, own);
    if slot !in room && slot.1 != FALLBACK_CALLER_KEY {
      Subset(ownRoom, room.Keys);
      assert |room.Keys| == |room| < limits.maxKeys;
      Subset(own', ownRoom + {slot});
    } else {
      Subset(own', ownRoom);
    }
  }

  lemma Subset<T>(s: set<T>, t: set<T>)
    requires s <= t
    ensures |s| <= |t|
  {
    if s != {} {
      var x :| x in s;
      Subset(s - {x}, t - {x});
    }
  }

  lemma {:induction false} RunStaysBounded(limits: Limits, visits: seq<Visit>)
    ensures Bounded(limits, Remembered(limits, visits), Entries(visits))
    decreases |visits|
  {
    if visits == [] {
      var last := Remembered(limits, visits);
      assert last == map[] && (set key | key in last && key.1 != FALLBACK_CALLER_KEY) == {};
    } else {
      var init, last := visits[..|visits| - 1], visits[|visits| - 1];
      RunStaysBounded(limits, init);
      RecordKeepsBounded(limits, Remembered(limits, init), last, Entries(init));
      assert forall visit :: visit in visits <==> visit in init || visit == last;
      assert Entries(visits) == Entries(init) + {last.entry};
    }
  }

  /** However many callers come, the limiter remembers at most the limit and one more key per entry point. */
  lemma MemoryIsBounded(limits: Limits, visits: seq<Visit>)
    ensures |Remembered(limits, visits)| <= limits.maxKeys + |Entries(visits)|
  {
    RunStaysBounded(limits, visits);
    var last := Remembered(limits, visits);
    var own := set key | key in last && key.1 != FALLBACK_CALLER_KEY;
    var shared := set key | key in last && key.1 == FALLBACK_CALLER_KEY;
    InjectionBound(shared, Entries(visits), map key | key in shared :: key.0);
    assert last.Keys == own + shared;
    assert |last| == |last.Keys|;
  }

  // ---- The window --------------------------------------------------------------------------------------------

  lemma RecordKeepsRecent(limits: Limits, last: map<Key, nat>, visit: Visit, key: Key, since: nat)
    requires key in last && since <= last[key] && since <= visit.now && visit.now - since < limits.interval
    ensures key in Record(limits, last, visit) && since <= Record(limits, last, visit)[key]
  {
  }

  lemma RecordKeepsSince(limits: Limits, last: map<Key, nat>, visit: Visit, key: Key, since: nat)
    requires since <= visit.now && (key in last ==> since <= last[key])
    ensures key in Record(limits, last, visit) ==> since <= Record(limits, last, visit)[key]
  {
  }

  lemma RecordSets(limits: Limits, last: map<Key, nat>, visit: Visit)
    requires Warns(limits, last, visit)
    ensures Slot(limits, last, visit) in Record(limits, last, visit)
    ensures Record(limits, last, visit)[Slot(limits, last, visit)] == visit.now
  {
  }

  lemma RememberedNext(limits: Limits, visits: seq<Visit>, i: nat)
    requires i < |visits|
    ensures Remembered(limits, visits[..i + 1]) == Record(limits, Remembered(limits, visits[..i]), visits[i])
  {
    assert visits[..i + 1][..i] == visits[..i];
  }

  lemma RecentNext(limits: Limits, visits: seq<Visit>, i: nat, key: Key, since: nat)
    requires i < |visits| && key in Remembered(limits, visits[..i]) && since <= Remembered(limits, visits[..i])[key]
    requires since <= visits[i].now < since + limits.interval
    ensures key in Remembered(limits, visits[..i + 1]) && since <= Remembered(limits, visits[..i + 1])[key]
  {
    RememberedNext(limits, visits, i);
    RecordKeepsRecent(limits, Remembered(limits, visits[..i]), visits[i], key, since);
  }

  /** A key that is remembered, and as recent as `since`, stays so until an interval after `since`. */
  lemma {:induction false} StaysRecent(limits: Limits, visits: seq<Visit>, i: nat, hi: nat, key: Key, since: nat)
    requires i <= hi <= |visits|
    requires key in Remembered(limits, visits[..i]) && since <= Remembered(limits, visits[..i])[key]
    requires forall k | i <= k < hi :: since <= visits[k].now < since + limits.interval
    ensures key in Remembered(limits, visits[..hi]) && since <= Remembered(limits, visits[..hi])[key]
    decreases hi - i
  {
    if i < hi {
      StaysRecent(limits, visits, i, hi - 1, key, since);
      RecentNext(limits, visits, hi - 1, key, since);
    }
  }

  /** A key warned about inside the window stays remembered, as recent as that warning, until the window ends. */
  lemma StaysRemembered(limits: Limits, visits: seq<Visit>, i: nat, hi: nat)
    requires i < hi <= |visits| && Warned(limits, visits, i)
    requires forall k | i <= k < hi :: visits[i].now <= visits[k].now < visits[i].now + limits.interval
    ensures SlotAt(limits, visits, i) in Remembered(limits, visits[..hi])
    ensures visits[i].now <= Remembered(limits, visits[..hi])[SlotAt(limits, visits, i)]
  {
    RememberedNext(limits, visits, i);
    RecordSets(limits, Remembered(limits, visits[..i]), visits[i]);
    StaysRecent(limits, visits, i + 1, hi, SlotAt(limits, visits, i), visits[i].now);
  }

  /** So within a window no key is warned about twice. */
  lemma WarnsOncePerSlot(limits: Limits, visits: seq<Visit>, lo: nat, i: nat, j: nat, hi: nat)
    requires Window(limits, visits, lo, hi) && lo <= i < j < hi
    requires Warned(limits, visits, i) && Warned(limits, visits, j)
    ensures SlotAt(limits, visits, i) != SlotAt(limits, visits, j)
  {
    StaysRemembered(limits, visits, i, j);
  }

  lemma SlotsAreDistinct(limits: Limits, visits: seq<Visit>, lo: nat, hi: nat)
    requires Window(limits, visits, lo, hi)
    ensures forall i, j | i in WarnedIn(limits, visits, lo, hi) && j in WarnedIn(limits, visits, lo, hi) && i != j ::
              SlotAt(limits, visits, i) != SlotAt(limits, visits, j)
  {
    forall i, j | i in WarnedIn(limits, visits, lo, hi) && j in WarnedIn(limits, visits, lo, hi) && i != j
      ensures SlotAt(limits, visits, i) != SlotAt(limits, visits, j)
    {
      var first, second := if i < j then i else j, if i < j then j else i;
      WarnsOncePerSlot(limits, visits, lo, first, second, hi);
    }
  }

  /** Any window shorter than the interval sees at most the limit and one more warning per entry point. */
  lemma WindowBound(limits: Limits, visits: seq<Visit>, lo: nat, hi: nat)
    requires Window(limits, visits, lo, hi)
    ensures |WarnedIn(limits, visits, lo, hi)| <= limits.maxKeys + |Entries(visits[..hi])|
  {
    var warned, last := WarnedIn(limits, visits, lo, hi), Remembered(limits, visits[..hi]);
    forall i <- warned ensures SlotAt(limits, visits, i) in last {
      StaysRemembered(limits, visits, i, hi);
    }
    SlotsAreDistinct(limits, visits, lo, hi);
    InjectionBound(warned, last.Keys, map i | i in warned :: SlotAt(limits, visits, i));
    MemoryIsBounded(limits, visits[..hi]);
    assert |last| == |last.Keys|;
  }

  /** And at most two for one entry point and caller: under its own key and under the shared one. */
  lemma TwicePerCaller(limits: Limits, visits: seq<Visit>, lo: nat, hi: nat, entry: string, caller: string)
    requires Window(limits, visits, lo, hi)
    ensures |set i | i in WarnedIn(limits, visits, lo, hi)
                     && visits[i].entry == entry && visits[i].caller == caller| <= 2
  {
    var own := set i | i in WarnedIn(limits, visits, lo, hi) && visits[i].entry == entry && visits[i].caller == caller;
    var slots: set<Key> := {(entry, caller), (entry, FALLBACK_CALLER_KEY)};
    SlotsAreDistinct(limits, visits, lo, hi);
    InjectionBound(own, slots, map i | i in own :: SlotAt(limits, visits, i));
  }

  lemma SinceNext(limits: Limits, visits: seq<Visit>, j: nat, key: Key, since: nat)
    requires j < |visits| && since <= visits[j].now
    requires key in Remembered(limits, visits[..j]) ==> since <= Remembered(limits, visits[..j])[key]
    ensures key in Remembered(limits, visits[..j + 1]) ==> since <= Remembered(limits, visits[..j + 1])[key]
  {
    RememberedNext(limits, visits, j);
    RecordKeepsSince(limits, Remembered(limits, visits[..j]), visits[j], key, since);
  }

  /** A key first remembered at visit `i` or later is as recent as that visit. */
  lemma {:induction false} RememberedSince(limits: Limits, visits: seq<Visit>, i: nat, j: nat, key: Key)
    requires InOrder(visits) && i < |visits| && i <= j <= |visits| && key !in Remembered(limits, visits[..i])
    ensures key in Remembered(limits, visits[..j]) ==> visits[i].now <= Remembered(limits, visits[..j])[key]
    decreases j - i
  {
    if i < j {
      RememberedSince(limits, visits, i, j - 1, key);
      SinceNext(limits, visits, j - 1, key, visits[i].now);
    }
  }

  /** The caller is not remembered, and there is room for it. */
  predicate Newcomer(limits: Limits, last: map<Key, nat>, visit: Visit) {
    && (visit.entry, visit.caller) !in last
    && (|last| < limits.maxKeys || |Unexpired(limits, last, visit.now)| < limits.maxKeys)
  }

  /** A caller warned once is warned again within the interval exactly when it comes back as a newcomer. */
  lemma WarnedAgain(limits: Limits, visits: seq<Visit>, lo: nat, i: nat, j: nat, hi: nat)
    requires Window(limits, visits, lo, hi) && lo <= i < j < hi
    requires visits[i].entry == visits[j].entry && visits[i].caller == visits[j].caller
    requires Warned(limits, visits, i)
    ensures Warned(limits, visits, j) <==> Newcomer(limits, Remembered(limits, visits[..j]), visits[j])
  {
    StaysRemembered(limits, visits, i, j);
    var own := (visits[i].entry, visits[i].caller);
    if own !in Remembered(limits, visits[..i]) { RememberedSince(limits, visits, i, j, own); }
  }

  /** A full limiter: two callers fill it, a third shares the fallback key, then finds room again. */
  const FULL := Limits(10, 2)
  const CROWD := [Visit("e", "a", 0), Visit("e", "c", 0), Visit("e", "b", 5), Visit("e", "b", 11)]

  const KEY_A: Key := ("e", "a")
  const KEY_C: Key := ("e", "c")
  const SHARED: Key := ("e", FALLBACK_CALLER_KEY)

  lemma TwoFillIt()
    ensures Remembered(FULL, CROWD[..2]) == map[KEY_A := 0, KEY_C := 0]
  {
    assert CROWD[..0] == [] && Remembered(FULL, []) == map[];
    RememberedNext(FULL, CROWD, 0);
    assert Remembered(FULL, CROWD[..1]) == map[KEY_A := 0];
    RememberedNext(FULL, CROWD, 1);
  }

  lemma ThirdShares()
    ensures Warned(FULL, CROWD, 2) && SlotAt(FULL, CROWD, 2) == SHARED
    ensures Remembered(FULL, CROWD[..3]) == map[KEY_A := 0, KEY_C := 0, SHARED := 5]
  {
    TwoFillIt();
    assert Unexpired(FULL, map[KEY_A := 0, KEY_C := 0], 5) == map[KEY_A := 0, KEY_C := 0];
    RememberedNext(FULL, CROWD, 2);
  }

  /** So two warnings for one caller inside the interval do happen: first under the shared key, then under its own. */
  lemma SharedThenOwn()
    ensures Window(FULL, CROWD, 2, 4)
    ensures Warned(FULL, CROWD, 2) && SlotAt(FULL, CROWD, 2) == ("e", FALLBACK_CALLER_KEY)
    ensures Warned(FULL, CROWD, 3) && SlotAt(FULL, CROWD, 3) == ("e", "b")
  {
    ThirdShares();
    assert Unexpired(FULL, map[KEY_A := 0, KEY_C := 0, SHARED := 5], 11) == map[SHARED := 5];
  }

  /** A caller that is remembered is silenced until the interval has passed, and warned about again after it. */
  lemma SilencedForTheInterval(limits: Limits, visits: seq<Visit>, visit: Visit)
    requires (visit.entry, visit.caller) in Remembered(limits, visits)
    ensures
      Warned(limits, visits + [visit], |visits|)
      <==> Since(visit.now, Remembered(limits, visits)[(visit.entry, visit.caller)]) >= limits.interval
  {
    assert (visits + [visit])[..|visits|] == visits;
  }

  /** A caller not remembered is warned under its own key when there is room for it, expired keys making room. */
  lemma NewcomerWarns(limits: Limits, visits: seq<Visit>, visit: Visit)
    requires Newcomer(limits, Remembered(limits, visits), visit)
    ensures Warned(limits, visits + [visit], |visits|)
    ensures SlotAt(limits, visits + [visit], |visits|) == (visit.entry, visit.caller)
  {
    assert (visits + [visit])[..|visits|] == visits;
  }

  /** A caller there is no room for is warned exactly when nobody was lately warned under the shared key. */
  lemma CrowdedOutCallersShareOneKey(limits: Limits, visits: seq<Visit>, visit: Visit)
    requires (visit.entry, visit.caller) !in Remembered(limits, visits)
    requires !Newcomer(limits, Remembered(limits, visits), visit)
    ensures
      Warned(limits, visits + [visit], |visits|)
      <==> (visit.entry, FALLBACK_CALLER_KEY) !in Unexpired(limits, Remembered(limits, visits), visit.now)
    ensures SlotAt(limits, visits + [visit], |visits|) == (visit.entry, FALLBACK_CALLER_KEY)
  {
    assert (visits + [visit])[..|visits|] == visits;
  }

  // ---- What is remembered is warnings ------------------------------------------------------------------------

  /** Visit `i` was the last of `visits` to warn under `key`. */
  ghost predicate LastWarning(limits: Limits, visits: seq<Visit>, key: Key, i: nat) {
    && i < |visits| && Warned(limits, visits, i) && SlotAt(limits, visits, i) == key
    && forall j | i < j < |visits| :: Warned(limits, visits, j) ==> SlotAt(limits, visits, j) != key
  }

  lemma PrefixesAgree(limits: Limits, visits: seq<Visit>, n: nat, i: nat)
    requires i < n <= |visits|
    ensures Warned(limits, visits[..n], i) <==> Warned(limits, visits, i)
    ensures SlotAt(limits, visits[..n], i) == SlotAt(limits, visits, i)
  {
    assert visits[..n][..i] == visits[..i];
  }

  /** A visit that does not warn leaves every remembered time as it was. */
  lemma RecordIsAWarning(limits: Limits, last: map<Key, nat>, visit: Visit, key: Key)
    requires key in Record(limits, last, visit)
    ensures if Warns(limits, last, visit) && Slot(limits, last, visit) == key
            then Record(limits, last, visit)[key] == visit.now
            else key in last && Record(limits, last, visit)[key] == last[key]
  {
  }

  /** Whatever is remembered under a key is the time of the last warning that was charged to it. */
  lemma {:induction false} RememberedIsTheLastWarning(limits: Limits, visits: seq<Visit>, key: Key) returns (i: nat)
    requires key in Remembered(limits, visits)
    ensures LastWarning(limits, visits, key, i) && visits[i].now == Remembered(limits, visits)[key]
    decreases |visits|
  {
    var n := |visits| - 1;
    var init := visits[..n];
    RecordIsAWarning(limits, Remembered(limits, init), visits[n], key);
    if Warned(limits, visits, n) && SlotAt(limits, visits, n) == key {
      i := n;
    } else {
      i := RememberedIsTheLastWarning(limits, init, key);
      PrefixesAgree(limits, visits, n, i);
      forall j | i < j < |visits| && Warned(limits, visits, j) ensures SlotAt(limits, visits, j) != key {
        if j < n { PrefixesAgree(limits, visits, n, j); }
      }
    }
  }

  /** A visit warns exactly when no warning under the key it is charged to lies within the interval before it. */
  lemma WarnsExactly(limits: Limits, visits: seq<Visit>, j: nat)
    requires InOrder(visits) && j < |visits|
    ensures Warned(limits, visits, j)
            <==> forall i | 0 <= i < j && Warned(limits, visits, i) ::
                   SlotAt(limits, visits, i) == SlotAt(limits, visits, j) ==>
                     visits[j].now - visits[i].now >= limits.interval
  {
    var slot := SlotAt(limits, visits, j);
    if Warned(limits, visits, j) {
      forall i | 0 <= i < j && Warned(limits, visits, i) && SlotAt(limits, visits, i) == slot
        ensures visits[j].now - visits[i].now >= limits.interval
      {
        if visits[j].now - visits[i].now < limits.interval { StaysRemembered(limits, visits, i, j); }
      }
    } else {
      var i := RememberedIsTheLastWarning(limits, visits[..j], slot);
      PrefixesAgree(limits, visits, j, i);
    }
  }

  /** A clock that runs backwards counts as standing still: a visit before the last warning is silent. */
  lemma BackwardsIsSilent(limits: Limits, visits: seq<Visit>, visit: Visit)
    requires limits.interval > 0 && (visit.entry, visit.caller) in Remembered(limits, visits)
    requires visit.now <= Remembered(limits, visits)[(visit.entry, visit.caller)]
    ensures !Warned(limits, visits + [visit], |visits|)
  {
    SilencedForTheInterval(limits, visits, visit);
  }

  /** The key a visit is charged to: its own when that is remembered or there is room for it, else the shared one. */
  lemma ChargedTo(limits: Limits, visits: seq<Visit>, j: nat)
    requires j < |visits|
    ensures
      var own, last := (visits[j].entry, visits[j].caller), Remembered(limits, visits[..j]);
      SlotAt(limits, visits, j)
      == if own in last || |last| < limits.maxKeys || |Unexpired(limits, last, visits[j].now)| < limits.maxKeys
         then own else (visits[j].entry, "*")
  {
  }

  /** A key is forgotten only by an eviction, and that forgets exactly the keys warned about an interval or more ago. */
  lemma EvictsExactly(limits: Limits, visits: seq<Visit>, j: nat, key: Key)
    requires InOrder(visits) && j < |visits| && key in Remembered(limits, visits[..j])
    ensures
      var last, visit := Remembered(limits, visits[..j]), visits[j];
      var crowded := (visit.entry, visit.caller) !in last && |last| >= limits.maxKeys;
      && last[key] <= visit.now
      && (key in Remembered(limits, visits[..j + 1])
          <==> (crowded ==> visit.now - last[key] < limits.interval) || key == SlotAt(limits, visits, j))
  {
    var i := RememberedIsTheLastWarning(limits, visits[..j], key);
    RememberedNext(limits, visits, j);
  }
}

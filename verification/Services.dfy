/** The index of services by the function ids registered under them, and the split of an id it stands on. */
module Services {
  import opened Options

  const SEPARATOR := "::"

  // ---- Splitting an id ---------------------------------------------------------------------------------------

  predicate SeparatorAt(s: string, i: nat) {
    i + 1 < |s| && s[i] == ':' && s[i + 1] == ':'
  }

  /** Where the first separator at or after `from` starts, or the length of `s`. */
  function FirstSeparator(s: string, from: nat): (i: nat)
    requires from <= |s|
    ensures from <= i <= |s|
    ensures i < |s| ==> SeparatorAt(s, i)
    ensures forall j | from <= j < i :: !SeparatorAt(s, j)
    ensures i == |s| ==> forall j | from <= j :: !SeparatorAt(s, j)
    decreases |s| - from
  {
    if from == |s| || SeparatorAt(s, from) then from else FirstSeparator(s, from + 1)
  }

  /** The parts between separators, found from the left. */
  function Split(s: string): (parts: seq<string>)
    ensures parts != []
    decreases |s|
  {
    var i := FirstSeparator(s, 0);
    if i == |s| then [s] else [s[..i]] + Split(s[i + 2..])
  }

  function Join(parts: seq<string>): string {
    if parts == [] then "" else if |parts| == 1 then parts[0] else parts[0] + SEPARATOR + Join(parts[1..])
  }

  lemma {:induction false} JoinUndoesSplit(s: string)
    ensures Join(Split(s)) == s
    decreases |s|
  {
    var i := FirstSeparator(s, 0);
    if i < |s| {
      JoinUndoesSplit(s[i + 2..]);
      assert Split(s)[1..] == Split(s[i + 2..]);
      assert s[i..i + 2] == SEPARATOR && s[..i] + s[i..i + 2] + s[i + 2..] == s;
    }
  }

  function ServiceName(functionId: string): Option<string> {
    var parts := Split(functionId);
    if |parts| < 2 then None else Some(parts[0])
  }

  function FunctionName(functionId: string): Option<string> {
    var parts := Split(functionId);
    if |parts| < 2 then None else Some(Join(parts[1..]))
  }

  /** An id has both names or neither, and they rebuild it around its first separator. */
  lemma NamesRebuildId(functionId: string)
    ensures ServiceName(functionId).Some? <==> FunctionName(functionId).Some?
    ensures ServiceName(functionId).Some? <==> exists i :: SeparatorAt(functionId, i)
    ensures ServiceName(functionId).Some? ==>
              functionId == ServiceName(functionId).value + SEPARATOR + FunctionName(functionId).value
              && forall i :: !SeparatorAt(ServiceName(functionId).value, i)
  {
    JoinUndoesSplit(functionId);
    var i := FirstSeparator(functionId, 0);
    if i < |functionId| {
      assert Split(functionId)[1..] == Split(functionId[i + 2..]);
      JoinUndoesSplit(functionId[i + 2..]);
      assert functionId[i..i + 2] == SEPARATOR;
      assert functionId[..i] + functionId[i..i + 2] + functionId[i + 2..] == functionId;
      forall j: nat ensures !SeparatorAt(functionId[..i], j) {
        if SeparatorAt(functionId[..i], j) {
          assert SeparatorAt(functionId, j);
        }
      }
    }
  }

  // ---- The index ---------------------------------------------------------------------------------------------

  datatype Service = Service(name: string, functions: set<string>) {
    /** An empty name is never filed. */
    function InsertFunction(name: string): Service {
      if name == "" then this else this.(functions := functions + {name})
    }

    function RemoveFunction(name: string): Service {
      this.(functions := functions - {name})
    }
  }

  type ServiceKey = (string, string)
  type Index = map<ServiceKey, Service>

  function RegisterId(services: Index, namespace: string, functionId: string): Index {
    if ServiceName(functionId).None? then services
    else
      var key := (namespace, ServiceName(functionId).value);
      var service := if key in services then services[key] else Service(key.1, {});
      services[key := service.InsertFunction(FunctionName(functionId).value)]
  }

  function RemoveId(services: Index, namespace: string, functionId: string): Index {
    if ServiceName(functionId).None? then services
    else
      var key := (namespace, ServiceName(functionId).value);
      if key !in services then services
      else
        var service := services[key].RemoveFunction(FunctionName(functionId).value);
        if service.functions == {} then services - {key} else services[key := service]
  }

  class ServicesRegistry {
    var services: Index
    ghost var changes: seq<Change>

    /** The index is what the calls so far make it. */
    ghost predicate Valid()
      reads this
    {
      services == IndexAfter(changes)
    }

    constructor ()
      ensures Valid() && changes == []
    {
      services, changes := map[], [];
    }

    method RegisterServiceFromFunctionId(namespace: string, functionId: string)
      requires Valid()
      modifies this
      ensures Valid() && changes == old(changes) + [Register(namespace, functionId)]
      ensures services == RegisterId(old(services), namespace, functionId)
    {
      changes := changes + [Register(namespace, functionId)];
      assert changes[..|changes| - 1] == old(changes);
      NamesRebuildId(functionId);
      var serviceName, functionName := ServiceName(functionId), FunctionName(functionId);
      if serviceName.None? || functionName.None? {
        return;
      }
      var key := (namespace, serviceName.value);
      if key !in services {
        services := services[key := Service(serviceName.value, {})];
      }
      services := services[key := services[key].InsertFunction(functionName.value)];
    }

    method RemoveFunctionFromServices(namespace: string, functionId: string)
      requires Valid()
      modifies this
      ensures Valid() && changes == old(changes) + [Deregister(namespace, functionId)]
      ensures services == RemoveId(old(services), namespace, functionId)
    {
      changes := changes + [Deregister(namespace, functionId)];
      assert changes[..|changes| - 1] == old(changes);
      NamesRebuildId(functionId);
      var serviceName, functionName := ServiceName(functionId), FunctionName(functionId);
      if serviceName.None? || functionName.None? {
        return;
      }
      var key := (namespace, serviceName.value);
      var shouldRemoveService := false;
      if key in services {
        services := services[key := services[key].RemoveFunction(functionName.value)];
        shouldRemoveService := services[key].functions == {};
      }
      if shouldRemoveService {
        services := services - {key};
      }
    }
  }

  // ---- Exactness ---------------------------------------------------------------------------------------------

  /** An id that names a function of a service. */
  predicate Routable(functionId: string) {
    FunctionName(functionId).Some? && FunctionName(functionId).value != ""
  }

  /** An id whose function part is empty: `svc::`. */
  predicate Hollow(functionId: string) {
    FunctionName(functionId) == Some("")
  }

  /** A function id registered in a namespace. */
  type Entry = (string, string)

  predicate FiledUnder(entry: Entry, key: ServiceKey) {
    Routable(entry.1) && entry.0 == key.0 && ServiceName(entry.1) == Some(key.1)
  }

  /** The function names the index should hold for a service, read off the registered ids. */
  function FunctionsOf(entries: set<Entry>, key: ServiceKey): set<string> {
    set entry | entry in entries && FiledUnder(entry, key) :: FunctionName(entry.1).value
  }

  /** The service holds exactly the functions of its registered ids, and exists exactly when it has one. */
  predicate ExactAt(services: Index, entries: set<Entry>, key: ServiceKey) {
    && (key in services <==> FunctionsOf(entries, key) != {})
    && (key in services ==> services[key] == Service(key.1, FunctionsOf(entries, key)))
  }

  ghost predicate Exact(services: Index, entries: set<Entry>) {
    forall key :: ExactAt(services, entries, key)
  }

  /** Two entries filed alike are the same entry. */
  lemma EntriesDoNotCollide(entry: Entry, other: Entry, key: ServiceKey)
    requires FiledUnder(entry, key) && FiledUnder(other, key)
    requires FunctionName(entry.1) == FunctionName(other.1)
    ensures entry == other
  {
    NamesRebuildId(entry.1);
    NamesRebuildId(other.1);
  }

  lemma AddToFunctions(entries: set<Entry>, entry: Entry, key: ServiceKey)
    ensures FunctionsOf(entries + {entry}, key)
            == FunctionsOf(entries, key) + if FiledUnder(entry, key) then {FunctionName(entry.1).value} else {}
  {
    assert entry in entries + {entry};
  }

  lemma RemoveFromFunctions(entries: set<Entry>, removed: Entry, key: ServiceKey)
    ensures FunctionsOf(entries - {removed}, key)
            == FunctionsOf(entries, key) - if FiledUnder(removed, key) then {FunctionName(removed.1).value} else {}
  {
    forall entry | entry in entries && FiledUnder(entry, key)
      ensures entry != removed ==> entry in entries - {removed}
      ensures FiledUnder(removed, key) && FunctionName(entry.1) == FunctionName(removed.1) ==> entry == removed
    {
      if FiledUnder(removed, key) && FunctionName(entry.1) == FunctionName(removed.1) {
        EntriesDoNotCollide(entry, removed, key);
      }
    }
  }

  lemma NoEmptyFunction(entries: set<Entry>, key: ServiceKey)
    ensures "" !in FunctionsOf(entries, key)
  {
  }

  lemma RegisterAt(services: Index, entries: set<Entry>, entry: Entry, key: ServiceKey)
    requires ExactAt(services, entries, key)
    ensures ExactAt(RegisterId(services, entry.0, entry.1), entries + {entry}, key)
            <==> !(Hollow(entry.1) && key == (entry.0, ServiceName(entry.1).value) && key !in services)
  {
    NamesRebuildId(entry.1);
    AddToFunctions(entries, entry, key);
  }

  /** Registering keeps the index exact, but for an id without a function part that finds no service to join. */
  lemma RegisterKeepsExact(services: Index, entries: set<Entry>, entry: Entry)
    requires Exact(services, entries)
    ensures
      Exact(RegisterId(services, entry.0, entry.1), entries + {entry})
      <==> !(Hollow(entry.1) && (entry.0, ServiceName(entry.1).value) !in services)
  {
    NamesRebuildId(entry.1);
    forall key
      ensures ExactAt(RegisterId(services, entry.0, entry.1), entries + {entry}, key)
              <==> !(Hollow(entry.1) && key == (entry.0, ServiceName(entry.1).value) && key !in services)
    {
      assert ExactAt(services, entries, key);
      RegisterAt(services, entries, entry, key);
    }
    if Hollow(entry.1) {
      var own := (entry.0, ServiceName(entry.1).value);
      assert own !in services ==> !ExactAt(RegisterId(services, entry.0, entry.1), entries + {entry}, own);
    }
  }

  lemma RemoveKeepsExact(services: Index, entries: set<Entry>, entry: Entry)
    requires Exact(services, entries)
    ensures Exact(RemoveId(services, entry.0, entry.1), entries - {entry})
  {
    NamesRebuildId(entry.1);
    forall key ensures ExactAt(RemoveId(services, entry.0, entry.1), entries - {entry}, key) {
      assert ExactAt(services, entries, key);
      RemoveFromFunctions(entries, entry, key);
      NoEmptyFunction(entries, key);
    }
  }

  datatype Change = Register(namespace: string, functionId: string) | Deregister(namespace: string, functionId: string)

  function IndexAfter(changes: seq<Change>): Index {
    if changes == [] then map[]
    else
      var earlier := IndexAfter(changes[..|changes| - 1]);
      match changes[|changes| - 1]
      case Register(namespace, functionId) => RegisterId(earlier, namespace, functionId)
      case Deregister(namespace, functionId) => RemoveId(earlier, namespace, functionId)
  }

  /** The ids registered and not removed since. */
  function Standing(changes: seq<Change>): set<Entry> {
    if changes == [] then {}
    else
      var earlier := Standing(changes[..|changes| - 1]);
      match changes[|changes| - 1]
      case Register(namespace, functionId) => earlier + {(namespace, functionId)}
      case Deregister(namespace, functionId) => earlier - {(namespace, functionId)}
  }

  /** For every run that registers no hollow id the index is exact, whatever else is registered or removed. */
  lemma {:induction false} IndexIsExact(changes: seq<Change>)
    requires forall change <- changes :: change.Register? ==> !Hollow(change.functionId)
    ensures Exact(IndexAfter(changes), Standing(changes))
    decreases |changes|
  {
    if changes != [] {
      var init, last := changes[..|changes| - 1], changes[|changes| - 1];
      IndexIsExact(init);
      assert last in changes;
      match last
      case Register(namespace, functionId) =>
        RegisterKeepsExact(IndexAfter(init), Standing(init), (namespace, functionId));
      case Deregister(namespace, functionId) =>
        RemoveKeepsExact(IndexAfter(init), Standing(init), (namespace, functionId));
    }
  }

  /** A registration that would create a service without a function. */
  predicate MakesEmptyService(services: Index, change: Change) {
    change.Register? && Hollow(change.functionId)
    && (change.namespace, ServiceName(change.functionId).value) !in services
  }

  ghost predicate AlwaysExact(changes: seq<Change>) {
    forall k | 0 <= k <= |changes| :: Exact(IndexAfter(changes[..k]), Standing(changes[..k]))
  }

  ghost predicate NeverEmpty(changes: seq<Change>) {
    forall k | 0 <= k < |changes| :: !MakesEmptyService(IndexAfter(changes[..k]), changes[k])
  }

  lemma ExactOneMore(init: seq<Change>, last: Change)
    ensures AlwaysExact(init + [last])
            <==> AlwaysExact(init) && Exact(IndexAfter(init + [last]), Standing(init + [last]))
  {
    var changes := init + [last];
    assert changes[..|changes|] == changes;
    forall k | 0 <= k <= |init| ensures changes[..k] == init[..k] {
    }
    if AlwaysExact(changes) {
      forall k | 0 <= k <= |init| ensures Exact(IndexAfter(init[..k]), Standing(init[..k])) {
        assert changes[..k] == init[..k];
      }
    }
  }

  lemma EmptyOneMore(init: seq<Change>, last: Change)
    ensures NeverEmpty(init + [last]) <==> NeverEmpty(init) && !MakesEmptyService(IndexAfter(init), last)
  {
    var changes := init + [last];
    assert changes[..|init|] == init && changes[|init|] == last;
    forall k | 0 <= k < |init| ensures changes[..k] == init[..k] && changes[k] == init[k] {
    }
    if NeverEmpty(changes) {
      forall k | 0 <= k < |init| ensures !MakesEmptyService(IndexAfter(init[..k]), init[k]) {
        assert changes[..k] == init[..k];
      }
    }
  }

  /** In any run at all, the index is exact throughout if and only if no call ever makes an empty service. */
  lemma {:induction false} ExactThroughout(changes: seq<Change>)
    ensures AlwaysExact(changes) <==> NeverEmpty(changes)
    decreases |changes|
  {
    if changes == [] {
      assert changes[..0] == [];
    } else {
      var init, last := changes[..|changes| - 1], changes[|changes| - 1];
      assert init + [last] == changes;
      ExactThroughout(init);
      ExactOneMore(init, last);
      EmptyOneMore(init, last);
      if Exact(IndexAfter(init), Standing(init)) { ChangeKeepsExact(init, last); }
      assert init[..|init|] == init;
    }
  }

  lemma ChangeKeepsExact(init: seq<Change>, last: Change)
    requires Exact(IndexAfter(init), Standing(init))
    ensures Exact(IndexAfter(init + [last]), Standing(init + [last])) <==> !MakesEmptyService(IndexAfter(init), last)
  {
    NamesRebuildId(last.functionId);
    assert (init + [last])[..|init|] == init;
    match last
    case Register(namespace, functionId) =>
      RegisterKeepsExact(IndexAfter(init), Standing(init), (namespace, functionId));
    case Deregister(namespace, functionId) =>
      RemoveKeepsExact(IndexAfter(init), Standing(init), (namespace, functionId));
  }

  /** A hollow id does break it: the service it creates has no function. */
  lemma HollowIdBreaksExactness()
    ensures Hollow("svc::") && !Exact(IndexAfter([Register("default", "svc::")]), {("default", "svc::")})
  {
    var id := "svc::";
    assert SeparatorAt(id, 3) && FirstSeparator(id, 0) == 3;
    assert id[5..] == "" && Split("") == [""] && Split(id)[1..] == [""];
    assert FunctionName(id) == Some("");
    var changes := [Register("default", id)];
    assert changes[..0] == [] && IndexAfter([]) == map[];
    RegisterKeepsExact(map[], {}, ("default", id));
    assert {} + {("default", id)} == {("default", id)};
  }
}

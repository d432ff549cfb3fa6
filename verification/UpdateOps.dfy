/** The update operations on a JSON document: what each one does, and the batch interpreter that runs them. */
module UpdateOps {
  import opened Options
  import opened Documents

  const MAX_PATH_DEPTH := 32
  const MAX_SEGMENT_BYTES := 256
  const MAX_VALUE_DEPTH := 16
  const MAX_VALUE_KEYS := 1024
  const PROTO_POLLUTION_KEYS: set<string> := {"__proto__", "constructor", "prototype"}

  type I64 = n: int | -0x8000_0000_0000_0000 <= n < 0x8000_0000_0000_0000

  datatype MergePath = Single(key: string) | Segments(keys: seq<string>)

  datatype UpdateOp =
    | Set(field: string, value: Option<Json>)
    | Merge(path: Option<MergePath>, patch: Json)
    | Increment(field: string, delta: I64)
    | Decrement(field: string, delta: I64)
    | Append(path: Option<MergePath>, item: Json)
    | Remove(field: string)

  datatype OpError = OpError(opIndex: nat, code: string)

  /** The document under work; `missing` while it is only the default for a value that was not there. */
  datatype Doc = Doc(current: Json, missing: bool)

  // ---- Validation --------------------------------------------------------------------------------------------

  function PathSegments(path: Option<MergePath>): Path {
    match path
    case None => []
    case Some(Single(key)) => if key == "" then [] else [key]
    case Some(Segments(keys)) => keys
  }

  function FieldSegments(field: string): Path {
    if field == "" then [] else [field]
  }

  /** Bytes of the UTF-8 form. */
  function Utf8Length(s: string): nat {
    if s == "" then 0
    else
      var code := s[0] as int;
      (if code < 0x80 then 1 else if code < 0x800 then 2 else if code < 0x1_0000 then 3 else 4) + Utf8Length(s[1..])
  }

  function SegmentFault(segment: string): Option<string> {
    if segment == "" then Some("empty_segment")
    else if Utf8Length(segment) > MAX_SEGMENT_BYTES then Some("segment_too_long")
    else if segment in PROTO_POLLUTION_KEYS then Some("proto_polluted")
    else None
  }

  function FirstSegmentFault(segments: Path): Option<string> {
    if segments == [] then None
    else if SegmentFault(segments[0]).Some? then SegmentFault(segments[0])
    else FirstSegmentFault(segments[1..])
  }

  function PathFault(segments: Path): Option<string> {
    if |segments| > MAX_PATH_DEPTH then Some("too_deep") else FirstSegmentFault(segments)
  }

  method ValidateOpPath(opName: string, segments: Path) returns (code: Option<string>)
    ensures code == PathCode(opName, segments)
    ensures code.None? <==>
              |segments| <= MAX_PATH_DEPTH && forall i | 0 <= i < |segments| :: SegmentFault(segments[i]).None?
  {
    if |segments| > MAX_PATH_DEPTH {
      return Some(opName + ".path." + "too_deep");
    }
    for i := 0 to |segments|
      invariant forall j | 0 <= j < i :: SegmentFault(segments[j]).None?
      invariant FirstSegmentFault(segments) == FirstSegmentFault(segments[i..])
    {
      var segment := segments[i];
      assert segments[i..][0] == segment && segments[i..][1..] == segments[i + 1..];
      if segment == "" {
        return Some(opName + ".path." + "empty_segment");
      }
      if Utf8Length(segment) > MAX_SEGMENT_BYTES {
        return Some(opName + ".path." + "segment_too_long");
      }
      if segment in PROTO_POLLUTION_KEYS {
        return Some(opName + ".path." + "proto_polluted");
      }
    }
    code := None;
  }

  function PathCode(opName: string, segments: Path): Option<string> {
    match PathFault(segments)
    case Some(reason) => Some(opName + ".path." + reason)
    case None => None
  }

  function ValueCode(patch: Json): Option<string> {
    if !patch.Obj? then Some("merge.value.not_an_object")
    else if |patch.fields| > MAX_VALUE_KEYS then Some("merge.value.too_many_keys")
    else if exists key <- PROTO_POLLUTION_KEYS :: key in patch.fields then Some("merge.value.proto_polluted")
    else if Depth(patch) > MAX_VALUE_DEPTH then Some("merge.value.too_deep")
    else None
  }

  // ---- Numbers -----------------------------------------------------------------------------------------------

  predicate FitsI64(n: int) {
    -0x8000_0000_0000_0000 <= n < 0x8000_0000_0000_0000
  }

  predicate FitsU64(n: int) {
    0 <= n < 0x1_0000_0000_0000_0000
  }

  /** First as `i64`; when that overflows or the value is no `i64`, as `u64`; a float in floating point. */
  function IncrementNumber(v: Json, delta: I64): Option<Json> {
    match v
    case Int(n) =>
      if FitsI64(n) && FitsI64(n + delta) then Some(Int(n + delta))
      else if FitsU64(n) && delta >= 0 then (if FitsU64(n + delta) then Some(Int(n + delta)) else None)
      else if FitsU64(n) then (if n >= 0 - delta then Some(Int(n - (0 - delta))) else None)
      else None
    case Float(r) => Some(Float(r + delta as real))
    case _ => None
  }

  function DecrementNumber(v: Json, delta: I64): Option<Json> {
    match v
    case Int(n) =>
      if FitsI64(n) && FitsI64(n - delta) then Some(Int(n - delta))
      else if FitsU64(n) && delta >= 0 then (if n >= delta then Some(Int(n - delta)) else None)
      else if FitsU64(n) then (if FitsU64(n + (0 - delta)) then Some(Int(n + (0 - delta))) else None)
      else None
    case Float(r) => Some(Float(r - delta as real))
    case _ => None
  }

  /** The smallest `i64` has no `i64` negation; its magnitude is a `u64`. */
  function MissingDecrement(delta: I64): Json {
    if FitsI64(0 - delta) then Int(0 - delta) else Int(0x8000_0000_0000_0000)
  }

  // ---- Appending ---------------------------------------------------------------------------------------------

  function InitialAppend(item: Json): Json {
    if item.Str? then item else Arr([item])
  }

  function AppendTo(target: Json, item: Json): Option<Json> {
    match target
    case Arr(items) => Some(Arr(items + [item]))
    case Str(text) => if item.Str? then Some(Str(text + item.text)) else None
    case Null => Some(InitialAppend(item))
    case _ => None
  }

  // ---- One operation -----------------------------------------------------------------------------------------

  function SetOp(d: Doc, field: string, value: Json): (Doc, Option<string>) {
    if PathFault(FieldSegments(field)).Some? then (d, PathCode("set", FieldSegments(field)))
    else if field == "" then (Doc(value, false), None)
    else if d.current.Obj? then (Doc(Obj(d.current.fields[field := value]), false), None)
    else (d, Some("set.target_not_object"))
  }

  function MergeOp(d: Doc, segments: Path, patch: Json): (Doc, Option<string>) {
    if PathFault(segments).Some? then (d, PathCode("merge", segments))
    else if ValueCode(patch).Some? then (d, ValueCode(patch))
    else if segments != [] || d.current.Obj? then
      (Doc(PutAt(d.current, segments, GetAt(d.current, segments) + patch.fields), false), None)
    else (d, None)
  }

  /** Increment and decrement share their shape: `update` on a number there, `initial` where there is none. */
  function CountOp(d: Doc, name: string, field: string, update: Json -> Option<Json>, initial: Json)
    : (Doc, Option<string>)
  {
    if PathFault(FieldSegments(field)).Some? then (d, PathCode(name, FieldSegments(field)))
    else if field == "" then
      if d.missing then (Doc(initial, false), None)
      else if update(d.current).Some? then (Doc(update(d.current).value, false), None)
      else (d, Some(name + ".not_number"))
    else if !d.current.Obj? then (d, Some(name + ".target_not_object"))
    else if field !in d.current.fields then (Doc(Obj(d.current.fields[field := initial]), false), None)
    else if update(d.current.fields[field]).Some? then
      (Doc(Obj(d.current.fields[field := update(d.current.fields[field]).value]), false), None)
    else (d, Some(name + ".not_number"))
  }

  function AppendOp(d: Doc, segments: Path, item: Json): (Doc, Option<string>) {
    if PathFault(segments).Some? then (d, PathCode("append", segments))
    else if segments == [] then
      var target := if d.missing then Null else d.current;
      if AppendTo(target, item).Some? then (Doc(AppendTo(target, item).value, false), None)
      else (d.(current := target), Some("append.type_mismatch"))
    else if !d.current.Obj? then (d, Some("append.target_not_object"))
    else
      var parents, leaf := segments[..|segments| - 1], segments[|segments| - 1];
      var parent := GetAt(d.current, parents);
      if leaf !in parent then
        var initial := if |segments| == 1 then InitialAppend(item) else Arr([item]);
        (Doc(PutAt(d.current, parents, parent[leaf := initial]), false), None)
      else if AppendTo(parent[leaf], item).Some? then
        (Doc(PutAt(d.current, parents, parent[leaf := AppendTo(parent[leaf], item).value]), false), None)
      else (Doc(PutAt(d.current, parents, parent), false), Some("append.type_mismatch"))
  }

  function RemoveOp(d: Doc, field: string): (Doc, Option<string>) {
    if PathFault(FieldSegments(field)).Some? then (d, PathCode("remove", FieldSegments(field)))
    else if field == "" then (Doc(Null, false), None)
    else if d.current.Obj? then (Doc(Obj(d.current.fields - {field}), false), None)
    else (d, Some("remove.target_not_object"))
  }

  function OrNull(value: Option<Json>): Json {
    if value.Some? then value.value else Null
  }

  /** The document after `op`, and the code of the error it reports, if any. */
  function ApplyOp(d: Doc, op: UpdateOp): (Doc, Option<string>) {
    match op
    case Set(field, value) => SetOp(d, field, OrNull(value))
    case Merge(path, patch) => MergeOp(d, PathSegments(path), patch)
    case Increment(field, delta) => CountOp(d, "increment", field, v => IncrementNumber(v, delta), Int(delta))
    case Decrement(field, delta) =>
      CountOp(d, "decrement", field, v => DecrementNumber(v, delta), MissingDecrement(delta))
    case Append(path, item) => AppendOp(d, PathSegments(path), item)
    case Remove(field) => RemoveOp(d, field)
  }

  // ---- A batch -----------------------------------------------------------------------------------------------

  function ErrorAt(index: nat, fault: Option<string>): seq<OpError> {
    if fault.Some? then [OpError(index, fault.value)] else []
  }

  /** Steps in turn, each of which may report an error; the errors carry the index of their step. */
  function RunSteps<D, O>(step: (D, O) -> (D, Option<string>), d: D, ops: seq<O>): (D, seq<OpError>) {
    if ops == [] then (d, [])
    else
      var (earlier, errors) := RunSteps(step, d, ops[..|ops| - 1]);
      var (later, fault) := step(earlier, ops[|ops| - 1]);
      (later, errors + ErrorAt(|ops| - 1, fault))
  }

  /** Every operation in turn; one that fails is reported under its index and skipped. */
  function ApplyAll(d: Doc, ops: seq<UpdateOp>): (Doc, seq<OpError>) {
    RunSteps(ApplyOp, d, ops)
  }

  function Start(oldValue: Option<Json>): Doc {
    Doc(if oldValue.Some? then oldValue.value else Obj(map[]), oldValue.None?)
  }

  /** What a caller gets for a stored value, or none, and a batch. */
  function Apply(oldValue: Option<Json>, ops: seq<UpdateOp>): (Json, seq<OpError>) {
    var (d, errors) := ApplyAll(Start(oldValue), ops);
    (d.current, errors)
  }

  // ---- The interpreter ---------------------------------------------------------------------------------------

  /** The batch loop of the engine: one document changed in place, errors collected, failing operations skipped. */
  method ApplyUpdateOps(oldValue: Option<Json>, ops: seq<UpdateOp>) returns (current: Json, errors: seq<OpError>)
    ensures (current, errors) == Apply(oldValue, ops)
  {
    var usingMissingDefault := oldValue.None?;
    current := if oldValue.Some? then oldValue.value else Obj(map[]);
    errors := [];
    assert ops[..0] == [];
    for opIndex := 0 to |ops|
      invariant (Doc(current, usingMissingDefault), errors) == ApplyAll(Start(oldValue), ops[..opIndex])
    {
      assert ops[..opIndex + 1][..opIndex] == ops[..opIndex];
      var fault;
      current, usingMissingDefault, fault := RunOp(current, usingMissingDefault, ops[opIndex]);
      ghost var before := errors;
      if fault.Some? {
        errors := errors + [OpError(opIndex, fault.value)];
      }
      assert errors == before + ErrorAt(opIndex, fault);
    }
    assert ops[..|ops|] == ops;
  }

  /** Walk to the object at `segments`, making each node on the way an object before entering it. */
  method WalkOrCreate(current: Json, segments: Path) returns (walked: Json, target: map<string, Json>)
    ensures target == GetAt(current, segments)
    ensures walked == PutAt(current, segments, target)
  {
    target := if current.Obj? then current.fields else map[];
    walked := Obj(target);
    assert segments[..0] == [];
    for i := 0 to |segments|
      invariant target == GetAt(current, segments[..i])
      invariant walked == PutAt(current, segments[..i], target)
    {
      var segment := segments[i];
      assert segments[..i + 1] == segments[..i] + [segment];
      GetOneFurther(current, segments[..i], segment);
      target := if segment in target && target[segment].Obj? then target[segment].fields else map[];
      PutOneFurther(current, segments[..i], segment, target);
      walked := PutAt(walked, segments[..i + 1], target);
    }
    assert segments[..|segments|] == segments;
  }

  method RunOp(document: Json, flag: bool, op: UpdateOp)
    returns (current: Json, usingMissingDefault: bool, fault: Option<string>)
    ensures (Doc(current, usingMissingDefault), fault) == ApplyOp(Doc(document, flag), op)
  {
    match op
    case Set(field, value) => current, usingMissingDefault, fault := RunSet(document, flag, field, value);
    case Merge(path, patch) => current, usingMissingDefault, fault := RunMerge(document, flag, path, patch);
    case Increment(field, delta) => current, usingMissingDefault, fault := RunIncrement(document, flag, field, delta);
    case Decrement(field, delta) => current, usingMissingDefault, fault := RunDecrement(document, flag, field, delta);
    case Append(path, item) => current, usingMissingDefault, fault := RunAppend(document, flag, path, item);
    case Remove(field) => current, usingMissingDefault, fault := RunRemove(document, flag, field);
  }

  method RunSet(document: Json, flag: bool, field: string, value: Option<Json>)
    returns (current: Json, usingMissingDefault: bool, fault: Option<string>)
    ensures (Doc(current, usingMissingDefault), fault) == ApplyOp(Doc(document, flag), Set(field, value))
  {
    current, usingMissingDefault := document, flag;
    fault := ValidateOpPath("set", FieldSegments(field));
    if fault.Some? {
      return;
    }
    if field == "" {
      current := OrNull(value);
      usingMissingDefault := false;
    } else if current.Obj? {
      current := Obj(current.fields[field := OrNull(value)]);
      usingMissingDefault := false;
    } else {
      fault := Some("set.target_not_object");
    }
  }

  method RunMerge(document: Json, flag: bool, path: Option<MergePath>, patch: Json)
    returns (current: Json, usingMissingDefault: bool, fault: Option<string>)
    ensures (Doc(current, usingMissingDefault), fault) == ApplyOp(Doc(document, flag), Merge(path, patch))
  {
    current, usingMissingDefault := document, flag;
    var segments := PathSegments(path);
    fault := ValidateOpPath("merge", segments);
    if fault.Some? {
      return;
    }
    fault := ValueCode(patch);
    if fault.Some? {
      return;
    }
    if segments == [] {
      if current.Obj? {
        current := Obj(current.fields + patch.fields);
        usingMissingDefault := false;
      }
    } else {
      var walked, target := WalkOrCreate(current, segments);
      PutPut(current, segments, target, target + patch.fields);
      current := PutAt(walked, segments, target + patch.fields);
      usingMissingDefault := false;
    }
  }

  method RunIncrement(document: Json, flag: bool, field: string, delta: I64)
    returns (current: Json, usingMissingDefault: bool, fault: Option<string>)
    ensures (Doc(current, usingMissingDefault), fault) == ApplyOp(Doc(document, flag), Increment(field, delta))
  {
    current, usingMissingDefault := document, flag;
    fault := ValidateOpPath("increment", FieldSegments(field));
    if fault.Some? {
      return;
    }
    if field == "" {
      if usingMissingDefault {
        current := Int(delta);
      } else {
        var updated := IncrementNumber(current, delta);
        if updated.None? {
          fault := Some("increment" + ".not_number");
          return;
        }
        current := updated.value;
      }
      usingMissingDefault := false;
    } else if current.Obj? {
      if field in current.fields {
        var updated := IncrementNumber(current.fields[field], delta);
        if updated.None? {
          fault := Some("increment" + ".not_number");
          return;
        }
        current := Obj(current.fields[field := updated.value]);
      } else {
        current := Obj(current.fields[field := Int(delta)]);
      }
      usingMissingDefault := false;
    } else {
      fault := Some("increment" + ".target_not_object");
    }
  }

  method RunDecrement(document: Json, flag: bool, field: string, delta: I64)
    returns (current: Json, usingMissingDefault: bool, fault: Option<string>)
    ensures (Doc(current, usingMissingDefault), fault) == ApplyOp(Doc(document, flag), Decrement(field, delta))
  {
    current, usingMissingDefault := document, flag;
    fault := ValidateOpPath("decrement", FieldSegments(field));
    if fault.Some? {
      return;
    }
    if field == "" {
      if usingMissingDefault {
        current := MissingDecrement(delta);
      } else {
        var updated := DecrementNumber(current, delta);
        if updated.None? {
          fault := Some("decrement" + ".not_number");
          return;
        }
        current := updated.value;
      }
      usingMissingDefault := false;
    } else if current.Obj? {
      if field in current.fields {
        var updated := DecrementNumber(current.fields[field], delta);
        if updated.None? {
          fault := Some("decrement" + ".not_number");
          return;
        }
        current := Obj(current.fields[field := updated.value]);
      } else {
        current := Obj(current.fields[field := MissingDecrement(delta)]);
      }
      usingMissingDefault := false;
    } else {
      fault := Some("decrement" + ".target_not_object");
    }
  }

  method RunAppend(document: Json, flag: bool, path: Option<MergePath>, item: Json)
    returns (current: Json, usingMissingDefault: bool, fault: Option<string>)
    ensures (Doc(current, usingMissingDefault), fault) == ApplyOp(Doc(document, flag), Append(path, item))
  {
    current, usingMissingDefault := document, flag;
    var segments := PathSegments(path);
    fault := ValidateOpPath("append", segments);
    if fault.Some? {
      return;
    }
    if segments == [] {
      if usingMissingDefault {
        current := Null;
      }
      var appended := AppendTo(current, item);
      if appended.Some? {
        current := appended.value;
        usingMissingDefault := false;
      } else {
        fault := Some("append.type_mismatch");
      }
    } else if !current.Obj? {
      fault := Some("append.target_not_object");
    } else {
      var parents, leaf := segments[..|segments| - 1], segments[|segments| - 1];
      var walked, parent := WalkOrCreate(current, parents);
      ghost var found := parent;
      if leaf in parent {
        var appended := AppendTo(parent[leaf], item);
        if appended.Some? {
          parent := parent[leaf := appended.value];
        } else {
          fault := Some("append.type_mismatch");
        }
      } else if |segments| == 1 {
        parent := parent[leaf := InitialAppend(item)];
      } else {
        parent := parent[leaf := Arr([item])];
      }
      PutPut(current, parents, found, parent);
      current := PutAt(walked, parents, parent);
      usingMissingDefault := false;
    }
  }

  method RunRemove(document: Json, flag: bool, field: string)
    returns (current: Json, usingMissingDefault: bool, fault: Option<string>)
    ensures (Doc(current, usingMissingDefault), fault) == ApplyOp(Doc(document, flag), Remove(field))
  {
    current, usingMissingDefault := document, flag;
    fault := ValidateOpPath("remove", FieldSegments(field));
    if fault.Some? {
      return;
    }
    if field == "" {
      current := Null;
      usingMissingDefault := false;
    } else if current.Obj? {
      current := Obj(current.fields - {field});
      usingMissingDefault := false;
    } else {
      fault := Some("remove.target_not_object");
    }
  }
}

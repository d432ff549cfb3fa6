/** What batches of update operations promise: skipped failures, splitting, missing values, merges, depth, counting. */
module UpdateLaws {
  import opened Options
  import opened Documents
  import opened UpdateOps

  // ---- Failures are skipped, exactly -------------------------------------------------------------------------

  /** While the flag is up the document is still the empty default. */
  predicate Sound(d: Doc) {
    d.missing ==> d.current == Obj(map[])
  }

  lemma OpKeepsSound(d: Doc, op: UpdateOp)
    requires Sound(d)
    ensures Sound(ApplyOp(d, op).0)
  {
  }

  /** The walk of a nested append that fails went through objects only: it created nothing. */
  lemma FoundMemberMeansWalked(v: Json, path: Path, key: string)
    requires key in GetAt(v, path)
    ensures PutAt(v, path, GetAt(v, path)) == v
  {
    WalkFindsObject(v, path);
    PutGet(v, path);
  }

  /** An operation that reports an error changes neither the document nor the flag. */
  lemma FaultIsNoOp(d: Doc, op: UpdateOp)
    requires Sound(d) && ApplyOp(d, op).1.Some?
    ensures ApplyOp(d, op).0 == d
  {
    if op.Append? {
      var segments := PathSegments(op.path);
      if PathFault(segments).None? && segments != [] && d.current.Obj? {
        var parents, leaf := segments[..|segments| - 1], segments[|segments| - 1];
        FoundMemberMeansWalked(d.current, parents, leaf);
        if d.missing { WalkFindsObject(d.current, parents); }
      }
    }
  }

  lemma {:induction false} BatchKeepsSound(d: Doc, ops: seq<UpdateOp>)
    requires Sound(d)
    ensures Sound(ApplyAll(d, ops).0)
    decreases |ops|
  {
    if ops != [] {
      BatchKeepsSound(d, ops[..|ops| - 1]);
      OpKeepsSound(ApplyAll(d, ops[..|ops| - 1]).0, ops[|ops| - 1]);
    }
  }

  /** The operations of a batch that report no error when their turn comes. */
  function Effective(d: Doc, ops: seq<UpdateOp>): seq<UpdateOp> {
    if ops == [] then []
    else
      var init, last := ops[..|ops| - 1], ops[|ops| - 1];
      Effective(d, init) + if ApplyOp(ApplyAll(d, init).0, last).1.None? then [last] else []
  }

  /** A batch comes to the same as the batch of its effective operations alone, and that one reports nothing. */
  lemma {:induction false} FailuresAreSkipped(d: Doc, ops: seq<UpdateOp>)
    requires Sound(d)
    ensures ApplyAll(d, Effective(d, ops)) == (ApplyAll(d, ops).0, [])
    decreases |ops|
  {
    if ops != [] {
      var init, last := ops[..|ops| - 1], ops[|ops| - 1];
      FailuresAreSkipped(d, init);
      BatchKeepsSound(d, init);
      var earlier := ApplyAll(d, init).0;
      if ApplyOp(earlier, last).1.None? {
        assert Effective(d, ops)[..|Effective(d, ops)| - 1] == Effective(d, init);
      } else {
        FaultIsNoOp(earlier, last);
        assert Effective(d, ops) == Effective(d, init);
      }
    }
  }

  /** At most one error per operation, in the order of the operations; one for each that is not effective. */
  lemma {:induction false} ErrorsAreOrdered(d: Doc, ops: seq<UpdateOp>)
    ensures
      var errors := ApplyAll(d, ops).1;
      && (forall i | 0 <= i < |errors| :: errors[i].opIndex < |ops|)
      && (forall i, j | 0 <= i < j < |errors| :: errors[i].opIndex < errors[j].opIndex)
      && |errors| + |Effective(d, ops)| == |ops|
    decreases |ops|
  {
    if ops != [] { ErrorsAreOrdered(d, ops[..|ops| - 1]); }
  }

  /** The error the operation at `k` reports when its turn comes. */
  function FaultAt(d: Doc, ops: seq<UpdateOp>, k: nat): Option<string>
    requires k < |ops|
  {
    ApplyOp(ApplyAll(d, ops[..k]).0, ops[k]).1
  }

  /** Errors name their operation: one is listed under an index exactly when the operation there reported its code. */
  lemma {:induction false} ErrorsNameTheirOperation(d: Doc, ops: seq<UpdateOp>, k: nat, code: string)
    ensures OpError(k, code) in ApplyAll(d, ops).1 <==> k < |ops| && FaultAt(d, ops, k) == Some(code)
    decreases |ops|
  {
    if ops != [] {
      var init, n := ops[..|ops| - 1], |ops| - 1;
      ErrorsNameTheirOperation(d, init, k, code);
      if k < n { assert init[..k] == ops[..k] && init[k] == ops[k]; }
      var fault := ErrorAt(n, FaultAt(d, ops, n));
      assert ApplyAll(d, ops).1 == ApplyAll(d, init).1 + fault;
      assert OpError(k, code) in fault <==> k == n && FaultAt(d, ops, n) == Some(code);
    }
  }

  // ---- Splitting a batch -------------------------------------------------------------------------------------

  function Shifted(errors: seq<OpError>, offset: nat): (shifted: seq<OpError>)
    ensures |shifted| == |errors|
  {
    seq(|errors|, i requires 0 <= i < |errors| => OpError(errors[i].opIndex + offset, errors[i].code))
  }

  lemma ShiftOneMore(errors: seq<OpError>, more: seq<OpError>, index: nat, fault: Option<string>, offset: nat)
    ensures errors + Shifted(more, offset) + ErrorAt(offset + index, fault)
            == errors + Shifted(more + ErrorAt(index, fault), offset)
  {
  }

  lemma OneOpBatch(d: Doc, op: UpdateOp)
    ensures ApplyAll(d, [op]) == (ApplyOp(d, op).0, ErrorAt(0, ApplyOp(d, op).1))
  {
    assert [op][..0] == [] && ApplyAll(d, []) == (d, []);
    assert [] + ErrorAt(0, ApplyOp(d, op).1) == ErrorAt(0, ApplyOp(d, op).1);
  }

  lemma {:induction false} StepsCompose<D, O>(
      step: (D, O) -> (D, Option<string>), d: D, first: seq<O>, second: seq<O>)
    ensures
      var (middle, errors) := RunSteps(step, d, first);
      var (last, more) := RunSteps(step, middle, second);
      RunSteps(step, d, first + second) == (last, errors + Shifted(more, |first|))
    decreases |second|
  {
    var (middle, errors) := RunSteps(step, d, first);
    if second == [] {
      assert first + second == first;
      assert errors + Shifted([], |first|) == errors;
    } else {
      var init, last := second[..|second| - 1], second[|second| - 1];
      StepsCompose(step, d, first, init);
      assert (first + second)[..|first + second| - 1] == first + init;
      var (before, more) := RunSteps(step, middle, init);
      ShiftOneMore(errors, more, |init|, step(before, last).1, |first|);
    }
  }

  /** Applying `first + second` is applying `first`, then `second`, whose error indexes count from the split. */
  lemma BatchesCompose(d: Doc, first: seq<UpdateOp>, second: seq<UpdateOp>)
    ensures
      var (middle, errors) := ApplyAll(d, first);
      var (last, more) := ApplyAll(middle, second);
      ApplyAll(d, first + second) == (last, errors + Shifted(more, |first|))
  {
    StepsCompose(ApplyOp, d, first, second);
  }

  lemma OpKeepsPresent(d: Doc, op: UpdateOp)
    requires !d.missing
    ensures !ApplyOp(d, op).0.missing
  {
  }

  lemma {:induction false} BatchKeepsPresent(d: Doc, ops: seq<UpdateOp>)
    requires !d.missing
    ensures !ApplyAll(d, ops).0.missing
    decreases |ops|
  {
    if ops != [] {
      BatchKeepsPresent(d, ops[..|ops| - 1]);
      OpKeepsPresent(ApplyAll(d, ops[..|ops| - 1]).0, ops[|ops| - 1]);
    }
  }

  /** On a stored value, a caller may split a batch in two calls anywhere. */
  lemma SplitCalls(value: Json, first: seq<UpdateOp>, second: seq<UpdateOp>)
    ensures
      var (middle, errors) := Apply(Some(value), first);
      var (last, more) := Apply(Some(middle), second);
      Apply(Some(value), first + second) == (last, errors + Shifted(more, |first|))
  {
    BatchesCompose(Start(Some(value)), first, second);
    BatchKeepsPresent(Start(Some(value)), first);
  }

  // ---- A missing value ---------------------------------------------------------------------------------------

  predicate WellFormed(op: UpdateOp) {
    match op
    case Set(field, _) => PathFault(FieldSegments(field)).None?
    case Merge(path, patch) => PathFault(PathSegments(path)).None? && ValueCode(patch).None?
    case Increment(field, _) => PathFault(FieldSegments(field)).None?
    case Decrement(field, _) => PathFault(FieldSegments(field)).None?
    case Append(path, _) => PathFault(PathSegments(path)).None?
    case Remove(field) => PathFault(FieldSegments(field)).None?
  }

  /** Operations on the root that read the old value as a number, a string or an array. */
  predicate ReadsRoot(op: UpdateOp) {
    match op
    case Increment(field, _) => field == ""
    case Decrement(field, _) => field == ""
    case Append(path, _) => PathSegments(path) == []
    case _ => false
  }

  /** The first valid operation of the batch reads the root. */
  predicate StartsByReadingRoot(ops: seq<UpdateOp>) {
    ops != [] && if WellFormed(ops[0]) then ReadsRoot(ops[0]) else StartsByReadingRoot(ops[1..])
  }

  const MISSING := Doc(Obj(map[]), true)
  const EMPTY := Doc(Obj(map[]), false)

  /** On the default only validation fails; a valid operation tells it from `{}` exactly when it reads the root. */
  lemma FirstOpOnDefault(op: UpdateOp)
    ensures ApplyOp(MISSING, op).1.None? <==> WellFormed(op)
    ensures WellFormed(op) && !ReadsRoot(op) ==> ApplyOp(EMPTY, op) == ApplyOp(MISSING, op)
    ensures ReadsRoot(op) && WellFormed(op) ==> ApplyOp(EMPTY, op).1.Some? && ApplyOp(EMPTY, op).0 == EMPTY
    ensures !WellFormed(op) ==>
              ApplyOp(MISSING, op).0 == MISSING && ApplyOp(EMPTY, op) == (EMPTY, ApplyOp(MISSING, op).1)
  {
    if op.Append? {
      var segments := PathSegments(op.path);
      if segments != [] { WalkFindsObject(Obj(map[]), segments[..|segments| - 1]); }
    }
  }

  lemma ShiftIsInjective(errors: seq<OpError>, others: seq<OpError>, offset: nat)
    requires Shifted(errors, offset) == Shifted(others, offset)
    ensures errors == others
  {
    forall i | 0 <= i < |errors| ensures errors[i] == others[i] {
      assert Shifted(errors, offset)[i] == Shifted(others, offset)[i];
    }
  }

  lemma FirstThenRest(d: Doc, ops: seq<UpdateOp>)
    requires ops != []
    ensures
      var (middle, fault) := ApplyOp(d, ops[0]);
      var (last, more) := ApplyAll(middle, ops[1..]);
      ApplyAll(d, ops) == (last, ErrorAt(0, fault) + Shifted(more, 1))
  {
    assert ops == [ops[0]] + ops[1..];
    OneOpBatch(d, ops[0]);
    BatchesCompose(d, [ops[0]], ops[1..]);
  }

  lemma SameAfterFault(fault: Option<string>, errors: seq<OpError>, others: seq<OpError>)
    ensures ErrorAt(0, fault) + Shifted(errors, 1) == ErrorAt(0, fault) + Shifted(others, 1) <==> errors == others
  {
    var k := |ErrorAt(0, fault)|;
    if ErrorAt(0, fault) + Shifted(errors, 1) == ErrorAt(0, fault) + Shifted(others, 1) {
      assert (ErrorAt(0, fault) + Shifted(errors, 1))[k..] == Shifted(errors, 1);
      assert (ErrorAt(0, fault) + Shifted(others, 1))[k..] == Shifted(others, 1);
      ShiftIsInjective(errors, others, 1);
    }
  }

  lemma ErrorFirstDiffers(code: string, errors: seq<OpError>, others: seq<OpError>)
    ensures ErrorAt(0, Some(code)) + Shifted(errors, 1) != ErrorAt(0, None) + Shifted(others, 1)
  {
    assert (ErrorAt(0, Some(code)) + Shifted(errors, 1))[0].opIndex == 0;
    assert ErrorAt(0, None) + Shifted(others, 1) == Shifted(others, 1);
    if others != [] { assert Shifted(others, 1)[0].opIndex == others[0].opIndex + 1; }
  }

  /** A missing value is treated as `{}` by exactly the batches whose first valid operation does not read the root. */
  lemma {:induction false} MissingIsEmpty(ops: seq<UpdateOp>)
    ensures Apply(None, ops) == Apply(Some(Obj(map[])), ops) <==> !StartsByReadingRoot(ops)
    decreases |ops|
  {
    if ops != [] {
      var op, rest := ops[0], ops[1..];
      FirstOpOnDefault(op);
      FirstThenRest(MISSING, ops);
      FirstThenRest(EMPTY, ops);
      if !WellFormed(op) {
        MissingIsEmpty(rest);
        SameAfterFault(ApplyOp(MISSING, op).1, ApplyAll(MISSING, rest).1, ApplyAll(EMPTY, rest).1);
      } else if ReadsRoot(op) {
        ErrorFirstDiffers(ApplyOp(EMPTY, op).1.value, ApplyAll(EMPTY, rest).1,
                          ApplyAll(ApplyOp(MISSING, op).0, rest).1);
      }
    }
  }

  // ---- Reading back ------------------------------------------------------------------------------------------

  /** A set that reports no error is read back at its field, and leaves every other field alone. */
  lemma SetReadsBack(d: Doc, field: string, value: Option<Json>, q: Path)
    requires field != "" && ApplyOp(d, Set(field, value)).1.None?
    ensures
      var after := ApplyOp(d, Set(field, value)).0.current;
      && At(after, [field]) == Some(OrNull(value))
      && (q != [] && q[0] != field ==> At(after, q) == At(d.current, q))
  {
    var after := ApplyOp(d, Set(field, value)).0.current;
    assert At(after, [field]) == At(after.fields[field], []);
  }

  /** A removed field is gone, the others are not. */
  lemma RemoveReadsBack(d: Doc, field: string, q: Path)
    requires field != "" && ApplyOp(d, Remove(field)).1.None?
    ensures
      var after := ApplyOp(d, Remove(field)).0.current;
      && At(after, [field]) == None
      && (q != [] && q[0] != field ==> At(after, q) == At(d.current, q))
  {
  }

  /** What an append leaves at its leaf, going by what was there; a leaf created below the first level is an array. */
  function Appended(before: Option<Json>, depth: nat, item: Json): Option<Json> {
    match before
    case Some(Arr(items)) => Some(Arr(items + [item]))
    case Some(Str(text)) => if item.Str? then Some(Str(text + item.text)) else None
    case Some(Null) => Some(if item.Str? then item else Arr([item]))
    case Some(_) => None
    case None => Some(if depth == 1 && item.Str? then item else Arr([item]))
  }

  lemma LeafOf(v: Json, parents: Path, leaf: string)
    ensures At(v, parents + [leaf]) == if leaf in GetAt(v, parents) then Some(GetAt(v, parents)[leaf]) else None
    decreases |parents|
  {
    if parents == [] {
      assert [leaf][1..] == [] && parents + [leaf] == [leaf];
    } else {
      assert (parents + [leaf])[1..] == parents[1..] + [leaf];
      LeafOf(Child(v, parents[0]), parents[1..], leaf);
      if parents[0] !in FieldsOf(v) {
        WalkFindsObject(Obj(map[]), parents[1..]);
        LeafOf(Obj(map[]), parents[1..], leaf);
      }
    }
  }

  /** An append fails exactly on a leaf it does not fit; else the leaf is extended and all else reads as before. */
  lemma AppendReadsBack(d: Doc, path: Option<MergePath>, item: Json, q: Path)
    requires WellFormed(Append(path, item)) && PathSegments(path) != [] && d.current.Obj?
    ensures
      var segments := PathSegments(path);
      var (after, fault) := ApplyOp(d, Append(path, item));
      var expected := Appended(At(d.current, segments), |segments|, item);
      && (fault.None? <==> expected.Some?)
      && (fault.None? ==> At(after.current, segments) == expected)
      && (!(q <= segments) && !(segments <= q) ==> At(after.current, q) == At(d.current, q))
  {
    var segments := PathSegments(path);
    var parents, leaf := segments[..|segments| - 1], segments[|segments| - 1];
    assert segments == parents + [leaf];
    var parent := GetAt(d.current, parents);
    LeafOf(d.current, parents, leaf);
    var (after, fault) := AppendOp(d, segments, item);
    if fault.Some? {
      assert after.current == PutAt(d.current, parents, parent);
      LeafWrite(d.current, parents, leaf, parent, q);
    } else {
      var expected := Appended(At(d.current, segments), |segments|, item).value;
      assert after.current == PutAt(d.current, parents, parent[leaf := expected]);
      LeafWrite(d.current, parents, leaf, parent[leaf := expected], q);
    }
  }

  /** A write that changes one leaf is read there, and nowhere off its path. */
  lemma LeafWrite(v: Json, parents: Path, leaf: string, fields: map<string, Json>, q: Path)
    requires fields - {leaf} == GetAt(v, parents) - {leaf}
    ensures At(PutAt(v, parents, fields), parents + [leaf]) == if leaf in fields then Some(fields[leaf]) else None
    ensures !(q <= parents + [leaf]) && !(parents + [leaf] <= q) ==> At(PutAt(v, parents, fields), q) == At(v, q)
  {
    LeafOf(PutAt(v, parents, fields), parents, leaf);
    GetPut(v, parents, fields);
    if !(q <= parents + [leaf]) && !(parents + [leaf] <= q) {
      OffLeafIsUntouched(v, parents, leaf, fields, q);
      PutFrame(v, parents, fields, q);
    }
  }

  lemma OffLeafIsUntouched(v: Json, parents: Path, leaf: string, fields: map<string, Json>, q: Path)
    requires fields - {leaf} == GetAt(v, parents) - {leaf}
    requires !(q <= parents + [leaf]) && !(parents + [leaf] <= q)
    ensures Documents.Untouched(v, parents, fields, q)
  {
    var parent := GetAt(v, parents);
    if parents <= q && |parents| < |q| {
      var key := q[|parents|];
      assert key == leaf ==> parents + [leaf] <= q;
      assert key in fields <==> key in fields - {leaf};
      assert key in parent <==> key in parent - {leaf};
      assert key in fields ==> fields[key] == (fields - {leaf})[key] == (parent - {leaf})[key];
    }
  }

  // ---- Merging at a path -------------------------------------------------------------------------------------

  /** A valid merge overlays the object at its path with the patch; only a root that is no object ignores it. */
  lemma MergeOverlays(d: Doc, path: Option<MergePath>, patch: Json)
    requires WellFormed(Merge(path, patch))
    ensures
      var segments, (after, fault) := PathSegments(path), ApplyOp(d, Merge(path, patch));
      && fault.None?
      && (segments != [] || d.current.Obj? ==>
            At(after.current, segments) == Some(Obj(ObjectAt(d.current, segments) + patch.fields)) && !after.missing)
      && (segments == [] && !d.current.Obj? ==> after == d)
  {
    var segments := PathSegments(path);
    WalkFindsObject(d.current, segments);
    GetPut(d.current, segments, GetAt(d.current, segments) + patch.fields);
  }

  lemma PatchFrame(v: Json, path: Path, patch: map<string, Json>, q: Path)
    requires !(q <= path)
    requires forall key <- patch :: !(path + [key] <= q)
    ensures At(PutAt(v, path, GetAt(v, path) + patch), q) == At(v, q)
  {
    if path <= q && |path| < |q| {
      assert path + [q[|path|]] <= q;
    }
    PutFrame(v, path, GetAt(v, path) + patch, q);
  }

  /** Whatever path neither leads to the merged object nor through a merged key reads as before. */
  lemma MergeLeavesTheRest(d: Doc, path: Option<MergePath>, patch: Json, q: Path)
    requires patch.Obj?
    requires !(q <= PathSegments(path))
    requires forall key <- patch.fields :: !(PathSegments(path) + [key] <= q)
    ensures At(ApplyOp(d, Merge(path, patch)).0.current, q) == At(d.current, q)
  {
    PatchFrame(d.current, PathSegments(path), patch.fields, q);
  }

  /** Merging twice at one path is merging the overlaid patch once. */
  lemma MergesFuse(v: Json, path: Path, first: map<string, Json>, second: map<string, Json>)
    ensures
      var once := PutAt(v, path, GetAt(v, path) + first);
      PutAt(once, path, GetAt(once, path) + second) == PutAt(v, path, GetAt(v, path) + (first + second))
  {
    GetPut(v, path, GetAt(v, path) + first);
    PutPut(v, path, GetAt(v, path) + first, GetAt(v, path) + first + second);
    assert GetAt(v, path) + first + second == GetAt(v, path) + (first + second);
  }

  // ---- Depth -------------------------------------------------------------------------------------------------

  const DEPTH_BOUND: nat := MAX_PATH_DEPTH + MAX_VALUE_DEPTH

  lemma MergeDepth(d: Doc, path: Option<MergePath>, patch: Json, bound: nat)
    requires Depth(d.current) <= bound && DEPTH_BOUND <= bound
    ensures Depth(ApplyOp(d, Merge(path, patch)).0.current) <= bound
  {
    var segments := PathSegments(path);
    if WellFormed(Merge(path, patch)) {
      var target := GetAt(d.current, segments);
      GetDepth(d.current, segments, bound);
      OverlayDepth(target, patch.fields, bound - |segments|);
      PutDepth(d.current, segments, target + patch.fields, bound);
    }
  }

  /** However many merges a document goes through, it gets no deeper than it was or than one merge can reach. */
  lemma {:induction false} MergesStayShallow(d: Doc, ops: seq<UpdateOp>)
    requires forall op <- ops :: op.Merge?
    ensures
      var bound := if Depth(d.current) < DEPTH_BOUND then DEPTH_BOUND else Depth(d.current);
      Depth(ApplyAll(d, ops).0.current) <= bound
    decreases |ops|
  {
    if ops != [] {
      var init, last := ops[..|ops| - 1], ops[|ops| - 1];
      var bound := if Depth(d.current) < DEPTH_BOUND then DEPTH_BOUND else Depth(d.current);
      MergesStayShallow(d, init);
      assert last in ops;
      MergeDepth(ApplyAll(d, init).0, last.path, last.patch, bound);
    }
  }

  // ---- Counting ----------------------------------------------------------------------------------------------

  predicate InRange(n: int) {
    -0x8000_0000_0000_0000 <= n < 0x1_0000_0000_0000_0000
  }

  /** The two-stage machine arithmetic is exact integer arithmetic, and fails exactly when the result does not fit. */
  lemma ArithmeticIsExact(n: JsonInt, delta: I64)
    ensures IncrementNumber(Int(n), delta) == if InRange(n + delta) then Some(Int(n + delta)) else None
    ensures DecrementNumber(Int(n), delta) == if InRange(n - delta) then Some(Int(n - delta)) else None
    ensures DecrementNumber(Int(0), delta) == Some(MissingDecrement(delta))
    ensures IncrementNumber(Int(0), delta) == Some(Int(delta))
  {
  }

  lemma DecrementUndoesIncrement(n: JsonInt, delta: I64)
    requires IncrementNumber(Int(n), delta).Some?
    ensures DecrementNumber(IncrementNumber(Int(n), delta).value, delta) == Some(Int(n))
  {
    ArithmeticIsExact(n, delta);
    ArithmeticIsExact(n + delta, delta);
  }

  /** The signed amount by which an operation counts `field`; other operations do not count it. */
  predicate Counts(op: UpdateOp, field: string) {
    (op.Increment? || op.Decrement?) && op.field == field
  }

  function Amount(op: UpdateOp): int {
    match op
    case Increment(_, delta) => delta
    case Decrement(_, delta) => 0 - delta
    case _ => 0
  }

  function Total(ops: seq<UpdateOp>): int {
    if ops == [] then 0 else Total(ops[..|ops| - 1]) + Amount(ops[|ops| - 1])
  }

  /**
   `field` counts `sum` in `d`, and every other field is as in `start`. A missing field counts zero. The empty field is
   the document itself, and counts zero while it is only the default for a missing value.
   */
  predicate CountedTo(start: Doc, d: Doc, field: string, sum: int) {
    && InRange(sum)
    && if field == "" then
         if d.missing then sum == 0 else d.current == Int(sum)
       else
         && d.current.Obj? && start.current.Obj?
         && (if field in d.current.fields then d.current.fields[field] == Int(sum) else sum == 0)
         && d.current.fields - {field} == start.current.fields - {field}
  }

  /** A count is reported exactly when the sum does not fit, and then changes nothing. */
  lemma CountFailsWhenOutOfRange(start: Doc, d: Doc, op: UpdateOp, field: string, sum: int)
    requires PathFault(FieldSegments(field)).None? && Counts(op, field) && CountedTo(start, d, field, sum)
    ensures ApplyOp(d, op).1.None? <==> InRange(sum + Amount(op))
    ensures ApplyOp(d, op).1.Some? ==> ApplyOp(d, op).0 == d
  {
    ArithmeticIsExact(sum, op.delta);
  }

  lemma CountStep(start: Doc, d: Doc, field: string, sum: int, op: UpdateOp)
    requires PathFault(FieldSegments(field)).None? && CountedTo(start, d, field, sum)
    requires Counts(op, field) && InRange(sum + Amount(op))
    ensures
      var (after, fault) := ApplyOp(d, op);
      fault.None? && !after.missing && CountedTo(start, after, field, sum + Amount(op))
  {
    ArithmeticIsExact(sum, op.delta);
    ArithmeticIsExact(0, op.delta);
    if field != "" {
      var counted := Int(sum + Amount(op));
      assert ApplyOp(d, op).0.current.fields == d.current.fields[field := counted];
      assert d.current.fields[field := counted] - {field} == d.current.fields - {field};
    }
  }

  /** Counting from `n`, no partial sum of the batch leaves the range. */
  ghost predicate PartialSumsFit(n: int, ops: seq<UpdateOp>) {
    forall i | 0 <= i <= |ops| :: InRange(n + Total(ops[..i]))
  }

  /**
   While no partial sum leaves the range, a batch of counts, on a field or on the document itself, adds up: no errors,
   and the old value plus the total.
   */
  lemma {:induction false} CountsAddUp(d: Doc, field: string, n: int, ops: seq<UpdateOp>)
    requires PathFault(FieldSegments(field)).None? && CountedTo(d, d, field, n)
    requires forall op <- ops :: Counts(op, field)
    requires PartialSumsFit(n, ops)
    ensures ApplyAll(d, ops).1 == [] && CountedTo(d, ApplyAll(d, ops).0, field, n + Total(ops))
    ensures if ops == [] then ApplyAll(d, ops).0 == d else !ApplyAll(d, ops).0.missing
    decreases |ops|
  {
    assert ops[..|ops|] == ops;
    if ops != [] {
      var init, last := ops[..|ops| - 1], ops[|ops| - 1];
      forall i | 0 <= i <= |init| ensures InRange(n + Total(init[..i])) {
        assert init[..i] == ops[..i];
      }
      CountsAddUp(d, field, n, init);
      assert last in ops;
      CountStep(d, ApplyAll(d, init).0, field, n + Total(init), last);
    }
  }

  /** So a batch of counts on the default for a missing value, or on an integer, leaves their total and no error. */
  lemma {:induction false} RootCountsAddUp(d: Doc, n: int, ops: seq<UpdateOp>)
    requires ops != [] && CountedTo(d, d, "", n)
    requires forall op <- ops :: Counts(op, "")
    requires PartialSumsFit(n, ops)
    ensures InRange(n + Total(ops)) && ApplyAll(d, ops) == (Doc(Int(n + Total(ops)), false), [])
  {
    assert FieldSegments("") == [] && PathFault([]).None?;
    CountsAddUp(d, "", n, ops);
    RootIsCount(d, ApplyAll(d, ops).0, n + Total(ops));
  }

  lemma RootIsCount(start: Doc, d: Doc, sum: int)
    requires CountedTo(start, d, "", sum) && !d.missing
    ensures InRange(sum) && d == Doc(Int(sum), false)
  {
  }
}

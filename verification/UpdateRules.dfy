/** When an update operation fails and with what code, what it does to the root, and paths as callers give them. */
module UpdateRules {
  import opened Options
  import opened Documents
  import opened UpdateOps
  import opened UpdateLaws

  // ---- Names and values --------------------------------------------------------------------------------------

  /** A name that may stand in a path. */
  predicate GoodName(name: string) {
    name != "" && Utf8Length(name) <= 256 && name != "__proto__" && name != "constructor" && name != "prototype"
  }

  predicate GoodPath(keys: Path) {
    |keys| <= 32 && forall i | 0 <= i < |keys| :: GoodName(keys[i])
  }

  /** Between one and four bytes a character, and one for each exactly in plain text. */
  lemma {:induction false} BytesPerCharacter(name: string)
    ensures |name| <= Utf8Length(name) <= 4 * |name|
    ensures Utf8Length(name) == |name| <==> forall i | 0 <= i < |name| :: name[i] < 128 as char
    decreases |name|
  {
    if name != "" {
      BytesPerCharacter(name[1..]);
      assert forall i | 0 <= i < |name| - 1 :: name[1..][i] == name[i + 1];
      assert (forall i | 0 <= i < |name| :: name[i] < 128 as char)
        <==> name[0] < 128 as char && forall i | 0 <= i < |name[1..]| :: name[1..][i] < 128 as char;
    }
  }

  /** A path is accepted exactly when it is short enough and all of its names are good. */
  lemma {:induction false} PathRules(keys: Path)
    ensures FirstSegmentFault(keys).None? <==> forall i | 0 <= i < |keys| :: GoodName(keys[i])
    ensures PathFault(keys).None? <==> GoodPath(keys)
    decreases |keys|
  {
    if keys != [] {
      PathRules(keys[1..]);
      assert (forall i | 0 <= i < |keys| :: GoodName(keys[i]))
        <==> GoodName(keys[0]) && forall i | 0 <= i < |keys[1..]| :: GoodName(keys[1..][i]) by {
        assert forall i | 0 <= i < |keys| - 1 :: keys[1..][i] == keys[i + 1];
      }
    }
  }

  /** The reason a path is refused: its length first, then its first bad name, empty before too long before reserved. */
  lemma {:induction false} PathReasons(keys: Path, i: nat)
    requires i < |keys| && !GoodName(keys[i]) && forall j | 0 <= j < i :: GoodName(keys[j])
    ensures FirstSegmentFault(keys)
            == Some(if keys[i] == "" then "empty_segment"
                    else if Utf8Length(keys[i]) > 256 then "segment_too_long" else "proto_polluted")
    ensures PathFault(keys) == if |keys| > 32 then Some("too_deep") else FirstSegmentFault(keys)
    decreases |keys|
  {
    if i > 0 {
      assert GoodName(keys[0]);
      assert keys[1..][i - 1] == keys[i];
      forall j | 0 <= j < i - 1 ensures GoodName(keys[1..][j]) {
        assert GoodName(keys[j + 1]);
      }
      PathReasons(keys[1..], i - 1);
    }
  }

  /** What may be merged: an object of at most 1024 keys, none of them reserved, at most 16 levels deep. */
  lemma ValueRules(patch: Json)
    ensures ValueCode(patch)
            == if !patch.Obj? then Some("merge.value.not_an_object")
               else if |patch.fields| > 1024 then Some("merge.value.too_many_keys")
               else if "__proto__" in patch.fields || "constructor" in patch.fields || "prototype" in patch.fields
               then Some("merge.value.proto_polluted")
               else if Depth(patch) > 16 then Some("merge.value.too_deep")
               else None
  {
    if patch.Obj? && ("__proto__" in patch.fields || "constructor" in patch.fields || "prototype" in patch.fields) {
      assert "__proto__" in PROTO_POLLUTION_KEYS && "constructor" in PROTO_POLLUTION_KEYS
             && "prototype" in PROTO_POLLUTION_KEYS;
    }
  }

  /** Nesting counts arrays as it counts objects, and scalars not at all. */
  lemma DepthRules(v: Json, d: nat)
    ensures Depth(v) == 0 <==> !v.Obj? && !v.Arr?
    ensures v.Obj? ==> (Depth(v) <= d + 1 <==> forall k <- v.fields :: Depth(v.fields[k]) <= d)
    ensures v.Arr? ==> (Depth(v) <= d + 1 <==> forall i | 0 <= i < |v.items| :: Depth(v.items[i]) <= d)
  {
    match v
    case Obj(fields) => DepthOfObject(fields, d);
    case Arr(items) =>
      var depths := set i | 0 <= i < |items| :: Depth(items[i]);
      forall i | 0 <= i < |items| ensures Depth(items[i]) in depths {
      }
    case _ =>
  }

  /** A bad path is reported under the operation's own name, before anything else is looked at. */
  lemma BadPathsAreReported(d: Doc, keys: Path, field: string, patch: Json, delta: I64, reason: string)
    ensures PathFault(keys) == Some(reason) ==>
              && ApplyOp(d, Merge(Some(Segments(keys)), patch)) == (d, Some("merge.path." + reason))
              && ApplyOp(d, Append(Some(Segments(keys)), patch)) == (d, Some("append.path." + reason))
    ensures field != "" && PathFault([field]) == Some(reason) ==>
              && ApplyOp(d, Set(field, Some(patch))) == (d, Some("set.path." + reason))
              && ApplyOp(d, Remove(field)) == (d, Some("remove.path." + reason))
              && ApplyOp(d, Increment(field, delta)) == (d, Some("increment.path." + reason))
              && ApplyOp(d, Decrement(field, delta)) == (d, Some("decrement.path." + reason))
  {
    assert "merge" + ".path." == "merge.path." && "append" + ".path." == "append.path.";
    assert "set" + ".path." == "set.path." && "remove" + ".path." == "remove.path.";
    assert "increment" + ".path." == "increment.path." && "decrement" + ".path." == "decrement.path.";
  }

  // ---- When operations fail ----------------------------------------------------------------------------------

  predicate IsNumber(v: Json) {
    v.Int? || v.Float?
  }

  /** A set or a remove fails on a bad field, and on a field of what is no object. */
  lemma {:induction false} WhenFieldsFail(d: Doc, field: string, value: Option<Json>)
    ensures ApplyOp(d, Set(field, value)).1.None? <==> field == "" || (GoodName(field) && d.current.Obj?)
    ensures ApplyOp(d, Remove(field)).1.None? <==> field == "" || (GoodName(field) && d.current.Obj?)
    ensures field != "" && GoodName(field) && !d.current.Obj? ==>
              && ApplyOp(d, Set(field, value)) == (d, Some("set.target_not_object"))
              && ApplyOp(d, Remove(field)) == (d, Some("remove.target_not_object"))
  {
    FieldRules(field);
  }

  lemma FieldRules(field: string)
    ensures PathFault(FieldSegments(field)).None? <==> field == "" || GoodName(field)
  {
    PathRules(FieldSegments(field));
    if field != "" { assert FieldSegments(field)[0] == field; }
  }

  /** A set or a remove of the root replaces it whatever it was, and it is no default any more. */
  lemma RootIsReplaced(d: Doc, value: Option<Json>)
    ensures ApplyOp(d, Set("", value))
            == (Doc(match value case Some(v) => v case None => Null, false), None)
    ensures ApplyOp(d, Remove("")) == (Doc(Null, false), None)
  {
  }

  /** Floats count as numbers do, and a decrement undoes an increment of one. */
  lemma FloatsCount(r: real, delta: I64)
    ensures IncrementNumber(Float(r), delta) == Some(Float(r + delta as real))
    ensures DecrementNumber(Float(r + delta as real), delta) == Some(Float(r))
  {
  }

  /** A count fails on a bad field, on a field of what is no object, and on what is there and no number. */
  lemma WhenCountsFail(d: Doc, op: UpdateOp)
    requires op.Increment? || op.Decrement?
    ensures
      var fault, name := ApplyOp(d, op).1, if op.Increment? then "increment" else "decrement";
      && (op.field != "" && !GoodName(op.field) ==> fault.Some?)
      && (op.field != "" && GoodName(op.field) && !d.current.Obj? ==> fault == Some(name + ".target_not_object"))
      && (op.field != "" && GoodName(op.field) && d.current.Obj? ==>
            op.field in d.current.fields && !IsNumber(d.current.fields[op.field]) ==>
              fault == Some(name + ".not_number"))
      && (op.field == "" && !d.missing && !IsNumber(d.current) ==> fault == Some(name + ".not_number"))
  {
    FieldRules(op.field);
  }

  /** Appending to the root: a default counts as nothing there, and a value that does not fit is left as it is. */
  lemma AppendAtRoot(d: Doc, path: Option<MergePath>, item: Json)
    requires Sound(d) && path in {None, Some(Single("")), Some(Segments([]))}
    ensures
      var (after, fault) := ApplyOp(d, Append(path, item));
      match Appended(if d.missing then None else Some(d.current), 1, item)
      case Some(appended) => after == Doc(appended, false) && fault == None
      case None => after == d && fault == Some("append.type_mismatch")
  {
    assert PathFault([]).None?;
  }

  /** A nested append fails on a bad path, on a root that is no object, and on a leaf it does not fit. */
  lemma {:induction false} WhenAppendsFail(d: Doc, keys: Path, item: Json)
    requires keys != []
    ensures
      var fault := ApplyOp(d, Append(Some(Segments(keys)), item)).1;
      && (fault.None? <==> GoodPath(keys) && d.current.Obj? && Appended(At(d.current, keys), |keys|, item).Some?)
      && (GoodPath(keys) && !d.current.Obj? ==> fault == Some("append.target_not_object"))
      && (GoodPath(keys) && d.current.Obj? && fault.Some? ==> fault == Some("append.type_mismatch"))
  {
    PathRules(keys);
    if GoodPath(keys) && d.current.Obj? {
      AppendReadsBack(d, Some(Segments(keys)), item, []);
    }
  }

  /** A merge fails on a bad path or a bad value, and on nothing else. */
  lemma {:induction false} WhenMergesFail(d: Doc, keys: Path, patch: Json)
    ensures ApplyOp(d, Merge(Some(Segments(keys)), patch)).1.None? <==> GoodPath(keys) && ValueCode(patch).None?
  {
    PathRules(keys);
  }

  // ---- Paths as callers give them ----------------------------------------------------------------------------

  /** A list of keys is the path itself; a single string is one key, dots and all; an empty one is the root. */
  lemma PathsAsGiven(keys: Path, key: string, d: Doc, patch: Json, item: Json)
    ensures key != "" ==>
              && ApplyOp(d, Merge(Some(Single(key)), patch)) == ApplyOp(d, Merge(Some(Segments([key])), patch))
              && ApplyOp(d, Append(Some(Single(key)), item)) == ApplyOp(d, Append(Some(Segments([key])), item))
    ensures ApplyOp(d, Merge(None, patch)) == ApplyOp(d, Merge(Some(Segments([])), patch))
    ensures ApplyOp(d, Merge(Some(Single("")), patch)) == ApplyOp(d, Merge(Some(Segments([])), patch))
    ensures ApplyOp(d, Append(None, item)) == ApplyOp(d, Append(Some(Segments([])), item))
    ensures ApplyOp(d, Append(Some(Single("")), item)) == ApplyOp(d, Append(Some(Segments([])), item))
  {
  }

  /** A merge that is accepted is read at the very path given, over what was there; only a root can ignore it. */
  lemma {:induction false} MergeLandsAt(d: Doc, keys: Path, patch: Json)
    requires GoodPath(keys) && ValueCode(patch).None? && (keys != [] || d.current.Obj?)
    ensures
      var (after, fault) := ApplyOp(d, Merge(Some(Segments(keys)), patch));
      && fault.None? && !after.missing
      && At(after.current, keys) == Some(Obj(ObjectAt(d.current, keys) + patch.fields))
  {
    PathRules(keys);
    MergeOverlays(d, Some(Segments(keys)), patch);
  }

  /** And whatever is neither on the way there nor under a merged key reads as before. */
  lemma {:induction false} MergeSparesTheRest(d: Doc, keys: Path, patch: Json, q: Path)
    requires patch.Obj? && !(q <= keys) && forall key <- patch.fields :: !(keys + [key] <= q)
    ensures At(ApplyOp(d, Merge(Some(Segments(keys)), patch)).0.current, q) == At(d.current, q)
  {
    MergeLeavesTheRest(d, Some(Segments(keys)), patch, q);
  }

  /** An append that is accepted is read at the very path given, as what was there extended. */
  lemma {:induction false} AppendLandsAt(d: Doc, keys: Path, item: Json, q: Path)
    requires keys != [] && ApplyOp(d, Append(Some(Segments(keys)), item)).1.None?
    ensures
      var (after, _) := ApplyOp(d, Append(Some(Segments(keys)), item));
      && !after.missing
      && Appended(At(d.current, keys), |keys|, item).Some?
      && At(after.current, keys) == Appended(At(d.current, keys), |keys|, item)
      && (!(q <= keys) && !(keys <= q) ==> At(after.current, q) == At(d.current, q))
  {
    PathRules(keys);
    AppendReadsBack(d, Some(Segments(keys)), item, q);
  }
}

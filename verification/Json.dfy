/** JSON documents as the update operations see them, their nesting depth, and reading and writing at a path. */
module Documents {
  import opened Options

  /** The integers a JSON number holds without becoming a float: those of `i64` and of `u64`. */
  type JsonInt = n: int | -0x8000_0000_0000_0000 <= n < 0x1_0000_0000_0000_0000

  datatype Json =
    | Null
    | Bool(flag: bool)
    | Int(n: JsonInt)
    | Float(r: real)
    | Str(text: string)
    | Arr(items: seq<Json>)
    | Obj(fields: map<string, Json>)

  type Path = seq<string>

  // ---- Depth -------------------------------------------------------------------------------------------------

  /** The largest member of `depths`, or 0. */
  function MaxDepth(depths: set<nat>): (m: nat)
    ensures forall d <- depths :: d <= m
    ensures depths != {} ==> m in depths
    ensures depths == {} ==> m == 0
  {
    if depths == {} then 0
    else
      assert exists d :: d in depths && forall e <- depths :: e <= d by { HasLargest(depths); }
      var d :| d in depths && forall e <- depths :: e <= d;
      d
  }

  lemma HasLargest(depths: set<nat>)
    requires depths != {}
    ensures exists d :: d in depths && forall e <- depths :: e <= d
  {
    var d :| d in depths;
    if depths != {d} {
      var rest := depths - {d};
      assert rest != {};
      HasLargest(rest);
      var m :| m in rest && forall e <- rest :: e <= m;
      var top := if m < d then d else m;
      assert top in depths && forall e <- depths :: e == d || e in rest;
    }
  }

  /** 0 for a scalar; one more than the deepest member for an array or an object. */
  function Depth(v: Json): nat {
    match v
    case Obj(fields) => 1 + MaxDepth(set k | k in fields :: Depth(fields[k]))
    case Arr(items) => 1 + MaxDepth(set i | 0 <= i < |items| :: Depth(items[i]))
    case _ => 0
  }

  lemma DepthOfObject(fields: map<string, Json>, d: nat)
    ensures Depth(Obj(fields)) <= d + 1 <==> forall k <- fields :: Depth(fields[k]) <= d
  {
    var depths := set k | k in fields :: Depth(fields[k]);
    forall k <- fields ensures Depth(fields[k]) in depths {
    }
  }

  // ---- Paths -------------------------------------------------------------------------------------------------

  /** What a reader finds along `path`. */
  function At(v: Json, path: Path): Option<Json> {
    if path == [] then Some(v)
    else if v.Obj? && path[0] in v.fields then At(v.fields[path[0]], path[1..])
    else None
  }

  /** The object a reader finds at `path`; empty when there is none. */
  function ObjectAt(v: Json, path: Path): map<string, Json> {
    var found := At(v, path);
    if found.Some? && found.value.Obj? then found.value.fields else map[]
  }

  function FieldsOf(v: Json): map<string, Json> {
    if v.Obj? then v.fields else map[]
  }

  /** The node the walk enters: the member, or a fresh object where there is none. */
  function Child(v: Json, key: string): Json {
    if key in FieldsOf(v) then FieldsOf(v)[key] else Obj(map[])
  }

  /** The object the walk hands out at `path`, non-objects on the way counting as empty ones. */
  function GetAt(v: Json, path: Path): map<string, Json>
    decreases |path|
  {
    if path == [] then FieldsOf(v) else GetAt(Child(v, path[0]), path[1..])
  }

  /** The document once the object handed out at `path` holds `fields`; non-objects on the way were replaced. */
  function PutAt(v: Json, path: Path, fields: map<string, Json>): Json
    decreases |path|
  {
    if path == [] then Obj(fields)
    else Obj(FieldsOf(v)[path[0] := PutAt(Child(v, path[0]), path[1..], fields)])
  }

  /** The walk hands out what a reader finds there. */
  lemma {:induction false} WalkFindsObject(v: Json, path: Path)
    ensures GetAt(v, path) == ObjectAt(v, path)
    decreases |path|
  {
    if path != [] {
      WalkFindsObject(Child(v, path[0]), path[1..]);
      if !(path[0] in FieldsOf(v)) && |path| > 1 { assert At(Obj(map[]), path[1..]).None?; }
    }
  }

  lemma {:induction false} GetPut(v: Json, path: Path, fields: map<string, Json>)
    ensures GetAt(PutAt(v, path, fields), path) == fields
    ensures At(PutAt(v, path, fields), path) == Some(Obj(fields))
    decreases |path|
  {
    if path != [] { GetPut(Child(v, path[0]), path[1..], fields); }
  }

  lemma {:induction false} GetOneFurther(v: Json, path: Path, key: string)
    ensures GetAt(v, path + [key]) == FieldsOf(Child(Obj(GetAt(v, path)), key))
    decreases |path|
  {
    if path == [] {
      assert (path + [key])[1..] == [];
    } else {
      assert (path + [key])[1..] == path[1..] + [key];
      GetOneFurther(Child(v, path[0]), path[1..], key);
    }
  }

  /** Walking first and then one step further is walking the whole way. */
  lemma {:induction false} PutOneFurther(v: Json, path: Path, key: string, fields: map<string, Json>)
    ensures PutAt(PutAt(v, path, GetAt(v, path)), path + [key], fields) == PutAt(v, path + [key], fields)
    decreases |path|
  {
    if path == [] {
      assert (path + [key])[1..] == [];
    } else {
      assert (path + [key])[1..] == path[1..] + [key];
      PutOneFurther(Child(v, path[0]), path[1..], key, fields);
    }
  }

  lemma {:induction false} PutPut(v: Json, path: Path, fields: map<string, Json>, others: map<string, Json>)
    ensures PutAt(PutAt(v, path, fields), path, others) == PutAt(v, path, others)
    decreases |path|
  {
    if path != [] { PutPut(Child(v, path[0]), path[1..], fields, others); }
  }

  /** Walking alone changes nothing exactly when every node on the way is already an object. */
  lemma {:induction false} PutGet(v: Json, path: Path)
    ensures PutAt(v, path, GetAt(v, path)) == v <==> At(v, path).Some? && At(v, path).value.Obj?
    decreases |path|
  {
    if path != [] {
      PutGet(Child(v, path[0]), path[1..]);
      var walked := PutAt(Child(v, path[0]), path[1..], GetAt(Child(v, path[0]), path[1..]));
      if v.Obj? && path[0] in v.fields {
        assert v.fields[path[0] := walked] == v.fields <==> walked == v.fields[path[0]];
      } else {
        assert path[0] in PutAt(v, path, GetAt(v, path)).fields;
      }
    }
  }

  /** `q` leads to nothing a write of `fields` at `path` touches: it leaves `path` or passes an unchanged member. */
  predicate Untouched(v: Json, path: Path, fields: map<string, Json>, q: Path) {
    && !(q <= path)
    && (path <= q && |path| < |q| ==>
          var key, before := q[|path|], GetAt(v, path);
          (key in fields <==> key in before) && (key in fields ==> fields[key] == before[key]))
  }

  lemma {:induction false} PutFrame(v: Json, path: Path, fields: map<string, Json>, q: Path)
    requires Untouched(v, path, fields, q)
    ensures At(PutAt(v, path, fields), q) == At(v, q)
    decreases |path|
  {
    if path != [] && q[0] == path[0] {
      var child := Child(v, path[0]);
      assert q == [q[0]] + q[1..] && path == [path[0]] + path[1..];
      assert q[1..] <= path[1..] ==> q <= path;
      assert path[1..] <= q[1..] ==> path <= q;
      assert |path| < |q| ==> q[1..][|path[1..]|] == q[|path|];
      PutFrame(child, path[1..], fields, q[1..]);
      if !(v.Obj? && path[0] in v.fields) { assert q[1..] != []; }
    }
  }

  /** A write reaches no deeper than its path and its fields, and leaves the rest as deep as it was. */
  lemma {:induction false} PutDepth(v: Json, path: Path, fields: map<string, Json>, d: nat)
    requires Depth(v) <= d && |path| + Depth(Obj(fields)) <= d
    ensures Depth(PutAt(v, path, fields)) <= d
    decreases |path|
  {
    if path != [] {
      var child := Child(v, path[0]);
      DepthOfObject(FieldsOf(v), d - 1);
      DepthOfObject(map[], 0);
      DepthOfObject(fields, 0);
      PutDepth(child, path[1..], fields, d - 1);
      DepthOfObject(FieldsOf(v)[path[0] := PutAt(child, path[1..], fields)], d - 1);
    }
  }

  /** What is handed out at `path` is no deeper than what is left of the document there. */
  lemma {:induction false} GetDepth(v: Json, path: Path, d: nat)
    requires Depth(v) <= d && |path| + 1 <= d
    ensures |path| + Depth(Obj(GetAt(v, path))) <= d
    decreases |path|
  {
    DepthOfObject(map[], 0);
    if path != [] {
      DepthOfObject(FieldsOf(v), d - 1);
      GetDepth(Child(v, path[0]), path[1..], d - 1);
    }
  }

  lemma OverlayDepth(fields: map<string, Json>, patch: map<string, Json>, d: nat)
    requires Depth(Obj(fields)) <= d && Depth(Obj(patch)) <= d
    ensures Depth(Obj(fields + patch)) <= d
  {
    DepthOfObject(fields, d - 1);
    DepthOfObject(patch, d - 1);
    DepthOfObject(fields + patch, d - 1);
  }
}

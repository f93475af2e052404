/** The recursive merge of a partial document over a whole one, and its laws. */
module DeepMerge {
  import opened Json

  /** Neither stored nor set: as a patch, it leaves what is there. */
  predicate Absent(v: Json) { v.Undefined? || v.Null? }

  function Get(fields: map<string, Json>, key: string): Json {
    if key in fields then fields[key] else Undefined
  }

  function Merge(base: Json, patch: Json): Json
    decreases patch
  {
    if Absent(patch) then base
    else if base.Obj? && patch.Obj? then
      Obj(map k | k in base.fields.Keys + patch.fields.Keys ::
            if k in patch.fields then Merge(Get(base.fields, k), patch.fields[k]) else base.fields[k])
    else patch
  }

  // ---- A projection ----------------------------------------------------------------------------------

  lemma SameFields(a: map<string, Json>, b: map<string, Json>)
    requires a.Keys == b.Keys && forall k :: k in a ==> a[k] == b[k]
    ensures Obj(a) == Obj(b)
  {
    assert a == b;
  }

  lemma {:induction false} MergeSelf(v: Json)
    ensures Merge(v, v) == v
    decreases v
  {
    if v.Obj? {
      forall k | k in v.fields ensures Merge(v.fields[k], v.fields[k]) == v.fields[k] { MergeSelf(v.fields[k]); }
      SameFields(Merge(v, v).fields, v.fields);
    }
  }

  /** Applying defaults to what already has them changes nothing. */
  lemma {:induction false} DefaultsProject(d: Json, s: Json)
    ensures Merge(d, Merge(d, s)) == Merge(d, s)
    decreases s
  {
    if Absent(s) {
      MergeSelf(d);
    } else if d.Obj? && s.Obj? {
      var once := Merge(d, s);
      forall k | k in once.fields ensures Merge(Get(d.fields, k), once.fields[k]) == once.fields[k] {
        if k in s.fields { DefaultsProject(Get(d.fields, k), s.fields[k]); } else { MergeSelf(d.fields[k]); }
      }
      SameFields(Merge(d, once).fields, once.fields);
    }
  }

  /** Applying a patch again changes nothing. */
  lemma {:induction false} PatchAgain(base: Json, p: Json)
    ensures Merge(Merge(base, p), p) == Merge(base, p)
    decreases p
  {
    if Absent(p) {
    } else if base.Obj? && p.Obj? {
      var once := Merge(base, p);
      forall k | k in p.fields ensures Merge(once.fields[k], p.fields[k]) == once.fields[k] {
        PatchAgain(Get(base.fields, k), p.fields[k]);
      }
      SameFields(Merge(once, p).fields, once.fields);
    } else {
      MergeSelf(p);
    }
  }

  // ---- Path by path -------------------------------------------------------------------------------------

  /** What a document holds at a path of keys; a path through anything but objects leads nowhere. */
  function At(v: Json, path: seq<string>): Json
    decreases |path|
  {
    if path == [] then v
    else if v.Obj? then At(Get(v.fields, path[0]), path[1..])
    else Undefined
  }

  /** The patch puts its own value here whole, whatever the base holds below. */
  predicate Replaces(base: Json, patch: Json) { !Absent(patch) && !(base.Obj? && patch.Obj?) }

  /** Somewhere above the path the patch replaces the base. */
  predicate TakenOver(base: Json, patch: Json, path: seq<string>) {
    exists i :: 0 <= i < |path| && Replaces(At(base, path[..i]), At(patch, path[..i]))
  }

  lemma AtStep(v: Json, key: string, rest: seq<string>)
    ensures At(v, [key] + rest) == if v.Obj? then At(Get(v.fields, key), rest) else Undefined
  {
    assert ([key] + rest)[1..] == rest;
  }

  lemma {:induction false} AtUndefined(path: seq<string>)
    ensures At(Undefined, path) == Undefined
  {
  }

  lemma TakenOverStep(base: Json, patch: Json, path: seq<string>)
    requires path != [] && !Replaces(base, patch) && base.Obj? && patch.Obj?
    ensures TakenOver(base, patch, path)
            <==> TakenOver(Get(base.fields, path[0]), Get(patch.fields, path[0]), path[1..])
  {
    var b, p, rest := Get(base.fields, path[0]), Get(patch.fields, path[0]), path[1..];
    forall i | 0 <= i < |rest|
      ensures At(base, path[..i + 1]) == At(b, rest[..i]) && At(patch, path[..i + 1]) == At(p, rest[..i])
    {
      assert path[..i + 1] == [path[0]] + rest[..i];
      AtStep(base, path[0], rest[..i]);
      AtStep(patch, path[0], rest[..i]);
    }
    assert path[..0] == [];
    if i :| 0 <= i < |path| && Replaces(At(base, path[..i]), At(patch, path[..i])) {
      assert Replaces(At(b, rest[..i - 1]), At(p, rest[..i - 1]));
    }
    if j :| 0 <= j < |rest| && Replaces(At(b, rest[..j]), At(p, rest[..j])) {
      assert Replaces(At(base, path[..j + 1]), At(patch, path[..j + 1]));
    }
  }

  /** Nothing below an absent patch takes over. */
  lemma AbsentTakesNothing(base: Json, patch: Json, path: seq<string>)
    requires Absent(patch)
    ensures !TakenOver(base, patch, path) && (path != [] ==> At(patch, path).Undefined?)
  {
    forall i | 0 <= i < |path| ensures !Replaces(At(base, path[..i]), At(patch, path[..i])) {}
  }

  /** Every path of the result: the patch's own value below a replacement, the merge of both elsewhere. */
  lemma {:induction false} MergeAt(base: Json, patch: Json, path: seq<string>)
    ensures At(Merge(base, patch), path)
         == if TakenOver(base, patch, path) then At(patch, path) else Merge(At(base, path), At(patch, path))
    decreases |path|
  {
    if path == [] {
    } else if Absent(patch) {
      AbsentTakesNothing(base, patch, path);
    } else if Replaces(base, patch) {
      assert path[..0] == [];
      assert TakenOver(base, patch, path);
    } else {
      TakenOverStep(base, patch, path);
      MergeAt(Get(base.fields, path[0]), Get(patch.fields, path[0]), path[1..]);
    }
  }

  /** A value the patch sets is the value of the result. */
  lemma LeafWins(base: Json, patch: Json, path: seq<string>)
    requires !Absent(At(patch, path)) && !At(patch, path).Obj?
    ensures At(Merge(base, patch), path) == At(patch, path)
  {
    MergeAt(base, patch, path);
  }

  /** A path the patch is silent about keeps the value of the base. */
  lemma SilentKeeps(base: Json, patch: Json, path: seq<string>)
    requires Absent(At(patch, path)) && !TakenOver(base, patch, path)
    ensures At(Merge(base, patch), path) == At(base, path)
  {
    MergeAt(base, patch, path);
  }

  // ---- What needs no defaults ------------------------------------------------------------------------------

  /** Every key of `d` is there, at every level, and nothing is absent that `d` would fill in. */
  predicate Covers(d: Json, v: Json)
    decreases v
  {
    if Absent(v) then d == v
    else if d.Obj? && v.Obj? then
      d.fields.Keys <= v.fields.Keys && forall k :: k in v.fields ==> Covers(Get(d.fields, k), v.fields[k])
    else true
  }

  /** Those are the documents that defaults leave alone. */
  lemma {:induction false} CoversExactly(d: Json, v: Json)
    ensures Covers(d, v) <==> Merge(d, v) == v
    decreases v
  {
    if d.Obj? && v.Obj? {
      forall k | k in v.fields ensures Covers(Get(d.fields, k), v.fields[k]) <==> Merge(Get(d.fields, k), v.fields[k]) == v.fields[k] {
        CoversExactly(Get(d.fields, k), v.fields[k]);
      }
      var m := Merge(d, v).fields;
      assert m.Keys == d.fields.Keys + v.fields.Keys;
      if Covers(d, v) { SameFields(m, v.fields); }
      if Merge(d, v) == v {
        assert forall k :: k in v.fields ==> m[k] == Merge(Get(d.fields, k), v.fields[k]);
      }
    }
  }

  // ---- Merging three documents --------------------------------------------------------------------------------

  /** A middle document that puts a plain value between two objects, of which the last does not cover the first. */
  predicate Clash(a: Json, b: Json, c: Json) {
    a.Obj? && !Absent(b) && !b.Obj? && c.Obj? && !Covers(a, c)
  }

  predicate ClashAt(a: Json, b: Json, c: Json, path: seq<string>) {
    Clash(At(a, path), At(b, path), At(c, path))
  }

  ghost predicate Clashes(a: Json, b: Json, c: Json) {
    exists path :: ClashAt(a, b, c, path)
  }

  lemma ClashBelow(a: Json, b: Json, c: Json, k: string)
    requires a.Obj? && b.Obj? && c.Obj? && Clashes(Get(a.fields, k), Get(b.fields, k), Get(c.fields, k))
    ensures Clashes(a, b, c)
  {
    var path :| ClashAt(Get(a.fields, k), Get(b.fields, k), Get(c.fields, k), path);
    AtStep(a, k, path);
    AtStep(b, k, path);
    AtStep(c, k, path);
    assert ClashAt(a, b, c, [k] + path);
  }

  /** A clash below the top lies below a key of all three. */
  lemma ClashAbove(a: Json, b: Json, c: Json)
    requires Clashes(a, b, c) && !Clash(a, b, c)
    ensures a.Obj? && b.Obj? && c.Obj?
    ensures exists k :: k in c.fields && Clashes(Get(a.fields, k), Get(b.fields, k), Get(c.fields, k))
  {
    var path :| ClashAt(a, b, c, path);
    assert path != [];
    var k := path[0];
    assert ClashAt(Get(a.fields, k), Get(b.fields, k), Get(c.fields, k), path[1..]);
    if k !in c.fields { AtUndefined(path[1..]); }
  }

  predicate Associates(a: Json, b: Json, c: Json) {
    Merge(Merge(a, b), c) == Merge(a, Merge(b, c))
  }

  lemma MergedField(a: Json, b: Json, k: string)
    requires a.Obj? && b.Obj?
    ensures Get(Merge(a, b).fields, k) == Merge(Get(a.fields, k), Get(b.fields, k))
  {
  }

  lemma AssociatesByKey(a: Json, b: Json, c: Json)
    requires a.Obj? && b.Obj? && c.Obj?
    ensures Associates(a, b, c)
            <==> forall k :: k in c.fields ==> Associates(Get(a.fields, k), Get(b.fields, k), Get(c.fields, k))
  {
    var l, r := Merge(Merge(a, b), c).fields, Merge(a, Merge(b, c)).fields;
    assert l.Keys == r.Keys;
    forall k
      ensures Get(l, k) == Merge(Merge(Get(a.fields, k), Get(b.fields, k)), Get(c.fields, k))
      ensures Get(r, k) == Merge(Get(a.fields, k), Merge(Get(b.fields, k), Get(c.fields, k)))
    {
      MergedField(Merge(a, b), c, k);
      MergedField(a, b, k);
      MergedField(a, Merge(b, c), k);
      MergedField(b, c, k);
    }
    if forall k :: k in c.fields ==> Associates(Get(a.fields, k), Get(b.fields, k), Get(c.fields, k)) {
      forall k | k in l ensures l[k] == r[k] {
        assert Get(l, k) == Get(r, k);
      }
      SameFields(l, r);
    }
    if Obj(l) == Obj(r) {
      forall k | k in c.fields ensures Associates(Get(a.fields, k), Get(b.fields, k), Get(c.fields, k)) {
        assert Get(l, k) == Get(r, k);
      }
    }
  }

  /** Merging is not associative, and this is exactly when it is. */
  lemma {:induction false} AssociativeExactly(a: Json, b: Json, c: Json)
    ensures Merge(Merge(a, b), c) == Merge(a, Merge(b, c)) <==> !Clashes(a, b, c)
    decreases c
  {
    if a.Obj? && b.Obj? && c.Obj? {
      AssociatesByKey(a, b, c);
      forall k | k in c.fields
        ensures Associates(Get(a.fields, k), Get(b.fields, k), Get(c.fields, k))
                <==> !Clashes(Get(a.fields, k), Get(b.fields, k), Get(c.fields, k))
      {
        AssociativeExactly(Get(a.fields, k), Get(b.fields, k), c.fields[k]);
      }
      if Clashes(a, b, c) { ClashAbove(a, b, c); }
      if k :| k in c.fields && Clashes(Get(a.fields, k), Get(b.fields, k), Get(c.fields, k)) { ClashBelow(a, b, c, k); }
    } else {
      CoversExactly(a, c);
      assert At(a, []) == a && At(b, []) == b && At(c, []) == c;
      assert ClashAt(a, b, c, []) <==> Clash(a, b, c);
      if Clashes(a, b, c) && !Clash(a, b, c) { ClashAbove(a, b, c); }
    }
  }

  /** An object, a plain value, and an object of other keys. */
  lemma NotAssociative()
    ensures var a, b, c := Obj(map["x" := Num(1.0)]), Str("plain"), Obj(map["y" := Num(2.0)]);
      Merge(Merge(a, b), c) == c && Merge(a, Merge(b, c)) == Obj(map["x" := Num(1.0), "y" := Num(2.0)])
  {
    var a, c := Obj(map["x" := Num(1.0)]), Obj(map["y" := Num(2.0)]);
    assert Merge(a, c).fields == map["x" := Num(1.0), "y" := Num(2.0)];
  }
}

/** Removing null and empty-object members from a JSON value. */
module CleanJson {
  import opened Prelude
  import opened JsonValue

  predicate IsHollow(j: Json) {
    j == Null || j == Object(map[])
  }

  function Clean(j: Json): Json {
    match j
    case Object(members) =>
      Object(map k | k in members && !IsHollow(Clean(members[k])) :: Clean(members[k]))
    case Array(items) => Array(seq(|items|, i requires 0 <= i < |items| => Clean(items[i])))
    case _ => j
  }

  // What cleaning is for: no object, at any depth, keeps a null or an empty object as a member.

  predicate IsClean(j: Json) {
    match j
    case Object(members) =>
      forall k :: k in members ==> !IsHollow(members[k]) && IsClean(members[k])
    case Array(items) => forall i :: 0 <= i < |items| ==> IsClean(items[i])
    case _ => true
  }

  lemma {:induction false} CleanIsClean(j: Json)
    ensures IsClean(Clean(j))
  {
    match j
    case Object(members) =>
      forall k | k in members
        ensures IsClean(Clean(members[k]))
      {
        CleanIsClean(members[k]);
      }
    case Array(items) =>
      forall i | 0 <= i < |items|
        ensures IsClean(Clean(items[i]))
      {
        CleanIsClean(items[i]);
      }
    case _ =>
  }

  /** Cleaning changes exactly the values that are not clean. */
  lemma {:induction false} FixedExactlyWhenClean(j: Json)
    ensures Clean(j) == j <==> IsClean(j)
  {
    if Clean(j) == j {
      CleanIsClean(j);
    }
    match j
    case Object(members) =>
      forall k | k in members
        ensures IsClean(members[k]) ==> Clean(members[k]) == members[k]
      {
        FixedExactlyWhenClean(members[k]);
      }
    case Array(items) =>
      forall i | 0 <= i < |items|
        ensures IsClean(items[i]) ==> Clean(items[i]) == items[i]
      {
        FixedExactlyWhenClean(items[i]);
      }
    case _ =>
  }

  lemma {:induction false} Idempotent(j: Json)
    ensures Clean(Clean(j)) == Clean(j)
  {
    CleanIsClean(j);
    FixedExactlyWhenClean(Clean(j));
  }

  // What survives, path by path.

  datatype Part = Key(k: string) | Index(i: nat)

  function At(j: Json, path: seq<Part>): Option<Json> {
    if path == [] then Some(j)
    else
      match j
      case Object(members) =>
        if path[0].Key? && path[0].k in members then At(members[path[0].k], path[1..]) else None
      case Array(items) =>
        if path[0].Index? && path[0].i < |items| then At(items[path[0].i], path[1..]) else None
      case _ => None
  }

  /** Content worth keeping: an array, or a scalar other than null. */
  predicate IsSolid(j: Json) {
    !j.Null? && !j.Object?
  }

  ghost predicate HasSolid(j: Json) {
    exists path :: SolidAt(j, path)
  }

  predicate SolidAt(j: Json, path: seq<Part>) {
    At(j, path).Some? && IsSolid(At(j, path).value)
  }

  /** A value cleans to nothing exactly when nothing at or below it is worth keeping. */
  lemma {:induction false} HollowExactlyWhenEmpty(j: Json)
    ensures IsHollow(Clean(j)) <==> !HasSolid(j)
  {
    if IsSolid(j) {
      assert SolidAt(j, []);
    }
    if j.Object? {
      forall k | k in j.members
        ensures HasSolid(j.members[k]) ==> HasSolid(j)
        ensures IsHollow(Clean(j.members[k])) <==> !HasSolid(j.members[k])
      {
        HollowExactlyWhenEmpty(j.members[k]);
        if path: seq<Part> :| SolidAt(j.members[k], path) {
          assert ([Key(k)] + path)[1..] == path;
          assert SolidAt(j, [Key(k)] + path);
        }
      }
      if path: seq<Part> :| SolidAt(j, path) {
        var k := path[0].k;
        assert SolidAt(j.members[k], path[1..]);
        assert k in Clean(j).members;
      }
    }
  }

  /** A path through the cleaned value is a path through the input, to what cleans to it. */
  lemma {:induction false} NothingIsInvented(j: Json, path: seq<Part>)
    requires At(Clean(j), path).Some?
    ensures At(j, path).Some? && At(Clean(j), path).value == Clean(At(j, path).value)
  {
    if path != [] {
      match j
      case Object(members) => NothingIsInvented(members[path[0].k], path[1..]);
      case Array(items) => NothingIsInvented(items[path[0].i], path[1..]);
    }
  }

  /** Everything worth keeping stays where it was: a scalar as it is, an array with its length. */
  lemma {:induction false} SolidStays(j: Json, path: seq<Part>)
    requires SolidAt(j, path)
    ensures At(Clean(j), path) == Some(Clean(At(j, path).value))
  {
    if path != [] {
      match j
      case Object(members) =>
        SolidStays(members[path[0].k], path[1..]);
        HollowExactlyWhenEmpty(members[path[0].k]);
      case Array(items) => SolidStays(items[path[0].i], path[1..]);
    }
  }

  ghost predicate SameContent(a: Option<Json>, b: Option<Json>) {
    && (a.Some? && IsSolid(a.value) <==> b.Some? && IsSolid(b.value))
    && (a.Some? && IsSolid(a.value) && !a.value.Array? ==> a == b)
    && (a.Some? && a.value.Array? ==> b.value.Array? && |a.value.items| == |b.value.items|)
  }

  /** Path by path, input and result hold the same scalars and arrays of the same lengths. */
  lemma ContentIsKept(j: Json, path: seq<Part>)
    ensures SameContent(At(j, path), At(Clean(j), path))
  {
    if SolidAt(j, path) {
      SolidStays(j, path);
    }
    if SolidAt(Clean(j), path) {
      NothingIsInvented(j, path);
    }
  }

  /** A member is removed exactly when nothing at or below it is worth keeping. */
  lemma RemovedExactlyWhenEmpty(j: Json, k: string)
    requires j.Object? && k in j.members
    ensures Clean(j).Object?
    ensures k !in Clean(j).members <==> !HasSolid(j.members[k])
  {
    HollowExactlyWhenEmpty(j.members[k]);
  }

  /** Along the path, every object member has something worth keeping at or below it. */
  ghost predicate Kept(j: Json, path: seq<Part>) {
    path != [] ==>
      match j
      case Object(members) =>
        path[0].Key? && path[0].k in members && HasSolid(members[path[0].k]) && Kept(members[path[0].k], path[1..])
      case Array(items) =>
        path[0].Index? && path[0].i < |items| && Kept(items[path[0].i], path[1..])
      case _ => false
  }

  /** The paths of the result, objects included, are exactly these. */
  lemma {:induction false} PathsKept(j: Json, path: seq<Part>)
    ensures At(Clean(j), path).Some? <==> Kept(j, path)
  {
    if path != [] {
      match j
      case Object(members) =>
        var k := path[0];
        if k.Key? && k.k in members {
          HollowExactlyWhenEmpty(members[k.k]);
          PathsKept(members[k.k], path[1..]);
        }
      case Array(items) =>
        if path[0].Index? && path[0].i < |items| {
          PathsKept(items[path[0].i], path[1..]);
        }
      case _ =>
    }
  }
}

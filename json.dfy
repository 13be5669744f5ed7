/**
 * The decoded manifest: a JSON value as PHP's associative decoding yields
 * it, with objects kept as ordered key/value sequences, and the two helpers
 * the editor uses on it, a dotted-path read (`array_get`) and a dotted-path
 * get-or-create write (`array_set`). A dotted key such as
 * `autoload.classmap` is a path `["autoload", "classmap"]` here.
 */
module Json {

  datatype Option<+T> = None | Some(value: T) {
    function GetOr(default: T): T {
      match this
      case Some(v) => v
      case None => default
    }
  }

  datatype Json =
    | JNull
    | JBool(b: bool)
    | JNumber(n: int)
    | JString(str: string)
    | JArray(items: seq<Json>)
    | JObject(fields: seq<(string, Json)>)

  /** The keys of an object, in insertion order. */
  function Keys(fields: seq<(string, Json)>): (ks: seq<string>)
    ensures |ks| == |fields|
  {
    if |fields| == 0 then [] else [fields[0].0] + Keys(fields[1..])
  }

  lemma {:induction false} KeysConcat(a: seq<(string, Json)>, b: seq<(string, Json)>)
    ensures Keys(a + b) == Keys(a) + Keys(b)
  {
    if |a| > 0 {
      assert (a + b)[1..] == a[1..] + b;
      assert Keys(a + b) == [a[0].0] + Keys(a[1..] + b);
      KeysConcat(a[1..], b);
      assert Keys(a) == [a[0].0] + Keys(a[1..]);
    } else {
      assert a + b == b;
    }
  }

  lemma {:induction false} KeysAt(fields: seq<(string, Json)>)
    ensures forall i | 0 <= i < |fields| :: Keys(fields)[i] == fields[i].0
  {
    if |fields| > 0 {
      KeysAt(fields[1..]);
    }
  }

  /** No key occurs twice. */
  predicate Distinct(ks: seq<string>) {
    |ks| == 0 || (ks[0] !in ks[1..] && Distinct(ks[1..]))
  }

  /** Keys that differ pairwise are distinct. */
  lemma {:induction false} DistinctIf(ks: seq<string>)
    requires forall i, m | 0 <= i < m < |ks| :: ks[i] != ks[m]
    ensures Distinct(ks)
  {
    if |ks| > 0 {
      assert forall m | 0 <= m < |ks[1..]| :: ks[1..][m] == ks[m + 1];
      DistinctIf(ks[1..]);
    }
  }

  predicate UniqueKeys(fields: seq<(string, Json)>) {
    Distinct(Keys(fields))
  }

  lemma {:induction false} DistinctAppend(ks: seq<string>, k: string)
    requires Distinct(ks) && k !in ks
    ensures Distinct(ks + [k])
  {
    if |ks| > 0 {
      assert (ks + [k])[1..] == ks[1..] + [k];
      DistinctAppend(ks[1..], k);
    }
  }

  /** No object anywhere in the value holds the same key twice. */
  predicate WellFormed(j: Json) {
    match j
    case JArray(items) => forall i | 0 <= i < |items| :: WellFormed(items[i])
    case JObject(fields) =>
      UniqueKeys(fields) && forall i | 0 <= i < |fields| :: WellFormed(fields[i].1)
    case _ => true
  }

  lemma ObjectWellFormed(fields: seq<(string, Json)>)
    requires UniqueKeys(fields)
    requires forall i | 0 <= i < |fields| :: WellFormed(fields[i].1)
    ensures WellFormed(JObject(fields))
  {
  }

  /** The value stored under `k`, if any (the first one, should `k` repeat). */
  function Find(fields: seq<(string, Json)>, k: string): (r: Option<Json>)
    ensures r.None? <==> k !in Keys(fields)
  {
    if |fields| == 0 then None
    else if fields[0].0 == k then Some(fields[0].1)
    else Find(fields[1..], k)
  }

  /** The first entry under a key is the one `Find` returns. */
  lemma {:induction false} FindAt(fields: seq<(string, Json)>, i: nat)
    requires i < |fields|
    requires forall m | 0 <= m < i :: fields[m].0 != fields[i].0
    ensures Find(fields, fields[i].0) == Some(fields[i].1)
  {
    if i > 0 {
      FindAt(fields[1..], i - 1);
    }
  }

  /**
   * Sets `k` to `v`: an existing entry is overwritten where it stands, a
   * new key is appended after all existing ones.
   */
  function Put(fields: seq<(string, Json)>, k: string, v: Json): (r: seq<(string, Json)>)
    ensures Find(r, k) == Some(v)
    ensures forall k' | k' != k :: Find(r, k') == Find(fields, k')
    ensures Keys(r) == if k in Keys(fields) then Keys(fields) else Keys(fields) + [k]
  {
    if |fields| == 0 then [(k, v)]
    else if fields[0].0 == k then [(k, v)] + fields[1..]
    else
      var rest := Put(fields[1..], k, v);
      var r := [fields[0]] + rest;
      assert r[1..] == rest;
      assert Keys(r) == [fields[0].0] + Keys(rest);
      assert Keys(fields) == [fields[0].0] + Keys(fields[1..]);
      assert k !in Keys(fields[1..]) ==> Keys(r) == Keys(fields) + [k];
      r
  }

  /** A key not yet present is appended after every existing entry. */
  lemma {:induction false} PutAppends(fields: seq<(string, Json)>, k: string, v: Json)
    requires k !in Keys(fields)
    ensures Put(fields, k, v) == fields + [(k, v)]
  {
    if |fields| > 0 {
      assert Keys(fields) == [fields[0].0] + Keys(fields[1..]);
      assert Put(fields, k, v) == [fields[0]] + Put(fields[1..], k, v);
      PutAppends(fields[1..], k, v);
      assert fields + [(k, v)] == [fields[0]] + (fields[1..] + [(k, v)]);
    }
  }

  /** A key already present is overwritten at its first position; nothing moves. */
  lemma {:induction false} PutInPlace(fields: seq<(string, Json)>, k: string, v: Json, i: nat)
    requires i < |fields| && fields[i].0 == k
    requires forall m | 0 <= m < i :: fields[m].0 != k
    ensures Put(fields, k, v) == fields[i := (k, v)]
  {
    UpdateSplit(fields, i, (k, v));
    if i > 0 {
      assert fields[0].0 != k;
      PutInPlace(fields[1..], k, v, i - 1);
    }
  }

  /** Updating position `i` updates the head or the tail, and the tail's earlier keys are the earlier keys. */
  lemma UpdateSplit(fields: seq<(string, Json)>, i: nat, e: (string, Json))
    requires i < |fields|
    ensures i == 0 ==> fields[i := e] == [e] + fields[1..]
    ensures i > 0 ==> fields[i := e] == [fields[0]] + fields[1..][i - 1 := e]
    ensures forall m | 0 <= m < i - 1 :: fields[1..][m].0 == fields[m + 1].0
  {
  }

  /** The object as the unordered dictionary a PHP `assertEquals` compares. */
  ghost function AsMap(fields: seq<(string, Json)>): map<string, Json> {
    map k | k in Keys(fields) :: Find(fields, k).value
  }

  lemma AsMapPut(fields: seq<(string, Json)>, k: string, v: Json)
    ensures AsMap(Put(fields, k, v)) == AsMap(fields)[k := v]
  {
    var r := Put(fields, k, v);
    forall k' ensures k' in Keys(r) <==> k' == k || k' in Keys(fields) {
      if k' != k {
        assert Find(r, k') == Find(fields, k');
      }
    }
  }

  lemma {:induction false} FindWellFormed(fields: seq<(string, Json)>, k: string)
    requires WellFormed(JObject(fields)) && Find(fields, k).Some?
    ensures WellFormed(Find(fields, k).value)
  {
    if fields[0].0 != k {
      assert WellFormed(JObject(fields[1..])) by {
        assert Keys(fields) == [fields[0].0] + Keys(fields[1..]);
      }
      FindWellFormed(fields[1..], k);
    }
  }

  lemma {:induction false} PutWellFormed(fields: seq<(string, Json)>, k: string, v: Json)
    requires WellFormed(JObject(fields)) && WellFormed(v)
    ensures WellFormed(JObject(Put(fields, k, v)))
  {
    PutUniqueKeys(fields, k, v);
    PutValuesWellFormed(fields, k, v);
    ObjectWellFormed(Put(fields, k, v));
  }

  lemma {:induction false} PutValuesWellFormed(fields: seq<(string, Json)>, k: string, v: Json)
    requires forall i | 0 <= i < |fields| :: WellFormed(fields[i].1)
    requires WellFormed(v)
    ensures forall i | 0 <= i < |Put(fields, k, v)| :: WellFormed(Put(fields, k, v)[i].1)
  {
    if |fields| > 0 && fields[0].0 != k {
      PutValuesWellFormed(fields[1..], k, v);
      assert Put(fields, k, v) == [fields[0]] + Put(fields[1..], k, v);
    }
  }

  /** The members of an object; any other value has none. */
  function Members(j: Json): seq<(string, Json)> {
    if j.JObject? then j.fields else []
  }

  /** Reads the value at a key path, as `array_get` does with a dotted key. */
  function GetPath(j: Json, path: seq<string>): (r: Option<Json>)
    ensures |path| == 0 ==> r == Some(j)
    ensures |path| > 0 && !j.JObject? ==> r.None?
    decreases |path|
  {
    if |path| == 0 then Some(j)
    else if !j.JObject? then None
    else
      match Find(j.fields, path[0])
      case None => None
      case Some(child) => GetPath(child, path[1..])
  }

  /**
   * Writes `v` at a key path, as `array_set` does with a dotted key: each
   * step reuses the object found under the key, or replaces whatever is
   * there (nothing, or a non-object) with a fresh empty object.
   */
  function SetPath(j: Json, path: seq<string>, v: Json): Json
    decreases |path|
  {
    if |path| == 0 then v
    else
      var fields := Members(j);
      var child := Find(fields, path[0]).GetOr(JNull);
      JObject(Put(fields, path[0], SetPath(child, path[1..], v)))
  }

  /** The members of the object at `path`; none if there is no object there. */
  function ObjectAt(j: Json, path: seq<string>): seq<(string, Json)> {
    match GetPath(j, path)
    case Some(JObject(fields)) => fields
    case _ => []
  }

  /** Whatever object a well-formed value holds at a path has no duplicate key. */
  lemma {:induction false} ObjectAtWellFormed(j: Json, path: seq<string>)
    requires WellFormed(j)
    ensures UniqueKeys(ObjectAt(j, path))
    decreases |path|
  {
    if |path| > 0 && j.JObject? {
      var found := Find(j.fields, path[0]);
      if found.Some? {
        FindWellFormed(j.fields, path[0]);
        ObjectAtWellFormed(found.value, path[1..]);
      }
    }
  }

  /** `p` and `q` part ways: some segment both have differs. */
  predicate Diverge(p: seq<string>, q: seq<string>) {
    exists i | 0 <= i < |p| && i < |q| :: p[i] != q[i]
  }

  lemma {:induction false} GetAfterSet(j: Json, path: seq<string>, v: Json)
    ensures GetPath(SetPath(j, path, v), path) == Some(v)
    decreases |path|
  {
    if |path| > 0 {
      var child := Find(Members(j), path[0]).GetOr(JNull);
      GetAfterSet(child, path[1..], v);
    }
  }

  /** A write leaves every path that parts ways with its own untouched. */
  lemma {:induction false} GetAfterSetOther(j: Json, p: seq<string>, v: Json, q: seq<string>)
    requires Diverge(p, q)
    ensures GetPath(SetPath(j, p, v), q) == GetPath(j, q)
    decreases |p|
  {
    var child := Find(Members(j), p[0]).GetOr(JNull);
    var r := SetPath(j, p, v);
    if p[0] != q[0] {
      assert Find(r.fields, q[0]) == Find(Members(j), q[0]);
    } else {
      var i :| 0 < i < |p| && i < |q| && p[i] != q[i];
      assert p[1..][i - 1] != q[1..][i - 1];
      GetAfterSetOther(child, p[1..], v, q[1..]);
      if !j.JObject? || Find(j.fields, p[0]).None? {
        assert GetPath(JNull, q[1..]) == None;
      }
    }
  }

  /**
   * Writing key `k` under the object at `prefix` puts that one entry into
   * that object, in place or at its end, and keeps every other entry and
   * their order (creating the object when absent).
   */
  lemma {:induction false} ObjectAfterSet(j: Json, prefix: seq<string>, k: string, v: Json)
    ensures GetPath(SetPath(j, prefix + [k], v), prefix) == Some(JObject(Put(ObjectAt(j, prefix), k, v)))
    decreases |prefix|
  {
    var path := prefix + [k];
    if |prefix| == 0 {
      assert path == [k];
    } else {
      var child := Find(Members(j), path[0]).GetOr(JNull);
      assert path[1..] == prefix[1..] + [k];
      SetPathStep(j, path, v, prefix);
      ObjectAfterSet(child, prefix[1..], k, v);
      ObjectAtStep(j, prefix);
    }
  }

  /** Reading below the first key of a write reads from what was written under it. */
  lemma SetPathStep(j: Json, path: seq<string>, v: Json, q: seq<string>)
    requires |path| > 0 && |q| > 0 && q[0] == path[0]
    ensures GetPath(SetPath(j, path, v), q) ==
              GetPath(SetPath(Find(Members(j), path[0]).GetOr(JNull), path[1..], v), q[1..])
  {
  }

  lemma ObjectAtStep(j: Json, path: seq<string>)
    requires |path| > 0
    ensures ObjectAt(j, path) == ObjectAt(Find(Members(j), path[0]).GetOr(JNull), path[1..])
  {
    if !j.JObject? || Find(j.fields, path[0]).None? {
      assert GetPath(JNull, path[1..]) == if |path[1..]| == 0 then Some(JNull) else None;
    }
  }

  lemma PutUniqueKeys(fields: seq<(string, Json)>, k: string, v: Json)
    requires UniqueKeys(fields)
    ensures UniqueKeys(Put(fields, k, v))
  {
    if k !in Keys(fields) {
      DistinctAppend(Keys(fields), k);
    }
  }

  lemma {:induction false} SetPathWellFormed(j: Json, path: seq<string>, v: Json)
    requires WellFormed(j) && WellFormed(v)
    ensures WellFormed(SetPath(j, path, v))
    decreases |path|
  {
    if |path| > 0 {
      var fields := Members(j);
      var found := Find(fields, path[0]);
      if found.Some? {
        FindWellFormed(fields, path[0]);
      }
      SetPathWellFormed(found.GetOr(JNull), path[1..], v);
      PutWellFormed(fields, path[0], SetPath(found.GetOr(JNull), path[1..], v));
    }
  }

  /**
   * The top-level keys after a write: the same keys in the same order, with
   * the path's first key appended at the end when it was not there before.
   */
  lemma SetPathKeyOrder(j: Json, path: seq<string>, v: Json)
    requires |path| > 0
    ensures Keys(Members(SetPath(j, path, v))) ==
              if path[0] in Keys(Members(j)) then Keys(Members(j))
              else Keys(Members(j)) + [path[0]]
  {
  }
}

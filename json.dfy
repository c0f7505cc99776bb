/** The JSON documents the generators read and write, with the Python dict and
    list operations the generators apply to them. A Python deep copy of such a
    document is the document itself: values here are never shared. */
module Json {
  import opened Wrappers
  import opened Strings

  /** An object keeps its keys in insertion order, as a Python dict does. */
  datatype Json =
    | Null
    | Bool(b: bool)
    | Int(i: int)
    | Float(r: real)
    | Str(s: string)
    | Arr(items: seq<Json>)
    | Obj(fields: seq<(string, Json)>)

  /** d.get(key): the value stored under `key`, if any. */
  function Get(fields: seq<(string, Json)>, key: string): (r: Option<Json>)
  {
    if fields == [] then None
    else if fields[0].0 == key then Some(fields[0].1)
    else Get(fields[1..], key)
  }

  /** A key has a value exactly when some field carries it. */
  lemma {:induction false} GetPresence(fields: seq<(string, Json)>, key: string)
    ensures Get(fields, key).Some? <==> exists i :: 0 <= i < |fields| && fields[i].0 == key
  {
    if fields != [] {
      GetPresence(fields[1..], key);
      if fields[0].0 != key && Get(fields[1..], key).Some? {
        var i :| 0 <= i < |fields| - 1 && fields[1..][i].0 == key;
        assert fields[i + 1].0 == key;
      }
    }
  }

  /** The value under a key is the one of its first occurrence. */
  lemma {:induction false} GetAt(fields: seq<(string, Json)>, i: nat)
    requires i < |fields|
    requires forall j :: 0 <= j < i ==> fields[j].0 != fields[i].0
    ensures Get(fields, fields[i].0) == Some(fields[i].1)
  {
    if i > 0 {
      GetAt(fields[1..], i - 1);
    }
  }

  /** A key that occurs nowhere has no value. */
  lemma {:induction false} GetAbsent(fields: seq<(string, Json)>, key: string)
    requires forall j :: 0 <= j < |fields| ==> fields[j].0 != key
    ensures Get(fields, key) == None
  {
    if fields != [] {
      GetAbsent(fields[1..], key);
    }
  }

  /** d[key] = v: replaces the value in place when the key exists, otherwise appends the key. */
  function Put(fields: seq<(string, Json)>, key: string, v: Json): (r: seq<(string, Json)>)
    ensures Get(fields, key).Some? ==> |r| == |fields|
    ensures Get(fields, key).None? ==> r == fields + [(key, v)]
    ensures r != []
  {
    if fields == [] then [(key, v)]
    else if fields[0].0 == key then [(key, v)] + fields[1..]
    else [fields[0]] + Put(fields[1..], key, v)
  }

  /** After the assignment the key holds the new value and every other key its old one. */
  lemma {:induction false} PutGet(fields: seq<(string, Json)>, key: string, v: Json)
    ensures Get(Put(fields, key, v), key) == Some(v)
    ensures forall k :: k != key ==> Get(Put(fields, key, v), k) == Get(fields, k)
  {
    if fields != [] && fields[0].0 != key {
      PutGet(fields[1..], key, v);
    }
  }

  /** Assigning to a key that does not occur among the leading fields leaves them in front. */
  lemma {:induction false} PutAfter(front: seq<(string, Json)>, back: seq<(string, Json)>, key: string, v: Json)
    requires forall j :: 0 <= j < |front| ==> front[j].0 != key
    ensures Put(front + back, key, v) == front + Put(back, key, v)
  {
    if front == [] {
      assert front + back == back;
      assert front + Put(back, key, v) == Put(back, key, v);
    } else {
      var fields := front + back;
      assert fields[0] == front[0] && fields[1..] == front[1..] + back;
      PutAfter(front[1..], back, key, v);
      assert front == [front[0]] + front[1..];
      assert [front[0]] + (front[1..] + Put(back, key, v)) == front + Put(back, key, v);
    }
  }

  /** Assigning to a key that first occurs at index i replaces that field where it stands. */
  lemma PutAt(fields: seq<(string, Json)>, i: nat, v: Json)
    requires i < |fields|
    requires forall j :: 0 <= j < i ==> fields[j].0 != fields[i].0
    ensures Put(fields, fields[i].0, v) == fields[..i] + [(fields[i].0, v)] + fields[i + 1..]
  {
    var key := fields[i].0;
    var back := fields[i..];
    assert fields == fields[..i] + back;
    PutAfter(fields[..i], back, key, v);
    assert back[0].0 == key && back[1..] == fields[i + 1..];
    assert Put(back, key, v) == [(key, v)] + fields[i + 1..];
    assert fields[..i] + ([(key, v)] + fields[i + 1..]) == fields[..i] + [(key, v)] + fields[i + 1..];
  }

  /** Looking a key up in two field lists one after the other: the first list wins. */
  lemma {:induction false} GetConcat(a: seq<(string, Json)>, b: seq<(string, Json)>, key: string)
    ensures Get(a + b, key) == if Get(a, key).Some? then Get(a, key) else Get(b, key)
  {
    if a == [] {
      assert a + b == b;
    } else {
      assert (a + b)[0] == a[0] && (a + b)[1..] == a[1..] + b;
      GetConcat(a[1..], b, key);
    }
  }

  /** The same for four lists. */
  lemma GetConcat4(a: seq<(string, Json)>, b: seq<(string, Json)>, c: seq<(string, Json)>, d: seq<(string, Json)>, key: string)
    ensures Get(a + b + c + d, key) ==
      if Get(a, key).Some? then Get(a, key)
      else if Get(b, key).Some? then Get(b, key)
      else if Get(c, key).Some? then Get(c, key)
      else Get(d, key)
  {
    GetConcat(a + b + c, d, key);
    GetConcat(a + b, c, key);
    GetConcat(a, b, key);
  }

  /** The keys of an object, in order. */
  function Keys(fields: seq<(string, Json)>): (r: seq<string>)
    ensures |r| == |fields|
    ensures forall i :: 0 <= i < |fields| ==> r[i] == fields[i].0
  {
    seq(|fields|, i requires 0 <= i < |fields| => fields[i].0)
  }

  /** Python truthiness of a value. */
  predicate Truthy(j: Json)
  {
    match j
    case Null => false
    case Bool(b) => b
    case Int(i) => i != 0
    case Float(r) => r != 0.0
    case Str(s) => s != []
    case Arr(items) => items != []
    case Obj(fields) => fields != []
  }

  /** Python `key in container` for a text key. */
  function In(key: string, container: Json): (r: Result<bool>)
    ensures container.Obj? ==> r == Ok(Get(container.fields, key).Some?)
  {
    match container
    case Obj(fields) => Ok(Get(fields, key).Some?)
    case Arr(items) => Ok(Str(key) in items)
    case Str(s) => Ok(Contains(s, key))
    case _ => Raised
  }

  /** Python `container[key]` for a text key: only an object holding the key has a value. */
  function GetItem(container: Json, key: string): (r: Result<Json>)
    ensures r.Ok? <==> container.Obj? && Get(container.fields, key).Some?
    ensures r.Ok? ==> r.value == Get(container.fields, key).value
  {
    if container.Obj? then
      match Get(container.fields, key)
      case Some(v) => Ok(v)
      case None => Raised
    else Raised
  }

  /** Python `container[key] = v` for a text key: only an object accepts it. */
  function SetItem(container: Json, key: string, v: Json): (r: Result<Json>)
    ensures r.Ok? <==> container.Obj?
    ensures r.Ok? ==> r.value == Obj(Put(container.fields, key, v))
    ensures r.Ok? ==> Get(r.value.fields, key) == Some(v)
    ensures r.Ok? ==> forall k :: k != key ==> Get(r.value.fields, k) == Get(container.fields, k)
  {
    if container.Obj? then PutGet(container.fields, key, v); Ok(Obj(Put(container.fields, key, v))) else Raised
  }

  /** The elements a Python `for` loop visits: list items, dict keys, the characters of a string. */
  function Members(container: Json): (r: Result<seq<Json>>)
    ensures container.Arr? ==> r == Ok(container.items)
    ensures r.Ok? <==> container.Arr? || container.Obj? || container.Str?
  {
    match container
    case Arr(items) => Ok(items)
    case Obj(fields) => Ok(seq(|fields|, i requires 0 <= i < |fields| => Str(fields[i].0)))
    case Str(s) => Ok(seq(|s|, i requires 0 <= i < |s| => Str([s[i]])))
    case _ => Raised
  }

  /** Python str() of a value used as text. Null, booleans, integers and strings are
      rendered as Python renders them; floats, lists and objects by a marker. */
  function Display(j: Json): string
  {
    match j
    case Null => "None"
    case Bool(b) => if b then "True" else "False"
    case Int(i) => IntToString(i)
    case Str(s) => s
    case Float(_) => "<float>"
    case Arr(_) => "<list>"
    case Obj(_) => "<dict>"
  }

  /** A document written to a relative path. */
  datatype Write = Write(path: string, doc: Json)

  /** The files on disk after the writes, in order: a later write to the same path
      replaces the earlier document. */
  function Saved(writes: seq<Write>): (files: map<string, Json>)
    ensures forall p :: p in files <==> exists k :: 0 <= k < |writes| && writes[k].path == p
  {
    if writes == [] then map[]
    else
      var prev := Saved(writes[..|writes| - 1]);
      var w := writes[|writes| - 1];
      assert forall k :: 0 <= k < |writes| - 1 ==> writes[..|writes| - 1][k] == writes[k];
      prev[w.path := w.doc]
  }

  /** The saved document at a path is the one of the last write to it. */
  lemma {:induction false} SavedLastWrite(writes: seq<Write>, k: nat)
    requires k < |writes|
    requires forall m :: k < m < |writes| ==> writes[m].path != writes[k].path
    ensures writes[k].path in Saved(writes) && Saved(writes)[writes[k].path] == writes[k].doc
  {
    if k < |writes| - 1 {
      var prefix := writes[..|writes| - 1];
      assert prefix[k] == writes[k];
      SavedLastWrite(prefix, k);
    }
  }

  /** The value under `key` when `j` is an object holding it. */
  function Field(j: Json, key: string): Option<Json>
  {
    if j.Obj? then Get(j.fields, key) else None
  }

  /** The value under `inner` of the object under `outer`. */
  function Nested(j: Json, outer: string, inner: string): Option<Json>
  {
    match Field(j, outer)
    case Some(o) => Field(o, inner)
    case None => None
  }

  /** The integer value to store, when there is one. */
  function IntField(n: Option<int>): Option<Json>
  {
    match n
    case None => None
    case Some(i) => Some(Int(i))
  }

  /** `d[key] = x` on the fields of an object when a value is given; nothing otherwise. */
  function PutOpt(fields: seq<(string, Json)>, key: string, x: Option<Json>): seq<(string, Json)>
  {
    if x.Some? then Put(fields, key, x.value) else fields
  }

  /** After the optional assignment the key holds the given value, and every other key
      (or the key itself, when nothing was given) its old one. */
  lemma PutOptGet(fields: seq<(string, Json)>, key: string, x: Option<Json>, k: string)
    ensures Get(PutOpt(fields, key, x), k) == (if k == key && x.Some? then x else Get(fields, k))
  {
    if x.Some? {
      PutGet(fields, key, x.value);
    }
  }

  /** `obj[key] = x` when a value is given; nothing otherwise. */
  function SetField(obj: Json, key: string, x: Option<Json>): (r: Result<Json>)
    ensures x.None? ==> r == Ok(obj)
    ensures x.Some? ==> (r.Ok? <==> obj.Obj?)
    ensures r.Ok? && x.Some? ==> r.value.Obj? && Field(r.value, key) == x
    ensures r.Ok? ==> forall k :: k != key ==> Field(r.value, k) == Field(obj, k)
  {
    match x
    case None => Ok(obj)
    case Some(v) => SetItem(obj, key, v)
  }

  /** `obj[outer][inner] = n` when a number is given; nothing otherwise. The object under
      `outer` must exist and be an object. */
  function SetNested(obj: Json, outer: string, inner: string, n: Option<int>): (r: Result<Json>)
    ensures n.None? ==> r == Ok(obj)
    ensures n.Some? ==> (r.Ok? <==> obj.Obj? && Field(obj, outer).Some? && Field(obj, outer).value.Obj?)
    ensures r.Ok? && n.Some? ==> r.value.Obj? && Nested(r.value, outer, inner) == Some(Int(n.value))
    ensures r.Ok? ==> forall k :: k != outer ==> Field(r.value, k) == Field(obj, k)
    ensures r.Ok? ==> forall k :: k != inner ==> Nested(r.value, outer, k) == Nested(obj, outer, k)
  {
    match n
    case None => Ok(obj)
    case Some(v) =>
      var o :- GetItem(obj, outer);
      var o2 :- SetItem(o, inner, Int(v));
      SetItem(obj, outer, o2)
  }
}

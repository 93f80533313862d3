/** Decoded JSON documents as `json.loads` hands them to Python code, and the
    few Python operations the menu flattener applies to them: subscripting
    with a string key, `.get(key, default)`, `.keys()` and iteration with
    `for`. Each operation either returns a value or raises the exception
    Python raises for the kind of value it is applied to. */
module Json {
  import opened Wrappers

  /** A JSON value. An object keeps its entries in insertion order, as a
      Python dict does. */
  datatype Json =
    | JNull
    | JBool(b: bool)
    | JNum(n: real)
    | JStr(s: string)
    | JArr(elems: seq<Json>)
    | JObj(entries: seq<Entry>)

  datatype Entry = Entry(key: string, value: Json)

  /** The Python exceptions the traversal can raise. */
  datatype PyError =
    | KeyError(key: string)  // a missing key in `d[key]`
    | TypeError              // subscripting or iterating a value of the wrong kind
    | AttributeError         // `.get` or `.keys` on a value that is not a dict
    | ValueError             // raised explicitly by the menu flattener

  /** The value bound to `key`: that of the first entry with that key. */
  function Find(entries: seq<Entry>, key: string): Option<Json>
  {
    if entries == [] then None
    else if entries[0].key == key then Some(entries[0].value)
    else Find(entries[1..], key)
  }

  /** `Find` gives the value of the first entry with the key, and nothing
      exactly when no entry has it. */
  lemma {:induction false} FindFirst(entries: seq<Entry>, key: string)
    ensures Find(entries, key).None? <==> forall i :: 0 <= i < |entries| ==> entries[i].key != key
    ensures Find(entries, key).Some? ==>
      exists i :: 0 <= i < |entries| && entries[i].key == key && entries[i].value == Find(entries, key).value
                  && forall j :: 0 <= j < i ==> entries[j].key != key
    decreases |entries|
  {
    if entries != [] && entries[0].key != key {
      FindFirst(entries[1..], key);
      assert forall j :: 1 <= j < |entries| ==> entries[j] == entries[1..][j - 1];
      if Find(entries, key).Some? {
        var i :| 0 <= i < |entries[1..]| && entries[1..][i].key == key && entries[1..][i].value == Find(entries, key).value
                 && forall j :: 0 <= j < i ==> entries[1..][j].key != key;
        assert entries[i + 1].key == key;
      }
    }
  }

  /** The value bound to a key is that of its first entry. */
  lemma {:induction false} FindAt(entries: seq<Entry>, key: string, k: nat)
    requires k < |entries| && entries[k].key == key
    requires forall j :: 0 <= j < k ==> entries[j].key != key
    ensures Find(entries, key) == Some(entries[k].value)
    decreases k
  {
    if k > 0 {
      FindAt(entries[1..], key, k - 1);
    }
  }

  /** Python's `v[key]` for a string key. */
  function Index(v: Json, key: string): (r: Result<Json, PyError>)
    ensures r.Ok? <==> v.JObj? && Find(v.entries, key).Some?
    ensures r.Ok? ==> r.value == Find(v.entries, key).value
    ensures v.JObj? && r.Err? ==> r.error == KeyError(key)
    ensures !v.JObj? ==> r == Err(TypeError)
  {
    match v
    case JObj(entries) =>
      (match Find(entries, key)
       case Some(x) => Ok(x)
       case None => Err(KeyError(key)))
    case _ => Err(TypeError)
  }

  /** Python's `v.get(key, default)`. */
  function Get(v: Json, key: string, default: Json): (r: Result<Json, PyError>)
    ensures v.JObj? ==> r == Ok(Find(v.entries, key).GetOr(default))
    ensures !v.JObj? ==> r == Err(AttributeError)
  {
    match v
    case JObj(entries) => Ok(Find(entries, key).GetOr(default))
    case _ => Err(AttributeError)
  }

  /** Python's `list(v.keys())`. */
  function Keys(v: Json): (r: Result<seq<string>, PyError>)
    ensures v.JObj? ==> r.Ok? && |r.value| == |v.entries|
                        && forall i :: 0 <= i < |v.entries| ==> r.value[i] == v.entries[i].key
    ensures !v.JObj? ==> r == Err(AttributeError)
  {
    match v
    case JObj(entries) => Ok(seq(|entries|, i requires 0 <= i < |entries| => entries[i].key))
    case _ => Err(AttributeError)
  }

  /** The values `for x in v` visits: the elements of a list, the keys of a
      dict, the one-character strings of a string; anything else is not
      iterable. */
  function Iter(v: Json): (r: Result<seq<Json>, PyError>)
    ensures v.JArr? ==> r == Ok(v.elems)
    ensures v.JObj? ==> r.Ok? && |r.value| == |v.entries|
                        && forall i :: 0 <= i < |v.entries| ==> r.value[i] == JStr(v.entries[i].key)
    ensures v.JStr? ==> r.Ok? && |r.value| == |v.s|
                        && forall i :: 0 <= i < |v.s| ==> r.value[i] == JStr([v.s[i]])
    ensures r.Err? <==> v.JNull? || v.JBool? || v.JNum?
    ensures r.Err? ==> r.error == TypeError
  {
    match v
    case JArr(elems) => Ok(elems)
    case JObj(entries) => Ok(seq(|entries|, i requires 0 <= i < |entries| => JStr(entries[i].key)))
    case JStr(s) => Ok(seq(|s|, i requires 0 <= i < |s| => JStr([s[i]])))
    case _ => Err(TypeError)
  }
}

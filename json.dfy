/**
 * Parsed JSON values as the Python code sees them after `response.json()`,
 * and the handful of Python dict/list operations the client layer applies
 * to them.  Python's `None` and JSON `null` are one value, `JNull`.
 */
module Json {
  import opened Wrappers

  /** Objects keep their keys in insertion order: the error-message search
      depends on it.  Objects coming from the JSON parser have unique keys. */
  datatype Json =
    | JNull
    | JBool(b: bool)
    | JNum(n: real)
    | JStr(s: string)
    | JArr(items: seq<Json>)
    | JObj(fields: seq<(string, Json)>)

  type Fields = seq<(string, Json)>

  /** The Python exceptions that the modelled code raises or lets through. */
  datatype Error =
    | KeyError(key: Json)          // missing dict key (or header)
    | TypeError                    // subscripting or iterating the wrong kind of value
    | AttributeError(name: string) // `.get` on a non-dict, a missing attribute
    | JsonDecodeError              // the body is not JSON
    | ApiError                     // the HTTP layer reported a non-success response
    | RuntimeError(message: string)
    | FormatError                  // `str.format` rejected a template
    | Unsupported                  // a Python behaviour outside this model

  type Outcome<T> = Result<T, Error>

  /** Python truthiness of a JSON value. */
  predicate Truthy(j: Json) {
    match j
    case JNull => false
    case JBool(b) => b
    case JNum(n) => n != 0.0
    case JStr(s) => s != ""
    case JArr(xs) => xs != []
    case JObj(fs) => fs != []
  }

  /** The key of a string-or-None option, as a dict key. */
  function KeyOf(o: Option<string>): Json {
    match o
    case None => JNull
    case Some(s) => JStr(s)
  }

  function Keys(fs: Fields): (ks: seq<string>)
    ensures |ks| == |fs|
    ensures forall i :: 0 <= i < |fs| ==> ks[i] == fs[i].0
  {
    if fs == [] then [] else [fs[0].0] + Keys(fs[1..])
  }

  predicate UniqueKeys(fs: Fields) {
    forall i, j :: 0 <= i < j < |fs| ==> fs[i].0 != fs[j].0
  }

  /** Dict lookup: the value stored under `k`, if any. */
  function Get(fs: Fields, k: string): (r: Option<Json>)
    ensures r.Some? <==> k in Keys(fs)
    ensures r.Some? ==> exists i :: 0 <= i < |fs| && fs[i] == (k, r.value)
  {
    if fs == [] then None
    else if fs[0].0 == k then Some(fs[0].1)
    else Get(fs[1..], k)
  }

  /** Dict item assignment (`d[k] = v`, `d.update(k=v)`): an existing key keeps
      its position and takes the new value, a new key goes last (PutKeys). */
  function Put(fs: Fields, k: string, v: Json): (r: Fields)
    ensures Get(r, k) == Some(v)
    ensures forall k' :: k' != k ==> Get(r, k') == Get(fs, k')
  {
    if fs == [] then [(k, v)]
    else if fs[0].0 == k then [(k, v)] + fs[1..]
    else [fs[0]] + Put(fs[1..], k, v)
  }

  lemma {:induction false} PutKeys(fs: Fields, k: string, v: Json)
    ensures Keys(Put(fs, k, v)) == if k in Keys(fs) then Keys(fs) else Keys(fs) + [k]
  {
    if fs == [] {
      assert Keys([(k, v)]) == [k];
    } else if fs[0].0 == k {
      PutKeysHere(fs, k, v);
    } else {
      PutKeys(fs[1..], k, v);
      PutKeysLater(fs, k, v);
    }
  }

  lemma PutKeysHere(fs: Fields, k: string, v: Json)
    requires fs != [] && fs[0].0 == k
    ensures k in Keys(fs) && Keys(Put(fs, k, v)) == Keys(fs)
  {
    KeysCons(fs[0], fs[1..]);
    KeysCons((k, v), fs[1..]);
    assert fs == [fs[0]] + fs[1..];
  }

  lemma PutKeysLater(fs: Fields, k: string, v: Json)
    requires fs != [] && fs[0].0 != k
    requires Keys(Put(fs[1..], k, v)) == if k in Keys(fs[1..]) then Keys(fs[1..]) else Keys(fs[1..]) + [k]
    ensures Keys(Put(fs, k, v)) == if k in Keys(fs) then Keys(fs) else Keys(fs) + [k]
  {
    assert Put(fs, k, v) == [fs[0]] + Put(fs[1..], k, v);
    KeysCons(fs[0], Put(fs[1..], k, v));
    KeysCons(fs[0], fs[1..]);
    assert fs == [fs[0]] + fs[1..];
    ConsKeepsAppend(fs[0].0, Keys(fs[1..]), Keys(Put(fs[1..], k, v)), k);
  }

  /** Appending `k` when it is missing commutes with putting a different
      element in front. */
  lemma ConsKeepsAppend(x: string, b: seq<string>, s: seq<string>, k: string)
    requires x != k && s == if k in b then b else b + [k]
    ensures [x] + s == if k in [x] + b then [x] + b else [x] + b + [k]
  {
    assert k in [x] + b <==> k in b;
  }

  lemma KeysCons(p: (string, Json), fs: Fields)
    ensures Keys([p] + fs) == [p.0] + Keys(fs)
  {
    assert ([p] + fs)[1..] == fs;
  }

  lemma PutKeepsUnique(fs: Fields, k: string, v: Json)
    requires UniqueKeys(fs)
    ensures UniqueKeys(Put(fs, k, v))
  {
    PutKeys(fs, k, v);
    var r := Put(fs, k, v);
    forall i, j | 0 <= i < j < |r| ensures r[i].0 != r[j].0 {
      assert Keys(r)[i] == r[i].0 && Keys(r)[j] == r[j].0;
      if k !in Keys(fs) && j == |fs| {
        assert Keys(fs)[i] == fs[i].0;
      } else {
        assert Keys(fs)[i] == fs[i].0 && Keys(fs)[j] == fs[j].0;
      }
    }
  }

  /** `j[key]` in Python. */
  function Index(j: Json, key: Json): Outcome<Json> {
    match j
    case JObj(fs) =>
      if key.JArr? || key.JObj? then Err(TypeError)
      else if key.JStr? && Get(fs, key.s).Some? then Ok(Get(fs, key.s).value)
      else Err(KeyError(key))
    case _ => Err(TypeError)
  }

  /** `j.get(key, default)` in Python. */
  function DictGet(j: Json, key: Json, default: Json): Outcome<Json> {
    match j
    case JObj(fs) =>
      if key.JArr? || key.JObj? then Err(TypeError)
      else if key.JStr? && Get(fs, key.s).Some? then Ok(Get(fs, key.s).value)
      else Ok(default)
    case _ => Err(AttributeError("get"))
  }

  /** What a Python `for` loop visits: list items, dict keys, string characters. */
  function Iterate(j: Json): Outcome<seq<Json>> {
    match j
    case JArr(xs) => Ok(xs)
    case JObj(fs) => Ok(seq(|fs|, i requires 0 <= i < |fs| => JStr(fs[i].0)))
    case JStr(s) => Ok(seq(|s|, i requires 0 <= i < |s| => JStr([s[i]])))
    case _ => Err(TypeError)
  }

  /** An item the search passes over: its `key` reads and is not `want`. */
  predicate Skipped(item: Json, key: string, want: Json) {
    Index(item, JStr(key)).Ok? && Index(item, JStr(key)).value != want
  }

  /** Item `i` is the first whose `key` equals `want`. */
  predicate SelectedAt(items: seq<Json>, i: int, key: string, want: Json)
    requires 0 <= i < |items|
  {
    && Index(items[i], JStr(key)) == Ok(want)
    && forall j :: 0 <= j < i ==> Skipped(items[j], key, want)
  }

  function Picked(item: Json, field: string): Outcome<Option<Json>> {
    match Index(item, JStr(field))
    case Ok(v) => Ok(Some(v))
    case Err(e) => Err(e)
  }

  /**
   * `next(x[field] for x in items if x[key] == want)`, with the generator's
   * laziness: items after the first match are never looked at.  `None`
   * stands for StopIteration.
   */
  function FirstWhere(items: seq<Json>, key: string, want: Json, field: string): (r: Outcome<Option<Json>>)
    ensures r == Ok(None) <==> forall i :: 0 <= i < |items| ==> Skipped(items[i], key, want)
    ensures forall i :: 0 <= i < |items| && SelectedAt(items, i, key, want) ==> r == Picked(items[i], field)
    ensures r.Ok? && r.value.Some? ==>
              exists i :: 0 <= i < |items| && SelectedAt(items, i, key, want) && r == Picked(items[i], field)
  {
    if items == [] then Ok(None)
    else
      match Index(items[0], JStr(key))
      case Err(e) => Err(e)
      case Ok(got) =>
        if got == want then Picked(items[0], field)
        else
          var rest := FirstWhere(items[1..], key, want, field);
          SelectedAfterSkip(items, key, want);
          rest
  }

  /** Past a skipped head, item `i` is selected exactly when item `i - 1`
      of the tail is. */
  lemma SelectedAfterSkip(items: seq<Json>, key: string, want: Json)
    requires items != [] && Skipped(items[0], key, want)
    ensures forall i :: 1 <= i < |items| ==>
              (SelectedAt(items, i, key, want) <==> SelectedAt(items[1..], i - 1, key, want))
    ensures (forall i :: 0 <= i < |items| ==> Skipped(items[i], key, want)) <==>
              (forall i :: 0 <= i < |items| - 1 ==> Skipped(items[1..][i], key, want))
  {
    forall i | 1 <= i < |items|
      ensures SelectedAt(items, i, key, want) <==> SelectedAt(items[1..], i - 1, key, want)
    {
      assert forall j :: 1 <= j <= i ==> items[1..][j - 1] == items[j];
    }
    assert forall i :: 1 <= i < |items| ==> items[1..][i - 1] == items[i];
  }
}

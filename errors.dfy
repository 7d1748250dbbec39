/**
 * How a service turns an error response into a message: the first
 * `message` found by a depth-first search through nested dicts, in key
 * order, else the raw response text.
 */
module ErrorMessages {
  import opened Wrappers
  import opened Json

  /** `_find_message(obj)`: a dict's own `message` is returned as it is,
      even when falsy; otherwise its values are searched in order and the
      first truthy result wins.  Lists and scalars are not searched; JNull
      stands for the implicit `None`. */
  function FindMessage(j: Json): (m: Json)
    ensures !j.JObj? ==> m == JNull
    ensures j.JObj? && Get(j.fields, "message").Some? ==> m == Get(j.fields, "message").value
    ensures m == JNull || m in Candidates(j)
    decreases j, 1, 0
  {
    match j
    case JObj(fs) =>
      if Get(fs, "message").Some? then Get(fs, "message").value else SearchValues(j, 0)
    case _ => JNull
  }

  /** The loop over `obj.values()`, from the `i`-th value on. */
  function SearchValues(obj: Json, i: nat): (m: Json)
    requires obj.JObj? && i <= |obj.fields|
    ensures m == JNull || (Truthy(m) && m in ValueCandidates(obj, i))
    decreases obj, 0, |obj.fields| - i
  {
    if i == |obj.fields| then JNull
    else
      assert obj.fields[i] in obj.fields;
      var m := FindMessage(obj.fields[i].1);
      if Truthy(m) then m else SearchValues(obj, i + 1)
  }

  /** Reference definition: every message the search can reach, in the
      order it reaches them.  A dict with a `message` key contributes that
      message and nothing below it. */
  function Candidates(j: Json): seq<Json>
    decreases j, 1, 0
  {
    match j
    case JObj(fs) =>
      if Get(fs, "message").Some? then [Get(fs, "message").value] else ValueCandidates(j, 0)
    case _ => []
  }

  function ValueCandidates(obj: Json, i: nat): seq<Json>
    requires obj.JObj? && i <= |obj.fields|
    decreases obj, 0, |obj.fields| - i
  {
    if i == |obj.fields| then []
    else
      assert obj.fields[i] in obj.fields;
      Candidates(obj.fields[i].1) + ValueCandidates(obj, i + 1)
  }

  /** The first truthy value of a sequence, JNull when there is none. */
  function FirstTruthy(ms: seq<Json>): (m: Json)
    ensures m == JNull || Truthy(m)
  {
    if ms == [] then JNull
    else if Truthy(ms[0]) then ms[0]
    else FirstTruthy(ms[1..])
  }

  /** What `x or None` keeps of a message. */
  function OrNull(m: Json): Json {
    if Truthy(m) then m else JNull
  }

  lemma {:induction false} FirstTruthyConcat(a: seq<Json>, b: seq<Json>)
    ensures FirstTruthy(a + b) == if FirstTruthy(a) != JNull then FirstTruthy(a) else FirstTruthy(b)
  {
    if a != [] {
      assert (a + b)[0] == a[0];
      assert (a + b)[1..] == a[1..] + b;
      FirstTruthyConcat(a[1..], b);
    } else {
      assert a + b == b;
    }
  }

  /** The search returns the first truthy message among the candidates, or
      something falsy when there is none. */
  lemma {:induction false} FindMessageIsFirstCandidate(j: Json)
    ensures OrNull(FindMessage(j)) == FirstTruthy(Candidates(j))
    decreases j, 1, 0
  {
    match j
    case JObj(fs) =>
      if Get(fs, "message").Some? {
        var m := Get(fs, "message").value;
        assert Candidates(j) == [m];
        assert FirstTruthy([m]) == if Truthy(m) then m else FirstTruthy([]);
      } else {
        SearchValuesIsFirstCandidate(j, 0);
      }
    case _ =>
  }

  lemma {:induction false} SearchValuesIsFirstCandidate(obj: Json, i: nat)
    requires obj.JObj? && i <= |obj.fields|
    ensures SearchValues(obj, i) == FirstTruthy(ValueCandidates(obj, i))
    decreases obj, 0, |obj.fields| - i
  {
    if i < |obj.fields| {
      assert obj.fields[i] in obj.fields;
      FindMessageIsFirstCandidate(obj.fields[i].1);
      SearchValuesIsFirstCandidate(obj, i + 1);
      FirstTruthyConcat(Candidates(obj.fields[i].1), ValueCandidates(obj, i + 1));
    }
  }

  /**
   * `extract_error_message`: `body` is the parsed response, `None` when the
   * body is not JSON.  The message is the first truthy candidate, and the
   * raw text when the body is not JSON or holds no truthy message.
   */
  function ExtractErrorMessage(body: Option<Json>, text: string): (m: Json)
    ensures body.None? ==> m == JStr(text)
    ensures body.Some? && FirstTruthy(Candidates(body.value)) != JNull ==> m == FirstTruthy(Candidates(body.value))
    ensures body.Some? && FirstTruthy(Candidates(body.value)) == JNull ==> m == JStr(text)
  {
    match body
    case None => JStr(text)
    case Some(j) =>
      FindMessageIsFirstCandidate(j);
      var found := FindMessage(j);
      if Truthy(found) then found else JStr(text)
  }

  /** The usual OpenStack error body: the message one level down. */
  lemma NestedMessage(text: string)
    ensures ExtractErrorMessage(Some(JObj([("badRequest", JObj([("message", JStr("Invalid input")), ("code", JNum(400.0))]))])), text)
            == JStr("Invalid input")
  {
    var inner := JObj([("message", JStr("Invalid input")), ("code", JNum(400.0))]);
    assert Candidates(inner) == [JStr("Invalid input")];
    var outer := JObj([("badRequest", inner)]);
    assert ValueCandidates(outer, 0) == Candidates(inner) + ValueCandidates(outer, 1);
  }

  /** A message inside a list is not found, and an empty message falls
      back to the text. */
  lemma UnsearchedAndFalsy(text: string)
    ensures ExtractErrorMessage(Some(JObj([("errors", JArr([JObj([("message", JStr("hidden"))])]))])), text) == JStr(text)
    ensures ExtractErrorMessage(Some(JObj([("message", JStr(""))])), text) == JStr(text)
  {
    var outer := JObj([("errors", JArr([JObj([("message", JStr("hidden"))])]))]);
    assert ValueCandidates(outer, 0) == [] + ValueCandidates(outer, 1);
    assert Candidates(JObj([("message", JStr(""))])) == [JStr("")];
  }

  /** A dict's own message shadows every message below it. */
  lemma OwnMessageShadows(text: string)
    ensures ExtractErrorMessage(Some(JObj([("a", JObj([("message", JStr("deep"))])), ("message", JStr("top"))])), text) == JStr("top")
  {
    var top := JObj([("a", JObj([("message", JStr("deep"))])), ("message", JStr("top"))]);
    assert Get(top.fields, "message") == Some(JStr("top"));
    assert Candidates(top) == [JStr("top")];
  }

  /** The search takes the first truthy message in key order. */
  lemma KeyOrder(text: string)
    ensures ExtractErrorMessage(Some(JObj([("a", JObj([("message", JStr(""))])), ("b", JObj([("message", JStr("second"))]))])), text) == JStr("second")
  {
    var a := JObj([("message", JStr(""))]);
    var b := JObj([("message", JStr("second"))]);
    var obj := JObj([("a", a), ("b", b)]);
    assert Candidates(a) == [JStr("")] && Candidates(b) == [JStr("second")];
    assert ValueCandidates(obj, 1) == Candidates(b) + ValueCandidates(obj, 2);
    assert ValueCandidates(obj, 0) == [JStr(""), JStr("second")];
    assert FirstTruthy([JStr(""), JStr("second")]) == FirstTruthy([JStr("second")]);
  }
}

/**
 * The Python string operations the client layer relies on: `strip`,
 * `rstrip`, `[:-1]`, `replace`, `lower`, `find`, `split(sep, 1)` and
 * `str.format` with one keyword field.
 */
module Text {
  import opened Wrappers
  import opened Json

  /** `s.lstrip(c)`: the suffix left after every leading `c` is dropped. */
  function LStrip(s: string, c: char): (r: string)
    ensures |r| <= |s| && r == s[|s| - |r|..]
    ensures forall i :: 0 <= i < |s| - |r| ==> s[i] == c
    ensures r == [] || r[0] != c
  {
    if s != [] && s[0] == c then LStrip(s[1..], c) else s
  }

  /** `s.rstrip(c)`: the prefix left after every trailing `c` is dropped. */
  function RStrip(s: string, c: char): (r: string)
    ensures |r| <= |s| && r == s[..|r|]
    ensures forall i :: |r| <= i < |s| ==> s[i] == c
    ensures r == [] || r[|r| - 1] != c
  {
    if s != [] && s[|s| - 1] == c then RStrip(s[..|s| - 1], c) else s
  }

  /** `s.strip(c)`: neither end of the result is `c`, and a string that
      neither starts nor ends with `c` is left as it is. */
  function Strip(s: string, c: char): (r: string)
    ensures |r| <= |s|
    ensures r == [] || (r[0] != c && r[|r| - 1] != c)
    ensures s == [] || (s[0] != c && s[|s| - 1] != c) ==> r == s
  {
    RStrip(LStrip(s, c), c)
  }

  /** What `strip` removes is exactly a run of `c` at each end: the result
      is a slice of the input with only `c` before and after it. */
  lemma StripIsSlice(s: string, c: char)
    ensures exists a, b :: 0 <= a <= b <= |s| && Strip(s, c) == s[a..b] && OnlyAround(s, c, a, b)
  {
    var l := LStrip(s, c);
    var r := RStrip(l, c);
    assert Strip(s, c) == r;
    var a, b := |s| - |l|, |s| - |l| + |r|;
    assert r == s[a..b];
    forall k | b <= k < |s|
      ensures s[k] == c
    {
      assert s[k] == l[k - a];
    }
    assert OnlyAround(s, c, a, b);
  }

  /** Everything before index `a` and from index `b` on is `c`. */
  predicate OnlyAround(s: string, c: char, a: nat, b: nat)
    requires a <= b <= |s|
  {
    (forall k :: 0 <= k < a ==> s[k] == c) && (forall k :: b <= k < |s| ==> s[k] == c)
  }

  /** `("/" + x).strip("/")` for an `x` that neither starts nor ends with
      a slash: the leading slash goes, nothing else. */
  lemma StripLeading(x: string, c: char)
    requires x != [] && x[0] != c && x[|x| - 1] != c
    ensures Strip([c] + x, c) == x
  {
    assert ([c] + x)[1..] == x;
  }

  /** `s.rstrip(c)` twice is `s.rstrip(c)` once. */
  lemma RStripIdempotent(s: string, c: char)
    ensures RStrip(RStrip(s, c), c) == RStrip(s, c)
  {
  }

  /** `s[:-1]`: every character but the last (nothing for the empty string). */
  function DropLast(s: string): (r: string)
    ensures |r| == if s == [] then 0 else |s| - 1
    ensures r == s[..|r|]
  {
    if s == [] then s else s[..|s| - 1]
  }

  /** `s.replace(a, b)` for single characters. */
  function ReplaceChar(s: string, a: char, b: char): (r: string)
    ensures |r| == |s|
    ensures forall i :: 0 <= i < |s| ==> r[i] == if s[i] == a then b else s[i]
  {
    seq(|s|, i requires 0 <= i < |s| => if s[i] == a then b else s[i])
  }

  /** Replacing a character that does not occur changes nothing. */
  lemma ReplaceAbsent(x: string, a: char, b: char)
    requires a !in x
    ensures ReplaceChar(x, a, b) == x
  {
    forall i | 0 <= i < |x|
      ensures ReplaceChar(x, a, b)[i] == x[i]
    {
      assert x[i] in x;
    }
  }

  /** One occurrence between two free parts is the only change. */
  lemma ReplaceOne(x: string, y: string, a: char, b: char)
    requires a !in x && a !in y
    ensures ReplaceChar(x + [a] + y, a, b) == x + [b] + y
  {
    var s, t := x + [a] + y, x + [b] + y;
    forall i | 0 <= i < |s|
      ensures ReplaceChar(s, a, b)[i] == t[i]
    {
      if i < |x| {
        assert s[i] == x[i] && t[i] == x[i] && x[i] in x;
      } else if i > |x| {
        var j := i - |x| - 1;
        assert s[i] == y[j] && t[i] == y[j] && y[j] in y;
      }
    }
  }

  function LowerChar(c: char): char {
    if 'A' <= c <= 'Z' then (c as int + 32) as char else c
  }

  /** `s.lower()` on ASCII letters. */
  function Lower(s: string): (r: string)
    ensures |r| == |s|
    ensures forall i :: 0 <= i < |s| ==> r[i] == LowerChar(s[i])
  {
    if s == [] then [] else [LowerChar(s[0])] + Lower(s[1..])
  }

  lemma LowerIdempotent(s: string)
    ensures Lower(Lower(s)) == Lower(s)
  {
  }

  /** Position of the first character of `s` in `cs`, or `|s|` when none is
      (`s.find(c)`, with `|s|` standing for -1). */
  function IndexOfAny(s: string, cs: set<char>): (r: nat)
    ensures r <= |s|
    ensures r < |s| ==> s[r] in cs
    ensures forall i :: 0 <= i < r ==> s[i] !in cs
  {
    if s == [] then 0
    else if s[0] in cs then 0
    else 1 + IndexOfAny(s[1..], cs)
  }

  /** The three postconditions of IndexOfAny determine it. */
  lemma IndexOfAnyIs(s: string, cs: set<char>, k: nat)
    requires k <= |s|
    requires k < |s| ==> s[k] in cs
    requires forall i :: 0 <= i < k ==> s[i] !in cs
    ensures IndexOfAny(s, cs) == k
  {
  }

  /** `s.split(c, 1)`: the text before the first `c` and the text after it;
      `(s, "")` when there is no `c`. */
  function SplitAt(s: string, c: char): (parts: (string, string))
    ensures c !in s ==> parts == (s, "")
    ensures c in s ==> s == parts.0 + [c] + parts.1
    ensures c !in parts.0
    ensures forall x :: x in parts.1 ==> x in s
  {
    var i := IndexOfAny(s, {c});
    if i < |s| then
      assert s == s[..i] + [c] + s[i + 1..];
      assert forall x :: x in s[i + 1..] ==> x in s;
      (s[..i], s[i + 1..])
    else (s, "")
  }

  function Prepend(p: string, r: Outcome<string>): Outcome<string> {
    match r
    case Ok(s) => Ok(p + s)
    case Err(e) => Err(e)
  }

  predicate NoBraces(s: string) {
    '{' !in s && '}' !in s
  }

  /**
   * `t.format(name=value)`: `{{` and `}}` stand for single braces and
   * `{name}` for the text of the value, which is only needed (and may only
   * fail, as `Err`) when the field occurs.  A field with a conversion or a
   * format spec is outside the model; any other field or a lone brace is
   * rejected, as Python rejects it (KeyError, IndexError or ValueError).
   */
  function FormatField(t: string, name: string, value: Outcome<string>): Outcome<string>
    decreases |t|
  {
    if t == [] then Ok([])
    else if |t| >= 2 && t[..2] == "{{" then Prepend("{", FormatField(t[2..], name, value))
    else if |t| >= 2 && t[..2] == "}}" then Prepend("}", FormatField(t[2..], name, value))
    else if t[0] == '{' then
      var n := |name| + 1;
      if |t| > n && t[1..n] == name && t[n] == '}' then
        match value
        case Err(e) => Err(e)
        case Ok(v) => Prepend(v, FormatField(t[n + 1..], name, value))
      else if |t| > n && t[1..n] == name && t[n] in {'!', ':', '.', '['} then Err(Unsupported)
      else Err(FormatError)
    else if t[0] == '}' then Err(FormatError)
    else Prepend([t[0]], FormatField(t[1..], name, value))
  }

  /** A template without braces formats to itself. */
  lemma {:induction false} FormatNoBraces(t: string, name: string, value: Outcome<string>)
    requires NoBraces(t)
    ensures FormatField(t, name, value) == Ok(t)
  {
    if t != [] {
      assert t[0] in t;
      assert NoBraces(t[1..]) by {
        forall c | c in t[1..] ensures c in t {}
      }
      FormatNoBraces(t[1..], name, value);
      assert t == [t[0]] + t[1..];
    }
  }

  /** One `{name}` between brace-free text is replaced by the value. */
  lemma {:induction false} FormatOneField(a: string, b: string, name: string, value: string)
    requires NoBraces(a) && NoBraces(b) && NoBraces(name)
    ensures FormatField(a + "{" + name + "}" + b, name, Ok(value)) == Ok(a + value + b)
  {
    var t := a + "{" + name + "}" + b;
    if a == [] {
      assert t == "{" + name + "}" + b;
      FormatFieldAtStart(b, name, value);
      assert a + value + b == value + b;
    } else {
      assert a[0] in a;
      assert NoBraces(a[1..]) by {
        forall c | c in a[1..] ensures c in a {}
      }
      FormatOneField(a[1..], b, name, value);
      assert t[1..] == a[1..] + "{" + name + "}" + b;
      assert t[0] == a[0];
      assert a + value + b == [a[0]] + (a[1..] + value + b);
    }
  }

  lemma FormatFieldAtStart(b: string, name: string, value: string)
    requires NoBraces(b) && NoBraces(name)
    ensures FormatField("{" + name + "}" + b, name, Ok(value)) == Ok(value + b)
  {
    var t := "{" + name + "}" + b;
    var n := |name| + 1;
    assert t[1..n] == name && t[n] == '}';
    assert t[n + 1..] == b;
    assert t[0] == '{';
    if name == [] {
      assert t[1] == '}';
    } else {
      assert t[1] == name[0] && name[0] in name;
    }
    assert !(|t| >= 2 && t[..2] == "{{");
    FormatNoBraces(b, name, Ok(value));
    assert FormatField(t, name, Ok(value)) == Prepend(value, FormatField(b, name, Ok(value)));
  }
}

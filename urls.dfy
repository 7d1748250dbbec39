/**
 * Splitting a URL into scheme, network location, path, query and fragment
 * the way Python's `urllib.parse.urlsplit` does, and putting it back
 * together without its path (`urlsplit(u)._replace(path='').geturl()`),
 * which is how the catalog endpoints are reduced to a base URL.
 */
module Urls {
  import opened Text

  datatype UrlParts = UrlParts(scheme: string, netloc: string, path: string, query: string, fragment: string)

  predicate IsAsciiAlpha(c: char) {
    'a' <= c <= 'z' || 'A' <= c <= 'Z'
  }

  /** Letters, digits, `+`, `-` and `.`. */
  predicate IsSchemeChar(c: char) {
    IsAsciiAlpha(c) || '0' <= c <= '9' || c == '+' || c == '-' || c == '.'
  }

  /** Schemes that are written with a `//` even when the network location is empty. */
  const UsesNetloc: set<string> := {
    "", "ftp", "http", "gopher", "nntp", "telnet", "imap", "wais", "file", "mms",
    "https", "shttp", "snews", "prospero", "rtsp", "rtsps", "rtspu", "rsync",
    "svn", "svn+ssh", "sftp", "nfs", "git", "git+ssh", "ws", "wss", "itms-services"
  }

  const NetlocEnd: set<char> := {'/', '?', '#'}

  /** A scheme is everything before the first `:` when that is non-empty,
      starts with a letter and holds only scheme characters; it is lower-cased. */
  function SplitScheme(url: string): (r: (string, string))
    ensures r.0 == [] || IsAsciiAlpha(r.0[0])
    ensures forall k :: 0 <= k < |r.0| ==> IsSchemeChar(r.0[k]) && LowerChar(r.0[k]) == r.0[k]
    ensures forall i :: 0 < i < |url| && url[i] == ':' && IsAsciiAlpha(url[0]) && (forall k :: 0 <= k < i ==> IsSchemeChar(url[k]))
                        ==> r == (Lower(url[..i]), url[i + 1..])
    ensures r.0 != [] ==> && |r.0| < |url| && url[|r.0|] == ':' && IsAsciiAlpha(url[0])
                          && (forall k :: 0 <= k < |r.0| ==> IsSchemeChar(url[k]))
                          && r == (Lower(url[..|r.0|]), url[|r.0| + 1..])
    ensures r.0 == [] ==> r.1 == url
  {
    var i := IndexOfAny(url, {':'});
    FirstColon(url, i);
    if 0 < i < |url| && IsAsciiAlpha(url[0]) && forall k :: 0 <= k < i ==> IsSchemeChar(url[k])
    then LowerScheme(url[..i]); (Lower(url[..i]), url[i + 1..])
    else ("", url)
  }

  /** No `:` is a scheme character, so a `:` after a run of scheme
      characters is the first one. */
  lemma FirstColon(url: string, i: nat)
    requires i <= |url|
    requires i < |url| ==> url[i] == ':'
    requires forall k :: 0 <= k < i ==> url[k] != ':'
    ensures forall j :: 0 <= j < |url| && url[j] == ':' && (forall k :: 0 <= k < j ==> IsSchemeChar(url[k])) ==> j == i
  {
    forall j | 0 <= j < |url| && url[j] == ':' && (forall k :: 0 <= k < j ==> IsSchemeChar(url[k]))
      ensures j == i
    {
      if i < j {
        assert IsSchemeChar(url[i]);
      }
    }
  }

  /** Lower-casing keeps scheme characters scheme characters, and the
      result is already lower case. */
  lemma LowerScheme(s: string)
    requires forall k :: 0 <= k < |s| ==> IsSchemeChar(s[k])
    ensures forall k :: 0 <= k < |s| ==> IsSchemeChar(Lower(s)[k]) && LowerChar(Lower(s)[k]) == Lower(s)[k]
  {
  }

  /** After `//`, the network location runs up to the first `/`, `?` or `#`. */
  function SplitNetloc(rest: string): (r: (string, string))
    ensures forall k :: 0 <= k < |r.0| ==> r.0[k] !in NetlocEnd
  {
    if |rest| >= 2 && rest[..2] == "//" then
      var after := rest[2..];
      var d := IndexOfAny(after, NetlocEnd);
      (after[..d], after[d..])
    else ("", rest)
  }

  /** `urlsplit(url)`: scheme, then network location, then fragment, then query. */
  function SplitUrl(url: string): (r: UrlParts)
    ensures SplitShape(r)
    ensures '?' !in r.path && '#' !in r.path
  {
    var (scheme, rest) := SplitScheme(url);
    var (netloc, rest2) := SplitNetloc(rest);
    var (rest3, fragment) := SplitAt(rest2, '#');
    assert '#' !in rest3;
    var (path, query) := SplitAt(rest3, '?');
    UrlParts(scheme, netloc, path, query, fragment)
  }

  /** `urlunsplit` of parts whose path is empty. */
  function JoinWithoutPath(p: UrlParts): string {
    (if p.scheme != "" then p.scheme + ":" else "")
    + (if p.netloc != "" || (p.scheme != "" && p.scheme in UsesNetloc) then "//" + p.netloc else "")
    + (if p.query != "" then "?" + p.query else "")
    + (if p.fragment != "" then "#" + p.fragment else "")
  }

  /** The catalog URL with its path removed: read back, it has an empty path
      and the scheme, network location, query and fragment of `url`. */
  function StripPath(url: string): (r: string)
    ensures SplitUrl(r) == SplitUrl(url).(path := "")
  {
    var p := SplitUrl(url);
    ClearPathKeepsShape(p);
    JoinThenSplit(p.(path := ""));
    JoinIgnoresPath(p);
    JoinWithoutPath(p)
  }

  /** What SplitUrl can produce. */
  predicate SplitShape(p: UrlParts) {
    && (p.scheme == [] || IsAsciiAlpha(p.scheme[0]))
    && (forall k :: 0 <= k < |p.scheme| ==> IsSchemeChar(p.scheme[k]) && LowerChar(p.scheme[k]) == p.scheme[k])
    && (forall k :: 0 <= k < |p.netloc| ==> p.netloc[k] !in NetlocEnd)
    && '#' !in p.query
  }

  /** The scheme of a joined URL is read back. */
  lemma SchemeOfJoined(scheme: string, rest: string)
    requires scheme == [] || IsAsciiAlpha(scheme[0])
    requires forall k :: 0 <= k < |scheme| ==> IsSchemeChar(scheme[k]) && LowerChar(scheme[k]) == scheme[k]
    requires rest == [] || rest[0] in {'/', '?', '#'}
    ensures SplitScheme((if scheme != "" then scheme + ":" else "") + rest) == (scheme, rest)
  {
    if scheme != "" {
      NonEmptySchemeOfJoined(scheme, rest);
    } else {
      assert (if scheme != "" then scheme + ":" else "") + rest == rest;
    }
  }

  lemma NonEmptySchemeOfJoined(scheme: string, rest: string)
    requires scheme != [] && IsAsciiAlpha(scheme[0])
    requires forall k :: 0 <= k < |scheme| ==> IsSchemeChar(scheme[k]) && LowerChar(scheme[k]) == scheme[k]
    ensures SplitScheme(scheme + ":" + rest) == (scheme, rest)
  {
    var u := scheme + ":" + rest;
    assert forall k :: 0 <= k < |scheme| ==> u[k] == scheme[k];
    forall k | 0 <= k < |scheme| ensures u[k] != ':' {
      assert IsSchemeChar(scheme[k]);
    }
    assert u[|scheme|] == ':';
    IndexOfAnyIs(u, {':'}, |scheme|);
    assert u[..|scheme|] == scheme;
    assert u[|scheme| + 1..] == rest;
    assert Lower(scheme) == scheme;
  }

  /** The network location of a joined URL is read back. */
  lemma NetlocOfJoined(slashes: bool, netloc: string, tail: string)
    requires forall k :: 0 <= k < |netloc| ==> netloc[k] !in NetlocEnd
    requires netloc != "" ==> slashes
    requires tail == [] || tail[0] in {'?', '#'}
    ensures SplitNetloc((if slashes then "//" + netloc else "") + tail) == (netloc, tail)
  {
    var rest := (if slashes then "//" + netloc else "") + tail;
    if slashes {
      assert rest[..2] == "//";
      var after := rest[2..];
      assert after == netloc + tail;
      IndexOfAnyIs(after, NetlocEnd, |netloc|);
      assert after[..|netloc|] == netloc;
      assert after[|netloc|..] == tail;
    } else {
      assert rest == tail;
    }
  }

  /** Fragment and query of a joined URL are read back. */
  lemma QueryFragmentOfJoined(query: string, fragment: string)
    requires '#' !in query
    ensures var qry := if query != "" then "?" + query else "";
            var frg := if fragment != "" then "#" + fragment else "";
            var (rest3, f) := SplitAt(qry + frg, '#');
            f == fragment && SplitAt(rest3, '?') == ("", query)
  {
    var qry := if query != "" then "?" + query else "";
    var frg := if fragment != "" then "#" + fragment else "";
    assert '#' !in qry;
    if fragment != "" {
      var t := qry + frg;
      assert t == qry + ['#'] + fragment;
      assert forall k :: 0 <= k < |qry| ==> t[k] == qry[k];
      IndexOfAnyIs(t, {'#'}, |qry|);
      assert t[..|qry|] == qry && t[|qry| + 1..] == fragment;
    } else {
      assert qry + frg == qry;
    }
    if query != "" {
      assert IndexOfAny(qry, {'?'}) == 0;
      assert qry[1..] == query;
    }
  }

  /** Splitting what JoinWithoutPath builds gives back the parts, path empty. */
  lemma JoinThenSplit(p: UrlParts)
    requires SplitShape(p) && p.path == ""
    ensures SplitUrl(JoinWithoutPath(p)) == p
  {
    var slashes := p.netloc != "" || (p.scheme != "" && p.scheme in UsesNetloc);
    var tail := (if p.query != "" then "?" + p.query else "") + (if p.fragment != "" then "#" + p.fragment else "");
    var rest := (if slashes then "//" + p.netloc else "") + tail;
    JoinedPieces(p, slashes, tail, rest);
    SchemeOfJoined(p.scheme, rest);
    NetlocOfJoined(slashes, p.netloc, tail);
    QueryFragmentOfJoined(p.query, p.fragment);
    assert SplitScheme(JoinWithoutPath(p)) == (p.scheme, rest);
    assert SplitNetloc(rest) == (p.netloc, tail);
  }

  /** JoinWithoutPath is the scheme part, then `rest`: the network
      location part followed by `tail`, which starts with `?` or `#`. */
  lemma JoinedPieces(p: UrlParts, slashes: bool, tail: string, rest: string)
    requires slashes == (p.netloc != "" || (p.scheme != "" && p.scheme in UsesNetloc))
    requires tail == (if p.query != "" then "?" + p.query else "") + (if p.fragment != "" then "#" + p.fragment else "")
    requires rest == (if slashes then "//" + p.netloc else "") + tail
    ensures tail == [] || tail[0] in {'?', '#'}
    ensures rest == [] || rest[0] in {'/', '?', '#'}
    ensures JoinWithoutPath(p) == (if p.scheme != "" then p.scheme + ":" else "") + rest
  {
  }

  lemma ClearPathKeepsShape(p: UrlParts)
    requires SplitShape(p)
    ensures SplitShape(p.(path := ""))
  {
  }

  /** Stripping the path twice is stripping it once. */
  lemma StripPathIdempotent(url: string)
    ensures StripPath(StripPath(url)) == StripPath(url)
  {
    var p := SplitUrl(url);
    assert SplitUrl(StripPath(url)) == p.(path := "");
    JoinIgnoresPath(p);
  }

  lemma JoinIgnoresPath(p: UrlParts)
    ensures JoinWithoutPath(p.(path := "")) == JoinWithoutPath(p)
  {
  }
}

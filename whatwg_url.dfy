/**
 * A simplified basic URL parser after the WHATWG URL Standard (section 4.4,
 * "URL parsing"), with no base URL and no state override, as `new URL(s)`
 * runs it. It keeps every step that decides whether an http(s) URL parses:
 * trimming, tab and newline removal, the scheme (lower-cased), the slashes
 * after a special scheme, userinfo, the host and the port. The host parser
 * itself is reduced to its cheap checks (see README).
 */
module WhatwgUrl {
  import opened Wrappers
  import Js

  /** A parsed URL: its scheme, its host as written (empty for a URL whose
      authority is not parsed here) and the unparsed path, query and fragment. */
  datatype Url = Url(scheme: string, host: string, rest: string)

  /** The `protocol` getter (section 6.1 of the URL Standard): the scheme followed by ":". */
  function Protocol(u: Url): string {
    u.scheme + ":"
  }

  predicate IsC0ControlOrSpace(c: char) { c <= ' ' }
  predicate IsTabOrNewline(c: char) { c == '\t' || c == '\n' || c == '\r' }
  predicate IsAsciiAlpha(c: char) { 'a' <= c <= 'z' || 'A' <= c <= 'Z' }
  predicate IsAsciiDigit(c: char) { '0' <= c <= '9' }
  predicate IsSchemeChar(c: char) { IsAsciiAlpha(c) || IsAsciiDigit(c) || c == '+' || c == '-' || c == '.' }

  function ToLower(c: char): (l: char)
    ensures IsAsciiAlpha(c) ==> 'a' <= l <= 'z'
    ensures !IsAsciiAlpha(c) ==> l == c
  {
    if 'A' <= c <= 'Z' then (c as int + 32) as char else c
  }

  function LowerAscii(s: string): (l: string)
    ensures |l| == |s| && forall k :: 0 <= k < |s| ==> l[k] == ToLower(s[k])
  {
    seq(|s|, k requires 0 <= k < |s| => ToLower(s[k]))
  }

  /** A scheme as the parser stores it: an ASCII lower-case letter, then
      lower-case letters, digits, "+", "-" or ".". */
  predicate IsLowerScheme(s: string) {
    s != [] && 'a' <= s[0] <= 'z' &&
    forall k :: 0 <= k < |s| ==> IsSchemeChar(s[k]) && !('A' <= s[k] <= 'Z')
  }

  /** Step 1 of the basic URL parser: drop leading C0 controls and spaces. */
  function TrimLeading(s: string): (r: string)
    ensures |r| <= |s| && forall c :: c in r ==> c in s
    ensures r != [] ==> !IsC0ControlOrSpace(r[0])
  {
    if s != [] && IsC0ControlOrSpace(s[0]) then TrimLeading(s[1..]) else s
  }

  /** Step 1, continued: drop trailing C0 controls and spaces. */
  function TrimTrailing(s: string): (r: string)
    ensures |r| <= |s| && forall c :: c in r ==> c in s
    ensures r != [] ==> !IsC0ControlOrSpace(r[|r| - 1])
  {
    if s != [] && IsC0ControlOrSpace(s[|s| - 1]) then TrimTrailing(s[..|s| - 1]) else s
  }

  /** What TrimLeading drops is a run of C0 controls and spaces in front of what it keeps. */
  lemma {:induction false} TrimLeadingSplits(s: string)
    ensures |TrimLeading(s)| <= |s| && s[|s| - |TrimLeading(s)|..] == TrimLeading(s)
    ensures forall k :: 0 <= k < |s| - |TrimLeading(s)| ==> IsC0ControlOrSpace(s[k])
    decreases |s|
  {
    if s != [] && IsC0ControlOrSpace(s[0]) {
      var r := TrimLeading(s[1..]);
      TrimLeadingSplits(s[1..]);
      assert s[1..][|s| - 1 - |r|..] == s[|s| - |r|..];
      forall k | 0 < k < |s| - |r|
        ensures IsC0ControlOrSpace(s[k])
      {
        assert s[k] == s[1..][k - 1];
      }
    }
  }

  /** What TrimTrailing drops is a run of C0 controls and spaces after what it keeps. */
  lemma {:induction false} TrimTrailingSplits(s: string)
    ensures |TrimTrailing(s)| <= |s| && s[..|TrimTrailing(s)|] == TrimTrailing(s)
    ensures forall k :: |TrimTrailing(s)| <= k < |s| ==> IsC0ControlOrSpace(s[k])
    decreases |s|
  {
    if s != [] && IsC0ControlOrSpace(s[|s| - 1]) {
      var p := s[..|s| - 1];
      var r := TrimTrailing(p);
      TrimTrailingSplits(p);
      assert p[..|r|] == s[..|r|];
      forall k | |r| <= k < |s| - 1
        ensures IsC0ControlOrSpace(s[k])
      {
        assert s[k] == p[k];
      }
    }
  }

  /** Step 3: remove every ASCII tab or newline. */
  function RemoveTabNewline(s: string): (r: string)
    ensures forall c :: c in r <==> c in s && !IsTabOrNewline(c)
  {
    if s == [] then []
    else (if IsTabOrNewline(s[0]) then [] else [s[0]]) + RemoveTabNewline(s[1..])
  }

  function Preprocess(input: string): string {
    RemoveTabNewline(TrimTrailing(TrimLeading(input)))
  }

  /** The scheme state: from index `i`, the index of the ":" that ends the
      scheme, or `None` when a character that cannot be in a scheme (or the
      end of the input) comes first. */
  function SchemeColon(s: string, i: nat): (r: Option<nat>)
    requires i <= |s|
    decreases |s| - i
    ensures r.Some? ==> i <= r.value < |s| && s[r.value] == ':'
    ensures r.Some? ==> forall k :: i <= k < r.value ==> IsSchemeChar(s[k])
  {
    if i == |s| then None
    else if s[i] == ':' then Some(i)
    else if IsSchemeChar(s[i]) then SchemeColon(s, i + 1)
    else None
  }

  /** The scheme start and scheme states, with no base URL: the lower-cased
      scheme and what follows its ":", or failure. */
  function SplitScheme(s: string): (r: Option<(string, string)>)
    ensures r.Some? ==> IsLowerScheme(r.value.0)
  {
    if s == [] || !IsAsciiAlpha(s[0]) then None
    else match SchemeColon(s, 1)
      case None => None
      case Some(k) => Some((LowerAscii(s[..k]), s[k + 1..]))
  }

  /** Special schemes whose URLs have a host (section 4.2 of the URL Standard, "special scheme", less "file"). */
  predicate HasAuthority(scheme: string) {
    scheme in {"ftp", "http", "https", "ws", "wss"}
  }

  /** The special authority slashes and ignore slashes states: any run of
      "/" and "\" after the scheme is skipped. */
  function SkipSlashes(s: string): (r: string)
    ensures |r| <= |s| && forall c :: c in r ==> c in s
    ensures r != [] ==> r[0] != '/' && r[0] != '\\'
  {
    if s != [] && (s[0] == '/' || s[0] == '\\') then SkipSlashes(s[1..]) else s
  }

  predicate IsAuthorityEnd(c: char) { c == '/' || c == '?' || c == '#' || c == '\\' }

  /** The length of the authority: everything up to the first "/", "?", "#" or "\". */
  function AuthorityLength(s: string, i: nat): (n: nat)
    requires i <= |s|
    decreases |s| - i
    ensures i <= n <= |s|
    ensures forall k :: i <= k < n ==> !IsAuthorityEnd(s[k])
    ensures n < |s| ==> IsAuthorityEnd(s[n])
  {
    if i == |s| || IsAuthorityEnd(s[i]) then i else AuthorityLength(s, i + 1)
  }

  /** The index just after the last "@" in `s[..i]`, or 0 when there is none. */
  function AfterLastAt(s: string, i: nat): (n: nat)
    requires i <= |s|
    ensures n <= i
    ensures forall k :: n <= k < i ==> s[k] != '@'
    ensures n > 0 ==> s[n - 1] == '@'
  {
    if i == 0 then 0 else if s[i - 1] == '@' then i else AfterLastAt(s, i - 1)
  }

  /** The host state: the index of the first ":" outside "[...]", which starts the port. */
  function PortColon(s: string, i: nat, inBrackets: bool): (r: Option<nat>)
    requires i <= |s|
    decreases |s| - i
    ensures r.Some? ==> i <= r.value < |s| && s[r.value] == ':'
  {
    if i == |s| then None
    else if s[i] == ':' && !inBrackets then Some(i)
    else PortColon(s, i + 1, if s[i] == '[' then true else if s[i] == ']' then false else inBrackets)
  }

  /** Code points that make a domain fail (forbidden domain code points,
      section 3.1 of the URL Standard), except "%", which the full parser decodes first. */
  predicate IsForbiddenInDomain(c: char) {
    c <= ' ' || c == '#' || c == '/' || c == ':' || c == '<' || c == '>' || c == '?' ||
    c == '@' || c == '[' || c == '\\' || c == ']' || c == '^' || c == '|' || c as int == 0x7F
  }

  /** The host parser's checks kept here: a bracketed host must close its
      bracket, and any other host must hold no forbidden code point. */
  predicate HostOk(host: string) {
    host != [] &&
    if host[0] == '[' then host[|host| - 1] == ']'
    else forall k :: 0 <= k < |host| ==> !IsForbiddenInDomain(host[k])
  }

  /** The port state: digits only, at most 65535; an empty port is allowed. */
  predicate PortOk(port: string) {
    Js.AllDigits(port) && (port == [] || Js.DigitsValue(port) <= 65535)
  }

  /** The authority, host and port states for a special scheme. */
  function ParseAuthority(scheme: string, afterScheme: string): (r: Option<Url>)
    ensures r.Some? ==> r.value.scheme == scheme && HostOk(r.value.host)
  {
    var s := SkipSlashes(afterScheme);
    var n := AuthorityLength(s, 0);
    var hostPort := s[AfterLastAt(s, n)..n];
    var colon := PortColon(hostPort, 0, false);
    var host := if colon.Some? then hostPort[..colon.value] else hostPort;
    var port := if colon.Some? then hostPort[colon.value + 1..] else "";
    if HostOk(host) && PortOk(port) then Some(Url(scheme, host, s[n..])) else None
  }

  /**
   * `new URL(input)` with no base: `None` is the TypeError it throws. A URL
   * whose scheme is not in `HasAuthority` is accepted with its remainder
   * unparsed.
   */
  function Parse(input: string): (r: Option<Url>)
    ensures r.Some? ==> IsLowerScheme(r.value.scheme)
    ensures r.Some? && HasAuthority(r.value.scheme) ==> HostOk(r.value.host)
  {
    match SplitScheme(Preprocess(input))
    case None => None
    case Some((scheme, afterScheme)) =>
      if HasAuthority(scheme) then ParseAuthority(scheme, afterScheme)
      else Some(Url(scheme, "", afterScheme))
  }

  // ---------------------------------------------------------------------
  // Properties of the parser

  lemma TrimKeepsColonFree(s: string)
    requires ':' !in s
    ensures ':' !in Preprocess(s)
  {
    var a := TrimLeading(s);
    var b := TrimTrailing(a);
    assert forall c :: c in a ==> c in s;
    assert forall c :: c in b ==> c in a;
  }

  /** Without a ":" there is no scheme, and with no base URL that is failure. */
  lemma NoColonNoUrl(s: string)
    requires ':' !in s
    ensures Parse(s) == None
  {
    TrimKeepsColonFree(s);
  }

  /** `SchemeColon` finds the first ":" when only scheme characters precede it. */
  lemma {:induction false} SchemeColonFinds(s: string, i: nat, j: nat)
    requires i <= j < |s| && s[j] == ':'
    requires forall k :: i <= k < j ==> IsSchemeChar(s[k])
    ensures SchemeColon(s, i) == Some(j)
    decreases j - i
  {
    if i < j {
      SchemeColonFinds(s, i + 1, j);
    }
  }

  lemma {:induction false} TrimTrailingKeepsFirst(s: string)
    requires s != [] && !IsC0ControlOrSpace(s[0])
    ensures TrimTrailing(s) != [] && TrimTrailing(s)[0] == s[0]
  {
    if IsC0ControlOrSpace(s[|s| - 1]) {
      TrimTrailingKeepsFirst(s[..|s| - 1]);
    }
  }

  /** An input whose first character after the leading C0 controls and
      spaces is not a letter has no scheme, so it does not parse. */
  lemma NonLetterStartNoUrl(s: string)
    requires TrimLeading(s) != [] && !IsAsciiAlpha(TrimLeading(s)[0])
    ensures Parse(s) == None
  {
    var t := TrimLeading(s);
    TrimTrailingKeepsFirst(t);
    var b := TrimTrailing(t);
    assert RemoveTabNewline(b) == [t[0]] + RemoveTabNewline(b[1..]);
  }

  // ---------------------------------------------------------------------
  // The scanning functions stop exactly where the standard stops.

  lemma {:induction false} RemoveTabNewlineKeeps(s: string)
    requires forall k :: 0 <= k < |s| ==> !IsTabOrNewline(s[k])
    ensures RemoveTabNewline(s) == s
  {
    if s != [] {
      RemoveTabNewlineKeeps(s[1..]);
    }
  }

  /** An input free of spaces and control characters that starts with a
      scheme and its ":" splits at that ":". */
  lemma SplitClean(s: string, j: nat)
    requires forall k :: 0 <= k < |s| ==> !IsC0ControlOrSpace(s[k])
    requires 1 <= j < |s| && IsAsciiAlpha(s[0]) && s[j] == ':'
    requires forall k :: 1 <= k < j ==> IsSchemeChar(s[k])
    ensures SplitScheme(Preprocess(s)) == Some((LowerAscii(s[..j]), s[j + 1..]))
  {
    assert TrimLeading(s) == s;
    assert TrimTrailing(s) == s;
    RemoveTabNewlineKeeps(s);
    SchemeColonFinds(s, 1, j);
  }

  lemma {:induction false} AuthorityLengthIs(s: string, i: nat, n: nat)
    requires i <= n <= |s|
    requires forall k :: i <= k < n ==> !IsAuthorityEnd(s[k])
    requires n < |s| ==> IsAuthorityEnd(s[n])
    ensures AuthorityLength(s, i) == n
    decreases n - i
  {
    if i < n {
      AuthorityLengthIs(s, i + 1, n);
    }
  }

  lemma {:induction false} NoAtFromStart(s: string, i: nat)
    requires i <= |s|
    requires forall k :: 0 <= k < i ==> s[k] != '@'
    ensures AfterLastAt(s, i) == 0
  {
    if i > 0 {
      NoAtFromStart(s, i - 1);
    }
  }

  lemma {:induction false} PortColonFinds(s: string, i: nat, j: nat)
    requires i <= j < |s| && s[j] == ':'
    requires forall k :: i <= k < j ==> s[k] != ':' && s[k] != '[' && s[k] != ']'
    ensures PortColon(s, i, false) == Some(j)
    decreases j - i
  {
    if i < j {
      PortColonFinds(s, i + 1, j);
    }
  }

  lemma {:induction false} NoPortColon(s: string, i: nat)
    requires i <= |s|
    requires forall k :: i <= k < |s| ==> s[k] != ':' && s[k] != '[' && s[k] != ']'
    ensures PortColon(s, i, false) == None
    decreases |s| - i
  {
    if i < |s| {
      NoPortColon(s, i + 1);
    }
  }

  lemma {:induction false} SkipSlashesIs(s: string, n: nat)
    requires n <= |s| && (n < |s| ==> s[n] != '/' && s[n] != '\\')
    requires forall k :: 0 <= k < n ==> s[k] == '/' || s[k] == '\\'
    ensures SkipSlashes(s) == s[n..]
  {
    if n > 0 {
      SkipSlashesIs(s[1..], n - 1);
    }
  }

  /** `ParseAuthority` succeeds once its scans have found a host and a port that pass. */
  lemma ParseAuthorityIs(scheme: string, after: string, n: nat, host: string, port: string)
    requires n <= |SkipSlashes(after)|
    requires AuthorityLength(SkipSlashes(after), 0) == n && AfterLastAt(SkipSlashes(after), n) == 0
    requires SkipSlashes(after)[0..n] == host + ":" + port
    requires PortColon(host + ":" + port, 0, false) == Some(|host|)
    requires HostOk(host) && PortOk(port)
    ensures ParseAuthority(scheme, after) == Some(Url(scheme, host, SkipSlashes(after)[n..]))
  {
    var hp := host + ":" + port;
    assert hp[..|host|] == host && hp[|host| + 1..] == port;
  }

  /** After a special scheme, parsing is the authority parse. */
  lemma ParseWithAuthority(input: string, scheme: string, afterScheme: string)
    requires SplitScheme(Preprocess(input)) == Some((scheme, afterScheme))
    requires HasAuthority(scheme)
    ensures Parse(input) == ParseAuthority(scheme, afterScheme)
  {
  }
}

/** `Util.isValidHttpUrl` (src/utils/util.js). */
module Util {
  import opened Wrappers
  import opened Js
  import opened WhatwgUrl

  /**
   * `isValidHttpUrl(s)` for a string: false for "", false when `new URL(s)`
   * throws (the exception is caught), otherwise whether the protocol is
   * "http:" or "https:".
   */
  function IsValidHttpUrl(s: string): (ok: bool)
    ensures ok <==> s != "" && Parse(s).Some? && Parse(s).value.scheme in {"http", "https"}
    ensures ok ==> HostOk(Parse(s).value.host)
  {
    if s == "" then false
    else match Parse(s)
      case None => false
      case Some(u) => u.scheme == "http" || u.scheme == "https"
  }

  /** Comparing the scheme is the source's comparison of `url.protocol`
      with "http:" and "https:". */
  lemma ProtocolIsHttp(u: Url)
    ensures Protocol(u) == "http:" <==> u.scheme == "http"
    ensures Protocol(u) == "https:" <==> u.scheme == "https"
  {
    if Protocol(u) == "http:" || Protocol(u) == "https:" {
      assert u.scheme == Protocol(u)[..|u.scheme|];
    }
  }

  /** `IsValidHttpUrl` read through the `protocol` getter. */
  lemma ValidIffHttpProtocol(s: string)
    ensures IsValidHttpUrl(s) <==>
              s != "" && Parse(s).Some? && (Protocol(Parse(s).value) == "http:" || Protocol(Parse(s).value) == "https:")
  {
    if Parse(s).Some? {
      ProtocolIsHttp(Parse(s).value);
    }
  }

  /**
   * `isValidHttpUrl(v)` for whatever JSON value the handler passes: a falsy
   * value gives false; otherwise `new URL(v)` converts `v` to a string first.
   * When that conversion throws, the catch block's message converts `v`
   * again and throws the same TypeError, so the call itself throws.
   */
  function IsValidHttpUrlOf(v: Json): (r: Completion<bool>)
    ensures v.Str? ==> r == Normal(IsValidHttpUrl(v.s))
    ensures !Truthy(v) ==> r == Normal(false)
    ensures r.Throw? <==> Truthy(v) && ToJsString(v).None?
    ensures r == Normal(true) ==> ToJsString(v).Some? && IsValidHttpUrl(ToJsString(v).value)
  {
    if !Truthy(v) then Normal(false)
    else match ToJsString(v)
      case None => Throw(ConversionError)
      case Some(s) => Normal(IsValidHttpUrl(s))
  }

  const ConversionError := "TypeError: Cannot convert object to primitive value"

  // ---------------------------------------------------------------------
  // Properties of the URL check

  /** A string with no ":" (such as "someStringThatIsNotAString") is rejected. */
  lemma SchemelessRejected(s: string)
    requires ':' !in s
    ensures !IsValidHttpUrl(s)
  {
    NoColonNoUrl(s);
  }

  /** A URL that parses with any scheme but http or https is rejected. */
  lemma OtherSchemeRejected(s: string)
    requires Parse(s).Some? && Parse(s).value.scheme !in {"http", "https"}
    ensures !IsValidHttpUrl(s)
  {
  }

  /** An http or https URL needs a host: "http:", "http://" and "http://@/x" are rejected. */
  lemma HttpWithoutHostRejected(s: string)
    requires Parse(s).Some? && Parse(s).value.host == ""
    ensures !IsValidHttpUrl(s)
  {
  }

  /** Only strings and arrays can pass: a number, a boolean or an object
      either fails the check or makes it throw. */
  lemma OnlyTextCanPass(v: Json)
    requires !v.Str? && !v.Arr?
    ensures IsValidHttpUrlOf(v) != Normal(true)
  {
    match v
    case Num(n) =>
      if n != 0 {
        var s := IntToString(n);
        assert !IsC0ControlOrSpace(s[0]) && !IsAsciiAlpha(s[0]);
        assert TrimLeading(s) == s;
        NonLetterStartNoUrl(s);
      }
    case Bool(b) =>
      if b { SchemelessRejected("true"); }
    case Obj(m) =>
      if "toString" !in m {
        assert TrimLeading("[object Object]") == "[object Object]";
        NonLetterStartNoUrl("[object Object]");
      }
    case Null =>
  }

  // ---------------------------------------------------------------------
  // Concrete URLs from the test suites

  function Pow10(k: nat): nat { if k == 0 then 1 else 10 * Pow10(k - 1) }

  lemma {:induction false} DigitsValueBound(s: string)
    requires Js.AllDigits(s)
    ensures Js.DigitsValue(s) < Pow10(|s|)
  {
    if s != [] {
      DigitsValueBound(s[..|s| - 1]);
    }
  }

  lemma HttpScheme(s: string)
    requires forall k :: 0 <= k < |s| ==> !IsC0ControlOrSpace(s[k])
    requires 7 <= |s| && s[..7] == "http://"
    ensures SplitScheme(Preprocess(s)) == Some(("http", s[5..]))
  {
    assert s[0] == 'h' && s[1] == 't' && s[2] == 't' && s[3] == 'p' && s[4] == ':';
    SplitClean(s, 4);
    assert s[..4] == "http";
    assert LowerAscii("http") == "http";
  }

  lemma PlainAuthority(a: string, m: nat)
    requires m <= |a| && (m < |a| ==> IsAuthorityEnd(a[m]))
    requires forall k :: 0 <= k < m ==> a[k] != '@' && !IsAuthorityEnd(a[k])
    ensures AuthorityLength(a, 0) == m && AfterLastAt(a, m) == 0
  {
    AuthorityLengthIs(a, 0, m);
    NoAtFromStart(a, m);
  }

  /** A port of at most four digits is in range. */
  lemma ShortPortOk(port: string)
    requires |port| <= 4 && Js.AllDigits(port)
    ensures PortOk(port)
  {
    DigitsValueBound(port);
    Pow10Monotone(|port|, 4);
    assert Pow10(4) == 10000;
  }

  lemma HostPortSplit(hp: string, h: nat)
    requires h < |hp| <= h + 5 && hp[h] == ':'
    requires forall k :: 0 <= k < h ==> !IsForbiddenInDomain(hp[k])
    requires forall k :: h < k < |hp| ==> '0' <= hp[k] <= '9'
    ensures hp == hp[..h] + ":" + hp[h + 1..]
    ensures PortColon(hp, 0, false) == Some(h)
    ensures PortOk(hp[h + 1..])
  {
    HostColonFound(hp, h);
    PortAllDigits(hp, h);
    ShortPortOk(hp[h + 1..]);
    SplitAtColon(hp, h);
  }

  lemma SplitAtColon(hp: string, h: nat)
    requires h < |hp| && hp[h] == ':'
    ensures hp == hp[..h] + ":" + hp[h + 1..]
  {
    assert hp[..h] + ":" == hp[..h + 1];
    assert hp[..h + 1] + hp[h + 1..] == hp;
  }

  /** A host free of forbidden code points holds no ":" or bracket, so the port's ":" is the first one. */
  lemma HostColonFound(hp: string, h: nat)
    requires h < |hp| && hp[h] == ':'
    requires forall k :: 0 <= k < h ==> !IsForbiddenInDomain(hp[k])
    ensures PortColon(hp, 0, false) == Some(h)
  {
    assert forall k :: 0 <= k < h ==> hp[k] != ':' && hp[k] != '[' && hp[k] != ']' by {
      forall k | 0 <= k < h ensures hp[k] != ':' && hp[k] != '[' && hp[k] != ']' {
        assert !IsForbiddenInDomain(hp[k]);
      }
    }
    PortColonFinds(hp, 0, h);
  }

  lemma PortAllDigits(hp: string, h: nat)
    requires h < |hp|
    requires forall k :: h < k < |hp| ==> '0' <= hp[k] <= '9'
    ensures Js.AllDigits(hp[h + 1..])
  {
    var port := hp[h + 1..];
    forall k | 0 <= k < |port| ensures '0' <= port[k] <= '9' {
      assert port[k] == hp[h + 1 + k];
    }
  }

  lemma {:induction false} Pow10Monotone(i: nat, j: nat)
    requires i <= j
    ensures Pow10(i) <= Pow10(j)
    decreases j
  {
    if i < j {
      Pow10Monotone(i, j - 1);
    }
  }

  /** `after` is "//HOST:PORT" followed by the path: the host ends at `c`,
      the authority at `n` (both counted from after the slashes). */
  predicate AuthorityShape(after: string, c: nat, n: nat)
  {
    |after| > 2 && after[0] == '/' && after[1] == '/' && after[2] != '/' && after[2] != '\\' &&
    0 < c < n <= |after| - 2 && n - c <= 5 &&
    (forall k :: 0 <= k < c ==> !IsForbiddenInDomain(after[2..][k])) &&
    (forall k :: 0 <= k < n ==> !IsAuthorityEnd(after[2..][k])) &&
    after[2..][c] == ':' && (forall k :: c < k < n ==> '0' <= after[2..][k] <= '9') &&
    (n < |after| - 2 ==> IsAuthorityEnd(after[2..][n]))
  }

  /** The authority "HOST:PORT" after "//", with the port at most four digits, parses. */
  lemma AuthorityParses(after: string, c: nat, n: nat)
    requires AuthorityShape(after, c, n)
    ensures ParseAuthority("http", after) == Some(Url("http", after[2..][..c], after[2..][n..]))
  {
    var a := after[2..];
    SkipSlashesIs(after, 2);
    assert forall k :: 0 <= k < n ==> a[k] != '@' && !IsAuthorityEnd(a[k]) by {
      forall k | 0 <= k < n ensures a[k] != '@' && !IsAuthorityEnd(a[k]) {
        if k < c { assert !IsForbiddenInDomain(a[k]); }
      }
    }
    PlainAuthority(a, n);
    var hp := a[..n];
    HostPortSplit(hp, c);
    assert hp[..c] == a[..c];
    ParseAuthorityIs("http", after, n, a[..c], hp[c + 1..]);
  }

  /** The facts about "http://HOST:PORT..." restated relative to the text after the scheme's ":". */
  lemma ShiftToAuthority(s: string, c: nat, n: nat)
    requires 7 < c < n <= |s| && n - c <= 5 && s[..7] == "http://"
    requires forall k :: 7 <= k < c ==> !IsForbiddenInDomain(s[k])
    requires forall k :: 7 <= k < n ==> !IsAuthorityEnd(s[k])
    requires s[c] == ':' && forall k :: c < k < n ==> '0' <= s[k] <= '9'
    requires n < |s| ==> IsAuthorityEnd(s[n])
    ensures AuthorityShape(s[5..], c - 7, n - 7)
    ensures s[5..][2..][..c - 7] == s[7..c] && s[5..][2..][n - 7..] == s[n..]
  {
    var after := s[5..];
    assert after[2..] == s[7..];
    assert s[5] == '/' && s[6] == '/';
    assert !IsAuthorityEnd(s[7]);
  }

  /**
   * An input of the form "http://HOST:PORT/..." with no spaces or controls,
   * a host free of forbidden code points and a port of at most four digits
   * parses as an http URL. `c` is the index of the port's ":" and `n` the
   * end of the authority.
   */
  lemma HttpUrlParses(s: string, c: nat, n: nat)
    requires forall k :: 0 <= k < |s| ==> !IsC0ControlOrSpace(s[k])
    requires 7 < c < n <= |s| && n - c <= 5 && s[..7] == "http://"
    requires forall k :: 7 <= k < c ==> !IsForbiddenInDomain(s[k])
    requires forall k :: 7 <= k < n ==> !IsAuthorityEnd(s[k])
    requires s[c] == ':' && forall k :: c < k < n ==> '0' <= s[k] <= '9'
    requires n < |s| ==> IsAuthorityEnd(s[n])
    ensures Parse(s) == Some(Url("http", s[7..c], s[n..]))
  {
    HttpScheme(s);
    HttpAuthority(s, c, n);
    HttpUrlFromParts(s, s[5..], Url("http", s[7..c], s[n..]));
  }

  lemma HttpAuthority(s: string, c: nat, n: nat)
    requires 7 < c < n <= |s| && n - c <= 5 && s[..7] == "http://"
    requires forall k :: 7 <= k < c ==> !IsForbiddenInDomain(s[k])
    requires forall k :: 7 <= k < n ==> !IsAuthorityEnd(s[k])
    requires s[c] == ':' && forall k :: c < k < n ==> '0' <= s[k] <= '9'
    requires n < |s| ==> IsAuthorityEnd(s[n])
    ensures ParseAuthority("http", s[5..]) == Some(Url("http", s[7..c], s[n..]))
  {
    var after := s[5..];
    ShiftToAuthority(s, c, n);
    AuthorityParses(after, c - 7, n - 7);
    assert after[2..][..c - 7] == s[7..c] && after[2..][n - 7..] == s[n..];
  }

  lemma HttpUrlFromParts(s: string, after: string, u: Url)
    requires SplitScheme(Preprocess(s)) == Some(("http", after))
    requires ParseAuthority("http", after) == Some(u)
    ensures Parse(s) == Some(u)
  {
    assert HasAuthority("http");
    ParseWithAuthority(s, "http", after);
  }

  /** "http://localhost:1234" followed by a path is accepted. */
  lemma LocalhostUrlAccepted(s: string, path: string)
    requires s == "http://localhost:1234" + path
    requires |path| > 0 && path[0] == '/'
    requires forall k :: 0 <= k < |path| ==> !IsC0ControlOrSpace(path[k])
    ensures IsValidHttpUrl(s)
  {
    assert forall k :: 0 <= k < 21 ==> !IsC0ControlOrSpace(s[k]);
    assert forall k :: 21 <= k < |s| ==> s[k] == path[k - 21];
    HttpUrlParses(s, 16, 21);
  }

  /** The first subscriber URL of the test suites is accepted. */
  lemma TestUrlOneAccepted(u: string)
    requires u == "http://localhost:1234/test"
    ensures IsValidHttpUrl(u)
  {
    LocalhostUrlAccepted(u, "/test");
  }

  /** The second subscriber URL of the test suites is accepted. */
  lemma TestUrlTwoAccepted(u: string)
    requires u == "http://localhost:1234/test-two"
    ensures IsValidHttpUrl(u)
  {
    LocalhostUrlAccepted(u, "/test-two");
  }

  /** The third subscriber URL of the publish tests is accepted. */
  lemma TestUrlThreeAccepted(u: string)
    requires u == "http://localhost:1234/test-three"
    ensures IsValidHttpUrl(u)
  {
    LocalhostUrlAccepted(u, "/test-three");
  }

  /** The string the subscription test uses as a malformed URL is rejected. */
  lemma TestStringRejected()
    ensures !IsValidHttpUrl("someStringThatIsNotAString")
  {
    SchemelessRejected("someStringThatIsNotAString");
  }
}

/** The transport configuration (credmap.py lines 419-455): the choice
    between no proxy, a forward HTTP(S) proxy, a SOCKS proxy and the default
    opener, made once before any site is tested. */
module Transport {
  import opened Wrappers
  import opened Text

  /** The groups of `(?P<type>[^:]+)://(?P<address>[^:]+):(?P<port>\d+)`. */
  datatype ProxyMatch = ProxyMatch(scheme: string, address: string, port: string)

  datatype SocksVersion = Socks4 | Socks5

  /** The configuration that is installed, in place of `install_opener` and
      `socks.setdefaultproxy`:
      - NoProxyOpener: an opener with an empty `ProxyHandler` (`--ignore-proxy`);
      - ForwardProxy: an opener whose `ProxyHandler` maps `key` to `url`;
      - Socks: a default SOCKS proxy at `address` and `port`;
      - Unconfigured: a well-formed proxy of any other scheme, which configures nothing;
      - BadProxyFormat: the proxy string does not match and the program exits;
      - DefaultOpener: the opener with the platform's proxy settings. */
  datatype Transport =
    | NoProxyOpener
    | ForwardProxy(key: string, url: string)
    | Socks(version: SocksVersion, address: string, port: nat)
    | Unconfigured
    | BadProxyFormat
    | DefaultOpener

  /** The text `scheme://address:port` of a match, with its parts of the
      right form: scheme and address non-empty and free of ':', the port a
      non-empty run of digits. */
  predicate WellFormed(pm: ProxyMatch) {
    pm.scheme != "" && ':' !in pm.scheme && pm.address != "" && ':' !in pm.address &&
    pm.port != "" && AllDigits(pm.port)
  }

  function Render(pm: ProxyMatch): string {
    pm.scheme + "://" + pm.address + ":" + pm.port
  }

  /** The pattern tried at offset `i`. Each `[^:]+` group runs greedily up to
      the next ':', and no shorter choice can be followed by ':', so the
      pattern matches at `i` exactly when the scheme is non-empty and
      followed by "://", the address is non-empty and followed by ':', and
      at least one digit follows; the port is the longest run of digits. */
  function MatchAt(s: string, i: nat): (r: Option<ProxyMatch>)
    requires i <= |s|
    ensures r.Some? ==> WellFormed(r.value)
  {
    var j := FirstIndex(s, ':', i);
    if j == i || j + 3 > |s| || s[j..j + 3] != "://" then None
    else
      var m := FirstIndex(s, ':', j + 3);
      if m == j + 3 || m == |s| then None
      else
        var d := DigitRunEnd(s, m + 1);
        if d == m + 1 then None
        else
          NoneInSlice(s, ':', i, j);
          NoneInSlice(s, ':', j + 3, m);
          DigitsInSlice(s, m + 1, d);
          Some(ProxyMatch(s[i..j], s[j + 3..m], s[m + 1..d]))
  }

  lemma NoneInSlice(s: string, c: char, a: nat, b: nat)
    requires a <= b <= |s| && forall k :: a <= k < b ==> s[k] != c
    ensures c !in s[a..b]
  {
  }

  lemma DigitsInSlice(s: string, a: nat, b: nat)
    requires a <= b <= |s| && forall k :: a <= k < b ==> IsDigit(s[k])
    ensures AllDigits(s[a..b])
  {
    forall k | 0 <= k < b - a ensures IsDigit(s[a..b][k]) { assert s[a..b][k] == s[a + k]; }
  }

  /** The outcome of the pattern at every offset of `s`, the end included. */
  function Candidates(s: string): (c: seq<Option<ProxyMatch>>)
    ensures |c| == |s| + 1
    ensures forall k :: 0 <= k <= |s| ==> c[k] == MatchAt(s, k)
  {
    seq(|s| + 1, k requires 0 <= k <= |s| => MatchAt(s, k))
  }

  /** The first present value from index `i` on. */
  function FirstSome<T>(xs: seq<Option<T>>, i: nat): Option<T>
    requires i <= |xs|
    decreases |xs| - i
  {
    if i == |xs| then None else if xs[i].Some? then xs[i] else FirstSome(xs, i + 1)
  }

  /** `re.search`: the match at the leftmost offset where there is one. */
  function Search(s: string): (r: Option<ProxyMatch>)
    ensures r.Some? ==> WellFormed(r.value)
  {
    FirstSomeIsPresent(Candidates(s), 0);
    FirstSome(Candidates(s), 0)
  }

  /** A match at `i` has its text standing at `i`, followed by a character
      that is not a digit, or by the end. */
  lemma MatchAtSound(s: string, i: nat)
    requires i <= |s| && MatchAt(s, i).Some?
    ensures var pm := MatchAt(s, i).value;
      StartsWith(s[i..], Render(pm)) &&
      (i + |Render(pm)| < |s| ==> !IsDigit(s[i + |Render(pm)|]))
  {
    var j, m, d := MatchAtParts(s, i);
    RenderParts(s, i, j, m, d);
    assert s[i..][..d - i] == s[i..d];
  }

  /** The three scans behind a match at `i`. */
  lemma MatchAtParts(s: string, i: nat) returns (j: nat, m: nat, d: nat)
    requires i <= |s| && MatchAt(s, i).Some?
    ensures i < j && j + 3 < m && m + 1 < d <= |s| && s[j..j + 3] == "://" && s[m] == ':'
    ensures d < |s| ==> !IsDigit(s[d])
    ensures MatchAt(s, i) == Some(ProxyMatch(s[i..j], s[j + 3..m], s[m + 1..d]))
  {
    j := FirstIndex(s, ':', i);
    m := FirstIndex(s, ':', j + 3);
    d := DigitRunEnd(s, m + 1);
  }

  /** The text between `i` and `d`, cut at the scans, is the rendered match. */
  lemma RenderParts(s: string, i: nat, j: nat, m: nat, d: nat)
    requires i <= j && j + 3 <= m < d <= |s| && s[j..j + 3] == "://" && s[m] == ':'
    ensures s[i..d] == Render(ProxyMatch(s[i..j], s[j + 3..m], s[m + 1..d]))
  {
    SplitSlice(s, i, j, d);
    SplitSlice(s, j, j + 3, d);
    SplitSlice(s, j + 3, m, d);
    SplitSlice(s, m, m + 1, d);
    assert s[m..m + 1] == [':'];
  }

  lemma SplitSlice(s: string, a: nat, b: nat, c: nat)
    requires a <= b <= c <= |s|
    ensures s[a..c] == s[a..b] + s[b..c]
  {
  }

  /** `r` stands in `s` at offset `i`: its pieces stand at the offsets
      inside it. */
  lemma Segment(s: string, i: nat, r: string, a: nat, b: nat)
    requires i + |r| <= |s| && s[i..i + |r|] == r && a <= b <= |r|
    ensures s[i + a..i + b] == r[a..b]
  {
    forall k | 0 <= k < b - a ensures s[i + a..i + b][k] == r[a..b][k] {
      assert s[i + a..i + b][k] == s[i + a + k] == s[i..i + |r|][a + k];
    }
  }

  /** The pieces of a rendered match, by offset. */
  lemma RenderPieces(pm: ProxyMatch)
    ensures var r := Render(pm); var j := |pm.scheme|; var m := j + 3 + |pm.address|;
      |r| == m + 1 + |pm.port| && r[0..j] == pm.scheme && r[j..j + 3] == "://" &&
      r[j + 3..m] == pm.address && r[m] == ':' && r[m + 1..|r|] == pm.port
  {
  }

  /** Conversely, a well-formed proxy text at `i`, not followed by a digit,
      is what `MatchAt` finds there. */
  lemma MatchAtComplete(s: string, i: nat, pm: ProxyMatch)
    requires i <= |s| && WellFormed(pm) && StartsWith(s[i..], Render(pm))
    requires i + |Render(pm)| < |s| ==> !IsDigit(s[i + |Render(pm)|])
    ensures MatchAt(s, i) == Some(pm)
  {
    var r := Render(pm);
    assert s[i..i + |r|] == r by { assert s[i..][..|r|] == s[i..i + |r|]; }
    RenderPieces(pm);
    var j := i + |pm.scheme|;
    var m := j + 3 + |pm.address|;
    var d := i + |r|;
    Segment(s, i, r, 0, j - i);
    Segment(s, i, r, j - i, j - i + 3);
    Segment(s, i, r, j - i + 3, m - i);
    Segment(s, i, r, m - i + 1, |r|);
    assert s[m] == s[i..i + |r|][m - i];
    assert s[i..j] == pm.scheme && s[j..j + 3] == "://" && s[j + 3..m] == pm.address && s[m + 1..d] == pm.port;
    MatchAtPieces(s, i, j, m, d);
  }

  /** `MatchAt` on a string cut into the pieces the pattern expects. */
  lemma MatchAtPieces(s: string, i: nat, j: nat, m: nat, d: nat)
    requires i < j && j + 3 < m && m + 1 < d <= |s|
    requires ':' !in s[i..j] && s[j..j + 3] == "://" && ':' !in s[j + 3..m] && s[m] == ':'
    requires AllDigits(s[m + 1..d]) && (d < |s| ==> !IsDigit(s[d]))
    ensures MatchAt(s, i) == Some(ProxyMatch(s[i..j], s[j + 3..m], s[m + 1..d]))
  {
    assert s[j] == s[j..j + 3][0];
    NotInSlice(s, ':', i, j);
    NotInSlice(s, ':', j + 3, m);
    DigitsOfSlice(s, m + 1, d);
    FirstIndexAt(s, ':', i, j);
    FirstIndexAt(s, ':', j + 3, m);
    DigitRunEndAt(s, m + 1, d);
  }

  lemma NotInSlice(s: string, c: char, a: nat, b: nat)
    requires a <= b <= |s| && c !in s[a..b]
    ensures forall k :: a <= k < b ==> s[k] != c
  {
    forall k | a <= k < b ensures s[k] != c { assert s[k] == s[a..b][k - a]; }
  }

  lemma DigitsOfSlice(s: string, a: nat, b: nat)
    requires a <= b <= |s| && AllDigits(s[a..b])
    ensures forall k :: a <= k < b ==> IsDigit(s[k])
  {
    forall k | a <= k < b ensures IsDigit(s[k]) { assert s[k] == s[a..b][k - a]; }
  }

  lemma FirstIndexAt(s: string, c: char, i: nat, j: nat)
    requires i <= j < |s| && s[j] == c && forall k :: i <= k < j ==> s[k] != c
    ensures FirstIndex(s, c, i) == j
  {
  }

  lemma DigitRunEndAt(s: string, i: nat, j: nat)
    requires i <= j <= |s| && (j < |s| ==> !IsDigit(s[j])) && forall k :: i <= k < j ==> IsDigit(s[k])
    ensures DigitRunEnd(s, i) == j
  {
  }

  /** The text of the match `pm` stands at offset `k` of `s`, and the port
      is not followed by a further digit. */
  ghost predicate StandsAt(s: string, k: nat, pm: ProxyMatch) {
    k <= |s| && WellFormed(pm) && StartsWith(s[k..], Render(pm)) &&
    (k + |Render(pm)| < |s| ==> !IsDigit(s[k + |Render(pm)|]))
  }

  /** The pattern matches at `k` exactly where such a text stands. */
  lemma MatchAtIff(s: string, k: nat, pm: ProxyMatch)
    requires k <= |s|
    ensures MatchAt(s, k) == Some(pm) <==> StandsAt(s, k, pm)
  {
    if MatchAt(s, k) == Some(pm) {
      MatchAtSound(s, k);
    }
    if StandsAt(s, k, pm) {
      MatchAtComplete(s, k, pm);
    }
  }

  /** `FirstSome` returns the value at the first index from `i` on that
      holds one. */
  lemma {:induction false} FirstSomeLeftmost<T>(xs: seq<Option<T>>, i: nat, k: nat)
    requires i <= k < |xs| && xs[k].Some?
    requires forall q :: i <= q < k ==> xs[q].None?
    ensures FirstSome(xs, i) == xs[k]
    decreases k - i
  {
    if i < k {
      FirstSomeLeftmost(xs, i + 1, k);
    }
  }

  /** `FirstSome` finds nothing only when no index from `i` on holds a
      value. */
  lemma {:induction false} FirstSomeNone<T>(xs: seq<Option<T>>, i: nat)
    requires i <= |xs|
    ensures FirstSome(xs, i).None? <==> forall q :: i <= q < |xs| ==> xs[q].None?
    decreases |xs| - i
  {
    if i < |xs| {
      FirstSomeNone(xs, i + 1);
    }
  }

  lemma FirstSomeIsPresent<T>(xs: seq<Option<T>>, i: nat)
    requires i <= |xs|
    ensures FirstSome(xs, i).Some? ==> exists k :: i <= k < |xs| && xs[k] == FirstSome(xs, i)
  {
    if FirstSome(xs, i).Some? {
      var k := FirstSomeIndex(xs, i);
    }
  }

  /** The index where `FirstSome` found its value. */
  lemma {:induction false} FirstSomeIndex<T>(xs: seq<Option<T>>, i: nat) returns (k: nat)
    requires i <= |xs| && FirstSome(xs, i).Some?
    ensures i <= k < |xs| && xs[k] == FirstSome(xs, i)
    ensures forall q :: i <= q < k ==> xs[q].None?
    decreases |xs| - i
  {
    if xs[i].Some? {
      k := i;
    } else {
      k := FirstSomeIndex(xs, i + 1);
    }
  }

  /** `re.search` on the proxy string: it returns `pm` exactly when the text
      of `pm` stands at some offset and at no earlier offset does any match
      stand. */
  lemma SearchIff(s: string, pm: ProxyMatch)
    ensures Search(s) == Some(pm) <==>
      exists k: nat :: StandsAt(s, k, pm) && forall q: nat, other :: q < k ==> !StandsAt(s, q, other)
  {
    var c := Candidates(s);
    if Search(s) == Some(pm) {
      var k := FirstSomeIndex(c, 0);
      MatchAtIff(s, k, pm);
      forall q: nat, other | q < k ensures !StandsAt(s, q, other) {
        MatchAtIff(s, q, other);
      }
    }
    if exists k: nat :: StandsAt(s, k, pm) && forall q: nat, other :: q < k ==> !StandsAt(s, q, other) {
      var k: nat :| StandsAt(s, k, pm) && forall q: nat, other :: q < k ==> !StandsAt(s, q, other);
      MatchAtIff(s, k, pm);
      forall q | 0 <= q < k ensures c[q].None? {
        if MatchAt(s, q).Some? {
          MatchAtIff(s, q, MatchAt(s, q).value);
        }
      }
      FirstSomeLeftmost(c, 0, k);
    }
  }

  /** The search finds nothing exactly when the pattern matches at no
      offset. */
  lemma SearchNone(s: string)
    ensures Search(s).None? <==> forall q :: 0 <= q <= |s| ==> MatchAt(s, q).None?
  {
    var c := Candidates(s);
    FirstSomeNone(c, 0);
    if Search(s).None? {
      forall q | 0 <= q <= |s| ensures MatchAt(s, q).None? { assert c[q] == MatchAt(s, q); }
    }
  }

  /** The proxy branch of `main`: `--ignore-proxy` first, then
      `--proxy`, then the default opener. */
  function ConfigureTransport(ignoreProxy: bool, proxy: Option<string>): Transport {
    if ignoreProxy then NoProxyOpener
    else if proxy.Some? && proxy.value != "" then
      match Search(proxy.value)
      case None => BadProxyFormat
      case Some(pm) =>
        var kind := Upper(pm.scheme);
        if kind == "HTTP" || kind == "HTTPS" then ForwardProxy(pm.scheme, proxy.value)
        else if kind == "SOCKS4" then Socks(Socks4, pm.address, DecimalValue(pm.port))
        else if kind == "SOCKS5" then Socks(Socks5, pm.address, DecimalValue(pm.port))
        else Unconfigured
    else DefaultOpener
  }

  /** `--ignore-proxy` wins over `--proxy`, and a run that gives neither
      uses the default opener. */
  lemma IgnoreProxyWins(proxy: Option<string>)
    ensures ConfigureTransport(true, proxy) == NoProxyOpener
    ensures ConfigureTransport(false, None) == DefaultOpener && ConfigureTransport(false, Some("")) == DefaultOpener
  {
  }

  /** The run exits on a proxy string exactly when the pattern's text
      stands nowhere in it. */
  lemma BadProxyFormatIff(proxy: string)
    requires proxy != ""
    ensures ConfigureTransport(false, Some(proxy)) == BadProxyFormat <==>
            forall k: nat, pm :: !StandsAt(proxy, k, pm)
  {
    assert ConfigureTransport(false, Some(proxy)) == BadProxyFormat <==> Search(proxy).None?;
    SearchFindsNothingIff(proxy);
  }

  /** The search finds nothing exactly when the pattern's text stands
      nowhere in the string. */
  lemma SearchFindsNothingIff(s: string)
    ensures Search(s).None? <==> forall k: nat, pm :: !StandsAt(s, k, pm)
  {
    SearchNone(s);
    if Search(s).None? {
      forall k: nat, pm ensures !StandsAt(s, k, pm) {
        if k <= |s| {
          MatchAtIff(s, k, pm);
        }
      }
    } else {
      var k := FirstSomeIndex(Candidates(s), 0);
      MatchAtIff(s, k, Search(s).value);
    }
  }

  /** What a matched proxy selects: HTTP or HTTPS in any case a forward
      proxy keyed by the scheme as written; SOCKS4 or SOCKS5 a SOCKS proxy
      on the integer port; any other scheme nothing at all, without an
      error. */
  lemma ProxySelection(proxy: string, pm: ProxyMatch)
    requires proxy != "" && Search(proxy) == Some(pm)
    ensures var t := ConfigureTransport(false, Some(proxy));
      && (Upper(pm.scheme) in {"HTTP", "HTTPS"} <==> t == ForwardProxy(pm.scheme, proxy))
      && (Upper(pm.scheme) == "SOCKS4" <==> t == Socks(Socks4, pm.address, DecimalValue(pm.port)))
      && (Upper(pm.scheme) == "SOCKS5" <==> t == Socks(Socks5, pm.address, DecimalValue(pm.port)))
      && (Upper(pm.scheme) !in {"HTTP", "HTTPS", "SOCKS4", "SOCKS5"} <==> t == Unconfigured)
  {
  }

  /** A proxy string that is exactly `scheme://address:port` is matched from
      its first character, so its own scheme decides the transport. */
  lemma WholeStringProxy(pm: ProxyMatch)
    requires WellFormed(pm)
    ensures Search(Render(pm)) == Some(pm)
  {
    var s := Render(pm);
    assert s[0..] == s;
    MatchAtComplete(s, 0, pm);
  }

  /** A well-formed proxy whose scheme is none of HTTP, HTTPS, SOCKS4 and
      SOCKS5 is accepted without an error and configures nothing, so the
      run goes on with urllib2's built-in opener. */
  lemma UnknownSchemeIsNotFatal(pm: ProxyMatch)
    requires WellFormed(pm) && Upper(pm.scheme) !in {"HTTP", "HTTPS", "SOCKS4", "SOCKS5"}
    ensures ConfigureTransport(false, Some(Render(pm))) == Unconfigured
  {
    WholeStringProxy(pm);
  }

  /** A proxy string that is exactly one HTTP or HTTPS address, in any
      letter case, selects the forward proxy keyed by the scheme as written
      ("HtTp" and "http" are different keys) with the whole string as URL. */
  lemma ForwardProxyKeepsCase(pm: ProxyMatch)
    requires WellFormed(pm) && (Upper(pm.scheme) == "HTTP" || Upper(pm.scheme) == "HTTPS")
    ensures ConfigureTransport(false, Some(Render(pm))) == ForwardProxy(pm.scheme, Render(pm))
  {
    WholeStringProxy(pm);
    assert Render(pm)[|pm.scheme|] == ':';
  }
}

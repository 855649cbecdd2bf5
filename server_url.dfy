/** The server address normalisation at the start of
    `JellyfinClientManager.login`: one trailing '/' is dropped, the address is
    split by PATH_REGEX `^(https?://)?([^/:]+)(:[0-9]+)?(/.*)?$` into protocol,
    host, port and path, a missing protocol becomes "http://", a missing port
    becomes ":8096" for http and ":443" for https, and the parts present are
    joined again. A failed match leaves `None`, whose `.groups()` raises
    AttributeError. */
module ServerUrl {
  import opened PyValues

  const Http: string := "http://"
  const Https: string := "https://"
  const DefaultHttpPort: string := ":8096"
  const DefaultHttpsPort: string := ":443"

  /** The four groups of PATH_REGEX. Each optional group is non-empty when it
      takes part in the match, so "" stands for an absent group (None), which
      is also what `not protocol`, `not port` and `filter(bool, ...)` test. */
  datatype UrlParts = UrlParts(protocol: string, host: string, port: string, path: string)

  /** The three character classes of PATH_REGEX. */
  datatype CharClass =
    | HostChar   // `[^/:]`: any character but '/' and ':' (a newline included)
    | Digit      // `[0-9]`
    | LineChar   // `.`: any character but a newline

  predicate In(c: char, k: CharClass) {
    match k
    case HostChar => c != '/' && c != ':'
    case Digit => '0' <= c <= '9'
    case LineChar => c != '\n'
  }

  predicate All(s: string, k: CharClass) {
    forall x :: 0 <= x < |s| ==> In(s[x], k)
  }

  /** `s[i..j]` lies in class `k`. */
  predicate AllIn(s: string, i: nat, j: nat, k: CharClass)
    requires i <= j <= |s|
  {
    forall x :: i <= x < j ==> In(s[x], k)
  }

  /** The end of the longest run of class `k` in `s` from position `i`: where
      a greedy `[...]*` starting at `i` stops. */
  function Span(s: string, i: nat, k: CharClass): (j: nat)
    requires i <= |s|
    ensures i <= j <= |s|
    ensures AllIn(s, i, j, k)
    ensures j < |s| ==> !In(s[j], k)
    decreases |s| - i
  {
    if i < |s| && In(s[i], k) then Span(s, i + 1, k) else i
  }

  lemma {:induction false} SpanOf(s: string, i: nat, j: nat, k: CharClass)
    requires i <= j <= |s|
    requires AllIn(s, i, j, k)
    requires j == |s| || !In(s[j], k)
    ensures Span(s, i, k) == j
    decreases j - i
  {
    if i < j {
      SpanOf(s, i + 1, j, k);
    }
  }

  predicate StartsWith(s: string, prefix: string) {
    |prefix| <= |s| && s[..|prefix|] == prefix
  }

  /** The `(https?://)?` group. The greedy `s?` tries "https://" first; when
      the input starts with neither prefix the group is absent. When it starts
      with one of them, the match without the group fails as well (the host
      stops at the ':' of the scheme, whose next character is '/'), so taking
      the prefix loses no match. */
  function Protocol(s: string): (r: string)
    ensures StartsWith(s, r)
  {
    if StartsWith(s, Https) then Https
    else if StartsWith(s, Http) then Http
    else ""
  }

  /** The end of the `(:[0-9]+)?` group starting at `i`: past a ':' and all
      the digits after it, or `i` itself when no digit follows the ':'. */
  function PortEnd(s: string, i: nat): (j: nat)
    requires i <= |s|
    ensures i <= j <= |s|
    ensures j > i ==> j >= i + 2 && s[i] == ':' && AllIn(s, i + 1, j, Digit)
  {
    if i < |s| && s[i] == ':' && Span(s, i + 1, Digit) > i + 1 then Span(s, i + 1, Digit) else i
  }

  /** The end of the `(/.*)?` group starting at `i`: past a '/' and everything
      up to the next newline, or `i` itself when there is no '/' at `i`. */
  function PathEnd(s: string, i: nat): (j: nat)
    requires i <= |s|
    ensures i <= j <= |s|
    ensures j > i ==> s[i] == '/' && AllIn(s, i + 1, j, LineChar)
  {
    if i < |s| && s[i] == '/' then Span(s, i + 1, LineChar) else i
  }

  /** `$`: the end of the input, or one final newline. */
  predicate AtEnd(s: string, i: nat) {
    i == |s| || (i + 1 == |s| && s[i] == '\n')
  }

  /** The groups of PATH_REGEX.match(s), or None when there is no match. Each
      greedy group takes its longest run: a shorter run would leave a
      character the next group cannot start with. */
  function MatchUrl(s: string): (r: Option<UrlParts>)
    ensures r.Some? ==> r.value.protocol == Protocol(s) && r.value.host != []
  {
    var i := |Protocol(s)|;
    var h := Span(s, i, HostChar);
    var j := PortEnd(s, h);
    var k := PathEnd(s, j);
    if h > i && AtEnd(s, k) then Some(UrlParts(s[..i], s[i..h], s[h..j], s[j..k])) else None
  }

  /** What the `(:[0-9]+)` group may hold. */
  predicate PortText(x: string) {
    |x| >= 2 && x[0] == ':' && All(x[1..], Digit)
  }

  /** What the `(/.*)` group may hold. */
  predicate PathText(x: string) {
    |x| >= 1 && x[0] == '/' && All(x[1..], LineChar)
  }

  /** Groups the regular expression can produce. */
  predicate WellFormed(p: UrlParts) {
    && (p.protocol == "" || p.protocol == Http || p.protocol == Https)
    && p.host != [] && All(p.host, HostChar)
    && (p.port == "" || PortText(p.port))
    && (p.path == "" || PathText(p.path))
  }

  /** `"".join(filter(bool, (protocol, host, port, path)))` */
  function Join(p: UrlParts): (r: string)
    ensures |r| == |p.protocol| + |p.host| + |p.port| + |p.path|
    ensures StartsWith(r, p.protocol)
  {
    p.protocol + p.host + p.port + p.path
  }

  /** The groups cut out of `s` at positions where the matcher's stages end
      are well formed. */
  lemma GroupsWellFormed(s: string, i: nat, h: nat, j: nat, k: nat)
    requires i <= h <= j <= k <= |s|
    requires s[..i] == "" || s[..i] == Http || s[..i] == Https
    requires h > i && AllIn(s, i, h, HostChar)
    requires j > h ==> j >= h + 2 && s[h] == ':' && AllIn(s, h + 1, j, Digit)
    requires k > j ==> s[j] == '/' && AllIn(s, j + 1, k, LineChar)
    ensures WellFormed(UrlParts(s[..i], s[i..h], s[h..j], s[j..k]))
  {
    var p := UrlParts(s[..i], s[i..h], s[h..j], s[j..k]);
    assert forall x :: 0 <= x < |p.host| ==> p.host[x] == s[i + x];
    if j > h {
      assert forall x :: 0 <= x < |p.port| - 1 ==> p.port[1..][x] == s[h + 1 + x];
    }
    if k > j {
      assert forall x :: 0 <= x < |p.path| - 1 ==> p.path[1..][x] == s[j + 1 + x];
    }
  }

  /** The groups cut out of `s` join back to what precedes `k`. */
  lemma GroupsJoin(s: string, i: nat, h: nat, j: nat, k: nat)
    requires i <= h <= j <= k <= |s|
    requires AtEnd(s, k)
    ensures var p := UrlParts(s[..i], s[i..h], s[h..j], s[j..k]);
            s == Join(p) || s == Join(p) + "\n"
  {
    assert s[..k] == s[..i] + s[i..h] + s[h..j] + s[j..k];
    assert s == s[..k] + s[k..];
  }

  /** Every match has well-formed groups that join back to the input, up to
      the one final newline `$` lets through. */
  lemma MatchSound(s: string)
    requires MatchUrl(s).Some?
    ensures WellFormed(MatchUrl(s).value)
    ensures s == Join(MatchUrl(s).value) || s == Join(MatchUrl(s).value) + "\n"
  {
    var i := |Protocol(s)|;
    var h := Span(s, i, HostChar);
    var j := PortEnd(s, h);
    var k := PathEnd(s, j);
    assert MatchUrl(s) == Some(UrlParts(s[..i], s[i..h], s[h..j], s[j..k]));
    GroupsWellFormed(s, i, h, j, k);
    GroupsJoin(s, i, h, j, k);
  }

  /** Facts about the positions of a joined text. */
  lemma JoinLayout(p: UrlParts)
    requires WellFormed(p)
    ensures var s := Join(p);
            var i := |p.protocol|;
            var h := i + |p.host|;
            var j := h + |p.port|;
            && |s| == j + |p.path|
            && (forall x :: 0 <= x < i ==> s[x] == p.protocol[x])
            && (forall x :: i <= x < h ==> s[x] == p.host[x - i])
            && (forall x :: h <= x < j ==> s[x] == p.port[x - h])
            && (forall x :: j <= x < |s| ==> s[x] == p.path[x - j])
  {
  }

  /** Without a protocol group the joined text starts with neither scheme:
      the host would have to be "http" or "https", and what follows a host
      is never "://". */
  lemma NoScheme(p: UrlParts, scheme: string)
    requires WellFormed(p) && p.protocol == ""
    requires scheme == Http || scheme == Https
    ensures !StartsWith(Join(p), scheme)
  {
    var s := Join(p);
    var n := |p.host|;
    var c := |scheme| - 3;
    JoinLayout(p);
    assert scheme[c] == ':' && scheme[c + 1] == '/';
    if n < c {
      // The host ends where the scheme still has a letter.
      assert |s| <= n || s[n] == ':' || s[n] == '/';
      assert |s| <= n || s[n] != scheme[n];
    } else if n > c {
      // The host holds the scheme's ':'.
      assert In(p.host[c], HostChar);
      assert s[c] != scheme[c];
    } else if p.port != "" {
      // A port's ':' is followed by a digit, the scheme's by '/'.
      assert In(p.port[1..][0], Digit);
      assert s[n + 1] == p.port[1];
    } else if p.path != "" {
      assert s[n] == '/';
    } else {
      assert |s| == n;
    }
  }

  lemma ProtocolOfJoin(p: UrlParts)
    requires WellFormed(p)
    ensures Protocol(Join(p)) == p.protocol
  {
    var s := Join(p);
    JoinLayout(p);
    if p.protocol == Https {
      assert s[..8] == Https;
    } else if p.protocol == Http {
      assert s[..7] == Http;
      assert s[4] == ':';
    } else {
      NoScheme(p, Http);
      NoScheme(p, Https);
    }
  }

  lemma HostEndOfJoin(p: UrlParts)
    requires WellFormed(p)
    ensures Span(Join(p), |p.protocol|, HostChar) == |p.protocol| + |p.host|
  {
    var s := Join(p);
    var i := |p.protocol|;
    var h := i + |p.host|;
    JoinLayout(p);
    assert AllIn(s, i, h, HostChar) by {
      forall x | i <= x < h ensures In(s[x], HostChar) {
        assert s[x] == p.host[x - i];
      }
    }
    if h < |s| {
      if p.port != "" {
        assert s[h] == p.port[0];
      } else {
        assert s[h] == p.path[0];
      }
    }
    SpanOf(s, i, h, HostChar);
  }

  lemma PortEndOfJoin(p: UrlParts)
    requires WellFormed(p)
    ensures var h := |p.protocol| + |p.host|;
            PortEnd(Join(p), h) == h + |p.port|
  {
    var s := Join(p);
    var h := |p.protocol| + |p.host|;
    var j := h + |p.port|;
    JoinLayout(p);
    if p.port != "" {
      assert AllIn(s, h + 1, j, Digit) by {
        forall x | h + 1 <= x < j ensures In(s[x], Digit) {
          assert s[x] == p.port[1..][x - h - 1];
        }
      }
      if j < |s| {
        assert s[j] == p.path[0];
      }
      SpanOf(s, h + 1, j, Digit);
      assert s[h] == p.port[0];
    } else if h < |s| {
      assert s[h] == p.path[0];
    }
  }

  lemma PathEndOfJoin(p: UrlParts)
    requires WellFormed(p)
    ensures var j := |p.protocol| + |p.host| + |p.port|;
            PathEnd(Join(p), j) == |Join(p)|
  {
    var s := Join(p);
    var j := |p.protocol| + |p.host| + |p.port|;
    JoinLayout(p);
    if p.path != "" {
      assert AllIn(s, j + 1, |s|, LineChar) by {
        forall x | j + 1 <= x < |s| ensures In(s[x], LineChar) {
          assert s[x] == p.path[1..][x - j - 1];
        }
      }
      SpanOf(s, j + 1, |s|, LineChar);
      assert s[j] == p.path[0];
    }
  }

  lemma CutsOfJoin(p: UrlParts)
    ensures var s := Join(p);
            var i := |p.protocol|;
            var h := i + |p.host|;
            var j := h + |p.port|;
            && s[..i] == p.protocol && s[i..h] == p.host
            && s[h..j] == p.port && s[j..] == p.path
  {
  }

  /** MatchUrl assembled from the ends of its stages. */
  lemma MatchAt(s: string, i: nat, h: nat, j: nat, k: nat)
    requires i == |Protocol(s)| && h == Span(s, i, HostChar)
    requires j == PortEnd(s, h) && k == PathEnd(s, j)
    requires h > i && k == |s|
    ensures MatchUrl(s) == Some(UrlParts(s[..i], s[i..h], s[h..j], s[j..]))
  {
    assert s[j..k] == s[j..];
  }

  /** Well-formed groups are recovered from their joined text: the matcher
      loses nothing. */
  lemma MatchComplete(p: UrlParts)
    requires WellFormed(p)
    ensures MatchUrl(Join(p)) == Some(p)
  {
    var s := Join(p);
    var i := |p.protocol|;
    var h := i + |p.host|;
    var j := h + |p.port|;
    ProtocolOfJoin(p);
    HostEndOfJoin(p);
    PortEndOfJoin(p);
    PathEndOfJoin(p);
    CutsOfJoin(p);
    MatchAt(s, i, h, j, |s|);
  }

  /** `self.server_url[:-1]` when it ends with "/". */
  function StripSlash(url: string): (r: string)
    ensures url != [] && url[|url| - 1] == '/' ==> url == r + "/"
    ensures !(url != [] && url[|url| - 1] == '/') ==> r == url
  {
    if url != [] && url[|url| - 1] == '/' then url[..|url| - 1] else url
  }

  /** The defaults `login` fills in: the http protocol, and port 8096 for
      http or 443 for https. */
  function WithDefaults(p: UrlParts): (r: UrlParts)
    ensures r.host == p.host && r.path == p.path
    ensures p.protocol != "" ==> r.protocol == p.protocol
    ensures p.protocol == "" ==> r.protocol == Http
    ensures p.port != "" ==> r.port == p.port
    ensures p.port == "" && r.protocol == Http ==> r.port == DefaultHttpPort
    ensures p.port == "" && r.protocol == Https ==> r.port == DefaultHttpsPort
  {
    var protocol := if p.protocol == "" then Http else p.protocol;
    var port :=
      if protocol == Http && p.port == "" then DefaultHttpPort
      else if protocol == Https && p.port == "" then DefaultHttpsPort
      else p.port;
    UrlParts(protocol, p.host, port, p.path)
  }

  /** The `server_url` that `login` connects to, or the AttributeError raised
      when PATH_REGEX does not match. */
  function Normalize(url: string): (r: Result<string>)
    ensures r.Err? ==> r.error == AttributeError
    ensures r.Ok? ==> StartsWith(r.value, Http) || StartsWith(r.value, Https)
  {
    match MatchUrl(StripSlash(url))
    case None => Err(AttributeError)
    case Some(p) => Ok(Join(WithDefaults(p)))
  }

  /** Normalisation fails exactly when the address without its trailing '/'
      does not match, and then with AttributeError. */
  lemma NormalizeFails(url: string)
    ensures Normalize(url).Err? <==> MatchUrl(StripSlash(url)).None?
    ensures Normalize(url).Err? ==> Normalize(url).error == AttributeError
  {
  }

  lemma DefaultsWellFormed(p: UrlParts)
    requires WellFormed(p)
    ensures WellFormed(WithDefaults(p))
  {
    assert DefaultHttpPort[1..] == "8096";
    assert DefaultHttpsPort[1..] == "443";
  }

  /** Normalising the joined text of known groups. */
  lemma NormalizeOf(url: string, p: UrlParts)
    requires WellFormed(p) && StripSlash(url) == Join(p)
    ensures Normalize(url) == Ok(Join(WithDefaults(p)))
  {
    MatchComplete(p);
  }

  /** A normalised address parses again into the same host and path, always
      with a protocol (http when none was given) and always with a port (the
      given one, else 8096 for http and 443 for https). */
  lemma NormalizeParts(url: string)
    requires MatchUrl(StripSlash(url)).Some?
    ensures Normalize(url).Ok?
    ensures var p := MatchUrl(StripSlash(url)).value;
            var q := MatchUrl(Normalize(url).value);
            && q.Some?
            && q.value.host == p.host
            && q.value.path == p.path
            && q.value.protocol == (if p.protocol == "" then Http else p.protocol)
            && q.value.port == (if p.port != "" then p.port
                                else if q.value.protocol == Http then DefaultHttpPort
                                else DefaultHttpsPort)
  {
    var p := MatchUrl(StripSlash(url)).value;
    MatchSound(StripSlash(url));
    DefaultsWellFormed(p);
    MatchComplete(WithDefaults(p));
  }

  /** Normalising a normalised address changes nothing, unless it ends with
      '/' (a path that ended in "//"), which the next round strips again. */
  lemma NormalizeIdempotent(url: string)
    requires Normalize(url).Ok?
    requires var r := Normalize(url).value; !(r != [] && r[|r| - 1] == '/')
    ensures Normalize(Normalize(url).value) == Normalize(url)
  {
    var s := StripSlash(url);
    var p := MatchUrl(s).value;
    MatchSound(s);
    var q := WithDefaults(p);
    DefaultsWellFormed(p);
    var r := Join(q);
    assert Normalize(url) == Ok(r);
    assert StripSlash(r) == r;
    assert WithDefaults(q) == q;
    NormalizeOf(r, q);
  }

  /** The two cases above are distinct: "http://h:1//" normalises to
      "http://h:1/", which normalises to "http://h:1". */
  lemma DoubleSlashNotIdempotent(host: string, port: string)
    requires host != [] && All(host, HostChar) && PortText(port)
    ensures Normalize(Http + host + port + "//") == Ok(Http + host + port + "/")
    ensures Normalize(Http + host + port + "/") == Ok(Http + host + port)
  {
    var p1 := UrlParts(Http, host, port, "/");
    var p2 := UrlParts(Http, host, port, "");
    assert p1.path[1..] == "";
    assert StripSlash(Http + host + port + "//") == Join(p1);
    assert StripSlash(Http + host + port + "/") == Join(p2);
    NormalizeOf(Http + host + port + "//", p1);
    NormalizeOf(Http + host + port + "/", p2);
  }

  /** A bare host name, with or without a final '/', gets the http protocol
      and port 8096. */
  lemma DefaultHttpExample(host: string)
    requires host != [] && All(host, HostChar)
    ensures Normalize(host) == Ok(Http + host + DefaultHttpPort)
    ensures Normalize(host + "/") == Ok(Http + host + DefaultHttpPort)
  {
    var p := UrlParts("", host, "", "");
    assert In(host[|host| - 1], HostChar);
    assert Join(p) == host;
    assert StripSlash(host) == Join(p);
    assert StripSlash(host + "/") == Join(p);
    assert Join(WithDefaults(p)) == Http + host + DefaultHttpPort;
    NormalizeOf(host, p);
    NormalizeOf(host + "/", p);
  }

  /** An https address without a port gets port 443. */
  lemma DefaultHttpsExample(host: string)
    requires host != [] && All(host, HostChar)
    ensures Normalize(Https + host) == Ok(Https + host + DefaultHttpsPort)
  {
    var p := UrlParts(Https, host, "", "");
    assert In(host[|host| - 1], HostChar);
    assert (Https + host)[|Https + host| - 1] == host[|host| - 1];
    assert Join(p) == Https + host;
    assert StripSlash(Https + host) == Join(p);
    assert Join(WithDefaults(p)) == Https + host + DefaultHttpsPort;
    NormalizeOf(Https + host, p);
  }

  /** An explicit port and a path are kept; only the final '/' goes. */
  lemma ExplicitPortExample(host: string, port: string, path: string)
    requires host != [] && All(host, HostChar) && PortText(port) && PathText(path)
    ensures Normalize(Http + host + port + path + "/") == Ok(Http + host + port + path)
  {
    var p := UrlParts(Http, host, port, path);
    assert StripSlash(Http + host + port + path + "/") == Join(p);
    NormalizeOf(Http + host + port + path + "/", p);
  }
}

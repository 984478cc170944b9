/**
 * The two regular expressions of the configuration pipeline, written out
 * as predicates over characters, one predicate per part of the pattern:
 *   - `is_url`'s pattern (matched case-insensitively), used for the
 *     proxy-free site addresses;
 *   - `^(socks5h?|http)://([-.a-z\d]+):(\d+)$`, used for the proxy address.
 * Both patterns end in `$`, which in Python also matches just before a
 * final newline.
 */
module UrlGrammar {
  import opened PyStr

  // ---------------------------------------------------------------------
  // is_url
  // ---------------------------------------------------------------------

  /** `(?:http)s?://`, in any letter case. */
  predicate UrlScheme(x: string)
  {
    Lower(x) == "http://" || Lower(x) == "https://"
  }

  predicate IsAlnumHyphen(c: char) { IsAsciiAlnum(c) || c == '-' }

  /** `[A-Z0-9](?:[A-Z0-9-]{0,61}[A-Z0-9])?`: 1 to 63 characters, no hyphen at either end. */
  predicate DomainLabel(l: string)
  {
    && 1 <= |l| <= 63
    && IsAsciiAlnum(l[0])
    && IsAsciiAlnum(l[|l| - 1])
    && forall i | 0 < i < |l| - 1 :: IsAlnumHyphen(l[i])
  }

  /** `[A-Z]{2,6}|[A-Z0-9-]{2,}`. */
  predicate TopLabel(t: string)
  {
    || (2 <= |t| <= 6 && forall i | 0 <= i < |t| :: IsAsciiLetter(t[i]))
    || (2 <= |t| && forall i | 0 <= i < |t| :: IsAlnumHyphen(t[i]))
  }

  /** The last label with its optional dot: `(?:[A-Z]{2,6}|[A-Z0-9-]{2,})\.?`. */
  predicate TopLabelDot(t: string)
  {
    TopLabel(t) || (|t| >= 1 && t[|t| - 1] == '.' && TopLabel(t[..|t| - 1]))
  }

  /** `(?:LABEL\.)+TOP\.?`: one or more dotted labels, then the last label. */
  predicate Domain(h: string)
    decreases |h|, 1
  {
    exists i | 0 < i < |h| :: DomainAt(h, i)
  }

  /** `h` is a label, a dot at `i`, and the rest of a domain. */
  predicate DomainAt(h: string, i: int)
    requires 0 < i < |h|
    decreases |h|, 0
  {
    h[i] == '.' && DomainLabel(h[..i]) && (Domain(h[i + 1..]) || TopLabelDot(h[i + 1..]))
  }

  /** `\d{1,3}`. */
  predicate DigitGroup(g: string)
  {
    1 <= |g| <= 3 && AllDigits(g)
  }

  /** `n` groups `\d{1,3}` separated by dots. */
  predicate DottedGroups(h: string, n: nat)
    decreases n, 1
  {
    if n <= 1 then DigitGroup(h)
    else exists i | 0 < i < |h| :: DottedGroupsAt(h, n, i)
  }

  /** `h` is a digit group, a dot at `i`, and `n - 1` more groups. */
  predicate DottedGroupsAt(h: string, n: nat, i: int)
    requires 1 < n && 0 < i < |h|
    decreases n, 0
  {
    h[i] == '.' && DigitGroup(h[..i]) && DottedGroups(h[i + 1..], n - 1)
  }

  /** `\d{1,3}\.\d{1,3}\.\d{1,3}\.\d{1,3}`: no check that a group is at most 255. */
  predicate IPv4(h: string)
  {
    DottedGroups(h, 4)
  }

  /** Domain, `localhost` or IPv4. */
  predicate UrlHost(h: string)
  {
    Domain(h) || Lower(h) == "localhost" || IPv4(h)
  }

  /** `(?::\d+)?`. */
  predicate UrlPort(p: string)
  {
    p == "" || (|p| >= 2 && p[0] == ':' && AllDigits(p[1..]))
  }

  /** `(?:/?|[/?]\S+)`. */
  predicate UrlTail(t: string)
  {
    || t == ""
    || t == "/"
    || (|t| >= 2 && (t[0] == '/' || t[0] == '?') && forall i | 1 <= i < |t| :: !IsSpace(t[i]))
  }

  /** `r` is a port up to `k`, then a path or query. */
  predicate PortTailAt(r: string, k: int)
    requires 0 <= k <= |r|
  {
    UrlPort(r[..k]) && UrlTail(r[k..])
  }

  predicate PortTail(r: string)
  {
    exists k | 0 <= k <= |r| :: PortTailAt(r, k)
  }

  /** `r` is a host up to `j`, then port and path. */
  predicate HostAt(r: string, j: int)
    requires 0 <= j <= |r|
  {
    UrlHost(r[..j]) && PortTail(r[j..])
  }

  predicate HostPortTail(r: string)
  {
    exists j | 0 <= j <= |r| :: HostAt(r, j)
  }

  /** `s` is a scheme up to `i`, then the rest of a URL. */
  predicate SchemeAt(s: string, i: int)
    requires 0 <= i <= |s|
  {
    UrlScheme(s[..i]) && HostPortTail(s[i..])
  }

  /** The whole pattern between `^` and `$`. */
  predicate UrlBody(s: string)
  {
    exists i | 0 <= i <= |s| :: SchemeAt(s, i)
  }

  /** `is_url(url)`. */
  predicate IsUrl(u: string)
  {
    UrlBody(u) || (|u| >= 1 && u[|u| - 1] == '\n' && UrlBody(u[..|u| - 1]))
  }

  // ---------------------------------------------------------------------
  // The proxy address pattern (applied to lower-cased text, no IGNORECASE)
  // ---------------------------------------------------------------------

  /** `(socks5h?|http)://`. */
  predicate ProxyScheme(x: string)
  {
    x == "socks5://" || x == "socks5h://" || x == "http://"
  }

  /** `[-.a-z\d]`. */
  predicate ProxyHostChar(c: char)
  {
    c == '-' || c == '.' || ('a' <= c <= 'z') || IsDigit(c)
  }

  /** `[-.a-z\d]+`. */
  predicate ProxyHost(h: string)
  {
    |h| >= 1 && forall i | 0 <= i < |h| :: ProxyHostChar(h[i])
  }

  /** `:(\d+)` after the host. */
  /** A host up to the colon at `j`, then `\d+`. */
  predicate ProxyPortAt(r: string, j: int)
    requires 0 <= j < |r|
  {
    r[j] == ':' && ProxyHost(r[..j]) && |r| - j >= 2 && AllDigits(r[j + 1..])
  }

  predicate ProxyHostPort(r: string)
  {
    exists j | 0 <= j < |r| :: ProxyPortAt(r, j)
  }

  /** A scheme up to `i`, then host and port. */
  predicate ProxySchemeAt(p: string, i: int)
    requires 0 <= i <= |p|
  {
    ProxyScheme(p[..i]) && ProxyHostPort(p[i..])
  }

  predicate ProxyBody(p: string)
  {
    exists i | 0 <= i <= |p| :: ProxySchemeAt(p, i)
  }

  /** `re.match('^(socks5h?|http)://([-.a-z\d]+):(\d+)$', p)` succeeds. */
  predicate IsProxyAddress(p: string)
  {
    ProxyBody(p) || (|p| >= 1 && p[|p| - 1] == '\n' && ProxyBody(p[..|p| - 1]))
  }

  // ---------------------------------------------------------------------
  // Properties of is_url
  // ---------------------------------------------------------------------

  lemma UrlHostNotEmpty(h: string)
    ensures UrlHost(h) ==> |h| >= 1
  {
  }

  /**
   * A string `is_url` accepts starts with `http://` or `https://` (in any
   * letter case) followed by at least one more character: the bare scheme
   * and every other scheme fail.
   */
  lemma IsUrlHasHttpScheme(u: string)
    ensures IsUrl(u) ==>
      || (|u| >= 8 && Lower(u[..7]) == "http://")
      || (|u| >= 9 && Lower(u[..8]) == "https://")
  {
    if UrlBody(u) {
      UrlBodyScheme(u);
    } else if IsUrl(u) {
      var s := u[..|u| - 1];
      UrlBodyScheme(s);
      assert |s| >= 8 ==> s[..7] == u[..7];
      assert |s| >= 9 ==> s[..8] == u[..8];
    }
  }

  /** The pattern itself, without the final newline `$` allows. */
  lemma UrlBodyScheme(s: string)
    requires UrlBody(s)
    ensures (|s| >= 8 && Lower(s[..7]) == "http://") || (|s| >= 9 && Lower(s[..8]) == "https://")
  {
    var i :| 0 <= i <= |s| && SchemeAt(s, i);
    var r := s[i..];
    var j :| 0 <= j <= |r| && HostAt(r, j);
    UrlHostNotEmpty(r[..j]);
    assert |Lower(s[..i])| == i;
  }

  /** `http://`, `ftp://example.com` and a scheme-less address fail. */
  lemma IsUrlRejectsNonHttp()
    ensures !IsUrl("http://")
    ensures !IsUrl("ftp://example.com")
    ensures !IsUrl("socks5://127.0.0.1:1080")
    ensures !IsUrl("example.com/path")
  {
    IsUrlHasHttpScheme("http://");
    var f := "ftp://example.com";
    IsUrlHasHttpScheme(f);
    assert Lower(f[..7])[0] == 'f' && Lower(f[..8])[0] == 'f';
    var k := "socks5://127.0.0.1:1080";
    IsUrlHasHttpScheme(k);
    assert Lower(k[..7])[0] == 's' && Lower(k[..8])[0] == 's';
    var e := "example.com/path";
    IsUrlHasHttpScheme(e);
    assert Lower(e[..7])[0] == 'e' && Lower(e[..8])[0] == 'e';
  }

  /** A host alone, with no port and no path, makes `HostPortTail` hold. */
  lemma HostAlone(r: string)
    requires UrlHost(r)
    ensures HostPortTail(r)
  {
    assert r[..|r|] == r;
    assert PortTailAt(r[|r|..], 0);
    assert HostAt(r, |r|);
  }

  /** `localhost` is a host. */
  lemma IsUrlAcceptsLocalhost()
    ensures IsUrl("http://localhost")
  {
    var u := "http://localhost";
    assert Lower(u[..7]) == "http://";
    assert u[7..] == "localhost";
    assert Lower("localhost") == "localhost";
    HostAlone(u[7..]);
    assert SchemeAt(u, 7);
  }

  /** Four 1 to 3 digit groups form an IPv4 host even above 255. */
  lemma UncheckedOctets()
    ensures IPv4("999.999.999.999")
  {
    var h := "999.999.999.999";
    var g := "999";
    assert DigitGroup(g);
    var h2 := h[4..];
    var h3 := h2[4..];
    assert h3[..3] == g && h3[4..] == g;
    assert DottedGroupsAt(h3, 2, 3);
    assert h2[..3] == g && h2[4..] == h3;
    assert DottedGroupsAt(h2, 3, 3);
    assert h[..3] == g && h[4..] == h2;
    assert DottedGroupsAt(h, 4, 3);
  }

  /** There is no range check on the address groups. */
  lemma IsUrlAcceptsUncheckedOctets()
    ensures IsUrl("http://999.999.999.999")
  {
    var v := "http://999.999.999.999";
    assert Lower(v[..7]) == "http://";
    assert v[7..] == "999.999.999.999";
    UncheckedOctets();
    HostAlone(v[7..]);
    assert SchemeAt(v, 7);
  }

  /** `EXAMPLE.com/path`, once lower-cased and given its scheme, is a URL. */
  lemma IsUrlAcceptsDomainWithPath()
    ensures IsUrl("http://example.com/path")
  {
    var u := "http://example.com/path";
    assert Lower(u[..7]) == "http://";
    var r := u[7..];
    assert r == "example.com/path";
    var h := r[..11];
    assert h == "example.com";
    assert DomainAt(h, 7) by {
      assert h[..7] == "example" && DomainLabel("example");
      assert h[8..] == "com" && TopLabel("com");
    }
    var q := r[11..];
    assert q == "/path";
    assert PortTailAt(q, 0) by {
      assert q[..0] == "" && q[0..] == q;
    }
    assert HostAt(r, 11);
    assert SchemeAt(u, 7);
  }

  /** No whitespace (`\s`) character in `s`. */
  predicate NoBlank(s: string)
  {
    forall i | 0 <= i < |s| :: !IsSpace(s[i])
  }

  lemma LabelNoBlank(l: string)
    requires DomainLabel(l)
    ensures NoBlank(l)
  {
    forall i | 0 <= i < |l| ensures !IsSpace(l[i]) {
      if 0 < i < |l| - 1 {
        assert IsAlnumHyphen(l[i]);
      }
    }
  }

  lemma TopLabelDotNoBlank(t: string)
    requires TopLabelDot(t)
    ensures NoBlank(t)
  {
    if !TopLabel(t) {
      assert t == t[..|t| - 1] + ".";
      NoBlankConcat(t[..|t| - 1], ".");
    }
  }

  lemma {:induction false} DomainNoBlank(h: string)
    requires Domain(h)
    ensures NoBlank(h)
    decreases |h|
  {
    var i :| 0 < i < |h| && DomainAt(h, i);
    var rest := h[i + 1..];
    if Domain(rest) {
      DomainNoBlank(rest);
    } else {
      TopLabelDotNoBlank(rest);
    }
    LabelNoBlank(h[..i]);
    NoBlankConcat(h[..i], [h[i]]);
    NoBlankConcat(h[..i] + [h[i]], rest);
    assert h == h[..i] + [h[i]] + rest;
  }

  lemma {:induction false} DottedGroupsNoBlank(h: string, n: nat)
    requires DottedGroups(h, n)
    ensures NoBlank(h)
    decreases n
  {
    if n > 1 {
      var i :| 0 < i < |h| && DottedGroupsAt(h, n, i);
      DottedGroupsNoBlank(h[i + 1..], n - 1);
      assert h == h[..i] + [h[i]] + h[i + 1..];
    }
  }

  lemma LowerNoBlank(s: string, t: string)
    requires Lower(s) == t && NoBlank(t)
    ensures NoBlank(s)
  {
    forall i | 0 <= i < |s| ensures !IsSpace(s[i]) {
      assert t[i] == LowerChar(s[i]);
    }
  }

  lemma UrlHostNoBlank(h: string)
    requires UrlHost(h)
    ensures NoBlank(h)
  {
    if Domain(h) {
      DomainNoBlank(h);
    } else if IPv4(h) {
      DottedGroupsNoBlank(h, 4);
    } else {
      LowerNoBlank(h, "localhost");
    }
  }

  /** Two texts without whitespace joined have none. */
  lemma NoBlankConcat(a: string, b: string)
    requires NoBlank(a) && NoBlank(b)
    ensures NoBlank(a + b)
  {
    forall i | 0 <= i < |a + b| ensures !IsSpace((a + b)[i]) {
      if i >= |a| {
        assert (a + b)[i] == b[i - |a|];
      }
    }
  }

  lemma PortTailNoBlank(q: string)
    requires PortTail(q)
    ensures NoBlank(q)
  {
    var k :| 0 <= k <= |q| && PortTailAt(q, k);
    NoBlankConcat(q[..k], q[k..]);
    assert q == q[..k] + q[k..];
  }

  lemma HostPortTailNoBlank(r: string)
    requires HostPortTail(r)
    ensures NoBlank(r)
  {
    var j :| 0 <= j <= |r| && HostAt(r, j);
    UrlHostNoBlank(r[..j]);
    PortTailNoBlank(r[j..]);
    NoBlankConcat(r[..j], r[j..]);
    assert r == r[..j] + r[j..];
  }

  lemma SchemeNoBlank(x: string)
    requires UrlScheme(x)
    ensures NoBlank(x)
  {
    assert NoBlank("http://") && NoBlank("https://");
    LowerNoBlank(x, Lower(x));
  }

  lemma UrlBodyNoBlank(s: string)
    requires UrlBody(s)
    ensures NoBlank(s)
  {
    var i :| 0 <= i <= |s| && SchemeAt(s, i);
    SchemeNoBlank(s[..i]);
    HostPortTailNoBlank(s[i..]);
    NoBlankConcat(s[..i], s[i..]);
    assert s == s[..i] + s[i..];
  }

  /**
   * `is_url` accepts no whitespace, except a final newline, which `$`
   * lets through.
   */
  lemma IsUrlHasNoBlank(u: string)
    ensures IsUrl(u) ==>
      NoBlank(u) || (|u| >= 1 && u[|u| - 1] == '\n' && NoBlank(u[..|u| - 1]))
  {
    if UrlBody(u) {
      UrlBodyNoBlank(u);
    } else if IsUrl(u) {
      UrlBodyNoBlank(u[..|u| - 1]);
    }
  }

  /** A space in the text makes `is_url` fail, as for `not a url`. */
  lemma IsUrlRejectsBlank()
    ensures !IsUrl("http://not a url")
  {
    var u := "http://not a url";
    IsUrlHasNoBlank(u);
    assert u[10] == ' ' && u[|u| - 1] == 'l';
    assert u[..|u| - 1][10] == ' ';
  }

  /** The newline `$` lets through: `http://localhost` followed by a newline is accepted. */
  lemma IsUrlAcceptsFinalNewline()
    ensures IsUrl("http://localhost\n")
  {
    var u := "http://localhost\n";
    assert u[..|u| - 1] == "http://localhost";
    IsUrlAcceptsLocalhost();
  }

  // ---------------------------------------------------------------------
  // Properties of the proxy pattern
  // ---------------------------------------------------------------------

  /** An accepted proxy address starts with one of the three schemes. */
  lemma ProxySchemePrefix(p: string)
    ensures IsProxyAddress(p) ==>
      StartsWith(p, "http://") || StartsWith(p, "socks5://") || StartsWith(p, "socks5h://")
  {
    if IsProxyAddress(p) {
      var s := if ProxyBody(p) then p else p[..|p| - 1];
      assert ProxyBody(s);
      var i :| 0 <= i <= |s| && ProxySchemeAt(s, i);
      assert s[..i] == p[..i];
    }
  }

  /** A scheme, a host, a colon and a run of digits form an accepted address. */
  lemma ProxyAddressOf(scheme: string, host: string, port: string)
    requires ProxyScheme(scheme) && ProxyHost(host) && |port| >= 1 && AllDigits(port)
    ensures IsProxyAddress(scheme + host + ":" + port)
  {
    var r := host + ":" + port;
    var p := scheme + r;
    assert scheme + host + ":" + port == p;
    assert r[..|host|] == host && r[|host| + 1..] == port;
    assert ProxyPortAt(r, |host|);
    assert p[..|scheme|] == scheme && p[|scheme|..] == r;
    assert ProxySchemeAt(p, |scheme|);
  }

  /** The loopback address and port of the example below. */
  lemma LoopbackParts()
    ensures ProxyHost("127.0.0.1") && AllDigits("1080")
  {
  }

  /** The format the warning of `validate_proxy` recommends is accepted. */
  lemma ProxyAddressAcceptsHttp()
    ensures IsProxyAddress("http://127.0.0.1:1080")
  {
    LoopbackParts();
    ProxyAddressOf("http://", "127.0.0.1", "1080");
    assert "http://" + "127.0.0.1" + ":" + "1080" == "http://127.0.0.1:1080";
  }

  /** An accepted address starts with `h` and has `:` fifth (`http://`), or starts with `s`. */
  lemma ProxyAddressFirstChars(p: string)
    ensures IsProxyAddress(p) ==> |p| >= 7 && ((p[0] == 'h' && p[4] == ':') || p[0] == 's')
  {
    ProxySchemePrefix(p);
    if StartsWith(p, "http://") {
      assert p[..7][0] == p[0] && p[..7][4] == p[4];
    } else if StartsWith(p, "socks5://") {
      assert p[..9][0] == p[0];
    } else if StartsWith(p, "socks5h://") {
      assert p[..10][0] == p[0];
    }
  }

  /** Addresses the proxy pattern rejects: no scheme ... */
  lemma ProxyAddressRejectsBare()
    ensures !IsProxyAddress("127.0.0.1:1080")
  {
    ProxyAddressFirstChars("127.0.0.1:1080");
    assert "127.0.0.1:1080"[0] == '1';
  }

  /** ... and `https`, which `requests` would accept but the pattern does not. */
  lemma ProxyAddressRejectsHttps()
    ensures !IsProxyAddress("https://127.0.0.1:1080")
  {
    ProxyAddressFirstChars("https://127.0.0.1:1080");
    assert "https://127.0.0.1:1080"[4] == 's';
  }
}

/** The text of a transport URL determines the credentials, hosts, port, TLS flag and vhost. */
module TransportUrl {
  import opened ApiObjects
  import opened Texts

  // ---------------------------------------------------------------- url.QueryEscape

  /** Texts are bytes. */
  predicate IsByte(c: char) {
    c as int < 256
  }

  predicate Bytes(s: string) {
    forall i :: 0 <= i < |s| ==> IsByte(s[i])
  }

  /** Characters of section 2.3 of RFC 3986, which are never escaped. */
  predicate Unreserved(c: char) {
    'A' <= c <= 'Z' || 'a' <= c <= 'z' || '0' <= c <= '9' || c in "-_.~"
  }

  function HexDigit(n: int): char
    requires 0 <= n < 16
  {
    if n < 10 then ('0' as int + n) as char else ('A' as int + n - 10) as char
  }

  function HexValue(c: char): int {
    if '0' <= c <= '9' then c as int - '0' as int else if 'A' <= c <= 'F' then c as int - 'A' as int + 10 else 0
  }

  /** Section 2.1 of RFC 3986, with a plus for a space. */
  function EscapeChar(c: char): (e: string)
    requires IsByte(c)
    ensures e != "" && (e[0] == '%' ==> |e| == 3)
  {
    if Unreserved(c) then [c]
    else if c == ' ' then "+"
    else ['%', HexDigit(c as int / 16), HexDigit(c as int % 16)]
  }

  function Escape(s: string): string
    requires Bytes(s)
  {
    if s == "" then "" else EscapeChar(s[0]) + Escape(s[1..])
  }

  function Unescape(s: string): string {
    if s == "" then ""
    else if s[0] == '%' && |s| >= 3 then
      var n := 16 * HexValue(s[1]) + HexValue(s[2]);
      [if 0 <= n < 256 then n as char else '?'] + Unescape(s[3..])
    else [if s[0] == '+' then ' ' else s[0]] + Unescape(s[1..])
  }

  lemma {:induction false} UnescapeEscape(s: string)
    requires Bytes(s)
    ensures Unescape(Escape(s)) == s
  {
    if s != "" {
      var c := s[0];
      UnescapeEscape(s[1..]);
      var e, rest := EscapeChar(c), Escape(s[1..]);
      assert (e + rest)[|e|..] == rest;
      assert s == [c] + s[1..];
      if |e| == 3 {
        assert (e + rest)[3..] == rest && 16 * (c as int / 16) + c as int % 16 == c as int;
        assert HexValue(HexDigit(c as int / 16)) == c as int / 16 && HexValue(HexDigit(c as int % 16)) == c as int % 16;
      } else {
        assert (e + rest)[1..] == rest;
      }
    }
  }

  /** The reserved characters of section 2.2 of RFC 3986, but for the plus that stands for a space. */
  predicate Delimiter(c: char) {
    c in ":/?#[]@!$&'()*,;="
  }

  lemma UnreservedClean(c: char)
    requires Unreserved(c)
    ensures !Delimiter(c)
  {
  }

  lemma CharClean(c: char)
    requires IsByte(c)
    ensures forall d :: d in EscapeChar(c) ==> !Delimiter(d)
  {
    if Unreserved(c) {
      UnreservedClean(c);
    } else if c != ' ' {
      UnreservedClean(HexDigit(c as int / 16));
      UnreservedClean(HexDigit(c as int % 16));
    }
  }

  lemma {:induction false} EscapeClean(s: string)
    requires Bytes(s)
    ensures forall c :: c in Escape(s) ==> !Delimiter(c)
  {
    if s != "" {
      EscapeClean(s[1..]);
      CharClean(s[0]);
    }
  }

  // ---------------------------------------------------------------- the URL

  /** net.JoinHostPort: a host with colons is bracketed, as in section 3.2.2 of RFC 3986. */
  function JoinHostPort(host: string, port: string): string {
    if ':' in host then "[" + host + "]:" + port else host + ":" + port
  }

  function HostPart(user: string, password: string, host: string, port: string): string
    requires Bytes(user) && Bytes(password)
  {
    Escape(user) + ":" + Escape(password) + "@" + JoinHostPort(host, port)
  }

  function HostParts(user: string, password: string, hosts: seq<string>, port: string): (parts: seq<string>)
    requires Bytes(user) && Bytes(password)
    ensures |parts| == |hosts| && forall i :: 0 <= i < |hosts| ==> parts[i] == HostPart(user, password, hosts[i], port)
  {
    seq(|hosts|, i requires 0 <= i < |hosts| => HostPart(user, password, hosts[i], port))
  }

  function Slashed(vhost: string): (v: string)
    ensures v != "" && v[0] == '/'
  {
    if vhost == "" then "/" else if vhost[0] == '/' then vhost else "/" + vhost
  }

  datatype Connection = Connection(user: string, password: string, hosts: seq<string>, port: string, vhost: string,
                                   tls: bool)

  /** Hosts and port stay clear of the characters that separate them from their neighbours. */
  predicate HostsClean(c: Connection) {
    && (forall h :: h in c.hosts ==> ',' !in h && '/' !in h && '[' !in h && ']' !in h)
    && ',' !in c.port && '/' !in c.port
  }

  predicate Encodable(c: Connection) {
    Bytes(c.user) && Bytes(c.password) && c.hosts != [] && HostsClean(c)
  }

  const SCHEME: string := "rabbit://"

  function Query(tls: bool): string {
    if tls then "?ssl=1" else "?ssl=0"
  }

  function Url(c: Connection): string
    requires Bytes(c.user) && Bytes(c.password) && c.hosts != []
  {
    SCHEME + Join(HostParts(c.user, c.password, c.hosts, c.port), ',') + Slashed(c.vhost) + Query(c.tls)
  }

  method CreateTransportURL(c: Connection) returns (text: string)
    requires Bytes(c.user) && Bytes(c.password) && c.hosts != []
    ensures text == Url(c)
  {
    var query := if c.tls then "?ssl=1" else "?ssl=0";
    var vhost := c.vhost;
    if vhost == "" {
      vhost := "/";
    } else if vhost != "/" && vhost[0] != '/' {
      vhost := "/" + vhost;
    }
    var user, password := Escape(c.user), Escape(c.password);
    var parts: seq<string> := [];
    for i := 0 to |c.hosts|
      invariant |parts| == i && forall j :: 0 <= j < i ==> parts[j] == HostPart(c.user, c.password, c.hosts[j], c.port)
    {
      parts := parts + [user + ":" + password + "@" + JoinHostPort(c.hosts[i], c.port)];
    }
    assert parts == HostParts(c.user, c.password, c.hosts, c.port);
    text := "rabbit://" + Join(parts, ',') + vhost + query;
  }

  // ---------------------------------------------------------------- reading a URL

  /** A host and a port, the host perhaps in brackets. */
  function ReadHostPort(s: string): (string, string) {
    if s != "" && s[0] == '[' then (Until(s[1..], ']'), Beyond(Beyond(s[1..], ']'), ':'))
    else (Until(s, ':'), Beyond(s, ':'))
  }

  /** user:password@host:port */
  function ReadPart(s: string): (r: Connection) {
    var login, place := Until(s, '@'), ReadHostPort(Beyond(s, '@'));
    Connection(Unescape(Until(login, ':')), Unescape(Beyond(login, ':')), [place.0], place.1, "", false)
  }

  function ReadHosts(parts: seq<string>): (hosts: seq<string>)
    ensures |hosts| == |parts| && forall i :: 0 <= i < |parts| ==> hosts[i] == ReadPart(parts[i]).hosts[0]
  {
    seq(|parts|, i requires 0 <= i < |parts| => ReadPart(parts[i]).hosts[0])
  }

  const WITH_TLS: string := "?ssl=1"

  /** scheme://part,part/vhost?query, read by its delimiters only. */
  function Read(text: string): Connection {
    if |text| < |SCHEME| + |WITH_TLS| then Connection("", "", [], "", "", false)
    else
      var middle := text[|SCHEME|..|text| - |WITH_TLS|];
      var parts := Split(Until(middle, '/'), ',');
      ReadPart(parts[0]).(hosts := ReadHosts(parts), vhost := Beyond(middle, '/'),
                          tls := text[|text| - |WITH_TLS|..] == WITH_TLS)
  }

  lemma PartClean(c: Connection, host: string)
    requires Encodable(c) && host in c.hosts
    ensures ',' !in HostPart(c.user, c.password, host, c.port) && '/' !in HostPart(c.user, c.password, host, c.port)
  {
    EscapeClean(c.user);
    EscapeClean(c.password);
  }

  lemma {:induction false} JoinClean(parts: seq<string>, c: char)
    requires parts != [] && c != ',' && forall p :: p in parts ==> c !in p
    ensures c !in Join(parts, ',')
  {
    assert parts[0] in parts;
    if |parts| > 1 {
      JoinClean(parts[1..], c);
    }
  }

  lemma HostPortReads(host: string, port: string)
    requires '[' !in host && ']' !in host
    ensures ReadHostPort(JoinHostPort(host, port)) == (host, port)
  {
    var s := JoinHostPort(host, port);
    if ':' in host {
      assert s[1..] == host + "]" + (":" + port);
      CutAt(host, ']', ":" + port);
      assert ":" + port == "" + ":" + port;
      CutAt("", ':', port);
    } else {
      CutAt(host, ':', port);
      assert s[0] == if host == "" then ':' else host[0];
    }
  }

  lemma PartReads(c: Connection, host: string)
    requires Encodable(c) && host in c.hosts
    ensures ReadPart(HostPart(c.user, c.password, host, c.port)) ==
              Connection(c.user, c.password, [host], c.port, "", false)
  {
    var u, p := Escape(c.user), Escape(c.password);
    EscapeClean(c.user);
    EscapeClean(c.password);
    assert '@' !in u + ":" + p;
    CutAt(u + ":" + p, '@', JoinHostPort(host, c.port));
    CutAt(u, ':', p);
    UnescapeEscape(c.user);
    UnescapeEscape(c.password);
    HostPortReads(host, c.port);
  }

  /** Scheme and query have fixed places, and the vhost begins at the first slash between them. */
  lemma OuterReads(hosts: string, name: string, tls: bool)
    requires '/' !in hosts
    ensures var text := SCHEME + hosts + ("/" + name) + Query(tls);
            && |text| >= |SCHEME| + |WITH_TLS|
            && Until(text[|SCHEME|..|text| - |WITH_TLS|], '/') == hosts
            && Beyond(text[|SCHEME|..|text| - |WITH_TLS|], '/') == name
            && (text[|text| - |WITH_TLS|..] == WITH_TLS <==> tls)
  {
    var text := SCHEME + hosts + ("/" + name) + Query(tls);
    assert text[|SCHEME|..|text| - |WITH_TLS|] == hosts + "/" + name;
    CutAt(hosts, '/', name);
    assert text[|text| - |WITH_TLS|..] == Query(tls);
    assert WITH_TLS[5] == '1' && "?ssl=0"[5] == '0';
  }

  /** The vhost without a leading slash. */
  function Plain(vhost: string): string {
    if vhost != "" && vhost[0] == '/' then vhost[1..] else vhost
  }

  /** Reading a transport URL gives back everything it was built from, each in its place. */
  lemma ReadUrl(c: Connection)
    requires Encodable(c)
    ensures "rabbit://" <= Url(c) && Read(Url(c)) == c.(vhost := Plain(c.vhost))
  {
    var ps := HostParts(c.user, c.password, c.hosts, c.port);
    forall i | 0 <= i < |ps|
      ensures ',' !in ps[i] && '/' !in ps[i]
      ensures ReadPart(ps[i]) == Connection(c.user, c.password, [c.hosts[i]], c.port, "", false)
    {
      PartClean(c, c.hosts[i]);
      PartReads(c, c.hosts[i]);
    }
    JoinClean(ps, '/');
    SplitJoin(ps, ',');
    assert Slashed(c.vhost) == "/" + Plain(c.vhost);
    OuterReads(Join(ps, ','), Plain(c.vhost), c.tls);
    assert ReadHosts(ps) == c.hosts;
  }

  /** So equal texts come from equal connections, up to the leading slash of the vhost. */
  lemma UrlInjective(c: Connection, d: Connection)
    requires Encodable(c) && Encodable(d) && Url(c) == Url(d)
    ensures c.user == d.user && c.password == d.password && c.hosts == d.hosts && c.port == d.port && c.tls == d.tls
    ensures Slashed(c.vhost) == Slashed(d.vhost)
  {
    ReadUrl(c);
    ReadUrl(d);
    assert c.(vhost := Plain(c.vhost)) == d.(vhost := Plain(d.vhost));
    assert Slashed(c.vhost) == "/" + Plain(c.vhost) && Slashed(d.vhost) == "/" + Plain(d.vhost);
  }
}

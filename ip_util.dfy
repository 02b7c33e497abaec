/** Host and port extraction from forward target addresses such as "1.2.3.4:80",
    "example.com:443" or "[2001:db8::1]:8080" (go-backend/utils/ip_util.go). */
module IpUtil {
  import opened Wrappers
  import opened Strs

  /** `ExtractIp`: the host part. A bracketed IPv6 address gives the text inside the
      brackets; otherwise the text before the last colon, or the whole trimmed text
      when there is no colon after the first character. */
  function ExtractIp(address: string): string {
    if address == "" then "" else HostOf(TrimSpace(address))
  }

  /** The host part of a trimmed address. */
  function HostOf(a: string): string {
    var closeBracket := IndexOf(a, ']');
    if |a| > 0 && a[0] == '[' && closeBracket > 1 then a[1..closeBracket]
    else
      var lastColon := LastIndexOf(a, ':');
      if lastColon > 0 then a[..lastColon] else a
  }

  /** `ExtractPort`: the port after "]:" or after the last colon, or -1 when there is none
      or it is not an integer. */
  function ExtractPort(address: string): int {
    if address == "" then -1 else PortOf(TrimSpace(address))
  }

  /** The port of a trimmed address. */
  function PortOf(a: string): int {
    var closeBracket := IndexOf(a, ']');
    if |a| > 0 && a[0] == '[' && closeBracket > 1 && closeBracket + 1 < |a| && a[closeBracket + 1] == ':' then
      Atoi(a[closeBracket + 2..]).GetOr(-1)
    else
      var lastColon := LastIndexOf(a, ':');
      if lastColon > 0 && lastColon + 1 < |a| then Atoi(a[lastColon + 1..]).GetOr(-1) else -1
  }

  lemma BracketedShape(host: string, p: string)
    requires host != "" && ']' !in host && p != "" && IsDigit(p[|p| - 1])
    ensures var a := "[" + host + "]:" + p;
      TrimSpace(a) == a && IndexOf(a, ']') == 1 + |host| && a[1..1 + |host|] == host &&
      a[1 + |host| + 1] == ':' && a[1 + |host| + 2..] == p
  {
    var a := "[" + host + "]:" + p;
    assert Trimmed(a);
    assert a[1 + |host|] == ']';
    assert a[..1 + |host|] == "[" + host;
  }

  lemma SignedDigitsEnd(port: int)
    ensures IsDigit(IntToString(port)[|IntToString(port)| - 1])
  {
    if port < 0 {
      var n := NatToString(-port);
      assert IntToString(port)[|IntToString(port)| - 1] == n[|n| - 1];
    }
  }

  /** The host and port of a bracketed address "[host]:p" with a non-empty port text. */
  lemma BracketedParts(host: string, p: string)
    requires host != "" && ']' !in host && p != "" && IsDigit(p[|p| - 1])
    ensures HostOf("[" + host + "]:" + p) == host
    ensures PortOf("[" + host + "]:" + p) == Atoi(p).GetOr(-1)
    ensures TrimSpace("[" + host + "]:" + p) == "[" + host + "]:" + p
  {
    BracketedShape(host, p);
  }

  /** "[host]:port" gives back host and port, for any non-empty host without ']'. */
  lemma BracketedRoundTrip(host: string, port: int)
    requires host != "" && ']' !in host
    requires InInt64(port)
    ensures ExtractIp("[" + host + "]:" + IntToString(port)) == host
    ensures ExtractPort("[" + host + "]:" + IntToString(port)) == port
  {
    var p := IntToString(port);
    AtoiIntToString(port);
    SignedDigitsEnd(port);
    BracketedParts(host, p);
  }

  /** "host:port" gives back host and port, for a host without colons that does not start
      with white space or a bracket. */
  lemma PlainRoundTrip(host: string, port: int)
    requires host != "" && ':' !in host && !IsSpace(host[0]) && host[0] != '['
    requires InInt64(port)
    ensures ExtractIp(host + ":" + IntToString(port)) == host
    ensures ExtractPort(host + ":" + IntToString(port)) == port
  {
    var p := IntToString(port);
    AtoiIntToString(port);
    SignedDigitsEnd(port);
    assert ':' !in p by {
      if port < 0 { DigitsHoldNo(NatToString(-port), ':'); } else { DigitsHoldNo(p, ':'); }
    }
    PlainParts(host, p);
  }

  /** The host and port of a plain address "host:p" whose port text has no colon. */
  lemma PlainParts(host: string, p: string)
    requires host != "" && ':' !in host && !IsSpace(host[0]) && host[0] != '['
    requires p != "" && IsDigit(p[|p| - 1]) && ':' !in p
    ensures HostOf(host + ":" + p) == host
    ensures PortOf(host + ":" + p) == Atoi(p).GetOr(-1)
    ensures TrimSpace(host + ":" + p) == host + ":" + p
  {
    var a := host + ":" + p;
    assert Trimmed(a);
    assert a[|host|] == ':';
    assert a[|host| + 1..] == p;
    assert LastIndexOf(a, ':') == |host|;
    assert a[..|host|] == host;
  }

  /** Without a bracket, the address splits at its last colon: host, ':', port text. */
  lemma SplitsAtLastColon(address: string)
    requires address != "" && Trimmed(address) && address[0] != '['
    requires LastIndexOf(address, ':') > 0
    ensures ExtractIp(address) + ":" + address[LastIndexOf(address, ':') + 1..] == address
    ensures ':' !in address[LastIndexOf(address, ':') + 1..]
  {
    var lc := LastIndexOf(address, ':');
    assert TrimSpace(address) == address;
    assert HostOf(address) == address[..lc];
    assert address == address[..lc] + ":" + address[lc + 1..];
  }

  /** An address without a colon has no port; its host is the trimmed address itself,
      unless it is a bracketed name. */
  lemma NoColonNoPort(address: string)
    requires ':' !in address
    ensures ExtractPort(address) == -1
    ensures (TrimSpace(address) == "" || TrimSpace(address)[0] != '[') ==> ExtractIp(address) == TrimSpace(address)
  {
    if address != "" {
      var a := TrimSpace(address);
      assert ':' !in a;
      var cb := IndexOf(a, ']');
      if |a| > 0 && a[0] == '[' && cb > 1 && cb + 1 < |a| {
        assert a[cb + 1] != ':';
      }
    }
  }
}

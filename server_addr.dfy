/** Normalisation of a node's server address so that an IPv6 host is bracketed
    (go-backend/utils/server_addr.go). */
module ServerAddr {
  import opened Strs
  import IpUtil

  /** `IsIPv6`: at least two colons. */
  predicate IsIPv6(address: string) {
    Count(address, ':') >= 2
  }

  /** `ProcessServerAddress`: brackets the host in front of the last colon when that host
      has two or more colons; everything else is returned unchanged. */
  function ProcessServerAddress(serverAddr: string): string {
    if serverAddr == "" then ""
    else if serverAddr[0] == '[' then serverAddr
    else
      var lastColon := LastIndexOf(serverAddr, ':');
      if lastColon == -1 then
        if IsIPv6(serverAddr) then "[" + serverAddr + "]" else serverAddr
      else
        var host := serverAddr[..lastColon];
        var port := serverAddr[lastColon..];
        if IsIPv6(host) then "[" + host + "]" + port else serverAddr
  }

  lemma HostColons(s: string)
    requires LastIndexOf(s, ':') != -1
    ensures Count(s, ':') == Count(s[..LastIndexOf(s, ':')], ':') + 1
  {
    var lc := LastIndexOf(s, ':');
    assert s == s[..lc] + ([':'] + s[lc + 1..]);
    CountAppend(s[..lc], [':'] + s[lc + 1..], ':');
    assert ([':'] + s[lc + 1..])[1..] == s[lc + 1..];
  }

  /** The address changes exactly when it is not bracketed and holds three or more colons
      (a host with at least two, then the port separator); the change only adds the two
      brackets around the part before the last colon. */
  lemma ChangesIffUnbracketedV6(s: string)
    ensures ProcessServerAddress(s) != s <==> s != "" && s[0] != '[' && Count(s, ':') >= 3
    ensures ProcessServerAddress(s) != s ==>
      var lc := LastIndexOf(s, ':');
      0 < lc && ProcessServerAddress(s) == "[" + s[..lc] + "]" + s[lc..]
  {
    if s != "" && s[0] != '[' {
      var lc := LastIndexOf(s, ':');
      if lc != -1 {
        HostColons(s);
        if IsIPv6(s[..lc]) {
          var r := "[" + s[..lc] + "]" + s[lc..];
          assert |r| == |s| + 2;
          assert lc > 0;
        }
      }
    }
  }

  /** Normalising twice is normalising once. */
  lemma Idempotent(s: string)
    ensures ProcessServerAddress(ProcessServerAddress(s)) == ProcessServerAddress(s)
  {
    ChangesIffUnbracketedV6(s);
    if ProcessServerAddress(s) != s {
      ChangesIffUnbracketedV6(ProcessServerAddress(s));
    }
  }

  /** A normalised IPv6 "host:port" is read back by the address helpers as that host and
      that port. */
  lemma NormalisedAddressReadsBack(host: string, port: int)
    requires IsIPv6(host) && ']' !in host && host[0] != '['
    requires InInt64(port)
    ensures ProcessServerAddress(host + ":" + IntToString(port)) == "[" + host + "]:" + IntToString(port)
    ensures IpUtil.ExtractIp(ProcessServerAddress(host + ":" + IntToString(port))) == host
    ensures IpUtil.ExtractPort(ProcessServerAddress(host + ":" + IntToString(port))) == port
  {
    var p := IntToString(port);
    assert ':' !in p by {
      if port < 0 { DigitsHoldNo(NatToString(-port), ':'); } else { DigitsHoldNo(p, ':'); }
    }
    BracketsHost(host, p);
    assert "[" + host + "]" + (":" + p) == "[" + host + "]:" + p;
    IpUtil.BracketedRoundTrip(host, port);
  }

  /** "host:p" with an IPv6 host and a port text without colons is bracketed as "[host]:p". */
  lemma BracketsHost(host: string, p: string)
    requires IsIPv6(host) && host[0] != '[' && ':' !in p
    ensures ProcessServerAddress(host + ":" + p) == "[" + host + "]" + (":" + p)
  {
    LastIndexOfAfter(host, ':', p);
  }
}

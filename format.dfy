/** Display helpers of the web panel: traffic and number rendering, entry/target address
    summaries, and the usage-bar colour (vue-frontend/src/utils/format.ts). */
module Format {
  import opened Wrappers
  import opened Strs
  import IpUtil

  /** The sentinel quota value shown as "unlimited". */
  const UnlimitedValue: int := 99999
  const Unlimited: string := "无限制"

  // ---------------------------------------------------------------- numbers

  /** `formatNumber`: the sentinel as "unlimited", any other value in decimal. */
  function FormatNumber(value: int): string {
    if value == UnlimitedValue then Unlimited else IntToString(value)
  }

  lemma UnlimitedIsNotDecimal(value: int)
    ensures IntToString(value) != Unlimited
  {
    var s := IntToString(value);
    if value >= 0 {
      assert IsDigit(s[0]);
    } else {
      assert s[0] == '-';
    }
  }

  /** The text is "unlimited" exactly for the sentinel, and any other value reads back
      from its text. */
  lemma FormatNumberReadsBack(value: int)
    requires InInt64(value)
    ensures FormatNumber(value) == Unlimited <==> value == UnlimitedValue
    ensures value != UnlimitedValue ==> Atoi(FormatNumber(value)) == Some(value)
  {
    UnlimitedIsNotDecimal(value);
    AtoiIntToString(value);
  }

  /** What `formatFlow` renders: literal text, or `(value / divisor).toFixed(2) + suffix`
      (the floating-point rendering itself is not modelled). */
  datatype FlowText = Text(text: string) | Scaled(divisor: int, suffix: string)

  const KB: int := 1024
  const MB: int := 1024 * 1024
  const GB: int := 1024 * 1024 * 1024

  /** `formatFlow(value, unit)`. */
  function FormatFlow(value: int, unit: string): FlowText {
    if value == UnlimitedValue then Text(Unlimited)
    else if unit == "gb" then Text(IntToString(value) + " GB")
    else if value == 0 then Text("0 B")
    else if value < KB then Text(IntToString(value) + " B")
    else if value < MB then Scaled(KB, " KB")
    else if value < GB then Scaled(MB, " MB")
    else Scaled(GB, " GB")
  }

  /** The sentinel is "unlimited" for every unit; the "gb" unit prints the value as is; in
      bytes, small values print exactly and larger ones are scaled by the largest unit not
      above them, so that the shown figure is at least 1 (and below 1024 for KB and MB). */
  lemma FormatFlowUnits(value: int, unit: string)
    ensures value == UnlimitedValue ==> FormatFlow(value, unit) == Text(Unlimited)
    ensures value != UnlimitedValue && unit == "gb" ==> FormatFlow(value, unit) == Text(IntToString(value) + " GB")
    ensures value != UnlimitedValue && unit != "gb" ==>
      (FormatFlow(value, unit).Text? <==> value < KB)
    ensures FormatFlow(value, unit).Scaled? ==>
      var d := FormatFlow(value, unit).divisor;
      d in {KB, MB, GB} && d <= value && (d < GB ==> value < d * 1024)
  {
  }

  // ---------------------------------------------------------------- addresses

  /** `split(',').map(trim).filter(nonblank)`: the trimmed, non-blank entries in order. */
  function Entries(s: string): seq<string> {
    NonBlankTrimmed(Split(s, ','))
  }

  function NonBlankTrimmed(parts: seq<string>): (r: seq<string>)
    ensures |r| <= |parts|
    ensures forall k :: 0 <= k < |r| ==> r[k] != "" && Trimmed(r[k])
  {
    if |parts| == 0 then []
    else
      var t := TrimSpace(parts[0]);
      (if t == "" then [] else [t]) + NonBlankTrimmed(parts[1..])
  }

  /** The IPv6 rule of the panel: an entry with a colon that is not yet bracketed gets
      brackets. */
  function Bracketed(ip: string): string {
    if ':' in ip && !(|ip| > 0 && ip[0] == '[') then "[" + ip + "]" else ip
  }

  /** `formatAddress(ipString, port)`: empty for an empty list or port 0; the first entry
      with its port, plus " (+n)" when n more entries follow. */
  function FormatAddress(ipString: string, port: int): string {
    if ipString == "" || port == 0 then ""
    else
      var ips := Entries(ipString);
      if |ips| == 0 then ""
      else if |ips| == 1 then EntryAddress(ips[0], port)
      else EntryAddress(ips[0], port) + " (+" + IntToString(|ips| - 1) + ")"
  }

  lemma EmptyHasNoEntries()
    ensures Entries("") == []
  {
    assert Split("", ',') == [""];
    assert TrimSpace("") == "";
  }

  /** The address is empty exactly for an empty list, port 0, or only blank entries; with
      several entries it is the single-entry rendering of the first plus the count of the
      others. */
  lemma FormatAddressShape(ipString: string, port: int)
    ensures FormatAddress(ipString, port) == "" <==>
      ipString == "" || port == 0 || Entries(ipString) == []
    ensures |Entries(ipString)| > 1 && port != 0 ==>
      FormatAddress(ipString, port) ==
        FormatAddress(Entries(ipString)[0], port) + " (+" + IntToString(|Entries(ipString)| - 1) + ")"
  {
    var ips := Entries(ipString);
    if |ips| > 1 && port != 0 {
      var first := ips[0];
      assert first != "" && Trimmed(first);
      assert ',' !in first by { EntryHasNoComma(ipString, 0); }
      SplitNoSep(first, ',');
      assert TrimSpace(first) == first;
      assert Entries(first) == [first];
    }
    if ipString != "" && port != 0 && |ips| > 0 {
      assert |FormatAddress(ipString, port)| > 0;
    }
  }

  lemma {:induction false} NoCommaEntries(parts: seq<string>)
    requires forall k :: 0 <= k < |parts| ==> ',' !in parts[k]
    ensures forall k :: 0 <= k < |NonBlankTrimmed(parts)| ==> ',' !in NonBlankTrimmed(parts)[k]
    decreases |parts|
  {
    if |parts| > 0 {
      NoCommaEntries(parts[1..]);
    }
  }

  lemma EntryHasNoComma(s: string, k: nat)
    requires k < |Entries(s)|
    ensures ',' !in Entries(s)[k]
  {
    NoCommaEntries(Split(s, ','));
  }

  /** One entry with its port, as `formatAddress` renders it. */
  function EntryAddress(ip: string, port: int): string {
    Bracketed(ip) + ":" + IntToString(port)
  }

  lemma EntryAddressReadsBack(ip: string, port: int)
    requires ip != "" && Trimmed(ip) && ']' !in ip && ip[0] != '['
    requires InInt64(port)
    ensures IpUtil.ExtractIp(EntryAddress(ip, port)) == ip
    ensures IpUtil.ExtractPort(EntryAddress(ip, port)) == port
  {
    var p := IntToString(port);
    if ':' in ip {
      var b := "[" + ip + "]";
      assert Bracketed(ip) == b;
      assert b + ":" + p == "[" + ip + "]:" + p;
      IpUtil.BracketedRoundTrip(ip, port);
    } else {
      assert Bracketed(ip) == ip;
      IpUtil.PlainRoundTrip(ip, port);
    }
  }

  /** A single entry renders as an address the backend helpers read back: its host is the
      entry and its port is the port (an IPv6 entry is bracketed for this). */
  lemma SingleAddressReadsBack(ipString: string, port: int)
    requires |Entries(ipString)| == 1 && port != 0 && InInt64(port)
    requires ']' !in Entries(ipString)[0] && Entries(ipString)[0][0] != '['
    ensures IpUtil.ExtractIp(FormatAddress(ipString, port)) == Entries(ipString)[0]
    ensures IpUtil.ExtractPort(FormatAddress(ipString, port)) == port
  {
    var ip := Entries(ipString)[0];
    if ipString == "" { EmptyHasNoEntries(); }
    assert FormatAddress(ipString, port) == EntryAddress(ip, port);
    EntryAddressReadsBack(ip, port);
  }

  /** `formatRemoteAddress(remoteAddr)`: empty for no entries, the entry itself for one,
      otherwise the first plus the count of the others. */
  function FormatRemoteAddress(remoteAddr: string): string {
    if remoteAddr == "" then ""
    else
      var addresses := Entries(remoteAddr);
      if |addresses| == 0 then ""
      else if |addresses| == 1 then addresses[0]
      else addresses[0] + " (+" + IntToString(|addresses| - 1) + ")"
  }

  /** The number of pieces that are not blank (`filter(s => s.trim())`). */
  function CountNonBlank(parts: seq<string>): nat {
    if |parts| == 0 then 0
    else (if TrimSpace(parts[0]) != "" then 1 else 0) + CountNonBlank(parts[1..])
  }

  /** `hasMultiple(str)`. */
  predicate HasMultiple(str: string) {
    str != "" && CountNonBlank(Split(str, ',')) > 1
  }

  lemma {:induction false} CountIsEntries(parts: seq<string>)
    ensures CountNonBlank(parts) == |NonBlankTrimmed(parts)|
    decreases |parts|
  {
    if |parts| > 0 {
      CountIsEntries(parts[1..]);
    }
  }

  /** `hasMultiple` holds exactly when there is more than one entry, which is exactly when
      the remote address summary carries a " (+k)" count; a single entry renders as itself. */
  lemma HasMultipleIffCounted(s: string)
    ensures HasMultiple(s) <==> |Entries(s)| > 1
    ensures HasMultiple(s) ==>
      FormatRemoteAddress(s) == Entries(s)[0] + " (+" + IntToString(|Entries(s)| - 1) + ")"
    ensures |Entries(s)| == 1 ==> FormatRemoteAddress(s) == Entries(s)[0]
    ensures Entries(s) == [] <==> FormatRemoteAddress(s) == ""
  {
    CountIsEntries(Split(s, ','));
    if s == "" { EmptyHasNoEntries(); }
  }

  // ---------------------------------------------------------------- usage bar

  const Red: string := "bg-red-500 dark:bg-red-600"
  const Orange: string := "bg-orange-500 dark:bg-orange-600"
  const Blue: string := "bg-blue-500 dark:bg-blue-600"

  /** `getUsageColor(percentage)`. */
  function UsageColor(percentage: real): string {
    if percentage >= 90.0 then Red
    else if percentage >= 70.0 then Orange
    else Blue
  }

  function Severity(color: string): nat {
    if color == Red then 2 else if color == Orange then 1 else 0
  }

  /** Blue below 70%, orange from 70% and red from 90%; the colour never gets milder as
      usage grows. */
  lemma UsageColorBands(p: real, q: real)
    ensures UsageColor(p) == Red <==> p >= 90.0
    ensures UsageColor(p) == Orange <==> 70.0 <= p < 90.0
    ensures UsageColor(p) == Blue <==> p < 70.0
    ensures p <= q ==> Severity(UsageColor(p)) <= Severity(UsageColor(q))
  {
  }
}

/** Port-range strings such as "1080,1090,2080-3080": parsing, validation, expansion to a
    sorted list of ports, and formatting back to text (go-backend/utils/port_ranges.go). */
module PortRanges {
  import opened Wrappers
  import opened Strs

  /** An inclusive range [start, end] of ports. */
  datatype PortRange = PortRange(start: int, end: int)

  /** The errors the parser and the validator report. */
  datatype RangeError =
    | Empty                             // 端口范围不能为空
    | BadFormat(part: string)           // 无效的端口范围格式: part
    | BadStart(text: string)            // 无效的起始端口: text
    | BadEnd(text: string)              // 无效的结束端口: text
    | Reversed(start: int, end: int)    // 起始端口不能大于结束端口: start-end
    | BadPort(part: string)             // 无效的端口: part
    | OutOfRange(port: int)             // 端口 port 不在有效范围内 (1-65535)
    | StartAfterEnd(start: int, end: int) // 起始端口 start 不能大于结束端口 end

  const MaxPort: int := 65535

  /** The text `Error()` gives for each error. */
  function Message(e: RangeError): string {
    match e
    case Empty => "端口范围不能为空"
    case BadFormat(part) => "无效的端口范围格式: " + part
    case BadStart(text) => "无效的起始端口: " + text
    case BadEnd(text) => "无效的结束端口: " + text
    case Reversed(start, end) => "起始端口不能大于结束端口: " + IntToString(start) + "-" + IntToString(end)
    case BadPort(part) => "无效的端口: " + part
    case OutOfRange(port) => "端口 " + IntToString(port) + " 不在有效范围内 (1-65535)"
    case StartAfterEnd(start, end) => "起始端口 " + IntToString(start) + " 不能大于结束端口 " + IntToString(end)
  }

  // ---------------------------------------------------------------- parsing

  /** What one comma-separated token contributes. */
  datatype TokenResult = Skip | Range(range: PortRange) | Bad(error: RangeError)

  /** One token, trimmed: blank tokens are skipped, "a-b" must have exactly two integer
      sides with a <= b, anything else must be a single integer p standing for [p, p]. */
  function ParseToken(raw: string): (t: TokenResult)
    ensures t.Skip? <==> TrimSpace(raw) == ""
    ensures t.Range? ==> t.range.start <= t.range.end
    ensures t.Range? && '-' !in TrimSpace(raw) ==> t.range.start == t.range.end
    ensures t.Bad? ==> t.error != Empty
  {
    var part := TrimSpace(raw);
    if part == "" then Skip
    else if '-' in part then
      var rangeParts := Split(part, '-');
      if |rangeParts| != 2 then Bad(BadFormat(part))
      else
        match Atoi(TrimSpace(rangeParts[0]))
        case None => Bad(BadStart(rangeParts[0]))
        case Some(start) =>
          match Atoi(TrimSpace(rangeParts[1]))
          case None => Bad(BadEnd(rangeParts[1]))
          case Some(end) =>
            if start > end then Bad(Reversed(start, end)) else Range(PortRange(start, end))
    else
      match Atoi(part)
      case None => Bad(BadPort(part))
      case Some(port) => Range(PortRange(port, port))
  }

  /** The tokens' results in order, stopping at the first bad one. */
  function Collect(tokens: seq<TokenResult>): Result<seq<PortRange>, RangeError> {
    if |tokens| == 0 then Success([])
    else
      match Collect(tokens[..|tokens| - 1])
      case Failure(e) => Failure(e)
      case Success(ranges) =>
        match tokens[|tokens| - 1]
        case Skip => Success(ranges)
        case Bad(e) => Failure(e)
        case Range(r) => Success(ranges + [r])
  }

  /** The result of every token, in order. */
  function Tokens(parts: seq<string>): (tokens: seq<TokenResult>)
    ensures |tokens| == |parts|
  {
    seq(|parts|, k requires 0 <= k < |parts| => ParseToken(parts[k]))
  }

  /** What the token-level contract says, about the k-th token of a list. */
  lemma TokenFacts(parts: seq<string>, k: nat)
    requires k < |parts|
    ensures Tokens(parts)[k].Skip? <==> TrimSpace(parts[k]) == ""
    ensures Tokens(parts)[k].Bad? ==> Tokens(parts)[k].error != Empty
    ensures Tokens(parts)[k].Range? ==> Tokens(parts)[k].range.start <= Tokens(parts)[k].range.end
  {
  }

  /** The whole input: empty text, or text without a single range, is an error. */
  function Parse(input: string): Result<seq<PortRange>, RangeError> {
    if input == "" then Failure(Empty) else Finish(Collect(Tokens(Split(input, ','))))
  }

  /** No ranges at all is the "empty" error. */
  function Finish(c: Result<seq<PortRange>, RangeError>): Result<seq<PortRange>, RangeError> {
    match c
    case Failure(e) => Failure(e)
    case Success(ranges) => if |ranges| == 0 then Failure(Empty) else Success(ranges)
  }

  /** The ranges of the tokens that carry one, in order. */
  function RangesOf(tokens: seq<TokenResult>): (ranges: seq<PortRange>)
    ensures |ranges| <= |tokens|
    ensures forall k :: 0 <= k < |ranges| ==> exists j :: 0 <= j < |tokens| && tokens[j] == Range(ranges[k])
  {
    if |tokens| == 0 then []
    else
      var init := RangesOf(tokens[..|tokens| - 1]);
      assert forall j :: 0 <= j < |tokens| - 1 ==> tokens[..|tokens| - 1][j] == tokens[j];
      match tokens[|tokens| - 1]
      case Range(r) => init + [r]
      case _ => init
  }

  lemma {:induction false} FailureSticks(tokens: seq<TokenResult>, i: nat)
    requires i <= |tokens|
    requires Collect(tokens[..i]).Failure?
    ensures Collect(tokens) == Collect(tokens[..i])
    decreases |tokens|
  {
    if i < |tokens| {
      assert tokens[..|tokens| - 1][..i] == tokens[..i];
      FailureSticks(tokens[..|tokens| - 1], i);
    } else {
      assert tokens[..i] == tokens;
    }
  }

  /** `ParsePortRanges`: the loop over the comma-separated tokens. */
  method ParsePortRanges(input: string) returns (r: Result<seq<PortRange>, RangeError>)
    ensures r == Parse(input)
  {
    if input == "" {
      return Failure(Empty);
    }
    var ranges: seq<PortRange> := [];
    var parts := Split(input, ',');
    ghost var tokens := Tokens(parts);
    var i := 0;
    while i < |parts|
      invariant 0 <= i <= |parts|
      invariant Collect(tokens[..i]) == Success(ranges)
    {
      assert tokens[..i + 1][..i] == tokens[..i];
      assert tokens[..i + 1][i] == tokens[i] == ParseToken(parts[i]);
      var t := ParseToken(parts[i]);
      if t.Bad? {
        FailureSticks(tokens, i + 1);
        return Failure(t.error);
      } else if t.Range? {
        ranges := ranges + [t.range];
      }
      i := i + 1;
    }
    assert tokens[..i] == tokens;
    if |ranges| == 0 {
      return Failure(Empty);
    }
    return Success(ranges);
  }

  predicate NoBad(tokens: seq<TokenResult>) {
    forall k :: 0 <= k < |tokens| ==> !tokens[k].Bad?
  }

  predicate AllSkip(tokens: seq<TokenResult>) {
    forall k :: 0 <= k < |tokens| ==> tokens[k].Skip?
  }

  /** Every token is blank. */
  predicate AllBlank(parts: seq<string>) {
    forall k :: 0 <= k < |parts| ==> TrimSpace(parts[k]) == ""
  }

  /** The first bad token is at k. */
  predicate FirstBad(tokens: seq<TokenResult>, k: int, e: RangeError) {
    0 <= k < |tokens| && tokens[k] == Bad(e) && NoBad(tokens[..k])
  }

  lemma {:induction false} CollectTokens(tokens: seq<TokenResult>)
    ensures Collect(tokens).Success? <==> NoBad(tokens)
    ensures Collect(tokens).Success? ==> Collect(tokens).value == RangesOf(tokens)
    ensures Collect(tokens).Success? ==> (Collect(tokens).value == [] <==> AllSkip(tokens))
    ensures Collect(tokens).Failure? ==> exists k :: FirstBad(tokens, k, Collect(tokens).error)
    decreases |tokens|
  {
    if |tokens| > 0 {
      var init := tokens[..|tokens| - 1];
      CollectTokens(init);
      assert forall k :: 0 <= k < |init| ==> init[k] == tokens[k];
      if Collect(init).Failure? {
        var k :| FirstBad(init, k, Collect(init).error);
        assert init[..k] == tokens[..k];
        assert FirstBad(tokens, k, Collect(tokens).error);
      } else if tokens[|tokens| - 1].Bad? {
        assert init == tokens[..|tokens| - 1];
        assert FirstBad(tokens, |tokens| - 1, Collect(tokens).error);
      }
    }
  }

  /** A successful parse yields, in token order, the range of every non-blank token, at
      least one, each with start <= end; a failed parse other than "empty" reports the
      error of the first bad token. */
  lemma ParseKeepsTokenOrder(input: string)
    ensures Parse(input).Success? ==>
      var ranges := Parse(input).value;
      ranges == RangesOf(Tokens(Split(input, ','))) && |ranges| >= 1 &&
      forall k :: 0 <= k < |ranges| ==> ranges[k].start <= ranges[k].end
    ensures Parse(input).Failure? && Parse(input).error != Empty ==>
      exists k :: FirstBad(Tokens(Split(input, ',')), k, Parse(input).error)
  {
    var parts := Split(input, ',');
    var tokens := Tokens(parts);
    CollectTokens(tokens);
    if Parse(input).Success? {
      var ranges := Parse(input).value;
      forall k | 0 <= k < |ranges| ensures ranges[k].start <= ranges[k].end {
        var j :| 0 <= j < |tokens| && tokens[j] == Range(ranges[k]);
        TokenFacts(parts, j);
      }
    }
  }

  lemma BlankIffSkip(parts: seq<string>)
    ensures AllBlank(parts) <==> AllSkip(Tokens(parts))
  {
    var tokens := Tokens(parts);
    forall k | 0 <= k < |parts| ensures tokens[k].Skip? <==> TrimSpace(parts[k]) == "" {
      TokenFacts(parts, k);
    }
  }

  lemma EmptyIffAllSkip(tokens: seq<TokenResult>)
    requires forall k :: 0 <= k < |tokens| && tokens[k].Bad? ==> tokens[k].error != Empty
    ensures Finish(Collect(tokens)) == Failure(Empty) <==> AllSkip(tokens)
  {
    CollectTokens(tokens);
    var c := Collect(tokens);
    if c.Failure? {
      var k :| FirstBad(tokens, k, c.error);
    }
  }

  /** The input is rejected as empty exactly when every token in it is blank. */
  lemma EmptyIffBlank(input: string)
    ensures Parse(input) == Failure(Empty) <==> AllBlank(Split(input, ','))
  {
    var parts := Split(input, ',');
    if input == "" {
      assert parts == [""];
      assert TrimSpace(parts[0]) == "";
      assert AllBlank(parts);
    } else {
      var tokens := Tokens(parts);
      BlankIffSkip(parts);
      forall k | 0 <= k < |tokens| && tokens[k].Bad? ensures tokens[k].error != Empty {
        TokenFacts(parts, k);
      }
      EmptyIffAllSkip(tokens);
    }
  }

  // ---------------------------------------------------------------- validation

  /** A range both of whose ends are real ports, in order. */
  predicate ValidRange(r: PortRange) {
    1 <= r.start <= r.end <= MaxPort
  }

  predicate AllValid(ranges: seq<PortRange>) {
    forall k :: 0 <= k < |ranges| ==> ValidRange(ranges[k])
  }

  /** The complaint `ValidatePortRanges` raises about one range, checked in the order
      start, end, start <= end. */
  function Complaint(r: PortRange): (e: Option<RangeError>)
    ensures e.None? <==> ValidRange(r)
    ensures e.Some? ==> e.value.OutOfRange? || e.value.StartAfterEnd?
  {
    if r.start < 1 || r.start > MaxPort then Some(OutOfRange(r.start))
    else if r.end < 1 || r.end > MaxPort then Some(OutOfRange(r.end))
    else if r.start > r.end then Some(StartAfterEnd(r.start, r.end))
    else None
  }

  /** `ValidatePortRanges`: succeeds iff every range is valid; otherwise reports the
      complaint about the first invalid range. */
  method ValidatePortRanges(ranges: seq<PortRange>) returns (err: Option<RangeError>)
    ensures err.None? <==> AllValid(ranges)
    ensures err.Some? ==>
      exists k :: 0 <= k < |ranges| && err == Complaint(ranges[k]) &&
        forall j :: 0 <= j < k ==> ValidRange(ranges[j])
  {
    for i := 0 to |ranges|
      invariant forall j :: 0 <= j < i ==> ValidRange(ranges[j])
    {
      var c := Complaint(ranges[i]);
      if c.Some? {
        return c;
      }
    }
    return None;
  }

  /** `ValidatePortRangesString`: parse, then validate. */
  method ValidatePortRangesString(input: string) returns (err: Option<RangeError>)
    ensures err.None? <==> Parse(input).Success? && AllValid(Parse(input).value)
    ensures Parse(input).Failure? ==> err == Some(Parse(input).error)
  {
    var parsed := ParsePortRanges(input);
    if parsed.Failure? {
      return Some(parsed.error);
    }
    err := ValidatePortRanges(parsed.value);
  }

  // ---------------------------------------------------------------- membership

  /** Some range holds the port. */
  predicate Covers(ranges: seq<PortRange>, port: int) {
    exists k :: 0 <= k < |ranges| && ranges[k].start <= port <= ranges[k].end
  }

  /** `IsPortInRanges`. */
  method IsPortInRanges(port: int, ranges: seq<PortRange>) returns (b: bool)
    ensures b <==> Covers(ranges, port)
  {
    for i := 0 to |ranges|
      invariant forall j :: 0 <= j < i ==> !(ranges[j].start <= port <= ranges[j].end)
    {
      if port >= ranges[i].start && port <= ranges[i].end {
        return true;
      }
    }
    return false;
  }

  // ---------------------------------------------------------------- expansion

  predicate Sorted(s: seq<int>) {
    forall i, j :: 0 <= i < j < |s| ==> s[i] <= s[j]
  }

  predicate StrictlyIncreasing(s: seq<int>) {
    forall i, j :: 0 <= i < j < |s| ==> s[i] < s[j]
  }

  /** Places `x` before the first element not below it. */
  function Insert(x: int, s: seq<int>): seq<int> {
    if |s| == 0 then [x]
    else if x <= s[0] then [x] + s
    else [s[0]] + Insert(x, s[1..])
  }

  /** Inserting into a sorted list keeps it sorted, adds exactly `x`, and every element
      is `x` or no smaller than the old head. */
  lemma {:induction false} InsertSorted(x: int, s: seq<int>)
    requires Sorted(s)
    ensures Sorted(Insert(x, s)) && multiset(Insert(x, s)) == multiset(s) + multiset{x}
    ensures forall k :: 0 <= k < |Insert(x, s)| ==> Insert(x, s)[k] == x || (|s| > 0 && s[0] <= Insert(x, s)[k])
    decreases |s|
  {
    if |s| == 0 {
    } else if x <= s[0] {
      ConsSorted(x, s);
    } else {
      var t := Insert(x, s[1..]);
      InsertSorted(x, s[1..]);
      assert multiset(s) == multiset{s[0]} + multiset(s[1..]) by {
        assert s == [s[0]] + s[1..];
      }
      assert forall k :: 0 <= k < |t| ==> s[0] <= t[k] by {
        assert |s| > 1 ==> s[0] <= s[1];
      }
      ConsSorted(s[0], t);
    }
  }

  /** A sorted list stays sorted under a head no greater than any of its elements. */
  lemma ConsSorted(a: int, t: seq<int>)
    requires Sorted(t) && forall k :: 0 <= k < |t| ==> a <= t[k]
    ensures Sorted([a] + t)
  {
    var r := [a] + t;
    forall i, j | 0 <= i < j < |r| ensures r[i] <= r[j] {
      assert r[j] == t[j - 1];
      if i > 0 {
        assert r[i] == t[i - 1];
      }
    }
  }

  /** `sort.Ints`, a library routine, stands here as an insertion sort on values. */
  function SortInts(s: seq<int>): (r: seq<int>)
    ensures Sorted(r) && multiset(r) == multiset(s)
  {
    if |s| == 0 then []
    else
      assert s == [s[0]] + s[1..];
      InsertSorted(s[0], SortInts(s[1..]));
      Insert(s[0], SortInts(s[1..]))
  }

  /** `uniqueInts`: drops each element equal to its predecessor; on sorted input the
      result is strictly increasing with the same elements. */
  method UniqueInts(sorted: seq<int>) returns (r: seq<int>)
    ensures forall x :: x in r <==> x in sorted
    ensures Sorted(sorted) ==> StrictlyIncreasing(r)
  {
    if |sorted| == 0 {
      return sorted;
    }
    r := [sorted[0]];
    var i := 1;
    while i < |sorted|
      invariant 1 <= i <= |sorted|
      invariant |r| >= 1 && r[|r| - 1] == sorted[i - 1]
      invariant forall x :: x in r <==> x in sorted[..i]
      invariant Sorted(sorted) ==> StrictlyIncreasing(r)
    {
      assert sorted[..i + 1] == sorted[..i] + [sorted[i]];
      if sorted[i] != sorted[i - 1] {
        r := r + [sorted[i]];
      }
      i := i + 1;
    }
    assert sorted[..i] == sorted;
  }

  /** `GetAllPorts`: every port some range holds, ascending, each once. */
  method GetAllPorts(ranges: seq<PortRange>) returns (ports: seq<int>)
    ensures StrictlyIncreasing(ports)
    ensures forall p :: p in ports <==> Covers(ranges, p)
  {
    var all: seq<int> := [];
    for i := 0 to |ranges|
      invariant forall q :: q in all <==> Covers(ranges[..i], q)
    {
      var p := ranges[i].start;
      while p <= ranges[i].end
        invariant ranges[i].start <= p
        invariant p <= ranges[i].end + 1 || p == ranges[i].start
        invariant forall q :: q in all <==> Covers(ranges[..i], q) || ranges[i].start <= q < p
        decreases ranges[i].end - p
      {
        all := all + [p];
        p := p + 1;
      }
      assert forall q :: Covers(ranges[..i + 1], q) <==>
        Covers(ranges[..i], q) || ranges[i].start <= q <= ranges[i].end by {
        forall q ensures Covers(ranges[..i + 1], q) <==>
          Covers(ranges[..i], q) || ranges[i].start <= q <= ranges[i].end {
          if Covers(ranges[..i + 1], q) {
            var k :| 0 <= k < i + 1 && ranges[..i + 1][k].start <= q <= ranges[..i + 1][k].end;
            if k < i { assert ranges[..i][k] == ranges[k]; }
          }
          if Covers(ranges[..i], q) {
            var k :| 0 <= k < i && ranges[..i][k].start <= q <= ranges[..i][k].end;
            assert ranges[..i + 1][k] == ranges[k];
          }
          if ranges[i].start <= q <= ranges[i].end {
            assert ranges[..i + 1][i] == ranges[i];
          }
        }
      }
    }
    assert ranges[..|ranges|] == ranges;
    var sorted := SortInts(all);
    assert forall q :: q in sorted <==> q in multiset(sorted);
    assert forall q :: q in all <==> q in multiset(all);
    ports := UniqueInts(sorted);
  }

  // ---------------------------------------------------------------- formatting

  /** One range as text: "p" for a single port, "a-b" otherwise. */
  function RangeText(r: PortRange): string {
    if r.start == r.end then IntToString(r.start)
    else IntToString(r.start) + "-" + IntToString(r.end)
  }

  function RangeTexts(ranges: seq<PortRange>): (texts: seq<string>)
    ensures |texts| == |ranges|
  {
    seq(|ranges|, k requires 0 <= k < |ranges| => RangeText(ranges[k]))
  }

  /** `FormatPortRanges`: the range texts joined by commas. It is the inverse of the
      parser on any non-empty list of valid ranges. */
  method FormatPortRanges(ranges: seq<PortRange>) returns (s: string)
    ensures s == Join(RangeTexts(ranges), ',')
    ensures |ranges| > 0 && AllValid(ranges) ==> Parse(s) == Success(ranges)
  {
    var parts: seq<string> := [];
    for i := 0 to |ranges|
      invariant parts == RangeTexts(ranges[..i])
    {
      assert ranges[..i + 1][..i] == ranges[..i];
      assert ranges[..i + 1][i] == ranges[i];
      if ranges[i].start == ranges[i].end {
        parts := parts + [IntToString(ranges[i].start)];
      } else {
        parts := parts + [IntToString(ranges[i].start) + "-" + IntToString(ranges[i].end)];
      }
    }
    assert ranges[..|ranges|] == ranges;
    s := Join(parts, ',');
    if |ranges| > 0 && AllValid(ranges) {
      FormatParseRoundTrip(ranges);
    }
  }

  /** The decimal text of a port is trimmed, non-empty, free of ',' and '-', and reads back. */
  lemma PortText(p: int)
    requires 1 <= p <= MaxPort
    ensures var a := IntToString(p);
      a != "" && IsDigit(a[0]) && IsDigit(a[|a| - 1]) && TrimSpace(a) == a &&
      ',' !in a && '-' !in a && Atoi(a) == Some(p)
  {
    var a := IntToString(p);
    AtoiIntToString(p);
    DigitsHoldNo(a, ',');
    DigitsHoldNo(a, '-');
    assert IsDigit(a[0]) && IsDigit(a[|a| - 1]);
    assert Trimmed(a);
  }

  /** The text of a valid range parses back to that range. */
  lemma TokenRoundTrip(r: PortRange)
    requires ValidRange(r)
    ensures TrimSpace(RangeText(r)) != ""
    ensures ',' !in RangeText(r)
    ensures ParseToken(RangeText(r)) == Range(r)
  {
    PortText(r.start);
    PortText(r.end);
    if r.start != r.end {
      DashPair(IntToString(r.start), IntToString(r.end));
    }
  }

  /** Two port texts joined by '-' form a trimmed token that splits back into the two. */
  lemma DashPair(a: string, b: string)
    requires a != "" && IsDigit(a[0]) && ',' !in a && '-' !in a
    requires b != "" && IsDigit(b[|b| - 1]) && ',' !in b && '-' !in b
    ensures var t := a + "-" + b;
      TrimSpace(t) == t && '-' in t && ',' !in t && Split(t, '-') == [a, b]
  {
    var t := a + "-" + b;
    assert t[0] == a[0] && t[|t| - 1] == b[|b| - 1];
    assert Trimmed(t);
    assert t[|a|] == '-';
    SplitCons(a, '-', b);
    SplitNoSep(b, '-');
    assert a + "-" + b == a + ['-'] + b;
  }

  lemma TextToken(ranges: seq<PortRange>, k: nat)
    requires k < |ranges| && AllValid(ranges)
    ensures Tokens(RangeTexts(ranges))[k] == Range(ranges[k])
  {
    TokenRoundTrip(ranges[k]);
  }

  lemma {:induction false} CollectRanges(tokens: seq<TokenResult>, ranges: seq<PortRange>)
    requires |tokens| == |ranges|
    requires forall k :: 0 <= k < |tokens| ==> tokens[k] == Range(ranges[k])
    ensures Collect(tokens) == Success(ranges)
    decreases |tokens|
  {
    if |tokens| > 0 {
      var n := |tokens|;
      CollectRanges(tokens[..n - 1], ranges[..n - 1]);
      assert ranges == ranges[..n - 1] + [ranges[n - 1]];
    }
  }

  lemma JoinStartsWith(parts: seq<string>, sep: char)
    requires |parts| >= 1
    ensures |Join(parts, sep)| >= |parts[0]|
  {
  }

  /** Formatting a non-empty list of valid ranges and parsing the text gives the list back. */
  lemma FormatParseRoundTrip(ranges: seq<PortRange>)
    requires |ranges| > 0 && AllValid(ranges)
    ensures Parse(Join(RangeTexts(ranges), ',')) == Success(ranges)
  {
    var texts := RangeTexts(ranges);
    forall k | 0 <= k < |texts| ensures ',' !in texts[k] {
      TokenRoundTrip(ranges[k]);
    }
    SplitJoin(texts, ',');
    TokenRoundTrip(ranges[0]);
    JoinStartsWith(texts, ',');
    forall k | 0 <= k < |ranges| ensures Tokens(texts)[k] == Range(ranges[k]) {
      TextToken(ranges, k);
    }
    CollectRanges(Tokens(texts), ranges);
    assert ranges[..|ranges|] == ranges;
  }

  /** `ConvertLegacyPortRange`: the old (PortSta, PortEnd) pair as range text; (0, 0)
      means "no range". */
  function ConvertLegacyPortRange(portSta: int, portEnd: int): (s: string)
    ensures s == "" <==> portSta == 0 && portEnd == 0
  {
    if portSta == 0 && portEnd == 0 then ""
    else if portSta == portEnd then IntToString(portSta)
    else IntToString(portSta) + "-" + IntToString(portEnd)
  }

  /** The legacy conversion writes what `FormatPortRanges` writes for the one range, so a
      valid legacy pair parses to that range; the (0, 0) pair is rejected as empty. */
  lemma LegacyRoundTrip(portSta: int, portEnd: int)
    ensures !(portSta == 0 && portEnd == 0) ==>
      ConvertLegacyPortRange(portSta, portEnd) == Join(RangeTexts([PortRange(portSta, portEnd)]), ',')
    ensures ValidRange(PortRange(portSta, portEnd)) ==>
      Parse(ConvertLegacyPortRange(portSta, portEnd)) == Success([PortRange(portSta, portEnd)])
    ensures portSta == 0 && portEnd == 0 ==> Parse(ConvertLegacyPortRange(portSta, portEnd)) == Failure(Empty)
  {
    if ValidRange(PortRange(portSta, portEnd)) {
      FormatParseRoundTrip([PortRange(portSta, portEnd)]);
    }
  }
}

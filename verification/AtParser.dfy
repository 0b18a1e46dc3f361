/**
 * Reading a modem's answer: bytes arrive in USB batches, complete lines are classified, and a batch is summed up by its
 * worst line. Bytes are characters below 256.
 */
module AtParser {

  datatype Policy = Standard | CallStart | CallEnd | DataConnect

  datatype Result = Pending | OK | Connect | Error | Overflow

  const LINE_SIZE := 1024

  // ---------------------------------------------------------------- one line

  predicate IsTerminator(c: char) {
    c == '\r' || c == '\n'
  }

  /** isspace in the C locale. */
  predicate IsSpace(c: char) {
    c == ' ' || '\t' <= c <= '\r'
  }

  function SkipSpaces(s: string): string {
    if s != "" && IsSpace(s[0]) then SkipSpaces(s[1..]) else s
  }

  function DropSpaces(s: string): string {
    if s != "" && IsSpace(s[|s| - 1]) then DropSpaces(s[..|s| - 1]) else s
  }

  /** What a C string shows of a buffer. */
  function UpToNul(s: string): string {
    if s == "" || s[0] == '\0' then "" else [s[0]] + UpToNul(s[1..])
  }

  function Text(line: string): string {
    UpToNul(DropSpaces(SkipSpaces(line)))
  }

  function Lower(c: char): char {
    if 'A' <= c <= 'Z' then (c as int + 32) as char else c
  }

  /** strcasecmp. */
  predicate Equals(line: string, value: string) {
    |line| == |value| && forall i | 0 <= i < |line| :: Lower(line[i]) == Lower(value[i])
  }

  /** The value, and then the end of the line, a space or a colon. */
  predicate HasPrefix(line: string, value: string) {
    && |line| >= |value| && Equals(line[..|value|], value)
    && (|line| == |value| || line[|value|] == ' ' || line[|value|] == ':')
  }

  predicate IsDisconnect(text: string) {
    Equals(text, "NO CARRIER") || Equals(text, "BUSY") || Equals(text, "NO ANSWER") || Equals(text, "NO DIALTONE")
  }

  predicate IsError(text: string) {
    Equals(text, "ERROR") || HasPrefix(text, "+CME ERROR") || HasPrefix(text, "+CMS ERROR")
  }

  /** finish_line, on the bytes of a line. */
  function Classify(line: string, policy: Policy): (r: Result)
    ensures !r.Overflow?
  {
    var text := Text(line);
    if text == "" then Pending
    else if Equals(text, "OK") then OK
    else if IsError(text) then Error
    else if HasPrefix(text, "CONNECT") then (if policy.DataConnect? then Connect else Pending)
    else if IsDisconnect(text) then (if policy.Standard? then Pending else if policy.CallEnd? then OK else Error)
    else Pending
  }

  // ---------------------------------------------------------------- a batch

  /** Reading bytes behind an unfinished line: the results of the lines they finish, and the line then unfinished. */
  datatype Scan = Scan(results: seq<Result>, line: string, overflow: bool)

  function ScanBytes(line: string, bytes: string, policy: Policy): Scan
    decreases |bytes|
  {
    if bytes == "" then Scan([], line, false)
    else if IsTerminator(bytes[0]) then
      var s := ScanBytes("", bytes[1..], policy);
      s.(results := [Classify(line, policy)] + s.results)
    else if |line| + 1 >= LINE_SIZE then Scan([], line, true)
    else ScanBytes(line + [bytes[0]], bytes[1..], policy)
  }

  /** The worst result of a batch. */
  function Worst(results: seq<Result>): Result {
    if Error in results then Error
    else if Connect in results then Connect
    else if OK in results then OK
    else Pending
  }

  lemma SkipOne(s: string, i: nat)
    requires i < |s| && IsSpace(s[i])
    ensures SkipSpaces(s[i..]) == SkipSpaces(s[i + 1..])
  {
    assert s[i..][1..] == s[i + 1..];
  }

  lemma SkipNone(s: string, i: nat)
    requires i <= |s| && (i < |s| ==> !IsSpace(s[i]))
    ensures SkipSpaces(s[i..]) == s[i..]
  {
  }

  lemma DropOne(s: string, i: nat, j: nat)
    requires i < j <= |s| && IsSpace(s[j - 1])
    ensures DropSpaces(s[i..j]) == DropSpaces(s[i..j - 1])
  {
    assert s[i..j][..j - i - 1] == s[i..j - 1];
  }

  lemma DropNone(s: string, i: nat, j: nat)
    requires i <= j <= |s| && (i < j ==> !IsSpace(s[j - 1]))
    ensures DropSpaces(s[i..j]) == s[i..j]
  {
  }

  /** The result of feeding a batch, and the provisional result it leaves. */
  function FeedResult(s: Scan, policy: Policy): Result {
    if s.overflow then Overflow
    else if Error in s.results then Error
    else if policy.Standard? then Worst(s.results)
    else Pending
  }

  function Provisional(provisional: Result, s: Scan, policy: Policy): Result {
    if !s.overflow && !policy.Standard? && (Worst(s.results).OK? || Worst(s.results).Connect?) then Worst(s.results) else provisional
  }

  class Parser {
    const policy: Policy
    var provisional: Result
    const line: array<char>
    var lineUsed: nat

    ghost predicate Valid()
      reads this
    {
      line.Length == LINE_SIZE && lineUsed < LINE_SIZE
    }

    function Unfinished(): string
      requires Valid()
      reads this, line
    {
      line[..lineUsed]
    }

    constructor (policy: Policy)
      ensures Valid() && fresh(line) && this.policy == policy && provisional.Pending? && Unfinished() == ""
    {
      this.policy, provisional, lineUsed := policy, Pending, 0;
      line := new char[LINE_SIZE](_ => '\0');
    }

    method FinishLine() returns (result: Result)
      requires Valid()
      modifies this`lineUsed, line
      ensures Valid() && Unfinished() == ""
      ensures result == Classify(old(Unfinished()), policy)
    {
      hide Equals, HasPrefix, IsDisconnect, UpToNul, SkipSpaces, DropSpaces, IsSpace;
      var start, end := 0, lineUsed;
      ghost var all := line[..lineUsed];
      while start < end && IsSpace(line[start])
        invariant start <= end == lineUsed < line.Length && all == line[..lineUsed]
        invariant SkipSpaces(all[start..]) == SkipSpaces(all)
      {
        SkipOne(all, start);
        start := start + 1;
      }
      SkipNone(all, start);
      assert all[start..end] == all[start..];
      while end > start && IsSpace(line[end - 1])
        invariant start <= end <= lineUsed < line.Length && all == line[..lineUsed]
        invariant DropSpaces(all[start..end]) == DropSpaces(all[start..])
      {
        DropOne(all, start, end);
        end := end - 1;
      }
      DropNone(all, start, end);
      line[end] := '\0';
      assert line[start..end] == all[start..end];
      var text := UpToNul(line[start..end]);
      assert text == Text(all);
      lineUsed := 0;
      if text == "" {
        return Pending;
      }
      if Equals(text, "OK") {
        return OK;
      }
      if Equals(text, "ERROR") || HasPrefix(text, "+CME ERROR") || HasPrefix(text, "+CMS ERROR") {
        return Error;
      }
      if HasPrefix(text, "CONNECT") {
        return if policy.DataConnect? then Connect else Pending;
      }
      if IsDisconnect(text) {
        return if policy.Standard? then Pending else if policy.CallEnd? then OK else Error;
      }
      result := Pending;
    }

    method Feed(data: string) returns (result: Result)
      requires Valid()
      modifies this, line
      ensures Valid()
      ensures var s := ScanBytes(old(Unfinished()), data, policy);
              && result == FeedResult(s, policy)
              && Unfinished() == s.line
              && provisional == Provisional(old(provisional), s, policy)
    {
      hide Classify;
      ghost var all := ScanBytes(Unfinished(), data, policy);
      ghost var results: seq<Result> := [];
      var aggregate := Pending;
      assert data[0..] == data;
      for i := 0 to |data|
        invariant Valid() && provisional == old(provisional)
        invariant var rest := ScanBytes(Unfinished(), data[i..], policy);
                  all == rest.(results := results + rest.results)
        invariant aggregate == Worst(results)
        invariant Overflow !in results
      {
        assert data[i..][1..] == data[i + 1..];
        var value := data[i];
        if IsTerminator(value) {
          var finished := FinishLine();
          WorstOfOneMore(results, finished);
          results := results + [finished];
          if finished.Error? {
            aggregate := Error;
          } else if !aggregate.Error? && finished.Connect? {
            aggregate := Connect;
          } else if aggregate.Pending? && finished.OK? {
            aggregate := OK;
          }
          continue;
        }
        if lineUsed + 1 >= LINE_SIZE {
          return Overflow;
        }
        ghost var before := Unfinished();
        line[lineUsed] := value;
        lineUsed := lineUsed + 1;
        line[lineUsed] := '\0';
        assert Unfinished() == before + [value];
      }
      assert data[|data|..] == "";
      assert results + [] == results;
      if aggregate.Error? {
        return aggregate;
      }
      if !policy.Standard? && (aggregate.OK? || aggregate.Connect?) {
        provisional := aggregate;
        return Pending;
      }
      result := aggregate;
    }
  }

  lemma WorstOfOneMore(results: seq<Result>, r: Result)
    ensures Worst(results + [r]) ==
            if r.Error? then Error
            else if !Worst(results).Error? && r.Connect? then Connect
            else if Worst(results).Pending? && r.OK? then OK
            else Worst(results)
  {
  }

  // ---------------------------------------------------------------- splitting a stream

  lemma {:induction false} ScanContinues(line: string, a: string, b: string, policy: Policy)
    ensures var s := ScanBytes(line, a, policy);
            var t := ScanBytes(s.line, b, policy);
            ScanBytes(line, a + b, policy) == if s.overflow then s else t.(results := s.results + t.results)
    decreases |a|
  {
    hide Classify;
    if a == "" {
      assert a + b == b;
    } else {
      assert (a + b)[1..] == a[1..] + b;
      if IsTerminator(a[0]) {
        ScanContinues("", a[1..], b, policy);
      } else if |line| + 1 < LINE_SIZE {
        ScanContinues(line + [a[0]], a[1..], b, policy);
      }
    }
  }

  // ---------------------------------------------------------------- the stream as a whole

  ghost predicate NoTerminator(bytes: string, i: nat, j: nat)
    requires i <= j <= |bytes|
  {
    forall k | i <= k < j :: !IsTerminator(bytes[k])
  }

  ghost predicate LineStart(bytes: string, i: nat)
    requires i <= |bytes|
  {
    i == 0 || IsTerminator(bytes[i - 1])
  }

  /** A complete line that the policy takes for a rejection. */
  ghost predicate RejectingLine(bytes: string, i: nat, j: nat, policy: Policy) {
    && i <= j < |bytes| && LineStart(bytes, i) && NoTerminator(bytes, i, j) && IsTerminator(bytes[j])
    && Classify(bytes[i..j], policy).Error?
  }

  /** More bytes without a line end than the line buffer holds. */
  ghost predicate OverlongLine(bytes: string, i: nat) {
    i + LINE_SIZE <= |bytes| && NoTerminator(bytes, i, i + LINE_SIZE)
  }

  predicate Rejected(s: Scan) {
    s.overflow || Error in s.results
  }

  lemma {:induction false} RejectedFrom(bytes: string, start: nat, p: nat, policy: Policy)
    requires start <= p <= |bytes| && p - start < LINE_SIZE && LineStart(bytes, start) && NoTerminator(bytes, start, p)
    ensures Rejected(ScanBytes(bytes[start..p], bytes[p..], policy)) <==>
            (exists i, j :: p <= j && RejectingLine(bytes, i, j, policy)) || (exists i :: start <= i && OverlongLine(bytes, i))
    decreases |bytes| - p
  {
    hide Classify;
    if p < |bytes| {
      assert bytes[p..][1..] == bytes[p + 1..];
      assert bytes[start..p] + [bytes[p]] == bytes[start..p + 1];
      if IsTerminator(bytes[p]) {
        assert bytes[p + 1..p + 1] == "";
        RejectedFrom(bytes, p + 1, p + 1, policy);
        AtTheLineEnd(bytes, start, p, policy);
      } else if p - start + 1 >= LINE_SIZE {
        assert OverlongLine(bytes, start);
      } else {
        RejectedFrom(bytes, start, p + 1, policy);
        assert forall i, j | p <= j && RejectingLine(bytes, i, j, policy) :: p + 1 <= j;
      }
    }
  }

  lemma AtTheLineEnd(bytes: string, start: nat, p: nat, policy: Policy)
    requires start <= p < |bytes| && LineStart(bytes, start) && NoTerminator(bytes, start, p) && IsTerminator(bytes[p])
    ensures forall i | RejectingLine(bytes, i, p, policy) :: i == start
    ensures RejectingLine(bytes, start, p, policy) <==> Classify(bytes[start..p], policy).Error?
    ensures p - start < LINE_SIZE ==> forall i | start <= i && OverlongLine(bytes, i) :: p + 1 <= i
  {
    hide Classify;
  }

  /** The parser's own bookkeeping rejects exactly the streams with a rejecting or an overlong line. */
  lemma RejectedIff(bytes: string, policy: Policy)
    ensures Rejected(ScanBytes("", bytes, policy)) <==>
            (exists i, j :: RejectingLine(bytes, i, j, policy)) || (exists i :: OverlongLine(bytes, i))
  {
    hide Classify;
    assert bytes[0..0] == "" && bytes[0..] == bytes;
    RejectedFrom(bytes, 0, 0, policy);
    if i, j :| RejectingLine(bytes, i, j, policy) {
      assert 0 <= j && RejectingLine(bytes, i, j, policy);
    }
  }

  // ---------------------------------------------------------------- a command's answer

  datatype Answer = Done(connected: bool) | Failed

  function Conclusion(provisional: Result): Answer {
    match provisional
    case OK => Done(false)
    case Connect => Done(true)
    case Pending => Failed
    case Error => Failed
    case Overflow => Failed
  }

  function Concat(batches: seq<string>): string {
    if batches == [] then "" else batches[0] + Concat(batches[1..])
  }

  /**
   * The batches that arrive before the deadlines, into a response buffer with some room left; broken says that the
   * transfer after them fails.
   */
  function Answered(line: string, provisional: Result, batches: seq<string>, broken: bool, policy: Policy, room: int): Answer
    decreases |batches|
  {
    if batches == [] then (if broken then Failed else Conclusion(provisional))
    else if |batches[0]| > room then Failed
    else
      var s := ScanBytes(line, batches[0], policy);
      match FeedResult(s, policy)
      case OK => Done(false)
      case Connect => Done(true)
      case Error => Failed
      case Overflow => Failed
      case Pending => Answered(s.line, Provisional(provisional, s, policy), batches[1..], broken, policy, room - |batches[0]|)
  }

  /** The loop of at_command over what libusb delivers. */
  method AtCommand(batches: seq<string>, broken: bool, policy: Policy, responseSize: nat) returns (answer: Answer)
    requires responseSize >= 2
    ensures answer == Answered("", Pending, batches, broken, policy, responseSize - 1)
  {
    hide ScanBytes;
    var parser := new Parser(policy);
    var used := 0;
    assert batches[0..] == batches;
    for i := 0 to |batches|
      invariant parser.Valid() && fresh(parser) && fresh(parser.line) && parser.policy == policy
      invariant Answered("", Pending, batches, broken, policy, responseSize - 1) ==
                Answered(parser.Unfinished(), parser.provisional, batches[i..], broken, policy, responseSize - used - 1)
    {
      assert batches[i..][0] == batches[i] && batches[i..][1..] == batches[i + 1..];
      if |batches[i]| > responseSize - used - 1 {
        return Failed;
      }
      used := used + |batches[i]|;
      var result := parser.Feed(batches[i]);
      if result.OK? {
        return Done(false);
      }
      if result.Connect? {
        return Done(true);
      }
      if result.Error? || result.Overflow? {
        return Failed;
      }
    }
    answer := if broken then Failed else Conclusion(parser.provisional);
  }

  predicate Succeeds(results: seq<Result>) {
    OK in results || Connect in results
  }

  lemma {:induction false} SplitDoesNotMatterFrom(line: string, provisional: Result, batches: seq<string>, broken: bool, policy: Policy, room: int)
    requires !policy.Standard? && !provisional.Error? && !provisional.Overflow? && room >= 0
    ensures var s := ScanBytes(line, Concat(batches), policy);
            Answered(line, provisional, batches, broken, policy, room).Done? <==>
              !broken && |Concat(batches)| <= room && !Rejected(s) && (!provisional.Pending? || Succeeds(s.results))
    decreases |batches|
  {
    hide ScanBytes;
    if batches == [] {
      assert ScanBytes(line, "", policy) == Scan([], line, false) by {
        ScanNothing(line, policy);
      }
    } else if |batches[0]| <= room {
      var s := ScanBytes(line, batches[0], policy);
      ScanContinues(line, batches[0], Concat(batches[1..]), policy);
      if FeedResult(s, policy).Pending? {
        SplitDoesNotMatterFrom(s.line, Provisional(provisional, s, policy), batches[1..], broken, policy, room - |batches[0]|);
        var t := ScanBytes(s.line, Concat(batches[1..]), policy);
        assert forall r :: r in s.results + t.results <==> r in s.results || r in t.results;
      }
    }
  }

  lemma ScanNothing(line: string, policy: Policy)
    ensures ScanBytes(line, "", policy) == Scan([], line, false)
  {
  }

  /**
   * For calls and data, whether a command fails depends only on the bytes of the answer: it succeeds exactly if no
   * transfer fails, the answer fits, no line rejects or is overlong, and some line promises success.
   */
  lemma FailureDependsOnlyOnTheBytes(batches: seq<string>, broken: bool, policy: Policy, responseSize: nat)
    requires !policy.Standard? && responseSize >= 2
    ensures var bytes := Concat(batches);
            Answered("", Pending, batches, broken, policy, responseSize - 1).Done? <==>
              && !broken && |bytes| < responseSize
              && !(exists i, j :: RejectingLine(bytes, i, j, policy)) && !(exists i :: OverlongLine(bytes, i))
              && Succeeds(ScanBytes("", bytes, policy).results)
  {
    hide ScanBytes, RejectingLine, OverlongLine;
    SplitDoesNotMatterFrom("", Pending, batches, broken, policy, responseSize - 1);
    RejectedIff(Concat(batches), policy);
  }

  /** For these policies feeding a batch never reports success; it can only make it provisional. */
  lemma SuccessIsProvisional(s: Scan, policy: Policy)
    requires !policy.Standard?
    ensures !FeedResult(s, policy).OK? && !FeedResult(s, policy).Connect?
    ensures FeedResult(s, policy).Pending? <==> !Rejected(s)
  {
  }

  // ---------------------------------------------------------------- where the split does matter

  /** A stream can be cut right behind any of its lines. */
  lemma {:induction false} CutBehind(line: string, bytes: string, policy: Policy, k: nat) returns (n: nat)
    requires k <= |ScanBytes(line, bytes, policy).results|
    ensures n <= |bytes|
    ensures var s := ScanBytes(line, bytes[..n], policy); !s.overflow && s.results == ScanBytes(line, bytes, policy).results[..k]
    decreases |bytes|
  {
    hide Classify;
    if k == 0 {
      n := 0;
    } else if IsTerminator(bytes[0]) {
      var m := CutBehind("", bytes[1..], policy, k - 1);
      n := m + 1;
      assert bytes[..n][1..] == bytes[1..][..m];
    } else {
      var m := CutBehind(line + [bytes[0]], bytes[1..], policy, k);
      n := m + 1;
      assert bytes[..n][1..] == bytes[1..][..m];
    }
  }

  /** The answer to a command when the whole stream arrives at once, and when it arrives in two batches. */
  lemma AtOnce(bytes: string, policy: Policy, room: nat)
    requires |bytes| <= room
    ensures var s := ScanBytes("", bytes, policy);
            Answered("", Pending, [bytes], false, policy, room) ==
            if Rejected(s) then Failed else Conclusion(Worst(s.results))
  {
    hide ScanBytes;
    var s := ScanBytes("", bytes, policy);
    var answer := Answered(s.line, Provisional(Pending, s, policy), [bytes][1..], false, policy, room - |bytes|);
    assert answer == Conclusion(Provisional(Pending, s, policy));
  }

  ghost predicate DependsOnTheSplit(bytes: string, policy: Policy, room: nat) {
    exists batches :: Concat(batches) == bytes && Answered("", Pending, batches, false, policy, room) != Answered("", Pending, [bytes], false, policy, room)
  }

  lemma TwoBatches(bytes: string, n: nat)
    requires n <= |bytes|
    ensures Concat([bytes[..n], bytes[n..]]) == bytes
  {
    var batches := [bytes[..n], bytes[n..]];
    assert batches[1..] == [bytes[n..]] && batches[1..][1..] == [];
    assert Concat(batches[1..]) == bytes[n..] + Concat([]);
  }

  /** The first line that decides an ordinary command is an OK. */
  predicate DecidedWell(results: seq<Result>) {
    results != [] && (results[0].OK? || (results[0].Pending? && DecidedWell(results[1..])))
  }

  lemma {:induction false} DecidedWellAppend(a: seq<Result>, b: seq<Result>)
    requires Error !in a && Connect !in a && Overflow !in a
    ensures DecidedWell(a + b) <==> OK in a || DecidedWell(b)
  {
    if a == [] {
      assert a + b == b;
    } else {
      assert (a + b)[1..] == a[1..] + b;
      assert a == [a[0]] + a[1..];
      DecidedWellAppend(a[1..], b);
    }
  }

  lemma {:induction false} ScanResults(line: string, bytes: string, policy: Policy)
    ensures Overflow !in ScanBytes(line, bytes, policy).results
    ensures policy.Standard? ==> Connect !in ScanBytes(line, bytes, policy).results
    decreases |bytes|
  {
    hide Text, Equals, HasPrefix;
    if bytes != "" {
      if IsTerminator(bytes[0]) {
        ScanResults("", bytes[1..], policy);
      } else {
        ScanResults(line + [bytes[0]], bytes[1..], policy);
      }
    }
  }

  lemma {:induction false} StandardFrom(line: string, batches: seq<string>, room: int)
    requires |Concat(batches)| <= room
    ensures var s := ScanBytes(line, Concat(batches), Standard);
            && (Rejected(s) && !DecidedWell(s.results) ==> Answered(line, Pending, batches, false, Standard, room) == Failed)
            && (!Rejected(s) ==> Answered(line, Pending, batches, false, Standard, room) == if DecidedWell(s.results) then Done(false) else Failed)
    decreases |batches|
  {
    hide ScanBytes;
    if batches == [] {
      ScanNothing(line, Standard);
    } else {
      var s := ScanBytes(line, batches[0], Standard);
      ScanResults(line, batches[0], Standard);
      ScanContinues(line, batches[0], Concat(batches[1..]), Standard);
      if !Rejected(s) {
        var t := ScanBytes(s.line, Concat(batches[1..]), Standard);
        DecidedWellAppend(s.results, t.results);
        StandardFrom(s.line, batches[1..], room - |batches[0]|);
      }
    }
  }

  lemma {:induction false} FirstDecision(results: seq<Result>) returns (k: nat)
    requires DecidedWell(results)
    ensures 0 < k <= |results| && results[k - 1].OK? && Error !in results[..k] && Connect !in results[..k]
  {
    if results[0].OK? {
      k := 1;
    } else {
      var m := FirstDecision(results[1..]);
      k := m + 1;
      assert results[..k] == [results[0]] + results[1..][..m];
    }
  }

  /** An ordinary command's answer depends on the split exactly if an OK comes first and a rejection or an overlong line follows. */
  lemma StandardDependsOnTheSplitIff(bytes: string, room: nat)
    requires |bytes| <= room
    ensures var s := ScanBytes("", bytes, Standard);
            DependsOnTheSplit(bytes, Standard, room) <==> DecidedWell(s.results) && Rejected(s)
  {
    hide ScanBytes, Classify;
    var s := ScanBytes("", bytes, Standard);
    AtOnce(bytes, Standard, room);
    ScanResults("", bytes, Standard);
    assert s.results + [] == s.results;
    if DecidedWell(s.results) && Rejected(s) {
      var k := FirstDecision(s.results);
      var n := CutBehind("", bytes, Standard, k);
      TwoBatches(bytes, n);
      var batches := [bytes[..n], bytes[n..]];
      assert OK in s.results[..k] by {
        assert s.results[..k][k - 1].OK?;
      }
      assert Answered("", Pending, batches, false, Standard, room) == Done(false);
      assert Concat(batches) == bytes;
    } else {
      forall batches | Concat(batches) == bytes
        ensures Answered("", Pending, batches, false, Standard, room) == Answered("", Pending, [bytes], false, Standard, room) {
        StandardFrom("", batches, room);
        assert [bytes] == [bytes] + [];
        StandardFrom("", [bytes], room) by {
          assert [bytes][1..] == [];
          assert Concat([bytes]) == bytes + Concat([]);
        }
        assert Concat([bytes]) == bytes by {
          assert [bytes][1..] == [];
        }
      }
    }
  }

  /** The last line that promises success. */
  function LastSuccess(results: seq<Result>): Result {
    if results == [] then Pending
    else
      var last := results[|results| - 1];
      if last.OK? || last.Connect? then last else LastSuccess(results[..|results| - 1])
  }

  lemma {:induction false} LastSuccessAppend(a: seq<Result>, b: seq<Result>)
    ensures LastSuccess(a + b) == if LastSuccess(b).Pending? then LastSuccess(a) else LastSuccess(b)
  {
    if b == [] {
      assert a + b == a;
    } else {
      assert (a + b)[..|a + b| - 1] == a + b[..|b| - 1];
      LastSuccessAppend(a, b[..|b| - 1]);
    }
  }

  lemma {:induction false} LastSuccessIn(results: seq<Result>)
    ensures LastSuccess(results).Pending? || LastSuccess(results) in results
    ensures LastSuccess(results).Pending? || LastSuccess(results).OK? || LastSuccess(results).Connect?
    ensures LastSuccess(results).Pending? <==> !Succeeds(results)
  {
    if results != [] {
      LastSuccessIn(results[..|results| - 1]);
      assert results == results[..|results| - 1] + [results[|results| - 1]];
    }
  }

  lemma {:induction false} KindFrom(line: string, provisional: Result, batches: seq<string>, policy: Policy, room: int)
    requires !policy.Standard? && |Concat(batches)| <= room && !Rejected(ScanBytes(line, Concat(batches), policy))
    ensures var results := ScanBytes(line, Concat(batches), policy).results;
            && (LastSuccess(results).Pending? ==> Answered(line, provisional, batches, false, policy, room) == Conclusion(provisional))
            && (LastSuccess(results).Connect? ==> Answered(line, provisional, batches, false, policy, room) == Done(true))
            && (LastSuccess(results).OK? && Connect !in results ==> Answered(line, provisional, batches, false, policy, room) == Done(false))
    decreases |batches|
  {
    hide ScanBytes;
    if batches == [] {
      ScanNothing(line, policy);
    } else {
      var s := ScanBytes(line, batches[0], policy);
      ScanContinues(line, batches[0], Concat(batches[1..]), policy);
      var t := ScanBytes(s.line, Concat(batches[1..]), policy);
      assert forall r :: r in s.results + t.results <==> r in s.results || r in t.results;
      LastSuccessAppend(s.results, t.results);
      LastSuccessIn(s.results);
      LastSuccessIn(t.results);
      KindFrom(s.line, Provisional(provisional, s, policy), batches[1..], policy, room - |batches[0]|);
    }
  }

  /** The position behind the last success. */
  lemma {:induction false} LastSuccessAt(results: seq<Result>) returns (k: nat)
    requires LastSuccess(results).OK?
    ensures 0 < k <= |results| && results[k - 1].OK? && LastSuccess(results[k..]).Pending? && !Succeeds(results[k..])
  {
    var n := |results| - 1;
    if results[n].OK? {
      k := |results|;
      assert results[k..] == [];
    } else {
      k := LastSuccessAt(results[..n]);
      assert results[..n][k..] == results[k..n];
      NoSuccessFollows(results, k);
    }
  }

  lemma NoSuccessFollows(results: seq<Result>, k: nat)
    requires k < |results| && LastSuccess(results[k..|results| - 1]).Pending?
    requires !results[|results| - 1].OK? && !results[|results| - 1].Connect?
    ensures LastSuccess(results[k..]).Pending? && !Succeeds(results[k..])
  {
    assert results[k..][..|results[k..]| - 1] == results[k..|results| - 1];
    LastSuccessIn(results[k..]);
  }

  /** A call or data answer that is not rejected: whether it says OK or CONNECT depends on the split exactly if a CONNECT is followed by a last OK. */
  lemma KindDependsOnTheSplitIff(bytes: string, policy: Policy, room: nat)
    requires !policy.Standard? && |bytes| <= room && !Rejected(ScanBytes("", bytes, policy))
    ensures var results := ScanBytes("", bytes, policy).results;
            DependsOnTheSplit(bytes, policy, room) <==> Connect in results && LastSuccess(results).OK?
  {
    hide ScanBytes, Classify;
    var s := ScanBytes("", bytes, policy);
    AtOnce(bytes, policy, room);
    LastSuccessIn(s.results);
    if Connect in s.results && LastSuccess(s.results).OK? {
      var k := LastSuccessAt(s.results);
      var n := CutBehind("", bytes, policy, k - 1);
      TwoBatches(bytes, n);
      var first := ScanBytes("", bytes[..n], policy);
      var second := ScanBytes(first.line, bytes[n..], policy);
      assert bytes[..n] + bytes[n..] == bytes;
      ScanContinues("", bytes[..n], bytes[n..], policy);
      LastOfTheRest(first.results, second.results, s.results, k);
      var batches := [bytes[..n], bytes[n..]];
      assert batches[1..] == [bytes[n..]] && batches[1..][1..] == [];
      var kept := Provisional(Pending, first, policy);
      assert Answered("", Pending, batches, false, policy, room) == Answered(first.line, kept, [bytes[n..]], false, policy, room - n);
      assert Answered(first.line, kept, [bytes[n..]], false, policy, room - n) ==
             Answered(second.line, Provisional(kept, second, policy), [bytes[n..]][1..], false, policy, room - |bytes|);
      assert Provisional(kept, second, policy).OK?;
      assert Concat(batches) == bytes;
    } else {
      assert [bytes][1..] == [];
      assert Concat([bytes]) == bytes + Concat([]) == bytes;
      KindFrom("", Pending, [bytes], policy, room);
      forall batches | Concat(batches) == bytes
        ensures Answered("", Pending, batches, false, policy, room) == Answered("", Pending, [bytes], false, policy, room) {
        KindFrom("", Pending, batches, policy, room);
      }
    }
  }

  lemma LastOfTheRest(first: seq<Result>, second: seq<Result>, all: seq<Result>, k: nat)
    requires 0 < k <= |all| && all == first + second && first == all[..k - 1]
    requires all[k - 1].OK? && !Succeeds(all[k..]) && Error !in all
    ensures Worst(second).OK? && Error !in first
  {
    assert second == all[k - 1..];
    assert second == [all[k - 1]] + all[k..];
    assert forall r :: r in first || r in second ==> r in all;
  }

  lemma {:induction false} OneLine(begun: string, line: string, rest: string, policy: Policy)
    requires |begun| + |line| < LINE_SIZE && forall i | 0 <= i < |line| :: !IsTerminator(line[i])
    ensures var s := ScanBytes("", rest, policy);
            ScanBytes(begun, line + "\r" + rest, policy) == s.(results := [Classify(begun + line, policy)] + s.results)
    decreases |line|
  {
    hide Classify;
    var bytes := line + "\r" + rest;
    if line == "" {
      assert bytes[0] == '\r' && bytes[1..] == rest && begun + line == begun;
    } else {
      assert bytes[0] == line[0] && bytes[1..] == line[1..] + "\r" + rest;
      assert begun + [line[0]] + line[1..] == begun + line;
      OneLine(begun + [line[0]], line[1..], rest, policy);
    }
  }

  lemma PlainText(line: string)
    requires line != "" && !IsSpace(line[0]) && !IsSpace(line[|line| - 1]) && forall i | 0 <= i < |line| :: line[i] != '\0'
    ensures Text(line) == line
  {
    assert SkipSpaces(line) == line && DropSpaces(line) == line;
    NoNul(line);
  }

  lemma {:induction false} NoNul(line: string)
    requires forall i | 0 <= i < |line| :: line[i] != '\0'
    ensures UpToNul(line) == line
  {
    if line != "" {
      NoNul(line[1..]);
    }
  }

  /** The case occurs: OK and ERROR in one batch fail an ordinary command, and in two batches they do not. */
  lemma OkThenErrorDependsOnTheSplit()
    ensures DependsOnTheSplit("OK\rERROR\r", Standard, 100)
  {
    hide ScanBytes, Text, DependsOnTheSplit;
    var bytes := "OK\rERROR\r";
    ScanNothing("", Standard);
    assert bytes == "OK" + "\r" + ("ERROR" + "\r" + "");
    OneLine("", "OK", "ERROR" + "\r" + "", Standard);
    OneLine("", "ERROR", "", Standard);
    PlainText("OK");
    PlainText("ERROR");
    assert "" + "OK" == "OK" && "" + "ERROR" == "ERROR";
    assert Equals("OK", "OK") && Equals("ERROR", "ERROR") && !Equals("ERROR", "OK");
    assert ScanBytes("", bytes, Standard).results == [OK, Error] + [];
    StandardDependsOnTheSplitIff(bytes, 100);
  }

  /** A modem that says CONNECT and then OK: read at once the answer is CONNECT, read in two batches it is OK. */
  lemma ConnectThenOkDependsOnTheSplit()
    ensures !Rejected(ScanBytes("", "CONNECT\rOK\r", DataConnect))
    ensures DependsOnTheSplit("CONNECT\rOK\r", DataConnect, 100)
  {
    hide ScanBytes, Text, DependsOnTheSplit;
    var bytes := "CONNECT\rOK\r";
    ScanNothing("", DataConnect);
    assert bytes == "CONNECT" + "\r" + ("OK" + "\r" + "");
    OneLine("", "CONNECT", "OK" + "\r" + "", DataConnect);
    OneLine("", "OK", "", DataConnect);
    PlainText("CONNECT");
    PlainText("OK");
    assert "" + "CONNECT" == "CONNECT" && "" + "OK" == "OK";
    ConnectIsConnect();
    assert Equals("OK", "OK");
    var results := ScanBytes("", bytes, DataConnect).results;
    assert results == [Connect, OK] + [];
    assert LastSuccess(results).OK?;
    KindDependsOnTheSplitIff(bytes, DataConnect, 100);
  }

  lemma ConnectIsConnect()
    ensures Classify("CONNECT", DataConnect) == Connect
  {
    PlainText("CONNECT");
    hide Text;
    assert "CONNECT"[..7] == "CONNECT";
    assert !Equals("CONNECT", "OK") && !Equals("CONNECT", "ERROR") && Equals("CONNECT", "CONNECT");
    assert |"+CME ERROR"| > 7 && |"+CMS ERROR"| > 7;
  }

  // ---------------------------------------------------------------- what a line means

  predicate HangsUp(text: string) {
    exists value :: value in {"NO CARRIER", "BUSY", "NO ANSWER", "NO DIALTONE"} && Equals(text, value)
  }

  predicate Reports(text: string) {
    Equals(text, "ERROR") || HasPrefix(text, "+CME ERROR") || HasPrefix(text, "+CMS ERROR")
  }

  /**
   * Which lines reject, and which promise success, under each policy: an error always rejects; the end of a call rejects
   * when a call or a data connection is to begin, and is a success when it is to end.
   */
  lemma LineMeans(line: string, policy: Policy)
    ensures var text, r := Text(line), Classify(line, policy);
            && (r.Error? <==> Reports(text) || (HangsUp(text) && (policy.CallStart? || policy.DataConnect?)))
            && (r.OK? <==> Equals(text, "OK") || (HangsUp(text) && policy.CallEnd?))
            && (r.Connect? <==> HasPrefix(text, "CONNECT") && policy.DataConnect?)
  {
    var text := Text(line);
    Distinguished(text);
    if HangsUp(text) {
      assert Equals(text, "NO CARRIER") || Equals(text, "BUSY") || Equals(text, "NO ANSWER") || Equals(text, "NO DIALTONE");
    }
    if IsDisconnect(text) {
      assert HangsUp(text);
    }
  }

  /** The texts the classification looks for exclude one another by their first two characters. */
  lemma Distinguished(text: string)
    ensures Equals(text, "OK") ==> |text| == 2 && Lower(text[0]) == 'o'
    ensures Reports(text) ==> |text| > 1 && (Lower(text[0]) == 'e' || text[0] == '+')
    ensures HasPrefix(text, "CONNECT") ==> |text| > 1 && Lower(text[0]) == 'c'
    ensures HangsUp(text) ==> |text| > 2 && (Lower(text[0]) == 'n' || Lower(text[0]) == 'b')
  {
    if HasPrefix(text, "CONNECT") {
      assert Lower(text[..7][0]) == 'c';
    }
    if HasPrefix(text, "+CME ERROR") {
      assert Lower(text[..10][0]) == '+';
    }
    if HasPrefix(text, "+CMS ERROR") {
      assert Lower(text[..10][0]) == '+';
    }
    if Equals(text, "ERROR") {
      assert Lower(text[0]) == 'e';
    }
    if Equals(text, "OK") {
      assert Lower(text[0]) == 'o';
    }
    if HangsUp(text) {
      var value :| value in {"NO CARRIER", "BUSY", "NO ANSWER", "NO DIALTONE"} && Equals(text, value);
      assert Lower(text[0]) == Lower(value[0]);
    }
  }

  /** Case is ignored for letters, and for letters only. */
  lemma CaseIsIgnored(c: char, d: char)
    requires c < '\U{0080}' && d < '\U{0080}'
    ensures Lower(c) == Lower(d) <==> c == d || Twins(c, d) || Twins(d, c)
  {
  }

  predicate Twins(upper: char, lower: char) {
    'A' <= upper <= 'Z' && 'a' <= lower <= 'z' && lower as int - 'a' as int == upper as int - 'A' as int
  }

  /** A word is followed by nothing, a space or a colon. */
  lemma WordsEnd(value: string, rest: string)
    ensures HasPrefix(value + rest, value) <==> rest == "" || rest[0] in " :"
  {
    assert (value + rest)[..|value|] == value;
    assert rest != "" ==> (value + rest)[|value|] == rest[0];
  }
}

/** CPU time from the aggregate `cpu` line of `/proc/stat`, e.g.
    `cpu  4705 356 584 3699 23 23 0 0 0 0`: the fields after the label are
    user, nice, system, idle, iowait, irq and softirq jiffies.  The file's
    lines are an input. */
module Cpu {
  import opened Wrappers
  import opened Text

  /** Jiffies spent working (user + nice + system) and in total. */
  datatype CpuUsage = CpuUsage(work: nat, total: nat)

  /** Why `get_cpu_usage` panics. */
  datatype CpuError =
    | EmptyLine              // a blank line: `parts[0]` is out of bounds
    | MissingField(index: nat)  // the `cpu` line has no field `index`
    | BadField(index: nat)      // field `index` is not a u64

  const CPU_LABEL := "cpu"

  /** Field `k` exists and is a u64 number. */
  predicate FieldParses(parts: seq<string>, k: nat)
  {
    k < |parts| && ParseUnsigned(parts[k], U64_MAX).Some?
  }

  /** Fields `lo` up to (not including) `hi` exist and are u64 numbers. */
  predicate ParsesAll(parts: seq<string>, lo: nat, hi: nat)
  {
    forall k :: lo <= k < hi ==> FieldParses(parts, k)
  }

  /** The value of a field known to parse. */
  function Time(parts: seq<string>, k: nat): nat
    requires FieldParses(parts, k)
  {
    ParseUnsigned(parts[k], U64_MAX).value
  }

  /** What a failed field read reports about `parts`. */
  predicate Fails(parts: seq<string>, e: CpuError)
  {
    match e
    case EmptyLine => parts == []
    case MissingField(k) => k >= |parts|
    case BadField(k) => k < |parts| && ParseUnsigned(parts[k], U64_MAX).None?
  }

  /** `parts[k].parse::<u64>()`, with the index panic of a short line. */
  function Field(parts: seq<string>, k: nat): (r: Result<nat, CpuError>)
    ensures r.Ok? <==> FieldParses(parts, k)
    ensures r.Ok? ==> r.value == Time(parts, k)
    ensures r.Err? ==> (r.error == MissingField(k) || r.error == BadField(k)) && Fails(parts, r.error)
  {
    if k >= |parts| then Err(MissingField(k))
    else match ParseUnsigned(parts[k], U64_MAX)
      case None => Err(BadField(k))
      case Some(v) => Ok(v)
  }

  /** Fields `lo` up to (not including) `hi`, each parsed in turn as the
      code does, stopping at the first that is missing or malformed. */
  function Times(parts: seq<string>, lo: nat, hi: nat): (r: Result<seq<nat>, CpuError>)
    requires lo <= hi
    ensures r.Ok? <==> ParsesAll(parts, lo, hi)
    ensures r.Ok? ==> |r.value| == hi - lo
    ensures r.Ok? ==> forall k :: lo <= k < hi ==> r.value[k - lo] == Time(parts, k)
    ensures r.Err? ==> !r.error.EmptyLine? && lo <= r.error.index < hi
                       && ParsesAll(parts, lo, r.error.index) && Fails(parts, r.error)
    decreases hi - lo
  {
    if lo == hi then Ok([])
    else
      var t :- Field(parts, lo);
      var ts :- Times(parts, lo + 1, hi);
      Ok([t] + ts)
  }

  /** The figures of a `cpu` line as the code reads them: fields 1 to 5 are
      parsed in turn, and the iowait field (index 5) is also taken as irq
      and as softirq. */
  function AsWrittenUsage(parts: seq<string>): (r: Result<CpuUsage, CpuError>)
    ensures r.Ok? <==> ParsesAll(parts, 1, 6)
    ensures r.Ok? ==> r.value.work == Time(parts, 1) + Time(parts, 2) + Time(parts, 3)
    ensures r.Ok? ==> r.value.total == r.value.work + Time(parts, 4) + 3 * Time(parts, 5)
    ensures r.Err? ==> !r.error.EmptyLine? && 1 <= r.error.index < 6
                       && ParsesAll(parts, 1, r.error.index) && Fails(parts, r.error)
  {
    var ts :- Times(parts, 1, 6);
    var user, nice, system, idle, iowait := ts[0], ts[1], ts[2], ts[3], ts[4];
    // irq and softirq parse field 5 again, which gives iowait's value
    var irq, softirq := iowait, iowait;
    var work := user + nice + system;
    Ok(CpuUsage(work, work + idle + iowait + irq + softirq))
  }

  /** The figures of a `cpu` line with each of the seven fields read once:
      the total is the sum of all seven and the work the sum of the first
      three.  Reads stop at the first field that is missing or malformed. */
  function UsageOf(parts: seq<string>): (r: Result<CpuUsage, CpuError>)
    ensures r.Ok? <==> ParsesAll(parts, 1, 8)
    ensures r.Ok? ==> r.value.work == Time(parts, 1) + Time(parts, 2) + Time(parts, 3)
    ensures r.Ok? ==> r.value.total == r.value.work + Time(parts, 4) + Time(parts, 5)
                                       + Time(parts, 6) + Time(parts, 7)
    ensures r.Err? ==> !r.error.EmptyLine? && 1 <= r.error.index < 8
                       && ParsesAll(parts, 1, r.error.index) && Fails(parts, r.error)
  {
    var ts :- Times(parts, 1, 8);
    var user, nice, system, idle, iowait, irq, softirq := ts[0], ts[1], ts[2], ts[3], ts[4], ts[5], ts[6];
    var work := user + nice + system;
    Ok(CpuUsage(work, work + idle + iowait + irq + softirq))
  }

  /** A line the scan passes over: it has a first field, and it is not `cpu`. */
  predicate Skipped(line: string)
  {
    var parts := SplitWhitespace(line);
    parts != [] && parts[0] != CPU_LABEL
  }

  /** What `get_cpu_usage` returns for the lines of `/proc/stat` when the
      `cpu` line is read by `read`: the first line labelled `cpu` is read, a
      blank line before it panics, and with no such line both figures are 0.
      The code as written is `ScanWith(lines, AsWrittenUsage)`; the corrected
      program is `ScanWith(lines, UsageOf)`. */
  function ScanWith(lines: seq<string>, read: seq<string> -> Result<CpuUsage, CpuError>): Result<CpuUsage, CpuError>
  {
    if lines == [] then Ok(CpuUsage(0, 0))
    else
      var parts := SplitWhitespace(lines[0]);
      if parts == [] then Err(EmptyLine)
      else if parts[0] == CPU_LABEL then read(parts)
      else ScanWith(lines[1..], read)
  }

  /** `get_cpu_usage` as written. */
  function AsWrittenScan(lines: seq<string>): Result<CpuUsage, CpuError>
  {
    ScanWith(lines, AsWrittenUsage)
  }

  /** `get_cpu_usage` with irq and softirq read from their own fields. */
  function CpuScan(lines: seq<string>): Result<CpuUsage, CpuError>
  {
    ScanWith(lines, UsageOf)
  }

  /** `get_cpu_usage`, with the reading of the `cpu` line as a parameter:
      `AsWrittenUsage` for the code as written, `UsageOf` for the corrected
      program. */
  method GetCpuUsage(lines: seq<string>, read: seq<string> -> Result<CpuUsage, CpuError>)
    returns (r: Result<CpuUsage, CpuError>)
    ensures r == ScanWith(lines, read)
  {
    for i := 0 to |lines|
      invariant ScanWith(lines[i..], read) == ScanWith(lines, read)
    {
      assert lines[i..][0] == lines[i] && lines[i..][1..] == lines[i + 1..];
      var parts := SplitWhitespace(lines[i]);
      if parts == [] {
        return Err(EmptyLine);
      }
      if parts[0] == CPU_LABEL {
        return read(parts);
      }
    }
    return Ok(CpuUsage(0, 0));
  }

  /** Lines the scan passes over do not matter. */
  lemma {:induction false} ScanSkips(pre: seq<string>, rest: seq<string>, read: seq<string> -> Result<CpuUsage, CpuError>)
    requires forall j :: 0 <= j < |pre| ==> Skipped(pre[j])
    ensures ScanWith(pre + rest, read) == ScanWith(rest, read)
  {
    if pre != [] {
      assert (pre + rest)[0] == pre[0];
      assert (pre + rest)[1..] == pre[1..] + rest;
      ScanSkips(pre[1..], rest, read);
    } else {
      assert pre + rest == rest;
    }
  }

  /** The first `cpu` line decides; later lines are never read.  This holds
      for the code as written and for the corrected program alike. */
  lemma FirstCpuLine(pre: seq<string>, line: string, post: seq<string>)
    requires forall j :: 0 <= j < |pre| ==> Skipped(pre[j])
    requires SplitWhitespace(line) != [] && SplitWhitespace(line)[0] == CPU_LABEL
    ensures AsWrittenScan(pre + [line] + post) == AsWrittenUsage(SplitWhitespace(line))
    ensures CpuScan(pre + [line] + post) == UsageOf(SplitWhitespace(line))
  {
    assert pre + [line] + post == pre + ([line] + post);
    ScanSkips(pre, [line] + post, AsWrittenUsage);
    ScanSkips(pre, [line] + post, UsageOf);
    assert ([line] + post)[0] == line;
  }

  /** Without a `cpu` line (and without blank lines) both figures are 0. */
  lemma NoCpuLine(lines: seq<string>)
    requires forall j :: 0 <= j < |lines| ==> Skipped(lines[j])
    ensures AsWrittenScan(lines) == Ok(CpuUsage(0, 0))
    ensures CpuScan(lines) == Ok(CpuUsage(0, 0))
  {
    ScanSkips(lines, [], AsWrittenUsage);
    ScanSkips(lines, [], UsageOf);
    assert lines + [] == lines;
  }

  /** A blank line before the first `cpu` line is fatal. */
  lemma BlankLineFirst(pre: seq<string>, line: string, post: seq<string>)
    requires forall j :: 0 <= j < |pre| ==> Skipped(pre[j])
    requires AllWhitespace(line)
    ensures AsWrittenScan(pre + [line] + post) == Err(EmptyLine)
    ensures CpuScan(pre + [line] + post) == Err(EmptyLine)
  {
    assert pre + [line] + post == pre + ([line] + post);
    ScanSkips(pre, [line] + post, AsWrittenUsage);
    ScanSkips(pre, [line] + post, UsageOf);
    assert ([line] + post)[0] == line;
    BlankSplitsToNothing(line);
  }

  lemma {:induction false} BlankSplitsToNothing(s: string)
    requires AllWhitespace(s)
    ensures SplitWhitespace(s) == []
    decreases |s|
  {
    if s != [] {
      assert IsWhitespace(s[0]);
      assert forall i :: 0 <= i < |s[1..]| ==> s[1..][i] == s[i + 1];
      BlankSplitsToNothing(s[1..]);
    }
  }

  /** A reading of the `cpu` line that never reports more work than total. */
  ghost predicate WorkBounded(read: seq<string> -> Result<CpuUsage, CpuError>)
  {
    forall parts :: read(parts).Ok? ==> read(parts).value.work <= read(parts).value.total
  }

  lemma {:induction false} ScanWorkWithinTotal(lines: seq<string>, read: seq<string> -> Result<CpuUsage, CpuError>)
    requires WorkBounded(read)
    ensures ScanWith(lines, read).Ok? ==> ScanWith(lines, read).value.work <= ScanWith(lines, read).value.total
  {
    if lines != [] {
      var parts := SplitWhitespace(lines[0]);
      if parts != [] && parts[0] != CPU_LABEL {
        ScanWorkWithinTotal(lines[1..], read);
      }
    }
  }

  /** Every successful scan reports no more work than total time, as
      written and corrected. */
  lemma WorkWithinTotal(lines: seq<string>)
    ensures AsWrittenScan(lines).Ok? ==> AsWrittenScan(lines).value.work <= AsWrittenScan(lines).value.total
    ensures CpuScan(lines).Ok? ==> CpuScan(lines).value.work <= CpuScan(lines).value.total
  {
    ScanWorkWithinTotal(lines, AsWrittenUsage);
    ScanWorkWithinTotal(lines, UsageOf);
  }

  /** Decimal renderings of numbers. */
  function Decimals(xs: seq<nat>): (ts: seq<string>)
    ensures |ts| == |xs|
    ensures forall k :: 0 <= k < |xs| ==> ts[k] == NatToDecimal(xs[k])
  {
    if xs == [] then [] else [NatToDecimal(xs[0])] + Decimals(xs[1..])
  }

  /** The fields of a line that splits into the label, the seven times
      in decimal, then anything else. */
  lemma DecimalFields(xs: seq<nat>, more: seq<string>)
    requires |xs| == 7
    requires forall k :: 0 <= k < 7 ==> xs[k] <= U64_MAX
    requires forall k :: 0 <= k < |more| ==> more[k] != [] && NoWhitespace(more[k])
    ensures var parts := SplitWhitespace(JoinSpaces([CPU_LABEL] + Decimals(xs) + more));
            |parts| >= 8 && parts[0] == CPU_LABEL
            && forall k :: 1 <= k < 8 ==> ParseUnsigned(parts[k], U64_MAX) == Some(xs[k - 1])
  {
    var ts := [CPU_LABEL] + Decimals(xs) + more;
    forall k | 0 <= k < |ts| ensures ts[k] != [] && NoWhitespace(ts[k]) {
      if k == 0 {
        assert ts[k] == CPU_LABEL;
      } else if k < 8 {
        assert ts[k] == NatToDecimal(xs[k - 1]);
      } else {
        assert ts[k] == more[k - 8];
      }
    }
    SplitJoin(ts);
    forall k | 1 <= k < 8 ensures ParseUnsigned(ts[k], U64_MAX) == Some(xs[k - 1]) {
      assert ts[k] == NatToDecimal(xs[k - 1]);
      ParseDecimal(xs[k - 1], U64_MAX);
    }
  }

  /** Seven fields that parse to `xs`. */
  predicate HasTimes(parts: seq<string>, xs: seq<nat>)
  {
    |xs| == 7 && |parts| >= 8
    && forall k :: 1 <= k < 8 ==> ParseUnsigned(parts[k], U64_MAX) == Some(xs[k - 1])
  }

  lemma UsageOfTimes(parts: seq<string>, xs: seq<nat>)
    requires HasTimes(parts, xs)
    ensures UsageOf(parts) == Ok(CpuUsage(xs[0] + xs[1] + xs[2], xs[0] + xs[1] + xs[2] + xs[3] + xs[4] + xs[5] + xs[6]))
    ensures AsWrittenUsage(parts) == Ok(CpuUsage(xs[0] + xs[1] + xs[2], xs[0] + xs[1] + xs[2] + xs[3] + 3 * xs[4]))
  {
    assert ParsesAll(parts, 1, 8);
    assert Time(parts, 1) == xs[0] && Time(parts, 2) == xs[1] && Time(parts, 3) == xs[2];
    assert Time(parts, 4) == xs[3] && Time(parts, 5) == xs[4] && Time(parts, 6) == xs[5];
    assert Time(parts, 7) == xs[6];
  }

  /** A `cpu` line written as the kernel writes it (the label, the seven
      times in decimal, any further fields, single spaces between) gives
      the work as the sum of the first three times and the total as the sum
      of all seven; the code as written counts iowait three times and irq
      and softirq not at all. */
  lemma CpuLineRoundTrip(xs: seq<nat>, more: seq<string>)
    requires |xs| == 7
    requires forall k :: 0 <= k < 7 ==> xs[k] <= U64_MAX
    requires forall k :: 0 <= k < |more| ==> more[k] != [] && NoWhitespace(more[k])
    ensures var parts := SplitWhitespace(JoinSpaces([CPU_LABEL] + Decimals(xs) + more));
            UsageOf(parts) == Ok(CpuUsage(xs[0] + xs[1] + xs[2], xs[0] + xs[1] + xs[2] + xs[3] + xs[4] + xs[5] + xs[6]))
            && AsWrittenUsage(parts) == Ok(CpuUsage(xs[0] + xs[1] + xs[2], xs[0] + xs[1] + xs[2] + xs[3] + 3 * xs[4]))
  {
    var parts := SplitWhitespace(JoinSpaces([CPU_LABEL] + Decimals(xs) + more));
    DecimalFields(xs, more);
    assert HasTimes(parts, xs);
    UsageOfTimes(parts, xs);
  }

  /** One jiffy of iowait and none of irq or softirq (the fields of the line
      `cpu 0 0 0 0 1 0 0`): the code reports a total of 3 where the line
      says 1. */
  lemma IrqReadsIowait()
    ensures AsWrittenUsage([CPU_LABEL, "0", "0", "0", "0", "1", "0", "0"]) == Ok(CpuUsage(0, 3))
    ensures UsageOf([CPU_LABEL, "0", "0", "0", "0", "1", "0", "0"]) == Ok(CpuUsage(0, 1))
  {
    var parts := [CPU_LABEL, "0", "0", "0", "0", "1", "0", "0"];
    var xs: seq<nat> := [0, 0, 0, 0, 1, 0, 0];
    assert ParseUnsigned("0", U64_MAX) == Some(0) by {
      assert "0"[..0] == [];
    }
    assert ParseUnsigned("1", U64_MAX) == Some(1) by {
      assert "1"[..0] == [];
    }
    assert HasTimes(parts, xs);
    UsageOfTimes(parts, xs);
  }

  /** A `cpu` line with only five times: the code as written reads it, the
      corrected program finds field 6 missing. */
  lemma FiveTimes(parts: seq<string>, xs: seq<nat>)
    requires |parts| == 6 && |xs| == 5
    requires forall k :: 1 <= k < 6 ==> ParseUnsigned(parts[k], U64_MAX) == Some(xs[k - 1])
    ensures AsWrittenUsage(parts) == Ok(CpuUsage(xs[0] + xs[1] + xs[2], xs[0] + xs[1] + xs[2] + xs[3] + 3 * xs[4]))
    ensures UsageOf(parts) == Err(MissingField(6))
  {
    assert ParsesAll(parts, 1, 6);
    assert Time(parts, 1) == xs[0] && Time(parts, 2) == xs[1] && Time(parts, 3) == xs[2];
    assert Time(parts, 4) == xs[3] && Time(parts, 5) == xs[4];
    assert !FieldParses(parts, 6);
  }

  /** The fields of `cpu 1 2 3 4 5`: the code as written gives work 6 and
      total 25, the corrected program finds field 6 missing. */
  lemma ShortCpuFields()
    ensures AsWrittenUsage([CPU_LABEL, "1", "2", "3", "4", "5"]) == Ok(CpuUsage(6, 25))
    ensures UsageOf([CPU_LABEL, "1", "2", "3", "4", "5"]) == Err(MissingField(6))
  {
    var parts := [CPU_LABEL, "1", "2", "3", "4", "5"];
    var xs: seq<nat> := [1, 2, 3, 4, 5];
    forall k | 1 <= k < 6 ensures ParseUnsigned(parts[k], U64_MAX) == Some(xs[k - 1]) {
      SmallDecimal(xs[k - 1]);
    }
    FiveTimes(parts, xs);
  }

  /** A single digit parses to its value. */
  lemma SmallDecimal(d: nat)
    requires d < 10
    ensures ParseUnsigned([DigitChar(d)], U64_MAX) == Some(d)
  {
    assert [DigitChar(d)] == NatToDecimal(d);
    ParseDecimal(d, U64_MAX);
  }

  /** A `/proc/stat` whose one line has the fields `cpu 1 2 3 4 5`: the code
      as written accepts it with work 6 and total 25, while the corrected
      program panics on the missing sixth field. */
  lemma ShortCpuLineAccepted(line: string)
    requires SplitWhitespace(line) == [CPU_LABEL, "1", "2", "3", "4", "5"]
    ensures AsWrittenScan([line]) == Ok(CpuUsage(6, 25))
    ensures CpuScan([line]) == Err(MissingField(6))
  {
    FirstCpuLine([], line, []);
    assert [] + [line] + [] == [line];
    ShortCpuFields();
  }

  /** The text `cpu 1 2 3 4 5` splits into those fields. */
  lemma ShortCpuLineFields()
    ensures SplitWhitespace(JoinSpaces([CPU_LABEL, "1", "2", "3", "4", "5"])) == [CPU_LABEL, "1", "2", "3", "4", "5"]
  {
    var ts := [CPU_LABEL, "1", "2", "3", "4", "5"];
    assert forall k :: 0 <= k < |ts| ==> ts[k] != [] && NoWhitespace(ts[k]);
    SplitJoin(ts);
  }

  /** A `/proc/stat` whose one line has the fields `cpu 0 0 0 0 1 0 0`: the
      code as written returns a total of 3, the corrected program 1. */
  lemma IrqReadsIowaitScan(line: string)
    requires SplitWhitespace(line) == [CPU_LABEL, "0", "0", "0", "0", "1", "0", "0"]
    ensures AsWrittenScan([line]) == Ok(CpuUsage(0, 3))
    ensures CpuScan([line]) == Ok(CpuUsage(0, 1))
  {
    FirstCpuLine([], line, []);
    assert [] + [line] + [] == [line];
    IrqReadsIowait();
  }
}

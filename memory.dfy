/** RAM and swap figures from the lines of `/proc/meminfo`, e.g.
    `MemTotal:       16314752 kB`.  The file's lines are an input. */
module Memory {
  import opened Wrappers
  import opened Text

  /** Both figures in kB, as `u64`. */
  datatype MemInfo = MemInfo(total: nat, avail: nat)

  /** Why `extract_number` panics. */
  datatype MemError =
    | NoColon          // no ':' in the line
    | NoKb             // no "kB" in the line
    | SliceOutOfOrder  // the last "kB" comes before the first ':'
    | BadNumber        // the trimmed text between them is not a u64

  /** `extract_number`: the unsigned number between the first `:` and the
      last `kB`, surrounding whitespace trimmed. */
  function ExtractNumber(line: string): (r: Result<nat, MemError>)
    ensures r.Ok? ==> r.value <= U64_MAX
    ensures r.Ok? ==> Find(line, ":").Some? && RFind(line, "kB").Some?
    ensures Find(line, ":").None? ==> r == Err(NoColon)
  {
    match Find(line, ":")
    case None => Err(NoColon)
    case Some(colon) =>
      var valueStart := colon + 1;
      match RFind(line, "kB")
      case None => Err(NoKb)
      case Some(valueEnd) =>
        if valueEnd < valueStart then Err(SliceOutOfOrder)
        else match ParseUnsigned(Trim(line[valueStart..valueEnd]), U64_MAX)
          case None => Err(BadNumber)
          case Some(n) => Ok(n)
  }

  /** A line with one ':' before `body` and "kB" after it gives the parse
      of the trimmed `body`. */
  lemma ExtractOfParts(head: string, body: string)
    requires ':' !in head
    ensures ExtractNumber(head + ":" + body + "kB") == (
              match ParseUnsigned(Trim(body), U64_MAX)
              case None => Err(BadNumber)
              case Some(n) => Ok(n))
  {
    var line := head + ":" + body + "kB";
    assert line == head + [':'] + (body + "kB");
    FindCharAfter(head, ':', body + "kB");
    RFindAtEnd(head + ":" + body, "kB");
    assert line[|head| + 1..|line| - 2] == body;
  }

  lemma KbRegroup(title: string, pad: string, digits: string)
    ensures title + ":" + pad + digits + " kB" == title + ":" + (pad + digits + " ") + "kB"
  {
  }

  /** A line `<title>:<blanks><digits> kB` gives the parse of the digits. */
  lemma ExtractPadded(title: string, pad: string, digits: string)
    requires ':' !in title
    requires AllWhitespace(pad)
    requires digits != [] && NoWhitespace(digits)
    ensures ExtractNumber(title + ":" + pad + digits + " kB") == (
              match ParseUnsigned(digits, U64_MAX)
              case None => Err(BadNumber)
              case Some(n) => Ok(n))
  {
    KbRegroup(title, pad, digits);
    ExtractOfParts(title, pad + digits + " ");
    assert AllWhitespace(" ");
    TrimPadded(pad, digits, " ");
  }

  /** A line in the kernel's layout, `<title>:<blanks><number> kB`, gives its
      number back. */
  lemma ExtractNumberOfField(title: string, pad: string, n: nat)
    requires ':' !in title
    requires AllWhitespace(pad)
    requires n <= U64_MAX
    ensures StartsWith(title + ":" + pad + NatToDecimal(n) + " kB", title)
    ensures ExtractNumber(title + ":" + pad + NatToDecimal(n) + " kB") == Ok(n)
  {
    var line := title + ":" + pad + NatToDecimal(n) + " kB";
    assert line[..|title|] == title;
    ExtractPadded(title, pad, NatToDecimal(n));
    ParseDecimal(n, U64_MAX);
  }

  /** A line counts for the scan when it starts with either title. */
  predicate IsMatch(line: string, totalTitle: string, availTitle: string)
  {
    StartsWith(line, totalTitle) || StartsWith(line, availTitle)
  }

  function MatchCount(lines: seq<string>, totalTitle: string, availTitle: string): nat
  {
    if lines == [] then 0
    else (if IsMatch(lines[0], totalTitle, availTitle) then 1 else 0)
         + MatchCount(lines[1..], totalTitle, availTitle)
  }

  /** The field a matching line sets: the total test is made first. */
  function Record(line: string, totalTitle: string, info: MemInfo, n: nat): (r: MemInfo)
    ensures StartsWith(line, totalTitle) ==> r == info.(total := n)
    ensures !StartsWith(line, totalTitle) ==> r == info.(avail := n)
  {
    if StartsWith(line, totalTitle) then info.(total := n) else info.(avail := n)
  }

  /** The scan of `get_mem_usage` from a state with `count` matches so far. */
  function Scan(lines: seq<string>, totalTitle: string, availTitle: string, info: MemInfo, count: nat)
    : Result<MemInfo, MemError>
    requires count < 2
    decreases |lines|
  {
    if lines == [] then Ok(info)
    else if !IsMatch(lines[0], totalTitle, availTitle) then
      Scan(lines[1..], totalTitle, availTitle, info, count)
    else match ExtractNumber(lines[0])
      case Err(e) => Err(e)
      case Ok(n) =>
        var info' := Record(lines[0], totalTitle, info, n);
        if count == 1 then Ok(info') else Scan(lines[1..], totalTitle, availTitle, info', 1)
  }

  /** What `get_mem_usage` returns for the lines of `/proc/meminfo`. */
  function MemUsageOf(lines: seq<string>, totalTitle: string, availTitle: string): Result<MemInfo, MemError>
  {
    Scan(lines, totalTitle, availTitle, MemInfo(0, 0), 0)
  }

  /** `get_mem_usage`: the first test wins, and the loop breaks after the
      second matching line. */
  method GetMemUsage(lines: seq<string>, totalTitle: string, availTitle: string)
    returns (r: Result<MemInfo, MemError>)
    ensures r == MemUsageOf(lines, totalTitle, availTitle)
  {
    var count := 0;
    var info := MemInfo(0, 0);
    var i := 0;
    while i < |lines|
      invariant 0 <= i <= |lines| && count < 2
      invariant Scan(lines[i..], totalTitle, availTitle, info, count) == MemUsageOf(lines, totalTitle, availTitle)
    {
      var line := lines[i];
      assert lines[i..][0] == line && lines[i..][1..] == lines[i + 1..];
      if StartsWith(line, totalTitle) {
        var n := ExtractNumber(line);
        if n.Err? {
          return Err(n.error);
        }
        info := info.(total := n.value);
        count := count + 1;
        if count == 2 {
          assert Ok(info) == MemUsageOf(lines, totalTitle, availTitle);
          break;
        }
      } else if StartsWith(line, availTitle) {
        var n := ExtractNumber(line);
        if n.Err? {
          return Err(n.error);
        }
        info := info.(avail := n.value);
        count := count + 1;
        if count == 2 {
          assert Ok(info) == MemUsageOf(lines, totalTitle, availTitle);
          break;
        }
      }
      i := i + 1;
    }
    return Ok(info);
  }

  /** Lines that match neither title are skipped. */
  lemma {:induction false} ScanSkips(skipped: seq<string>, rest: seq<string>, totalTitle: string,
                                     availTitle: string, info: MemInfo, count: nat)
    requires count < 2
    requires forall j :: 0 <= j < |skipped| ==> !IsMatch(skipped[j], totalTitle, availTitle)
    ensures Scan(skipped + rest, totalTitle, availTitle, info, count)
            == Scan(rest, totalTitle, availTitle, info, count)
  {
    if skipped != [] {
      assert (skipped + rest)[0] == skipped[0];
      assert (skipped + rest)[1..] == skipped[1..] + rest;
      ScanSkips(skipped[1..], rest, totalTitle, availTitle, info, count);
    } else {
      assert skipped + rest == rest;
    }
  }

  /** Once two lines have matched, nothing after them is read: later lines,
      even malformed ones, cannot change the result. */
  lemma {:induction false} ScanStopsAtSecondMatch(pre: seq<string>, rest: seq<string>, totalTitle: string,
                                                  availTitle: string, info: MemInfo, count: nat)
    requires count < 2
    requires count + MatchCount(pre, totalTitle, availTitle) >= 2
    ensures Scan(pre + rest, totalTitle, availTitle, info, count)
            == Scan(pre, totalTitle, availTitle, info, count)
  {
    assert pre != [];
    var line := pre[0];
    assert (pre + rest)[0] == line;
    assert (pre + rest)[1..] == pre[1..] + rest;
    if IsMatch(line, totalTitle, availTitle) {
      if count + 1 < 2 {
        var n := ExtractNumber(line);
        if n.Ok? {
          var info' := Record(line, totalTitle, info, n.value);
          ScanStopsAtSecondMatch(pre[1..], rest, totalTitle, availTitle, info', count + 1);
        }
      }
    } else {
      ScanStopsAtSecondMatch(pre[1..], rest, totalTitle, availTitle, info, count);
    }
  }

  lemma StopsAtSecondMatch(pre: seq<string>, rest: seq<string>, totalTitle: string, availTitle: string)
    requires MatchCount(pre, totalTitle, availTitle) >= 2
    ensures MemUsageOf(pre + rest, totalTitle, availTitle) == MemUsageOf(pre, totalTitle, availTitle)
  {
    ScanStopsAtSecondMatch(pre, rest, totalTitle, availTitle, MemInfo(0, 0), 0);
  }

  /** Two total lines end the scan: the second total is kept and the
      available figure stays 0, whatever comes later. */
  lemma TwoTotalLines(first: string, second: string, rest: seq<string>, totalTitle: string, availTitle: string)
    requires StartsWith(first, totalTitle) && StartsWith(second, totalTitle)
    requires ExtractNumber(first).Ok? && ExtractNumber(second).Ok?
    ensures MemUsageOf([first, second] + rest, totalTitle, availTitle)
            == Ok(MemInfo(ExtractNumber(second).value, 0))
  {
    var a := ExtractNumber(first).value;
    var b := ExtractNumber(second).value;
    var pre := [first, second];
    assert pre[0] == first && pre[1..] == [second];
    assert [second][0] == second && [second][1..] == [];
    assert MatchCount([second], totalTitle, availTitle) == 1;
    assert MatchCount(pre, totalTitle, availTitle) == 2;
    StopsAtSecondMatch(pre, rest, totalTitle, availTitle);
    assert Scan([second], totalTitle, availTitle, MemInfo(a, 0), 1) == Ok(MemInfo(b, 0));
    assert Scan(pre, totalTitle, availTitle, MemInfo(0, 0), 0) == Ok(MemInfo(b, 0));
  }

  /** A line that starts with both titles sets the total. */
  lemma TotalTestFirst(line: string, totalTitle: string, availTitle: string)
    requires StartsWith(line, totalTitle) && StartsWith(line, availTitle)
    requires ExtractNumber(line).Ok?
    ensures MemUsageOf([line], totalTitle, availTitle) == Ok(MemInfo(ExtractNumber(line).value, 0))
  {
    var n := ExtractNumber(line).value;
    assert [line][1..] == [];
    assert Scan([], totalTitle, availTitle, MemInfo(n, 0), 1) == Ok(MemInfo(n, 0));
    assert Scan([line], totalTitle, availTitle, MemInfo(0, 0), 0) == Ok(MemInfo(n, 0));
  }

  /** A figure whose title no line carries stays 0. */
  lemma {:induction false} ScanKeepsUnseen(lines: seq<string>, totalTitle: string, availTitle: string,
                                           info: MemInfo, count: nat)
    requires count < 2
    ensures var r := Scan(lines, totalTitle, availTitle, info, count);
            ((forall j :: 0 <= j < |lines| ==> !StartsWith(lines[j], totalTitle))
              ==> r.Ok? ==> r.value.total == info.total)
            && ((forall j :: 0 <= j < |lines| ==> StartsWith(lines[j], totalTitle) || !StartsWith(lines[j], availTitle))
              ==> r.Ok? ==> r.value.avail == info.avail)
  {
    if lines != [] {
      var line := lines[0];
      var n := ExtractNumber(line);
      assert forall j :: 0 <= j < |lines[1..]| ==> lines[1..][j] == lines[j + 1];
      if IsMatch(line, totalTitle, availTitle) && n.Ok? && count + 1 < 2 {
        var info' := Record(line, totalTitle, info, n.value);
        ScanKeepsUnseen(lines[1..], totalTitle, availTitle, info', count + 1);
      } else if !IsMatch(line, totalTitle, availTitle) {
        ScanKeepsUnseen(lines[1..], totalTitle, availTitle, info, count);
      }
    }
  }

  lemma UnseenTitleIsZero(lines: seq<string>, totalTitle: string, availTitle: string)
    ensures var r := MemUsageOf(lines, totalTitle, availTitle);
            ((forall j :: 0 <= j < |lines| ==> !StartsWith(lines[j], totalTitle))
              ==> r.Ok? ==> r.value.total == 0)
            && ((forall j :: 0 <= j < |lines| ==> StartsWith(lines[j], totalTitle) || !StartsWith(lines[j], availTitle))
              ==> r.Ok? ==> r.value.avail == 0)
  {
    ScanKeepsUnseen(lines, totalTitle, availTitle, MemInfo(0, 0), 0);
  }

  /** One matching line with a well-formed number: the first sets its field
      and the scan goes on, the second sets its field and ends the scan. */
  lemma ScanMatch(line: string, rest: seq<string>, totalTitle: string, availTitle: string,
                  info: MemInfo, count: nat)
    requires count < 2
    requires IsMatch(line, totalTitle, availTitle) && ExtractNumber(line).Ok?
    ensures var info' := Record(line, totalTitle, info, ExtractNumber(line).value);
            Scan([line] + rest, totalTitle, availTitle, info, count)
            == if count == 1 then Ok(info') else Scan(rest, totalTitle, availTitle, info', 1)
  {
    assert ([line] + rest)[0] == line && ([line] + rest)[1..] == rest;
  }

  lemma Regroup<T>(a: seq<T>, b: seq<T>, c: seq<T>, d: seq<T>, e: seq<T>)
    ensures a + b + c + d + e == a + (b + (c + (d + e)))
  {
  }

  /** With one total line and, later, one available line, both figures come
      from those lines, whatever follows. */
  lemma ReadsBothFields(pre: seq<string>, totalLine: string, mid: seq<string>, availLine: string,
                        post: seq<string>, totalTitle: string, availTitle: string)
    requires forall j :: 0 <= j < |pre| ==> !IsMatch(pre[j], totalTitle, availTitle)
    requires forall j :: 0 <= j < |mid| ==> !IsMatch(mid[j], totalTitle, availTitle)
    requires StartsWith(totalLine, totalTitle) && ExtractNumber(totalLine).Ok?
    requires !StartsWith(availLine, totalTitle) && StartsWith(availLine, availTitle)
    requires ExtractNumber(availLine).Ok?
    ensures MemUsageOf(pre + [totalLine] + mid + [availLine] + post, totalTitle, availTitle)
            == Ok(MemInfo(ExtractNumber(totalLine).value, ExtractNumber(availLine).value))
  {
    var t := ExtractNumber(totalLine).value;
    var v := ExtractNumber(availLine).value;
    var last := [availLine] + post;
    var tail := mid + last;
    Regroup(pre, [totalLine], mid, [availLine], post);
    ScanSkips(pre, [totalLine] + tail, totalTitle, availTitle, MemInfo(0, 0), 0);
    ScanMatch(totalLine, tail, totalTitle, availTitle, MemInfo(0, 0), 0);
    assert Record(totalLine, totalTitle, MemInfo(0, 0), t) == MemInfo(t, 0);
    ScanSkips(mid, last, totalTitle, availTitle, MemInfo(t, 0), 1);
    ScanMatch(availLine, post, totalTitle, availTitle, MemInfo(t, 0), 1);
    assert Record(availLine, totalTitle, MemInfo(t, 0), v) == MemInfo(t, v);
  }

  const MEM_TOTAL := "MemTotal"
  const MEM_AVAILABLE := "MemAvailable"
  const SWAP_TOTAL := "SwapTotal"
  const SWAP_FREE := "SwapFree"

  /** `get_ram_usage`. */
  method GetRamUsage(lines: seq<string>) returns (r: Result<MemInfo, MemError>)
    ensures r == MemUsageOf(lines, MEM_TOTAL, MEM_AVAILABLE)
  {
    r := GetMemUsage(lines, MEM_TOTAL, MEM_AVAILABLE);
  }

  /** `get_swap_usage`. */
  method GetSwapUsage(lines: seq<string>) returns (r: Result<MemInfo, MemError>)
    ensures r == MemUsageOf(lines, SWAP_TOTAL, SWAP_FREE)
  {
    r := GetMemUsage(lines, SWAP_TOTAL, SWAP_FREE);
  }

  /** `MemAvailable` lines fail the `MemTotal` test. */
  lemma AvailableIsNotTotal(line: string)
    requires StartsWith(line, MEM_AVAILABLE)
    ensures !StartsWith(line, MEM_TOTAL)
  {
    assert line[3] == line[..|MEM_AVAILABLE|][3] == 'A';
  }

  /** The kernel's `MemTotal` and `MemAvailable` lines, with any lines of
      other titles around them, give the RAM figures. */
  lemma RamOfMeminfo(pre: seq<string>, padT: string, total: nat, mid: seq<string>,
                     padA: string, avail: nat, post: seq<string>)
    requires forall j :: 0 <= j < |pre| ==> !IsMatch(pre[j], MEM_TOTAL, MEM_AVAILABLE)
    requires forall j :: 0 <= j < |mid| ==> !IsMatch(mid[j], MEM_TOTAL, MEM_AVAILABLE)
    requires AllWhitespace(padT) && AllWhitespace(padA)
    requires total <= U64_MAX && avail <= U64_MAX
    ensures MemUsageOf(pre + [MEM_TOTAL + ":" + padT + NatToDecimal(total) + " kB"] + mid
                       + [MEM_AVAILABLE + ":" + padA + NatToDecimal(avail) + " kB"] + post,
                       MEM_TOTAL, MEM_AVAILABLE)
            == Ok(MemInfo(total, avail))
  {
    var totalLine := MEM_TOTAL + ":" + padT + NatToDecimal(total) + " kB";
    var availLine := MEM_AVAILABLE + ":" + padA + NatToDecimal(avail) + " kB";
    ExtractNumberOfField(MEM_TOTAL, padT, total);
    ExtractNumberOfField(MEM_AVAILABLE, padA, avail);
    AvailableIsNotTotal(availLine);
    ReadsBothFields(pre, totalLine, mid, availLine, post, MEM_TOTAL, MEM_AVAILABLE);
  }
}

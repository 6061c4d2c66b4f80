/** Bytes read from and written to the whole disks, from `/proc/diskstats`.
    Each line holds major, minor, device name, then counters: field 5 is
    sectors read and field 9 sectors written.  Only devices listed in
    `/sys/block` (whole disks, not partitions) count.  The directory listing
    and the file's lines are inputs. */
module Disk {
  import opened Wrappers
  import opened Text

  /** Bytes read and written, summed over the listed devices. */
  datatype DiskIo = DiskIo(read: nat, write: nat)

  /** Why `get_disk_io` panics. */
  datatype DiskError =
    | NoDeviceName              // the line has fewer than three fields
    | MissingField(index: nat)  // a counter field is absent
    | BadField(index: nat)      // a counter field is not a usize

  const DEVICE_NAME: nat := 2
  const READ_SECTORS: nat := 5
  const WRITE_SECTORS: nat := 9
  /** The 512-byte UNIX sector the kernel counts in, whatever the device. */
  const SECTOR_SIZE: nat := 512

  function Add(a: DiskIo, b: DiskIo): DiskIo
  {
    DiskIo(a.read + b.read, a.write + b.write)
  }

  /** Field `k` of the line, read as a sector count and turned into bytes. */
  function SectorBytes(parts: seq<string>, k: nat): (r: Result<nat, DiskError>)
    ensures r.Ok? <==> k < |parts| && ParseUnsigned(parts[k], USIZE_MAX).Some?
    ensures r.Ok? ==> r.value == ParseUnsigned(parts[k], USIZE_MAX).value * SECTOR_SIZE
    ensures r.Err? ==> r.error == (if k < |parts| then BadField(k) else MissingField(k))
  {
    if k >= |parts| then Err(MissingField(k))
    else match ParseUnsigned(parts[k], USIZE_MAX)
      case None => Err(BadField(k))
      case Some(sectors) => Ok(sectors * SECTOR_SIZE)
  }

  /** What one line of the file adds to the totals. */
  function LineIo(line: string, drives: seq<string>): (r: Result<DiskIo, DiskError>)
    ensures |SplitWhitespace(line)| <= DEVICE_NAME ==> r == Err(NoDeviceName)
    ensures |SplitWhitespace(line)| > DEVICE_NAME && SplitWhitespace(line)[DEVICE_NAME] !in drives
            ==> r == Ok(DiskIo(0, 0))
  {
    var parts := SplitWhitespace(line);
    if |parts| <= DEVICE_NAME then Err(NoDeviceName)
    else if parts[DEVICE_NAME] !in drives then Ok(DiskIo(0, 0))
    else
      var read :- SectorBytes(parts, READ_SECTORS);
      var write :- SectorBytes(parts, WRITE_SECTORS);
      Ok(DiskIo(read, write))
  }

  /** The lines' results combined in file order: the sum of what each line
      adds, or the first failing line's error. */
  function Scan(lines: seq<string>, step: string -> Result<DiskIo, DiskError>): Result<DiskIo, DiskError>
  {
    if lines == [] then Ok(DiskIo(0, 0))
    else Then(Scan(lines[..|lines| - 1], step), step(lines[|lines| - 1]))
  }

  /** The totals so far, then one more line: its bytes added, or the first
      error met. */
  function Then(before: Result<DiskIo, DiskError>, here: Result<DiskIo, DiskError>): Result<DiskIo, DiskError>
  {
    var totals :- before;
    var io :- here;
    Ok(Add(totals, io))
  }

  /** `LineIo` for the listed devices, as a step of the scan. */
  function PerLine(drives: seq<string>): string -> Result<DiskIo, DiskError>
  {
    line => LineIo(line, drives)
  }

  /** What `get_disk_io` returns: the lines' contributions summed in file
      order, or the first line's panic. */
  function DiskScan(lines: seq<string>, drives: seq<string>): Result<DiskIo, DiskError>
  {
    Scan(lines, PerLine(drives))
  }

  /** The body of the loop of `get_disk_io` for one line: the device name,
      the membership test, then the two sector counts. */
  method LineStep(line: string, drives: seq<string>) returns (r: Result<DiskIo, DiskError>)
    ensures r == LineIo(line, drives)
  {
    var parts := SplitWhitespace(line);
    if |parts| <= DEVICE_NAME {
      return Err(NoDeviceName);
    }
    var deviceName := parts[DEVICE_NAME];
    if deviceName !in drives {
      return Ok(DiskIo(0, 0));
    }
    var readBytes := SectorBytes(parts, READ_SECTORS);
    if readBytes.Err? {
      return Err(readBytes.error);
    }
    var writeBytes := SectorBytes(parts, WRITE_SECTORS);
    if writeBytes.Err? {
      return Err(writeBytes.error);
    }
    return Ok(DiskIo(readBytes.value, writeBytes.value));
  }

  /** `get_disk_io`: the two accumulators over the lines, in file order. */
  method GetDiskIo(drives: seq<string>, lines: seq<string>) returns (r: Result<DiskIo, DiskError>)
    ensures r == DiskScan(lines, drives)
  {
    var read: nat := 0;
    var write: nat := 0;
    for i := 0 to |lines|
      invariant DiskScan(lines[..i], drives) == Ok(DiskIo(read, write))
    {
      ScanStep(lines, i, PerLine(drives));
      var next := AddLine(lines[i], drives, read, write);
      if next.Err? {
        FailureIsFinal(lines, i + 1, PerLine(drives));
        return Err(next.error);
      }
      read, write := next.value.read, next.value.write;
    }
    assert lines[..|lines|] == lines;
    return Ok(DiskIo(read, write));
  }

  /** One turn of the loop of `get_disk_io`: the line's bytes added to the
      totals so far, or the line's panic. */
  method AddLine(line: string, drives: seq<string>, read: nat, write: nat) returns (r: Result<DiskIo, DiskError>)
    ensures r == Then(Ok(DiskIo(read, write)), LineIo(line, drives))
  {
    var here := LineStep(line, drives);
    if here.Err? {
      return Err(here.error);
    }
    return Ok(DiskIo(read + here.value.read, write + here.value.write));
  }

  /** The scan of one more line. */
  lemma ScanStep(lines: seq<string>, i: nat, step: string -> Result<DiskIo, DiskError>)
    requires i < |lines|
    ensures Scan(lines[..i + 1], step) == Then(Scan(lines[..i], step), step(lines[i]))
  {
    assert lines[..i + 1][..i] == lines[..i];
    assert lines[..i + 1][i] == lines[i];
  }

  /** A failure in the first `n` lines is the failure of the whole scan:
      the lines after it are never read. */
  lemma {:induction false} FailureIsFinal(lines: seq<string>, n: nat, step: string -> Result<DiskIo, DiskError>)
    requires n <= |lines|
    requires Scan(lines[..n], step).Err?
    ensures Scan(lines, step) == Scan(lines[..n], step)
    decreases |lines| - n
  {
    if n < |lines| {
      var front := lines[..|lines| - 1];
      assert front[..n] == lines[..n];
      FailureIsFinal(front, n, step);
    } else {
      assert lines[..n] == lines;
    }
  }

  lemma MultiplesAdd(a: nat, b: nat)
    requires a % SECTOR_SIZE == 0 && b % SECTOR_SIZE == 0
    ensures (a + b) % SECTOR_SIZE == 0
  {
    var i := a / SECTOR_SIZE;
    var j := b / SECTOR_SIZE;
    assert a + b == (i + j) * SECTOR_SIZE;
  }

  /** A line adds whole sectors only. */
  lemma LineSectors(line: string, drives: seq<string>)
    ensures LineIo(line, drives).Ok? ==>
              LineIo(line, drives).value.read % SECTOR_SIZE == 0
              && LineIo(line, drives).value.write % SECTOR_SIZE == 0
  {
  }

  /** Byte counts that are whole numbers of sectors. */
  predicate InSectors(io: DiskIo)
  {
    io.read % SECTOR_SIZE == 0 && io.write % SECTOR_SIZE == 0
  }

  /** A scan whose every step adds whole sectors totals whole sectors. */
  lemma {:induction false} ScanInSectors(lines: seq<string>, step: string -> Result<DiskIo, DiskError>)
    requires forall line :: step(line).Ok? ==> InSectors(step(line).value)
    ensures Scan(lines, step).Ok? ==> InSectors(Scan(lines, step).value)
  {
    if lines != [] {
      var front := lines[..|lines| - 1];
      ScanInSectors(front, step);
      var before := Scan(front, step);
      var here := step(lines[|lines| - 1]);
      if before.Ok? && here.Ok? {
        MultiplesAdd(before.value.read, here.value.read);
        MultiplesAdd(before.value.write, here.value.write);
      }
    }
  }

  /** Both totals are whole numbers of sectors. */
  lemma WholeSectors(lines: seq<string>, drives: seq<string>)
    ensures DiskScan(lines, drives).Ok? ==>
              DiskScan(lines, drives).value.read % SECTOR_SIZE == 0
              && DiskScan(lines, drives).value.write % SECTOR_SIZE == 0
  {
    forall line | PerLine(drives)(line).Ok? ensures InSectors(PerLine(drives)(line).value) {
      LineSectors(line, drives);
    }
    ScanInSectors(lines, PerLine(drives));
  }

  /** A line is well formed when it yields a contribution. */
  predicate WellFormed(lines: seq<string>, drives: seq<string>)
  {
    forall j :: 0 <= j < |lines| ==> LineIo(lines[j], drives).Ok?
  }

  /** What a line adds when it is well formed. */
  function Contribution(line: string, drives: seq<string>): DiskIo
  {
    match LineIo(line, drives)
    case Ok(io) => io
    case Err(_) => DiskIo(0, 0)
  }

  /** The sum of `f` over the lines. */
  function SumOf(lines: seq<string>, f: string -> DiskIo): DiskIo
  {
    if lines == [] then DiskIo(0, 0)
    else Add(SumOf(lines[..|lines| - 1], f), f(lines[|lines| - 1]))
  }

  /** The sum of the lines' contributions. */
  function Tally(lines: seq<string>, drives: seq<string>): DiskIo
  {
    SumOf(lines, line => Contribution(line, drives))
  }

  /** When every line is well formed the scan succeeds with their sum. */
  lemma {:induction false} ScanIsTally(lines: seq<string>, drives: seq<string>)
    requires WellFormed(lines, drives)
    ensures DiskScan(lines, drives) == Ok(Tally(lines, drives))
  {
    if lines != [] {
      var front := lines[..|lines| - 1];
      assert forall j :: 0 <= j < |front| ==> front[j] == lines[j];
      ScanIsTally(front, drives);
    }
  }

  lemma {:induction false} SumAppend(a: seq<string>, b: seq<string>, f: string -> DiskIo)
    ensures SumOf(a + b, f) == Add(SumOf(a, f), SumOf(b, f))
    decreases |b|
  {
    if b == [] {
      assert a + b == a;
    } else {
      var front := b[..|b| - 1];
      SumAppend(a, front, f);
      assert (a + b)[..|a + b| - 1] == a + front;
      assert (a + b)[|a + b| - 1] == b[|b| - 1];
    }
  }

  lemma WellFormedPermutation(a: seq<string>, b: seq<string>, drives: seq<string>)
    requires multiset(a) == multiset(b)
    requires WellFormed(a, drives)
    ensures WellFormed(b, drives)
  {
    forall j | 0 <= j < |b| ensures LineIo(b[j], drives).Ok? {
      assert b[j] in multiset(b);
      assert b[j] in multiset(a);
      var k :| 0 <= k < |a| && a[k] == b[j];
    }
  }

  /** The sum over the lines around one line, with and without it. */
  lemma SumSplit(left: seq<string>, x: string, right: seq<string>, f: string -> DiskIo)
    ensures SumOf(left + [x] + right, f) == Add(Add(SumOf(left, f), f(x)), SumOf(right, f))
    ensures SumOf(left + right, f) == Add(SumOf(left, f), SumOf(right, f))
  {
    SumAppend(left, [x], f);
    SumAppend(left + [x], right, f);
    SumAppend(left, right, f);
    assert [x][..0] == [];
  }

  lemma MultisetCancel(p: multiset<string>, q: multiset<string>, x: string)
    requires p + multiset{x} == q + multiset{x}
    ensures p == q
  {
    assert p == (p + multiset{x}) - multiset{x};
    assert q == (q + multiset{x}) - multiset{x};
  }

  /** Reordering the lines does not change a sum over them. */
  lemma {:induction false} SumPermutation(a: seq<string>, b: seq<string>, f: string -> DiskIo)
    requires multiset(a) == multiset(b)
    ensures SumOf(a, f) == SumOf(b, f)
    decreases |a|
  {
    if a == [] {
      assert |b| == |multiset(b)| == 0;
    } else {
      var x := a[|a| - 1];
      var front := a[..|a| - 1];
      var j := MatchLast(a, b);
      var left := b[..j];
      var right := b[j + 1..];
      SumPermutation(front, left + right, f);
      SumSplit(left, x, right, f);
      assert b == left + [x] + right;
      assert SumOf(a, f) == Add(SumOf(front, f), f(x));
    }
  }

  /** Where the last line of `a` sits in its reordering `b`: the lines
      around that place are a reordering of the rest of `a`. */
  lemma MatchLast(a: seq<string>, b: seq<string>) returns (j: nat)
    requires a != [] && multiset(a) == multiset(b)
    ensures j < |b| && b[j] == a[|a| - 1]
    ensures multiset(a[..|a| - 1]) == multiset(b[..j] + b[j + 1..])
  {
    var x := a[|a| - 1];
    var front := a[..|a| - 1];
    assert a == front + [x];
    assert multiset(a) == multiset(front) + multiset{x};
    assert x in multiset(b);
    assert x in b;
    j :| 0 <= j < |b| && b[j] == x;
    var left := b[..j];
    var right := b[j + 1..];
    assert b == left + [x] + right;
    var rest := left + right;
    assert multiset(b) == multiset(rest) + multiset{x} by {
      assert multiset(b) == multiset(left) + multiset{x} + multiset(right);
      assert multiset(rest) == multiset(left) + multiset(right);
    }
    MultisetCancel(multiset(front), multiset(rest), x);
  }

  /** `/proc/diskstats` may list the devices in any order: when every line
      is well formed, the order does not change the result. */
  lemma ScanPermutation(a: seq<string>, b: seq<string>, drives: seq<string>)
    requires multiset(a) == multiset(b)
    requires WellFormed(a, drives)
    ensures DiskScan(a, drives) == DiskScan(b, drives)
  {
    WellFormedPermutation(a, b, drives);
    SumPermutation(a, b, line => Contribution(line, drives));
    ScanIsTally(a, drives);
    ScanIsTally(b, drives);
  }

  /** Two prefixes that scan alike still scan alike once the same lines
      follow them. */
  lemma {:induction false} ScanSameFrom(a: seq<string>, b: seq<string>, post: seq<string>,
                                        step: string -> Result<DiskIo, DiskError>)
    requires Scan(a, step) == Scan(b, step)
    ensures Scan(a + post, step) == Scan(b + post, step)
    decreases |post|
  {
    if post == [] {
      assert a + post == a && b + post == b;
    } else {
      var front := post[..|post| - 1];
      ScanSameFrom(a, b, front, step);
      assert (a + post)[..|a + post| - 1] == a + front;
      assert (b + post)[..|b + post| - 1] == b + front;
      assert (a + post)[|a + post| - 1] == post[|post| - 1];
      assert (b + post)[|b + post| - 1] == post[|post| - 1];
    }
  }

  /** Lines for devices that are not listed add nothing, wherever they are,
      and cannot fail. */
  lemma IgnoresUnlisted(pre: seq<string>, line: string, post: seq<string>, drives: seq<string>)
    requires |SplitWhitespace(line)| > DEVICE_NAME && SplitWhitespace(line)[DEVICE_NAME] !in drives
    ensures DiskScan(pre + [line] + post, drives) == DiskScan(pre + post, drives)
  {
    assert LineIo(line, drives) == Ok(DiskIo(0, 0));
    var a := pre + [line];
    assert a[..|a| - 1] == pre && a[|a| - 1] == line;
    assert DiskScan(a, drives) == DiskScan(pre, drives);
    ScanSameFrom(a, pre, post, PerLine(drives));
  }

  /** The fields of a line other than its name and its two sector counts. */
  predicate Token(t: string)
  {
    t != [] && NoWhitespace(t)
  }

  /** A listed device's line with its sector counts written in decimal adds
      512 bytes per sector read and per sector written. */
  lemma DiskLineRoundTrip(fields: seq<string>, read: nat, write: nat, drives: seq<string>)
    requires |fields| > WRITE_SECTORS
    requires forall k :: 0 <= k < |fields| ==> Token(fields[k])
    requires fields[DEVICE_NAME] in drives
    requires fields[READ_SECTORS] == NatToDecimal(read) && read <= USIZE_MAX
    requires fields[WRITE_SECTORS] == NatToDecimal(write) && write <= USIZE_MAX
    ensures LineIo(JoinSpaces(fields), drives) == Ok(DiskIo(read * SECTOR_SIZE, write * SECTOR_SIZE))
  {
    SplitJoin(fields);
    ParseDecimal(read, USIZE_MAX);
    ParseDecimal(write, USIZE_MAX);
  }
}

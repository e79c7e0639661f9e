/** The rotating log of diagnostics a Controller keeps for its Relay. */
module RelayLog {

  /** One line with its newline; `size` is its length in bytes, `valid` says whether it is a record. */
  datatype Line = Line(content: nat, size: nat, valid: bool)

  /** The active file under 0, archive `n` under n. */
  type Files = map<nat, seq<Line>>

  function Bytes(s: seq<Line>): nat {
    if s == [] then 0 else Bytes(s[..|s| - 1]) + s[|s| - 1].size
  }

  function Content(files: Files, i: nat): seq<Line> {
    if i in files then files[i] else []
  }

  /** All records kept, from the oldest archive to the active file. */
  function Kept(files: Files, oldest: nat): seq<Line> {
    if oldest == 0 then Content(files, 0) else Content(files, oldest) + Kept(files, oldest - 1)
  }

  predicate IsSuffix(a: seq<Line>, b: seq<Line>) {
    |a| <= |b| && b[|b| - |a|..] == a
  }

  // ---- What the operations do ----

  function Shifted(files: Files, index: nat): Files {
    if index - 1 in files then (files - {index - 1})[index := files[index - 1]] else files
  }

  function ShiftedFrom(files: Files, index: nat): Files
    decreases index
  {
    if index == 0 then files else ShiftedFrom(Shifted(files, index), index - 1)
  }

  function Rotated(files: Files, archives: nat): Files {
    if archives == 0 then files - {0} else ShiftedFrom(files, archives)
  }

  function Appended(files: Files, line: Line, maxBytes: nat, archives: nat): Files {
    var ready := if 0 in files && Bytes(files[0]) + line.size > maxBytes then Rotated(files, archives) else files;
    ready[0 := Content(ready, 0) + [line]]
  }

  function AppendedAll(files: Files, lines: seq<Line>, maxBytes: nat, archives: nat): Files {
    if lines == [] then files else Appended(AppendedAll(files, lines[..|lines| - 1], maxBytes, archives), lines[|lines| - 1], maxBytes, archives)
  }

  /** The longest end of a file that fits. */
  function Ending(s: seq<Line>, maxBytes: nat): seq<Line> {
    if s == [] || Bytes(s) <= maxBytes then s else Ending(s[1..], maxBytes)
  }

  function ValidOnes(s: seq<Line>): seq<Line> {
    if s == [] then [] else (if s[0].valid then [s[0]] else []) + ValidOnes(s[1..])
  }

  /** A file over the limit is rewritten from the records in its end; a smaller one is left alone. */
  function Tail(s: seq<Line>, maxBytes: nat): seq<Line> {
    if Bytes(s) <= maxBytes then s else ValidOnes(Ending(s, maxBytes))
  }

  function Bounded(files: Files, maxBytes: nat, archives: nat): Files {
    map i | i in files && i <= archives :: Tail(files[i], maxBytes)
  }

  datatype Outcome = Written | InvalidBatch | RecordTooLarge

  function AppendOf(files: Files, valid: bool, lines: seq<Line>, maxBytes: nat, archives: nat): (Outcome, Files) {
    if !valid then (InvalidBatch, files)
    else if exists line | line in lines :: line.size > maxBytes then (RecordTooLarge, files)
    else (Written, AppendedAll(Bounded(files, maxBytes, archives), lines, maxBytes, archives))
  }

  class RelayDiagnosticSink {
    const maxBytes: nat
    const archives: nat
    var files: Files

    constructor (maxBytes: nat, archives: nat, files: Files)
      requires maxBytes >= 1
      ensures this.maxBytes == maxBytes && this.archives == archives && this.files == files
    {
      this.maxBytes, this.archives, this.files := maxBytes, archives, files;
    }

    method Rotate()
      modifies this
      ensures files == Rotated(old(files), archives)
    {
      if archives == 0 {
        files := files - {0};
        return;
      }
      var index := archives;
      while index >= 1
        invariant 0 <= index <= archives && ShiftedFrom(files, index) == ShiftedFrom(old(files), archives)
      {
        var source := index - 1;
        if source in files {
          var moved := files[source];
          files := files - {source};
          files := files[index := moved];
        }
        index := index - 1;
      }
    }

    method AppendLine(line: Line)
      modifies this
      ensures files == Appended(old(files), line, maxBytes, archives)
    {
      if 0 in files && Bytes(files[0]) + line.size > maxBytes { Rotate(); }
      files := files[0 := Content(files, 0) + [line]];
    }

    method AppendLines(lines: seq<Line>)
      modifies this
      ensures files == AppendedAll(old(files), lines, maxBytes, archives)
    {
      var i := 0;
      while i < |lines|
        invariant 0 <= i <= |lines| && files == AppendedAll(old(files), lines[..i], maxBytes, archives)
      {
        assert lines[..i + 1][..i] == lines[..i];
        AppendLine(lines[i]);
        i := i + 1;
      }
      assert lines[..i] == lines;
    }

    method Append(valid: bool, lines: seq<Line>) returns (outcome: Outcome)
      modifies this
      ensures (outcome, files) == AppendOf(old(files), valid, lines, maxBytes, archives)
    {
      if !valid { return InvalidBatch; }
      if exists line | line in lines :: line.size > maxBytes { return RecordTooLarge; }
      files := Bounded(files, maxBytes, archives);
      AppendLines(lines);
      return Written;
    }
  }

  // ---- Rotation ----

  lemma {:induction false} ShiftedFromGives(files: Files, index: nat, i: nat)
    ensures Content(ShiftedFrom(files, index), i) ==
            (if i > index then Content(files, i)
             else if i == 0 then (if index == 0 then Content(files, 0) else [])
             else if i - 1 in files then files[i - 1]
             else if i == index then Content(files, i)
             else [])
    ensures i > index ==> (i in ShiftedFrom(files, index) <==> i in files)
    ensures i <= index && index > 0 ==> (i in ShiftedFrom(files, index) <==> (i > 0 && i - 1 in files) || (i == index && i in files))
    decreases index
  {
    if index > 0 { ShiftedFromGives(Shifted(files, index), index - 1, i); }
  }

  /** Moving every file one place up moves the whole log, except for the oldest file. */
  lemma {:induction false} KeptShifted(files: Files, moved: Files, oldest: nat)
    requires oldest > 0 && Content(moved, 0) == [] && forall i | 1 <= i <= oldest :: Content(moved, i) == Content(files, i - 1)
    ensures Kept(moved, oldest) == Kept(files, oldest - 1)
  {
    if oldest > 1 { KeptShifted(files, moved, oldest - 1); }
  }

  /** Archives below the oldest are present without gaps, and a file was only started when the one
      before had no room for its first record. */
  ghost predicate Packed(files: Files, maxBytes: nat, archives: nat) {
    && (forall i | i in files :: i <= archives && files[i] != [] && Bytes(files[i]) <= maxBytes)
    && (forall i | i in files && i > 0 :: i - 1 in files && Bytes(files[i]) + files[i - 1][0].size > maxBytes)
  }

  /** Every file moved up by one place; the oldest archive made room. */
  ghost predicate MovedUp(files: Files, moved: Files, archives: nat) {
    && (forall i | i in moved :: 1 <= i <= archives && i - 1 in files && moved[i] == files[i - 1])
    && (forall i | i in files && i < archives :: i + 1 in moved)
  }

  lemma RotatedMovesUp(files: Files, archives: nat)
    requires forall i | i in files :: i <= archives && (i > 0 ==> i - 1 in files)
    ensures MovedUp(files, Rotated(files, archives), archives)
  {
    if archives > 0 {
      forall i: nat ensures i in Rotated(files, archives) ==> 1 <= i <= archives && i - 1 in files && Rotated(files, archives)[i] == files[i - 1] {
        ShiftedFromGives(files, archives, i);
      }
      forall i | i in files && i < archives ensures i + 1 in Rotated(files, archives) { ShiftedFromGives(files, archives, i + 1); }
    }
  }

  lemma MovedPacks(files: Files, moved: Files, line: Line, maxBytes: nat, archives: nat)
    requires Packed(files, maxBytes, archives) && MovedUp(files, moved, archives)
    requires 0 in files && Bytes(files[0]) + line.size > maxBytes && line.size <= maxBytes
    ensures Packed(moved[0 := [line]], maxBytes, archives)
  {
    var after := moved[0 := [line]];
    assert Bytes([line]) == line.size by { assert [line][..0] == []; }
    forall i | i in after && i > 0 ensures i - 1 in after && Bytes(after[i]) + after[i - 1][0].size > maxBytes {
      assert i in moved && i - 1 in files;
      if i > 1 { assert i - 2 in files && (i - 2) + 1 in moved; }
    }
  }

  lemma MovedKeeps(files: Files, moved: Files, maxBytes: nat, archives: nat)
    requires Packed(files, maxBytes, archives) && MovedUp(files, moved, archives) && archives > 0
    ensures Kept(moved, archives) == Kept(files, archives - 1)
  {
    forall i | 1 <= i <= archives ensures Content(moved, i) == Content(files, i - 1) {
      if i - 1 in files { assert (i - 1) + 1 in moved; }
    }
    KeptShifted(files, moved, archives);
  }

  lemma {:induction false} KeptAppended(files: Files, line: Line, oldest: nat)
    ensures Kept(files[0 := Content(files, 0) + [line]], oldest) == Kept(files, oldest) + [line]
  {
    if oldest > 0 {
      KeptAppended(files, line, oldest - 1);
      assert (Content(files, oldest) + Kept(files, oldest - 1)) + [line] == Content(files, oldest) + (Kept(files, oldest - 1) + [line]);
    }
  }

  lemma RotatingKeeps(files: Files, line: Line, maxBytes: nat, archives: nat, moved: Files)
    requires Packed(files, maxBytes, archives) && line.size <= maxBytes && moved == Rotated(files, archives)
    requires 0 in files && Bytes(files[0]) + line.size > maxBytes
    ensures Packed(moved[0 := Content(moved, 0) + [line]], maxBytes, archives)
    ensures IsSuffix(Kept(moved, archives), Kept(files, archives))
    ensures archives !in files ==> Kept(moved, archives) == Kept(files, archives)
  {
    RotatedMovesUp(files, archives);
    MovedPacks(files, moved, line, maxBytes, archives);
    assert Content(moved, 0) + [line] == [line];
    if archives > 0 {
      MovedKeeps(files, moved, maxBytes, archives);
      assert Kept(files, archives) == Content(files, archives) + Kept(files, archives - 1);
    }
  }

  /** One record: everything kept before stays, in order, but for the oldest archive; the record is last. */
  lemma AppendedKeeps(files: Files, line: Line, maxBytes: nat, archives: nat, after: Files)
    requires Packed(files, maxBytes, archives) && line.size <= maxBytes && after == Appended(files, line, maxBytes, archives)
    ensures Packed(after, maxBytes, archives) && Kept(after, archives) != []
    ensures IsSuffix(Kept(after, archives), Kept(files, archives) + [line])
    ensures archives !in files ==> Kept(after, archives) == Kept(files, archives) + [line]
  {
    if 0 in files && Bytes(files[0]) + line.size > maxBytes {
      var moved := Rotated(files, archives);
      RotatingKeeps(files, line, maxBytes, archives, moved);
      KeptAppended(moved, line, archives);
      SuffixExtends(Kept(moved, archives), Kept(files, archives), [line]);
    } else {
      KeptAppended(files, line, archives);
      RoomKeeps(files, line, maxBytes, archives);
    }
    LastIsKept(after, archives);
  }

  lemma RoomKeeps(files: Files, line: Line, maxBytes: nat, archives: nat)
    requires Packed(files, maxBytes, archives) && line.size <= maxBytes && (0 in files ==> Bytes(files[0]) + line.size <= maxBytes)
    ensures Packed(files[0 := Content(files, 0) + [line]], maxBytes, archives)
  {
    var all := Content(files, 0) + [line];
    var after: Files := files[0 := all];
    assert all[..|all| - 1] == Content(files, 0);
    assert Bytes(all) == Bytes(Content(files, 0)) + line.size;
    assert 0 in files ==> all[0] == files[0][0];
    forall i | i in after ensures i <= archives && after[i] != [] && Bytes(after[i]) <= maxBytes {
      assert i != 0 ==> i in files;
    }
    forall i | i in after && i > 0 ensures i - 1 in after && Bytes(after[i]) + after[i - 1][0].size > maxBytes {
      assert i in files && i - 1 in files;
    }
  }

  lemma {:induction false} LastIsKept(files: Files, oldest: nat)
    requires 0 in files && files[0] != []
    ensures |Kept(files, oldest)| >= 1
  {
    if oldest > 0 { LastIsKept(files, oldest - 1); }
  }

  lemma SuffixExtends(a: seq<Line>, b: seq<Line>, more: seq<Line>)
    requires IsSuffix(a, b)
    ensures IsSuffix(a + more, b + more)
  {
    assert (b + more)[|b| - |a|..] == b[|b| - |a|..] + more;
  }

  lemma SuffixStep(all: seq<Line>, before: seq<Line>, after: seq<Line>, lines: seq<Line>, line: Line)
    requires IsSuffix(before, all + lines) && IsSuffix(after, before + [line])
    ensures IsSuffix(after, all + (lines + [line]))
  {
    SuffixExtends(before, all + lines, [line]);
    assert all + lines + [line] == all + (lines + [line]);
  }

  lemma {:induction false} AllAppendedKeep(files: Files, lines: seq<Line>, maxBytes: nat, archives: nat, after: Files)
    requires Packed(files, maxBytes, archives) && (forall line | line in lines :: line.size <= maxBytes)
    requires after == AppendedAll(files, lines, maxBytes, archives)
    ensures Packed(after, maxBytes, archives) && IsSuffix(Kept(after, archives), Kept(files, archives) + lines)
    ensures lines != [] ==> Kept(after, archives) != []
  {
    if lines == [] {
      assert Kept(files, archives) + lines == Kept(files, archives);
    } else {
      var n := |lines| - 1;
      var init, line := lines[..n], lines[n];
      var before := AppendedAll(files, init, maxBytes, archives);
      assert lines == init + [line];
      AllAppendedKeep(files, init, maxBytes, archives, before);
      AppendedKeeps(before, line, maxBytes, archives, after);
      SuffixStep(Kept(files, archives), Kept(before, archives), Kept(after, archives), init, line);
    }
  }

  /** Bounding what is on disk changes nothing the log itself wrote. */
  lemma BoundedLeavesOwn(files: Files, maxBytes: nat, archives: nat)
    requires Packed(files, maxBytes, archives)
    ensures Bounded(files, maxBytes, archives) == files
  {}

  lemma {:induction false} EndingFits(s: seq<Line>, maxBytes: nat)
    ensures Bytes(Ending(s, maxBytes)) <= maxBytes && IsSuffix(Ending(s, maxBytes), s)
    ensures forall longer | IsSuffix(longer, s) && Bytes(longer) <= maxBytes :: |longer| <= |Ending(s, maxBytes)|
  {
    if s != [] && Bytes(s) > maxBytes {
      EndingFits(s[1..], maxBytes);
      forall longer | IsSuffix(longer, s) && Bytes(longer) <= maxBytes ensures |longer| <= |Ending(s, maxBytes)| {
        assert |longer| == |s| ==> longer == s;
        assert |longer| < |s| ==> s[1..][|s| - 1 - |longer|..] == longer;
      }
    }
  }

  lemma {:induction false} BytesOfFirst(s: seq<Line>)
    requires s != []
    ensures Bytes(s) == s[0].size + Bytes(s[1..])
  {
    if |s| > 1 {
      BytesOfFirst(s[..|s| - 1]);
      assert s[..|s| - 1][1..] == s[1..][..|s| - 2];
    }
  }

  lemma {:induction false} ValidOnesAreFewer(s: seq<Line>)
    ensures Bytes(ValidOnes(s)) <= Bytes(s)
    ensures forall line :: line in ValidOnes(s) <==> line in s && line.valid
  {
    if s != [] {
      ValidOnesAreFewer(s[1..]);
      BytesOfFirst(s);
      assert s == [s[0]] + s[1..];
      if s[0].valid {
        var all := [s[0]] + ValidOnes(s[1..]);
        BytesOfFirst(all);
        assert all[1..] == ValidOnes(s[1..]);
        assert ValidOnes(s) == all;
      } else {
        assert ValidOnes(s) == ValidOnes(s[1..]);
      }
    }
  }

  /** Bounding a file of any size brings it within the limit: one over it keeps the records, in order,
      of its longest end of whole lines that fits, and nothing else. */
  lemma TailFits(s: seq<Line>, maxBytes: nat)
    ensures Bytes(Tail(s, maxBytes)) <= maxBytes
    ensures Bytes(s) > maxBytes ==>
              exists end | IsSuffix(end, s) && Bytes(end) <= maxBytes ::
                && Tail(s, maxBytes) == ValidOnes(end) && (forall line :: line in Tail(s, maxBytes) <==> line in end && line.valid)
                && (forall longer | IsSuffix(longer, s) && Bytes(longer) <= maxBytes :: |longer| <= |end|)
  {
    EndingFits(s, maxBytes);
    ValidOnesAreFewer(Ending(s, maxBytes));
  }

  /** Every file is one of the log's and within the limit. */
  ghost predicate Fits(files: Files, maxBytes: nat, archives: nat) {
    forall i | i in files :: i <= archives && Bytes(files[i]) <= maxBytes
  }

  lemma BoundedFits(files: Files, maxBytes: nat, archives: nat)
    ensures Fits(Bounded(files, maxBytes, archives), maxBytes, archives)
    ensures forall i | i in files && i <= archives :: i in Bounded(files, maxBytes, archives)
  {
    forall i | i in files { TailFits(files[i], maxBytes); }
  }

  lemma RotatedFits(files: Files, maxBytes: nat, archives: nat)
    requires Fits(files, maxBytes, archives)
    ensures Fits(Rotated(files, archives), maxBytes, archives) && Content(Rotated(files, archives), 0) == []
  {
    if archives > 0 {
      ShiftedFromGives(files, archives, 0);
      forall i: nat ensures i in Rotated(files, archives) ==> i <= archives && Bytes(Content(Rotated(files, archives), i)) <= maxBytes {
        ShiftedFromGives(files, archives, i);
      }
      forall i | i in Rotated(files, archives) ensures i <= archives && Bytes(Rotated(files, archives)[i]) <= maxBytes {
        assert Content(Rotated(files, archives), i) == Rotated(files, archives)[i];
      }
    }
  }

  lemma AppendedFits(files: Files, line: Line, maxBytes: nat, archives: nat)
    requires Fits(files, maxBytes, archives) && line.size <= maxBytes
    ensures var after := Appended(files, line, maxBytes, archives);
            Fits(after, maxBytes, archives) && 0 in after && after[0] != [] && after[0][|after[0]| - 1] == line
  {
    if 0 in files && Bytes(files[0]) + line.size > maxBytes { RotatedFits(files, maxBytes, archives); }
    var ready := if 0 in files && Bytes(files[0]) + line.size > maxBytes then Rotated(files, archives) else files;
    assert (Content(ready, 0) + [line])[..|Content(ready, 0)|] == Content(ready, 0);
  }

  /** Whatever was on disk, an accepted batch leaves only files of the log within the limit, and its last
      record at the end of the active one. */
  lemma {:induction false} AppendFits(files: Files, lines: seq<Line>, maxBytes: nat, archives: nat)
    requires forall line | line in lines :: line.size <= maxBytes
    ensures var (outcome, after) := AppendOf(files, true, lines, maxBytes, archives);
            && outcome == Written && Fits(after, maxBytes, archives)
            && (lines != [] ==> Content(after, 0) != [] && Content(after, 0)[|Content(after, 0)| - 1] == lines[|lines| - 1])
    decreases |lines|
  {
    if lines == [] {
      BoundedFits(files, maxBytes, archives);
    } else {
      var n := |lines| - 1;
      assert forall line | line in lines[..n] :: line in lines;
      AppendFits(files, lines[..n], maxBytes, archives);
      assert lines[n] in lines;
      AppendedFits(AppendOf(files, true, lines[..n], maxBytes, archives).1, lines[n], maxBytes, archives);
    }
  }

  /** A batch that is not valid, or has a record over the limit, writes nothing. */
  lemma RefusedWritesNothing(files: Files, valid: bool, lines: seq<Line>, maxBytes: nat, archives: nat)
    ensures var (outcome, after) := AppendOf(files, valid, lines, maxBytes, archives);
            && (outcome == InvalidBatch <==> !valid)
            && (outcome == RecordTooLarge <==> valid && exists line | line in lines :: line.size > maxBytes)
            && (outcome != Written ==> after == files)
  {}

  // ---- Whole runs ----

  datatype Batch = Batch(valid: bool, lines: seq<Line>)

  function AfterAll(batches: seq<Batch>, maxBytes: nat, archives: nat): Files {
    if batches == [] then map[]
    else
      var n := |batches| - 1;
      AppendOf(AfterAll(batches[..n], maxBytes, archives), batches[n].valid, batches[n].lines, maxBytes, archives).1
  }

  predicate Accepted(b: Batch, maxBytes: nat) {
    b.valid && forall line | line in b.lines :: line.size <= maxBytes
  }

  function Records(batches: seq<Batch>, maxBytes: nat): seq<Line> {
    if batches == [] then []
    else
      var b := batches[|batches| - 1];
      Records(batches[..|batches| - 1], maxBytes) + (if Accepted(b, maxBytes) then b.lines else [])
  }

  /** Whatever batches came, the archives from the oldest on followed by the active file are the last
      records of all accepted ones, in order, each once; every file keeps the size limit; records are
      only dropped by whole files, the oldest ones, and only when every archive is in use. */
  lemma {:induction false} LogIsSuffix(batches: seq<Batch>, maxBytes: nat, archives: nat)
    ensures var files := AfterAll(batches, maxBytes, archives);
            && Packed(files, maxBytes, archives)
            && IsSuffix(Kept(files, archives), Records(batches, maxBytes))
            && (Records(batches, maxBytes) != [] ==> Kept(files, archives) != [])
  {
    if batches == [] {
      var empty: Files := map[];
      EmptyKept(archives);
    } else {
      var n := |batches| - 1;
      LogIsSuffix(batches[..n], maxBytes, archives);
      BatchKeeps(AfterAll(batches[..n], maxBytes, archives), batches[n], Records(batches[..n], maxBytes), maxBytes, archives);
    }
  }

  lemma BatchKeeps(before: Files, b: Batch, records: seq<Line>, maxBytes: nat, archives: nat)
    requires Packed(before, maxBytes, archives) && IsSuffix(Kept(before, archives), records) && (records != [] ==> Kept(before, archives) != [])
    ensures var after := AppendOf(before, b.valid, b.lines, maxBytes, archives).1;
            var all := records + (if Accepted(b, maxBytes) then b.lines else []);
            Packed(after, maxBytes, archives) && IsSuffix(Kept(after, archives), all) && (all != [] ==> Kept(after, archives) != [])
  {
    BatchWrites(before, b, maxBytes, archives);
    if Accepted(b, maxBytes) {
      var after := AppendedAll(before, b.lines, maxBytes, archives);
      AllAppendedKeep(before, b.lines, maxBytes, archives, after);
      SuffixExtends(Kept(before, archives), records, b.lines);
      if b.lines == [] { assert after == before && records + b.lines == records; }
    } else {
      assert records + [] == records;
    }
  }

  lemma BatchWrites(before: Files, b: Batch, maxBytes: nat, archives: nat)
    requires Packed(before, maxBytes, archives)
    ensures AppendOf(before, b.valid, b.lines, maxBytes, archives).1 ==
            if Accepted(b, maxBytes) then AppendedAll(before, b.lines, maxBytes, archives) else before
  {
    BoundedLeavesOwn(before, maxBytes, archives);
  }

  lemma {:induction false} EmptyKept(oldest: nat)
    ensures Kept(map[], oldest) == []
  {
    if oldest > 0 { EmptyKept(oldest - 1); }
  }

  /** While an archive is unused nothing is dropped at all. */
  lemma {:induction false} NothingDroppedYet(files: Files, lines: seq<Line>, maxBytes: nat, archives: nat, after: Files)
    requires Packed(files, maxBytes, archives) && archives > 0 && forall line | line in lines :: line.size <= maxBytes
    requires after == AppendedAll(files, lines, maxBytes, archives) && archives !in after
    ensures Kept(after, archives) == Kept(files, archives) + lines
  {
    if lines == [] {
      assert Kept(files, archives) + lines == Kept(files, archives);
    } else {
      var n := |lines| - 1;
      var init, line := lines[..n], lines[n];
      var before := AppendedAll(files, init, maxBytes, archives);
      assert lines == init + [line];
      AllAppendedKeep(files, init, maxBytes, archives, before);
      NotDroppedStep(before, line, maxBytes, archives, after);
      NothingDroppedYet(files, init, maxBytes, archives, before);
      Reassociate(Kept(files, archives), init, [line]);
    }
  }

  lemma Reassociate(a: seq<Line>, b: seq<Line>, c: seq<Line>)
    ensures a + b + c == a + (b + c)
  {}

  lemma NotDroppedStep(before: Files, line: Line, maxBytes: nat, archives: nat, after: Files)
    requires Packed(before, maxBytes, archives) && line.size <= maxBytes && after == Appended(before, line, maxBytes, archives)
    requires archives > 0 && archives !in after
    ensures archives !in before && Kept(after, archives) == Kept(before, archives) + [line]
  {
    if archives in before { ArchiveStays(before, line, maxBytes, archives); }
    AppendedKeeps(before, line, maxBytes, archives, after);
  }

  lemma ArchiveStays(files: Files, line: Line, maxBytes: nat, archives: nat)
    requires archives > 0 && archives in files
    ensures archives in Appended(files, line, maxBytes, archives)
  {
    ShiftedFromGives(files, archives, archives);
  }
}

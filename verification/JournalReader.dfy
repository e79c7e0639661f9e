/** Reading the native daemon's journals a little at a time, while they grow and are rotated. */
module JournalReader {

  datatype Option<+T> = None | Some(value: T)

  /** A journal file, however it is named at the moment. */
  type File = nat
  type Bytes = seq<nat>

  const NEWLINE: nat := 10
  const BACKLOG: nat := 1024 * 1024
  const CURSORS: nat := 16

  datatype Cursor = Cursor(file: File, offset: nat)

  // ---- Lines ----

  function First(s: Bytes): (r: Option<nat>)
    ensures r.Some? ==> r.value < |s| && s[r.value] == NEWLINE && NEWLINE !in s[..r.value]
    ensures r.None? ==> NEWLINE !in s
  {
    if s == [] then None
    else if s[0] == NEWLINE then Some(0)
    else
      var rest := First(s[1..]);
      if rest.None? then None
      else
        assert s[..rest.value + 1] == [s[0]] + s[1..][..rest.value];
        Some(rest.value + 1)
  }

  function Last(s: Bytes): (r: Option<nat>)
    ensures r.Some? ==> r.value < |s| && s[r.value] == NEWLINE && NEWLINE !in s[r.value + 1..]
    ensures r.None? ==> NEWLINE !in s
  {
    if s == [] then None
    else if s[|s| - 1] == NEWLINE then Some(|s| - 1)
    else
      var rest := Last(s[..|s| - 1]);
      if rest.None? then None
      else
        assert s[rest.value + 1..] == s[..|s| - 1][rest.value + 1..] + [s[|s| - 1]];
        rest
  }

  /** The finished lines of a text; what follows its last newline is no line yet. */
  function Lines(s: Bytes): seq<Bytes> {
    match First(s)
    case None => []
    case Some(i) => [s[..i]] + Lines(s[i + 1..])
  }

  predicate AtLineStart(s: Bytes, n: nat) {
    n <= |s| && (n == 0 || s[n - 1] == NEWLINE)
  }

  lemma {:induction false} LinesOfBoth(a: Bytes, b: Bytes)
    requires AtLineStart(a, |a|)
    ensures Lines(a + b) == Lines(a) + Lines(b)
  {
    if a == [] {
      assert a + b == b;
    } else {
      FirstOfBoth(a, b);
      var i := First(a).value;
      RestEndsLine(a, i + 1);
      LinesOfBoth(a[i + 1..], b);
      LinesFromFirst(a, b, i);
      LinesJoin([a[..i]], Lines(a[i + 1..]), Lines(b));
    }
  }

  lemma LinesJoin(x: seq<Bytes>, y: seq<Bytes>, z: seq<Bytes>)
    ensures x + (y + z) == (x + y) + z
  {}

  lemma RestEndsLine(a: Bytes, n: nat)
    requires n <= |a| && AtLineStart(a, |a|)
    ensures AtLineStart(a[n..], |a[n..]|)
  {}

  lemma LinesFromFirst(a: Bytes, b: Bytes, i: nat)
    requires i < |a| && First(a) == Some(i) && First(a + b) == Some(i)
    ensures Lines(a) == [a[..i]] + Lines(a[i + 1..]) && Lines(a + b) == [a[..i]] + Lines(a[i + 1..] + b)
  {
    LinesUnfold(a, i);
    LinesUnfold(a + b, i);
    SlicesOfBoth(a, b, i);
  }

  lemma LinesUnfold(s: Bytes, i: nat)
    requires i < |s| && First(s) == Some(i)
    ensures Lines(s) == [s[..i]] + Lines(s[i + 1..])
  {}

  lemma SlicesOfBoth(a: Bytes, b: Bytes, i: nat)
    requires i < |a|
    ensures (a + b)[..i] == a[..i] && (a + b)[i + 1..] == a[i + 1..] + b
  {}

  lemma {:induction false} FirstOfBoth(a: Bytes, b: Bytes)
    requires NEWLINE in a
    ensures First(a + b) == First(a) && First(a).Some?
  {
    if a[0] != NEWLINE {
      assert (a + b)[1..] == a[1..] + b;
      FirstOfBoth(a[1..], b);
    }
  }

  lemma LinesOfUnfinished(a: Bytes, b: Bytes)
    requires AtLineStart(a, |a|) && NEWLINE !in b
    ensures Lines(a + b) == Lines(a)
  {
    LinesOfBoth(a, b);
    assert First(b).None? || NEWLINE in b;
  }

  // ---- One look at one file ----

  function OffsetOf(cursors: seq<Cursor>, file: File): Option<nat> {
    if cursors == [] then None else if cursors[0].file == file then Some(cursors[0].offset) else OffsetOf(cursors[1..], file)
  }

  function WithCursor(cursors: seq<Cursor>, c: Cursor): seq<Cursor> {
    if cursors == [] then [c] else if cursors[0].file == c.file then [c] + cursors[1..] else [cursors[0]] + WithCursor(cursors[1..], c)
  }

  function Evicted(cursors: seq<Cursor>): seq<Cursor> {
    if |cursors| > CURSORS then cursors[|cursors| - CURSORS..] else cursors
  }

  function StartOf(cursors: seq<Cursor>, file: File, size: nat): nat {
    match OffsetOf(cursors, file)
    case Some(n) => if n > size then 0 else n
    case None => 0
  }

  function Max(a: int, b: int): int {
    if a < b then b else a
  }

  /** Where the read begins: at the cursor, or nearer the end when too much was added. */
  function ReadFrom(offset: nat, size: nat): nat {
    Max(offset, size - BACKLOG)
  }

  /** The place after the last newline among the `got` bytes read from `start`. */
  function EndOf(content: Bytes, start: nat, got: nat): (r: Option<nat>)
    requires start + got <= |content|
    ensures r.Some? ==> start < r.value <= start + got && content[r.value - 1] == NEWLINE && NEWLINE !in content[r.value..start + got]
    ensures r.None? ==> NEWLINE !in content[start..start + got]
  {
    match Last(content[start..start + got])
    case None => None
    case Some(last) =>
      assert content[start + last + 1..start + got] == content[start..start + got][last + 1..];
      Some(start + last + 1)
  }

  function HandedOn(content: Bytes, offset: nat, start: nat, to: nat): seq<Bytes>
    requires offset <= start <= to <= |content|
  {
    Lines(if start > offset then AfterFirst(content[start..to]) else content[start..to])
  }

  /** `got` bytes could be read; the reader's cursors then, and the lines handed on. */
  function VisitOf(cursors: seq<Cursor>, file: File, content: Bytes, got: nat): (seq<Cursor>, seq<Bytes>)
    requires got <= |content| - ReadFrom(StartOf(cursors, file, |content|), |content|)
  {
    var offset := StartOf(cursors, file, |content|);
    var start := ReadFrom(offset, |content|);
    if offset == |content| then (cursors, [])
    else match EndOf(content, start, got)
      case None => (cursors, [])
      case Some(to) => (Evicted(WithCursor(cursors, Cursor(file, to))), HandedOn(content, offset, start, to))
  }

  function AfterFirst(text: Bytes): Bytes {
    match First(text) case Some(i) => text[i + 1..] case None => text
  }

  class CodexDaemonMonitor {
    var cursors: seq<Cursor>

    constructor (cursors: seq<Cursor>)
      ensures this.cursors == cursors
    {
      this.cursors := cursors;
    }

    method SetCursor(c: Cursor)
      modifies this
      ensures cursors == Evicted(WithCursor(old(cursors), c))
    {
      cursors := WithCursor(cursors, c);
      ghost var all := cursors;
      while |cursors| > CURSORS
        invariant |cursors| <= |all| && cursors == all[|all| - |cursors|..] && (|cursors| >= CURSORS || cursors == all)
      {
        cursors := cursors[1..];
      }
    }

    method Visit(file: File, content: Bytes, got: nat) returns (lines: seq<Bytes>)
      requires got <= |content| - ReadFrom(StartOf(cursors, file, |content|), |content|)
      modifies this
      ensures (cursors, lines) == VisitOf(old(cursors), file, content, got)
    {
      var offset := StartOf(cursors, file, |content|);
      lines := [];
      if offset == |content| { return; }
      var start := ReadFrom(offset, |content|);
      var end := EndOf(content, start, got);
      if end.None? { return; }
      var text := content[start..end.value];
      if start > offset { text := AfterFirst(text); }
      lines := HandOn(text);
      SetCursor(Cursor(file, end.value));
    }

    /** Splits at the newlines; the text ends with one, so nothing is left over. */
    method HandOn(text: Bytes) returns (lines: seq<Bytes>)
      ensures lines == Lines(text)
    {
      lines := [];
      var rest := text;
      while true
        invariant Lines(text) == lines + Lines(rest)
        decreases |rest|
      {
        var i := First(rest);
        if i.None? { break; }
        lines, rest := lines + [rest[..i.value]], rest[i.value + 1..];
      }
    }
  }

  // ---- Cursors ----

  lemma {:induction false} WithCursorSets(cursors: seq<Cursor>, c: Cursor, f: File)
    ensures OffsetOf(WithCursor(cursors, c), f) == if f == c.file then Some(c.offset) else OffsetOf(cursors, f)
    ensures |WithCursor(cursors, c)| == |cursors| + if OffsetOf(cursors, c.file).Some? then 0 else 1
  {
    if cursors != [] && cursors[0].file != c.file { WithCursorSets(cursors[1..], c, f); }
  }

  ghost predicate Unique(cursors: seq<Cursor>) {
    forall i, j | 0 <= i < j < |cursors| :: cursors[i].file != cursors[j].file
  }

  lemma {:induction false} WithCursorUnique(cursors: seq<Cursor>, c: Cursor)
    requires Unique(cursors)
    ensures Unique(WithCursor(cursors, c))
    ensures forall x | x in WithCursor(cursors, c) :: x == c || x in cursors
  {
    if cursors != [] && cursors[0].file != c.file {
      WithCursorUnique(cursors[1..], c);
      var rest := WithCursor(cursors[1..], c);
      assert forall i | 0 <= i < |cursors[1..]| :: cursors[1..][i] == cursors[i + 1];
      forall i | 0 <= i < |rest| ensures rest[i].file != cursors[0].file { assert rest[i] in rest; }
    }
  }

  lemma {:induction false} OffsetAt(cursors: seq<Cursor>, k: nat)
    requires Unique(cursors) && k < |cursors|
    ensures OffsetOf(cursors, cursors[k].file) == Some(cursors[k].offset)
  {
    if k > 0 { OffsetAt(cursors[1..], k - 1); }
  }

  lemma {:induction false} OffsetIsIn(cursors: seq<Cursor>, f: File)
    ensures OffsetOf(cursors, f).Some? ==> exists k | 0 <= k < |cursors| :: cursors[k] == Cursor(f, OffsetOf(cursors, f).value)
    ensures OffsetOf(cursors, f).None? ==> forall k | 0 <= k < |cursors| :: cursors[k].file != f
  {
    if cursors != [] { OffsetIsIn(cursors[1..], f); }
  }

  /** Forgetting cursors never changes one that stays. */
  lemma EvictedKeeps(cursors: seq<Cursor>, f: File)
    requires Unique(cursors)
    ensures Unique(Evicted(cursors)) && (OffsetOf(Evicted(cursors), f).Some? ==> OffsetOf(Evicted(cursors), f) == OffsetOf(cursors, f))
  {
    OffsetIsIn(Evicted(cursors), f);
    if OffsetOf(Evicted(cursors), f).Some? && |cursors| > CURSORS {
      var k :| 0 <= k < |Evicted(cursors)| && Evicted(cursors)[k] == Cursor(f, OffsetOf(Evicted(cursors), f).value);
      OffsetAt(cursors, |cursors| - CURSORS + k);
    }
  }

  // ---- What a look hands on ----

  /** `a` with some elements left out. */
  predicate Thinned(a: seq<Bytes>, b: seq<Bytes>) {
    if b == [] then a == []
    else (a != [] && a[0] == b[0] && Thinned(a[1..], b[1..])) || Thinned(a, b[1..])
  }

  lemma {:induction false} ThinnedSelf(a: seq<Bytes>)
    ensures Thinned(a, a)
  {
    if a != [] { ThinnedSelf(a[1..]); }
  }

  lemma {:induction false} ThinnedAway(b: seq<Bytes>)
    ensures Thinned([], b)
  {
    if b != [] { ThinnedAway(b[1..]); }
  }

  lemma {:induction false} ThinnedBoth(a: seq<Bytes>, b: seq<Bytes>, c: seq<Bytes>, d: seq<Bytes>)
    requires Thinned(a, b) && Thinned(c, d)
    ensures Thinned(a + c, b + d)
  {
    if b == [] {
      assert a + c == c && b + d == d;
    } else {
      assert (b + d)[1..] == b[1..] + d;
      if Thinned(a, b[1..]) {
        ThinnedBoth(a, b[1..], c, d);
      } else {
        assert (a + c)[1..] == a[1..] + c;
        ThinnedBoth(a[1..], b[1..], c, d);
      }
    }
  }

  lemma LinesBetween(content: Bytes, from: nat, to: nat)
    requires from <= to <= |content| && AtLineStart(content, from)
    ensures Lines(content[..to]) == Lines(content[..from]) + Lines(content[from..to])
  {
    assert content[..to] == content[..from] + content[from..to];
    assert from > 0 ==> content[..from][from - 1] == NEWLINE;
    LinesOfBoth(content[..from], content[from..to]);
  }

  lemma SkipsToLine(content: Bytes, offset: nat, start: nat, to: nat)
    requires offset < start < to <= |content| && content[to - 1] == NEWLINE && AtLineStart(content, offset)
    ensures Thinned(HandedOn(content, offset, start, to), Lines(content[offset..to]))
  {
    var text, piece := content[start..to], content[offset..to];
    assert text[|text| - 1] == NEWLINE;
    var p := First(text).value + 1;
    var cut := start + p - offset;
    assert piece[..cut] + piece[cut..] == piece && piece[cut..] == text[p..] && piece[..cut][cut - 1] == text[p - 1];
    LinesOfBoth(piece[..cut], piece[cut..]);
    ThinnedAway(Lines(piece[..cut]));
    ThinnedSelf(Lines(text[p..]));
    ThinnedBoth([], Lines(piece[..cut]), Lines(text[p..]), Lines(text[p..]));
    assert [] + Lines(text[p..]) == Lines(text[p..]);
  }

  /** What is handed on between the cursor and the last newline read: exactly the lines there, or when
      too much was added, some of them, none torn. */
  lemma HandsOnLines(content: Bytes, offset: nat, to: nat)
    requires offset < |content| && ReadFrom(offset, |content|) < to <= |content| && content[to - 1] == NEWLINE && AtLineStart(content, offset)
    ensures Thinned(HandedOn(content, offset, ReadFrom(offset, |content|), to), Lines(content[offset..to]))
    ensures |content| - offset <= BACKLOG ==> HandedOn(content, offset, ReadFrom(offset, |content|), to) == Lines(content[offset..to])
  {
    if ReadFrom(offset, |content|) > offset {
      SkipsToLine(content, offset, ReadFrom(offset, |content|), to);
    } else {
      ThinnedSelf(Lines(content[offset..to]));
    }
  }

  // ---- Whole runs of one process ----

  datatype Event =
    | Append(file: File, bytes: Bytes)
    | Visit(file: File, got: nat)

  datatype World = World(contents: map<File, Bytes>, cursors: seq<Cursor>, handed: map<File, seq<Bytes>>)

  const START := World(map[], [], map[])

  function Content(w: World, f: File): Bytes {
    if f in w.contents then w.contents[f] else []
  }

  function Handed(w: World, f: File): seq<Bytes> {
    if f in w.handed then w.handed[f] else []
  }

  predicate Enabled(w: World, ev: Event) {
    ev.Visit? ==> ev.got <= |Content(w, ev.file)| - ReadFrom(StartOf(w.cursors, ev.file, |Content(w, ev.file)|), |Content(w, ev.file)|)
  }

  function Next(w: World, ev: Event): World
    requires Enabled(w, ev)
  {
    match ev
    case Append(f, bytes) => w.(contents := w.contents[f := Content(w, f) + bytes])
    case Visit(f, got) =>
      var (cursors, lines) := VisitOf(w.cursors, f, Content(w, f), got);
      w.(cursors := cursors, handed := w.handed[f := Handed(w, f) + lines])
  }

  ghost predicate IsRun(ws: seq<World>, events: seq<Event>) {
    && |ws| == |events| + 1 && ws[0] == START
    && (forall i | 0 <= i < |events| :: Enabled(ws[i], events[i]) && ws[i + 1] == Next(ws[i], events[i]))
  }

  /** The reader does not forget where it stands in `f`. */
  ghost predicate Remembers(ws: seq<World>, f: File) {
    forall i | 0 <= i < |ws| - 1 :: OffsetOf(ws[i].cursors, f).Some? ==> OffsetOf(ws[i + 1].cursors, f).Some?
  }

  /** At every look at `f`, no more than a mebibyte was added since the last. */
  ghost predicate KeepsUp(ws: seq<World>, events: seq<Event>, f: File)
    requires |ws| == |events| + 1
  {
    forall i | 0 <= i < |events| && events[i] .Visit? && events[i].file == f ::
      |Content(ws[i], f)| - StartOf(ws[i].cursors, f, |Content(ws[i], f)|) <= BACKLOG
  }

  function At(w: World, f: File): nat {
    match OffsetOf(w.cursors, f) case Some(n) => n case None => 0
  }

  ghost predicate Inv(w: World, f: File, exact: bool) {
    && Unique(w.cursors)
    && AtLineStart(Content(w, f), At(w, f))
    && Thinned(Handed(w, f), Lines(Content(w, f)[..At(w, f)]))
    && (exact ==> Handed(w, f) == Lines(Content(w, f)[..At(w, f)]))
  }

  lemma StartOfBoth(a: Bytes, b: Bytes, n: nat)
    requires AtLineStart(a, n)
    ensures AtLineStart(a + b, n) && (a + b)[..n] == a[..n]
  {}

  lemma AppendKeeps(w: World, ev: Event, f: File, exact: bool)
    requires Inv(w, f, exact) && ev.Append?
    ensures Inv(Next(w, ev), f, exact)
  {
    if ev.file == f { StartOfBoth(Content(w, f), ev.bytes, At(w, f)); }
  }

  /** How far a look at `f` gets; nowhere when there is no newline to stop at. */
  function Reached(w: World, f: File, got: nat): (r: nat)
    requires Unique(w.cursors) && At(w, f) <= |Content(w, f)| && Enabled(w, Visit(f, got))
    ensures At(w, f) <= r <= |Content(w, f)|
  {
    var content, at := Content(w, f), At(w, f);
    if at == |content| then at
    else match EndOf(content, ReadFrom(at, |content|), got) case Some(to) => to case None => at
  }

  /** What a look at `f` that got as far as `to` leads to. */
  ghost predicate Moves(w: World, u: World, f: File, to: nat)
    requires At(w, f) <= to <= |Content(w, f)|
  {
    && Unique(u.cursors) && Content(u, f) == Content(w, f) && At(u, f) == to
    && (to == At(w, f) ==> Handed(u, f) == Handed(w, f))
    && (to > At(w, f) ==>
          && Content(w, f)[to - 1] == NEWLINE && ReadFrom(At(w, f), |Content(w, f)|) < to
          && Handed(u, f) == Handed(w, f) + HandedOn(Content(w, f), At(w, f), ReadFrom(At(w, f), |Content(w, f)|), to))
  }

  lemma VisitMoves(w: World, f: File, got: nat, u: World)
    requires Unique(w.cursors) && At(w, f) <= |Content(w, f)| && Enabled(w, Visit(f, got)) && u == Next(w, Visit(f, got))
    requires OffsetOf(w.cursors, f).Some? ==> OffsetOf(u.cursors, f).Some?
    ensures Moves(w, u, f, Reached(w, f, got))
  {
    if At(w, f) == |Content(w, f)| || EndOf(Content(w, f), ReadFrom(At(w, f), |Content(w, f)|), got).None? {
      VisitStays(w, f, got, u);
    } else {
      VisitGoes(w, f, got, u, EndOf(Content(w, f), ReadFrom(At(w, f), |Content(w, f)|), got).value);
    }
  }

  lemma VisitGoes(w: World, f: File, got: nat, u: World, to: nat)
    requires Unique(w.cursors) && At(w, f) < |Content(w, f)| && Enabled(w, Visit(f, got)) && u == Next(w, Visit(f, got))
    requires OffsetOf(w.cursors, f).Some? ==> OffsetOf(u.cursors, f).Some?
    requires EndOf(Content(w, f), ReadFrom(At(w, f), |Content(w, f)|), got) == Some(to)
    ensures At(w, f) < to <= |Content(w, f)| && Moves(w, u, f, to)
  {
    var content, start := Content(w, f), ReadFrom(At(w, f), |Content(w, f)|);
    VisitIs(w, f, got, to);
    CursorReaches(w.cursors, f, to, u.cursors);
    EndIsAfter(content, start, got, to);
    GoesBy(w, u, f, HandedOn(content, At(w, f), start, to), to);
  }

  lemma EndIsAfter(content: Bytes, start: nat, got: nat, to: nat)
    requires start + got <= |content| && EndOf(content, start, got) == Some(to)
    ensures start < to <= |content| && content[to - 1] == NEWLINE
  {}

  lemma GoesBy(w: World, u: World, f: File, lines: seq<Bytes>, to: nat)
    requires At(w, f) <= ReadFrom(At(w, f), |Content(w, f)|) < to <= |Content(w, f)| && Content(w, f)[to - 1] == NEWLINE
    requires lines == HandedOn(Content(w, f), At(w, f), ReadFrom(At(w, f), |Content(w, f)|), to)
    requires u == w.(cursors := u.cursors, handed := w.handed[f := Handed(w, f) + lines]) && Unique(u.cursors) && OffsetOf(u.cursors, f) == Some(to)
    ensures Moves(w, u, f, to)
  {}

  /** A look that finds nothing new, or no newline to stop at. */
  lemma VisitStays(w: World, f: File, got: nat, u: World)
    requires At(w, f) <= |Content(w, f)| && Enabled(w, Visit(f, got)) && u == Next(w, Visit(f, got))
    requires At(w, f) == |Content(w, f)| || EndOf(Content(w, f), ReadFrom(At(w, f), |Content(w, f)|), got).None?
    ensures u.contents == w.contents && u.cursors == w.cursors && Handed(u, f) == Handed(w, f)
  {
    assert VisitOf(w.cursors, f, Content(w, f), got) == (w.cursors, []);
    assert Handed(w, f) + [] == Handed(w, f);
  }

  lemma VisitIs(w: World, f: File, got: nat, to: nat)
    requires At(w, f) < |Content(w, f)| && Enabled(w, Visit(f, got))
    requires EndOf(Content(w, f), ReadFrom(At(w, f), |Content(w, f)|), got) == Some(to)
    ensures Next(w, Visit(f, got)) == w.(cursors := Evicted(WithCursor(w.cursors, Cursor(f, to))),
              handed := w.handed[f := Handed(w, f) + HandedOn(Content(w, f), At(w, f), ReadFrom(At(w, f), |Content(w, f)|), to)])
  {}

  lemma CursorReaches(cursors: seq<Cursor>, f: File, to: nat, after: seq<Cursor>)
    requires Unique(cursors) && after == Evicted(WithCursor(cursors, Cursor(f, to)))
    requires OffsetOf(cursors, f).Some? ==> OffsetOf(after, f).Some?
    ensures Unique(after) && OffsetOf(after, f) == Some(to)
  {
    CursorMoves(cursors, Cursor(f, to), f);
  }

  lemma MovesKeep(w: World, u: World, f: File, to: nat, exact: bool)
    requires Inv(w, f, exact) && At(w, f) <= to <= |Content(w, f)| && Moves(w, u, f, to)
    requires exact ==> |Content(w, f)| - At(w, f) <= BACKLOG
    ensures Inv(u, f, exact)
  {
    var content, at := Content(w, f), At(w, f);
    if to > at {
      HandsOnLines(content, at, to);
      LinesBetween(content, at, to);
      ThinnedBoth(Handed(w, f), Lines(content[..at]), HandedOn(content, at, ReadFrom(at, |content|), to), Lines(content[at..to]));
    }
  }

  lemma OwnVisitKeeps(w: World, got: nat, f: File, exact: bool, u: World)
    requires Inv(w, f, exact) && Enabled(w, Visit(f, got)) && u == Next(w, Visit(f, got))
    requires OffsetOf(w.cursors, f).Some? ==> OffsetOf(u.cursors, f).Some?
    requires exact ==> |Content(w, f)| - At(w, f) <= BACKLOG
    ensures Inv(u, f, exact)
  {
    VisitMoves(w, f, got, u);
    MovesKeep(w, u, f, Reached(w, f, got), exact);
  }

  lemma OtherVisitKeeps(w: World, file: File, got: nat, f: File, exact: bool)
    requires Inv(w, f, exact) && Enabled(w, Visit(file, got)) && f != file
    requires OffsetOf(w.cursors, f).Some? ==> OffsetOf(Next(w, Visit(file, got)).cursors, f).Some?
    ensures Inv(Next(w, Visit(file, got)), f, exact)
  {
    var content := Content(w, file);
    var start := ReadFrom(StartOf(w.cursors, file, |content|), |content|);
    if EndOf(content, start, got).Some? { CursorMoves(w.cursors, Cursor(file, EndOf(content, start, got).value), f); }
  }

  lemma CursorMoves(cursors: seq<Cursor>, c: Cursor, f: File)
    requires Unique(cursors)
    ensures Unique(Evicted(WithCursor(cursors, c)))
    ensures OffsetOf(Evicted(WithCursor(cursors, c)), f).Some? ==>
              OffsetOf(Evicted(WithCursor(cursors, c)), f) == if f == c.file then Some(c.offset) else OffsetOf(cursors, f)
    ensures f == c.file ==> OffsetOf(Evicted(WithCursor(cursors, c)), f).Some? || OffsetOf(cursors, f).Some?
  {
    WithCursorSets(cursors, c, f);
    WithCursorUnique(cursors, c);
    EvictedKeeps(WithCursor(cursors, c), f);
    if f == c.file && OffsetOf(cursors, f).None? { NewCursorIsLast(cursors, c); }
  }

  /** A file looked at for the first time gets the last place, so it is not the one forgotten. */
  lemma {:induction false} NewCursorIsLast(cursors: seq<Cursor>, c: Cursor)
    requires Unique(cursors) && OffsetOf(cursors, c.file).None?
    ensures WithCursor(cursors, c) == cursors + [c] && OffsetOf(Evicted(cursors + [c]), c.file).Some?
  {
    NewCursorAppends(cursors, c);
    var all := cursors + [c];
    OffsetIsIn(Evicted(all), c.file);
    assert Evicted(all)[|Evicted(all)| - 1] == c;
  }

  lemma {:induction false} NewCursorAppends(cursors: seq<Cursor>, c: Cursor)
    requires OffsetOf(cursors, c.file).None?
    ensures WithCursor(cursors, c) == cursors + [c]
  {
    if cursors != [] { NewCursorAppends(cursors[1..], c); }
  }

  lemma {:induction false} RunKeeps(ws: seq<World>, events: seq<Event>, f: File, exact: bool, i: nat)
    requires IsRun(ws, events) && Remembers(ws, f) && (exact ==> KeepsUp(ws, events, f)) && i < |ws|
    ensures Inv(ws[i], f, exact)
  {
    if i == 0 {
      assert Lines([]) == [];
    } else {
      RunKeeps(ws, events, f, exact, i - 1);
      var w, ev := ws[i - 1], events[i - 1];
      assert ws[i] == Next(w, ev);
      match ev
      case Append(_, _) => AppendKeeps(w, ev, f, exact);
      case Visit(file, got) => if file == f { OwnVisitKeeps(w, got, f, exact, ws[i]); } else { OtherVisitKeeps(w, file, got, f, exact); }
    }
  }

  // ---- The main results ----

  /** However a journal grows and however short its reads are, the lines handed on are exactly its
      finished lines up to the cursor, in order, each once: an unfinished line waits for its newline. */
  lemma LinesExactlyOnce(ws: seq<World>, events: seq<Event>, f: File, i: nat)
    requires IsRun(ws, events) && Remembers(ws, f) && KeepsUp(ws, events, f) && i < |ws|
    ensures At(ws[i], f) <= |Content(ws[i], f)| && Handed(ws[i], f) == Lines(Content(ws[i], f)[..At(ws[i], f)])
  {
    RunKeeps(ws, events, f, true, i);
  }

  /** Everything that was appended to `f`. */
  function Appended(events: seq<Event>, f: File): Bytes {
    if events == [] then []
    else
      var ev := events[|events| - 1];
      Appended(events[..|events| - 1], f) + if ev.Append? && ev.file == f then ev.bytes else []
  }

  /** Looks never change a file: it holds what was appended to it, in order. */
  lemma {:induction false} ContentIsAppended(ws: seq<World>, events: seq<Event>, f: File, i: nat)
    requires IsRun(ws, events) && i < |ws|
    ensures Content(ws[i], f) == Appended(events[..i], f)
  {
    if i > 0 {
      ContentIsAppended(ws, events, f, i - 1);
      assert ws[i] == Next(ws[i - 1], events[i - 1]);
      assert events[..i][..i - 1] == events[..i - 1];
    }
  }

  /** When a look reads to the end, every finished line has been handed on. */
  lemma FullReadHandsAll(ws: seq<World>, events: seq<Event>, f: File, i: nat)
    requires IsRun(ws, events) && Remembers(ws, f) && KeepsUp(ws, events, f) && i < |events| && events[i].Visit? && events[i].file == f
    requires events[i].got == |Content(ws[i], f)| - StartOf(ws[i].cursors, f, |Content(ws[i], f)|)
    ensures Handed(ws[i + 1], f) == Lines(Content(ws[i + 1], f))
  {
    RunKeeps(ws, events, f, true, i);
    RunKeeps(ws, events, f, true, i + 1);
    assert ws[i + 1] == Next(ws[i], Visit(f, events[i].got));
    VisitMoves(ws[i], f, events[i].got, ws[i + 1]);
    NothingLeft(ws[i], f, events[i].got);
    var content, to := Content(ws[i + 1], f), At(ws[i + 1], f);
    assert content == content[..to] + content[to..];
    assert to > 0 ==> content[..to][to - 1] == NEWLINE;
    LinesOfUnfinished(content[..to], content[to..]);
  }

  lemma NothingLeft(w: World, f: File, got: nat)
    requires Unique(w.cursors) && At(w, f) <= |Content(w, f)| && Enabled(w, Visit(f, got))
    requires got == |Content(w, f)| - At(w, f) <= BACKLOG
    ensures NEWLINE !in Content(w, f)[Reached(w, f, got)..]
  {
    assert At(w, f) + got == |Content(w, f)|;
  }

  /** Even when more is added than a look takes in, what is handed on are finished lines of the file, in
      order, none twice and none torn. */
  lemma NeverTornOrTwice(ws: seq<World>, events: seq<Event>, f: File, i: nat)
    requires IsRun(ws, events) && Remembers(ws, f) && i < |ws|
    ensures At(ws[i], f) <= |Content(ws[i], f)| && Thinned(Handed(ws[i], f), Lines(Content(ws[i], f)[..At(ws[i], f)]))
  {
    RunKeeps(ws, events, f, false, i);
  }

  lemma {:induction false} FewCursors(ws: seq<World>, events: seq<Event>, files: set<File>, i: nat)
    requires IsRun(ws, events) && i < |ws| && |files| <= CURSORS
    requires forall k | 0 <= k < |events| && events[k].Visit? :: events[k].file in files
    ensures Unique(ws[i].cursors) && |ws[i].cursors| <= CURSORS && forall c | c in ws[i].cursors :: c.file in files
    ensures forall f | i > 0 && OffsetOf(ws[i - 1].cursors, f).Some? :: OffsetOf(ws[i].cursors, f).Some?
  {
    if i > 0 {
      FewCursors(ws, events, files, i - 1);
      var w, ev := ws[i - 1], events[i - 1];
      assert ws[i] == Next(w, ev);
      if ev.Visit? {
        var content := Content(w, ev.file);
        var start := ReadFrom(StartOf(w.cursors, ev.file, |content|), |content|);
        if EndOf(content, start, ev.got).Some? {
          var c := Cursor(ev.file, EndOf(content, start, ev.got).value);
          WithCursorUnique(w.cursors, c);
          CountFiles(WithCursor(w.cursors, c), files);
          forall f | OffsetOf(w.cursors, f).Some? ensures OffsetOf(WithCursor(w.cursors, c), f).Some? { WithCursorSets(w.cursors, c, f); }
        }
      }
    }
  }

  lemma {:induction false} CountFiles(cursors: seq<Cursor>, files: set<File>)
    requires Unique(cursors) && forall c | c in cursors :: c.file in files
    ensures |cursors| <= |files|
  {
    if cursors != [] {
      forall c | c in cursors[1..] ensures c.file in files - {cursors[0].file} {
        var k :| 0 <= k < |cursors[1..]| && cursors[1..][k] == c;
        assert cursors[k + 1] == c;
      }
      assert cursors[0] in cursors;
      CountFiles(cursors[1..], files - {cursors[0].file});
    }
  }

  /** A process that sees no more than sixteen files never forgets where it stands in one. */
  lemma FewFilesAreRemembered(ws: seq<World>, events: seq<Event>, files: set<File>, f: File)
    requires IsRun(ws, events) && |files| <= CURSORS && forall k | 0 <= k < |events| && events[k].Visit? :: events[k].file in files
    ensures Remembers(ws, f)
  {
    forall i | 0 <= i < |ws| - 1 && OffsetOf(ws[i].cursors, f).Some? ensures OffsetOf(ws[i + 1].cursors, f).Some? {
      FewCursors(ws, events, files, i + 1);
    }
  }
}

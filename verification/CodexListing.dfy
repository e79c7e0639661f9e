/** Listing Codex sessions by reading only the newest ones, against the native catalog it must agree
    with, which changes while a listing is under way. */
module CodexListing {

  datatype Option<+T> = None | Some(value: T)

  type Id = nat
  type Generation = nat

  const PROBE_LIMIT: nat := 10
  const PAGE_LIMIT: nat := 100
  const PAGES: nat := 5
  const FULL_MAX_AGE_MS: nat := 300000

  datatype Summary = Summary(id: Id, updatedAt: nat, title: nat)

  datatype Page = Page(sessions: seq<Summary>, next: Option<nat>)

  datatype Listing = Listing(sessions: seq<Summary>, completedAt: nat)

  ghost predicate DistinctIds(s: seq<Summary>) {
    forall i, j | 0 <= i < j < |s| :: s[i].id != s[j].id
  }

  // ---- A full listing: pages under a budget ----

  function Put(m: seq<Summary>, s: Summary): seq<Summary> {
    if m == [] then [s] else if m[0].id == s.id then [s] + m[1..] else [m[0]] + Put(m[1..], s)
  }

  function PutAll(m: seq<Summary>, s: seq<Summary>): seq<Summary> {
    if s == [] then m else Put(PutAll(m, s[..|s| - 1]), s[|s| - 1])
  }

  /** What reading `left` more pages gathers; nothing when a cursor comes back a second time. */
  function Collected(pages: Option<nat> -> Page, cursor: Option<nat>, used: set<nat>, got: seq<Summary>, left: nat): Option<seq<Summary>>
    decreases left
  {
    if left == 0 then Some(got)
    else
      var page := pages(cursor);
      var more := PutAll(got, page.sessions);
      if page.next.None? then Some(more)
      else if page.next.value in used then None
      else Collected(pages, page.next, used + {page.next.value}, more, left - 1)
  }

  /** A native catalog that serves its sessions in order, `limit` at a time. */
  function Serves(catalog: seq<Summary>, cursor: Option<nat>, limit: nat): Page {
    var from := match cursor case Some(n) => if n <= |catalog| then n else |catalog| case None => 0;
    if from + limit < |catalog| then Page(catalog[from..from + limit], Some(from + limit)) else Page(catalog[from..], None)
  }

  function FullPages(catalog: seq<Summary>): Option<nat> -> Page {
    (cursor: Option<nat>) => Serves(catalog, cursor, PAGE_LIMIT)
  }

  lemma {:induction false} PutAppends(m: seq<Summary>, s: Summary)
    requires forall x | x in m :: x.id != s.id
    ensures Put(m, s) == m + [s]
  {
    if m != [] { PutAppends(m[1..], s); }
  }

  lemma {:induction false} PutAllAppends(m: seq<Summary>, s: seq<Summary>)
    requires DistinctIds(m + s)
    ensures PutAll(m, s) == m + s
  {
    if s != [] {
      var n := |s| - 1;
      assert m + s == (m + s[..n]) + [s[n]];
      forall i, j | 0 <= i < j < |m + s[..n]| ensures (m + s[..n])[i].id != (m + s[..n])[j].id {
        assert (m + s)[i] == (m + s[..n])[i] && (m + s)[j] == (m + s[..n])[j];
      }
      PutAllAppends(m, s[..n]);
      forall x | x in m + s[..n] ensures x.id != s[n].id {
        var i :| 0 <= i < |m + s[..n]| && (m + s[..n])[i] == x;
        assert (m + s)[i] == x && (m + s)[|m| + n] == s[n];
      }
      PutAppends(m + s[..n], s[n]);
    }
  }

  /** How many of `size` sessions have been read when `left` more pages follow the first `from`. */
  function Reach(size: nat, from: nat, left: nat): nat
    decreases left
  {
    if left == 0 || from + PAGE_LIMIT >= size then (if left == 0 then from else size) else Reach(size, from + PAGE_LIMIT, left - 1)
  }

  lemma OnePage(catalog: seq<Summary>, from: nat, page: Page)
    requires DistinctIds(catalog) && from <= |catalog| && page == Serves(catalog, if from == 0 then None else Some(from), PAGE_LIMIT)
    ensures page.next == (if from + PAGE_LIMIT < |catalog| then Some(from + PAGE_LIMIT) else None)
    ensures PutAll(catalog[..from], page.sessions) == catalog[..if from + PAGE_LIMIT < |catalog| then from + PAGE_LIMIT else |catalog|]
  {
    assert catalog[..from] + page.sessions == catalog[..from + |page.sessions|];
    PutAllAppends(catalog[..from], page.sessions);
  }

  lemma {:induction false} CollectsPages(catalog: seq<Summary>, pages: Option<nat> -> Page, used: set<nat>, from: nat, left: nat)
    requires DistinctIds(catalog) && from <= |catalog| && (forall u | u in used :: u <= from) && pages == FullPages(catalog)
    ensures Reach(|catalog|, from, left) <= |catalog|
    ensures Collected(pages, if from == 0 then None else Some(from), used, catalog[..from], left) == Some(catalog[..Reach(|catalog|, from, left)])
    decreases left
  {
    if left > 0 {
      OnePage(catalog, from, pages(if from == 0 then None else Some(from)));
      if from + PAGE_LIMIT < |catalog| { CollectsPages(catalog, pages, used + {from + PAGE_LIMIT}, from + PAGE_LIMIT, left - 1); }
    }
  }

  /** A full listing of an unchanging catalog holds its newest 500 sessions, so all of a smaller one. */
  lemma FullListingIsCatalog(catalog: seq<Summary>)
    requires DistinctIds(catalog)
    ensures Collected(FullPages(catalog), None, {}, [], PAGES) == Some(catalog[..if |catalog| <= 500 then |catalog| else 500])
  {
    CollectsPages(catalog, FullPages(catalog), {}, 0, PAGES);
    assert catalog[..0] == [];
    var n := |catalog|;
    assert Reach(n, 400, 1) == if n <= 500 then n else 500;
    assert n > 300 ==> Reach(n, 300, 2) == if n <= 400 then n else Reach(n, 400, 1);
    assert n > 200 ==> Reach(n, 200, 3) == if n <= 300 then n else Reach(n, 300, 2);
    assert n > 100 ==> Reach(n, 100, 4) == if n <= 200 then n else Reach(n, 200, 3);
    assert Reach(n, 0, 5) == if n <= 100 then n else Reach(n, 100, 4);
  }

  // ---- What the directory keeps and how it decides ----

  datatype Cache = Cache(listing: Option<Listing>, generation: Generation)

  /** A listing under way: waiting for its probe, or reading everything. */
  datatype Call = Probing(previous: Listing, generation: Generation) | Reading(generation: Generation)

  function BeginOf(c: Cache, now: nat): Call {
    if c.listing.None? || now as int - c.listing.value.completedAt >= FULL_MAX_AGE_MS then Reading(c.generation)
    else Probing(c.listing.value, c.generation)
  }

  function Remember(c: Cache, sessions: seq<Summary>, completedAt: nat, generation: Generation): Cache {
    if generation == c.generation then c.(listing := Some(Listing(sessions, completedAt))) else c
  }

  function Known(s: seq<Summary>, id: Id): Option<Summary> {
    if s == [] then None else if s[0].id == id then Some(s[0]) else Known(s[1..], id)
  }

  function Unchanged(previous: seq<Summary>, probed: set<Id>, boundary: nat): seq<Summary> {
    if previous == [] then []
    else
      var n := |previous| - 1;
      Unchanged(previous[..n], probed, boundary) + (if previous[n].id !in probed && previous[n].updatedAt <= boundary then [previous[n]] else [])
  }

  function Ids(s: seq<Summary>): set<Id> {
    set x | x in s :: x.id
  }

  /** The listing a probe allows without reading everything. */
  function Merged(previous: seq<Summary>, probe: seq<Summary>): Option<seq<Summary>> {
    if probe == [] then None
    else
      var boundary := probe[|probe| - 1];
      var known := Known(previous, boundary.id);
      if known.Some? && known.value.updatedAt == boundary.updatedAt then Some(probe + Unchanged(previous, Ids(probe), boundary.updatedAt))
      else None
  }

  /** The directory after the probe, with what the call returns or else continues as. */
  function ProbedOf(c: Cache, call: Call, probe: Page, now: nat): (Cache, Option<seq<Summary>>, Option<Call>)
    requires call.Probing?
  {
    if probe.next.None? then (Remember(c, probe.sessions, now, call.generation), Some(probe.sessions), None)
    else
      var merged := Merged(call.previous.sessions, probe.sessions);
      if merged.None? then (c, None, Some(Reading(c.generation)))
      else (Remember(c, merged.value, call.previous.completedAt, call.generation), merged, None)
  }

  function RenamedOf(c: Cache): Cache {
    Cache(None, c.generation + 1)
  }

  class CodexSessionDirectory {
    var listing: Option<Listing>
    var listingGeneration: Generation

    constructor ()
      ensures View() == Cache(None, 0)
    {
      listing, listingGeneration := None, 0;
    }

    function View(): Cache
      reads this
    {
      Cache(listing, listingGeneration)
    }

    method RememberListing(sessions: seq<Summary>, completedAt: nat, generation: Generation)
      modifies this`listing
      ensures View() == Remember(old(View()), sessions, completedAt, generation)
    {
      if generation == listingGeneration { listing := Some(Listing(sessions, completedAt)); }
    }

    /** Reads everything; the pages come from a native catalog that may answer anything. */
    method ListAll(pages: Option<nat> -> Page, generation: Generation, now: nat) returns (sessions: Option<seq<Summary>>)
      modifies this`listing
      ensures sessions == Collected(pages, None, {}, [], PAGES)
      ensures View() == if sessions.Some? then Remember(old(View()), sessions.value, now, generation) else old(View())
    {
      var summaries: seq<Summary>, cursor, cursors, index := [], None, {}, 0;
      while index < PAGES
        invariant 0 <= index <= PAGES
        invariant Collected(pages, None, {}, [], PAGES) == Collected(pages, cursor, cursors, summaries, PAGES - index)
        invariant View() == old(View())
      {
        var page := pages(cursor);
        var i := 0;
        ghost var before := summaries;
        while i < |page.sessions|
          invariant 0 <= i <= |page.sessions| && summaries == PutAll(before, page.sessions[..i])
        {
          assert page.sessions[..i + 1][..i] == page.sessions[..i];
          summaries := Put(summaries, page.sessions[i]);
          i := i + 1;
        }
        assert page.sessions[..i] == page.sessions;
        cursor := page.next;
        if cursor.None? { break; }
        if cursor.value in cursors { return None; }
        cursors, index := cursors + {cursor.value}, index + 1;
      }
      RememberListing(summaries, now, generation);
      return Some(summaries);
    }

    method Probed(call: Call, probe: Page, now: nat) returns (result: Option<seq<Summary>>, next: Option<Call>)
      requires call.Probing?
      modifies this`listing
      ensures (View(), result, next) == ProbedOf(old(View()), call, probe, now)
    {
      if probe.next.None? {
        RememberListing(probe.sessions, now, call.generation);
        return Some(probe.sessions), None;
      }
      if probe.sessions == [] { return None, Some(Reading(listingGeneration)); }
      var previous, boundary := call.previous.sessions, probe.sessions[|probe.sessions| - 1];
      var known := Known(previous, boundary.id);
      if known.None? || known.value.updatedAt != boundary.updatedAt { return None, Some(Reading(listingGeneration)); }
      var rest, i, probed := [], 0, Ids(probe.sessions);
      while i < |previous|
        invariant 0 <= i <= |previous| && rest == Unchanged(previous[..i], probed, boundary.updatedAt)
      {
        assert previous[..i + 1][..i] == previous[..i];
        if previous[i].id !in probed && previous[i].updatedAt <= boundary.updatedAt { rest := rest + [previous[i]]; }
        i := i + 1;
      }
      assert previous[..i] == previous;
      RememberListing(probe.sessions + rest, call.previous.completedAt, call.generation);
      return Some(probe.sessions + rest), None;
    }

    method Renamed()
      modifies this
      ensures View() == RenamedOf(old(View()))
    {
      listing, listingGeneration := None, listingGeneration + 1;
    }
  }

  // ---- The native catalog and the directory together ----

  /** `clock` is the latest update time given out.  For the cached listing and for the one a call
      started from, the world also keeps when it was read and which titles changed since. */
  datatype World = World(
    catalog: seq<Summary>,
    clock: nat,
    renaming: multiset<Id>,
    cache: Cache,
    cacheSeen: nat,
    cacheRetitled: set<Id>,
    call: Option<Call>,
    callSeen: nat,
    callRetitled: set<Id>)

  datatype Event =
    | Updated(id: Id, title: nat)               // created, or changed: a later time than any before
    | Removed(id: Id)
    | RenameStarts(id: Id)
    | RenameTakesEffect(id: Id, title: nat)     // the title changes, the update time need not
    | RenameEnds(id: Id)
    | Begin(now: nat)
    | ProbeAnswered(now: nat)
    | AllAnswered(now: nat)

  function Without(s: seq<Summary>, id: Id): seq<Summary> {
    if s == [] then [] else (if s[0].id == id then [] else [s[0]]) + Without(s[1..], id)
  }

  function Retitled(s: seq<Summary>, id: Id, title: nat): seq<Summary> {
    if s == [] then [] else [if s[0].id == id then s[0].(title := title) else s[0]] + Retitled(s[1..], id, title)
  }

  predicate Enabled(w: World, ev: Event) {
    match ev
    case RenameTakesEffect(id, _) => id in w.renaming
    case RenameEnds(id) => id in w.renaming
    case Begin(_) => w.call.None?
    case ProbeAnswered(_) => w.call.Some? && w.call.value.Probing?
    case AllAnswered(_) => w.call.Some? && w.call.value.Reading? && |w.catalog| <= PAGES * PAGE_LIMIT
    case _ => true
  }

  function Probe(w: World): Page {
    Serves(w.catalog, None, PROBE_LIMIT)
  }

  function Next(w: World, ev: Event): World
    requires Enabled(w, ev)
  {
    match ev
    case Updated(id, title) => w.(catalog := [Summary(id, w.clock + 1, title)] + Without(w.catalog, id), clock := w.clock + 1)
    case Removed(id) => w.(catalog := Without(w.catalog, id))
    case RenameStarts(id) => w.(renaming := w.renaming + multiset{id})
    case RenameTakesEffect(id, title) =>
      w.(catalog := Retitled(w.catalog, id, title), cacheRetitled := w.cacheRetitled + {id}, callRetitled := w.callRetitled + {id})
    case RenameEnds(id) => w.(renaming := w.renaming - multiset{id}, cache := RenamedOf(w.cache))
    case Begin(now) => w.(call := Some(BeginOf(w.cache, now)), callSeen := w.cacheSeen, callRetitled := w.cacheRetitled)
    case ProbeAnswered(now) =>
      var (cache, result, rest) := ProbedOf(w.cache, w.call.value, Probe(w), now);
      var cached := result.Some? && w.call.value.generation == w.cache.generation;
      w.(cache := cache, call := rest, cacheSeen := if cached then w.clock else w.cacheSeen,
         cacheRetitled := if !cached then w.cacheRetitled else if Probe(w).next.None? then {} else w.callRetitled)
    case AllAnswered(now) =>
      var cached := w.call.value.generation == w.cache.generation;
      w.(cache := Remember(w.cache, w.catalog, now, w.call.value.generation), call := None,
         cacheSeen := if cached then w.clock else w.cacheSeen, cacheRetitled := if cached then {} else w.cacheRetitled)
  }

  ghost predicate Ordered(catalog: seq<Summary>, clock: nat) {
    && (forall i, j | 0 <= i < j < |catalog| :: catalog[i].updatedAt >= catalog[j].updatedAt)
    && (forall i | 0 <= i < |catalog| :: catalog[i].updatedAt <= clock)
  }

  /** A listing read when `seen` was the latest update time: every session not updated since is in it,
      with its title unless that was changed since. */
  ghost predicate Tracks(sessions: seq<Summary>, seen: nat, retitled: set<Id>, catalog: seq<Summary>) {
    && DistinctIds(sessions)
    && (forall s | s in sessions :: s.updatedAt <= seen)
    && (forall c | c in catalog && c.updatedAt <= seen :: Listed(sessions, retitled, c))
  }

  ghost predicate Listed(sessions: seq<Summary>, retitled: set<Id>, c: Summary) {
    exists s | s in sessions :: s.id == c.id && s.updatedAt == c.updatedAt && (s == c || c.id in retitled)
  }

  ghost predicate Inv(w: World) {
    && DistinctIds(w.catalog) && Ordered(w.catalog, w.clock)
    && CacheInv(w.cache, w.cacheSeen, w.cacheRetitled, w.catalog, w.clock, w.renaming)
    && (w.call.Some? ==> CallInv(w.call.value, w.callSeen, w.callRetitled, w.catalog, w.clock, w.cache.generation, w.renaming))
  }

  ghost predicate CacheInv(cache: Cache, seen: nat, retitled: set<Id>, catalog: seq<Summary>, clock: nat, renaming: multiset<Id>) {
    cache.listing.Some? ==>
      && Tracks(cache.listing.value.sessions, seen, retitled, catalog) && seen <= clock
      && forall id | id in retitled :: id in renaming
  }

  ghost predicate CallInv(call: Call, seen: nat, retitled: set<Id>, catalog: seq<Summary>, clock: nat, generation: Generation, renaming: multiset<Id>) {
    && call.generation <= generation
    && (call.Probing? ==>
          && Tracks(call.previous.sessions, seen, retitled, catalog) && seen <= clock
          && (call.generation == generation ==> forall id | id in retitled :: id in renaming))
  }

  // ---- Changes of the catalog ----

  lemma {:induction false} WithoutKeeps(s: seq<Summary>, id: Id, clock: nat)
    requires DistinctIds(s) && Ordered(s, clock)
    ensures DistinctIds(Without(s, id)) && Ordered(Without(s, id), clock)
    ensures forall x :: x in Without(s, id) <==> x in s && x.id != id
  {
    if s != [] {
      assert s == [s[0]] + s[1..];
      WithoutKeeps(s[1..], id, clock);
      var rest := Without(s[1..], id);
      forall i | 0 <= i < |rest| ensures rest[i].id != s[0].id && rest[i].updatedAt <= s[0].updatedAt {
        assert rest[i] in s[1..];
        var k :| 0 <= k < |s[1..]| && s[1..][k] == rest[i];
        assert s[k + 1] == rest[i];
      }
    }
  }

  lemma {:induction false} RetitledKeeps(s: seq<Summary>, id: Id, title: nat, clock: nat)
    requires DistinctIds(s) && Ordered(s, clock)
    ensures |Retitled(s, id, title)| == |s|
    ensures forall i | 0 <= i < |s| :: Retitled(s, id, title)[i] == if s[i].id == id then s[i].(title := title) else s[i]
    ensures DistinctIds(Retitled(s, id, title)) && Ordered(Retitled(s, id, title), clock)
  {
    if s != [] { RetitledKeeps(s[1..], id, title, clock); }
  }

  lemma TracksRetitled(sessions: seq<Summary>, seen: nat, retitled: set<Id>, catalog: seq<Summary>, id: Id, title: nat, clock: nat)
    requires Tracks(sessions, seen, retitled, catalog) && DistinctIds(catalog) && Ordered(catalog, clock)
    ensures Tracks(sessions, seen, retitled + {id}, Retitled(catalog, id, title))
  {
    RetitledKeeps(catalog, id, title, clock);
    var changed := Retitled(catalog, id, title);
    forall c | c in changed && c.updatedAt <= seen ensures Listed(sessions, retitled + {id}, c) {
      var i :| 0 <= i < |changed| && changed[i] == c;
      assert catalog[i] in catalog;
      assert Listed(sessions, retitled, catalog[i]);
      var s :| s in sessions && s.id == catalog[i].id && s.updatedAt == catalog[i].updatedAt && (s == catalog[i] || catalog[i].id in retitled);
    }
  }

  // ---- The merge ----

  lemma {:induction false} KnownIsFirst(s: seq<Summary>, id: Id)
    ensures Known(s, id).Some? ==> Known(s, id).value in s && Known(s, id).value.id == id
  {
    if s != [] { KnownIsFirst(s[1..], id); }
  }

  lemma {:induction false} UnchangedSelects(previous: seq<Summary>, probed: set<Id>, boundary: nat)
    requires DistinctIds(previous)
    ensures DistinctIds(Unchanged(previous, probed, boundary))
    ensures forall x :: x in Unchanged(previous, probed, boundary) <==> x in previous && x.id !in probed && x.updatedAt <= boundary
  {
    if previous != [] {
      var n := |previous| - 1;
      UnchangedSelects(previous[..n], probed, boundary);
      assert previous == previous[..n] + [previous[n]];
      var before := Unchanged(previous[..n], probed, boundary);
      forall i | 0 <= i < |before| ensures before[i].id != previous[n].id {
        assert before[i] in before;
        var k :| 0 <= k < n && previous[..n][k] == before[i];
        assert previous[k] == before[i];
      }
    }
  }

  /** What a merged listing says about the catalog it was probed from. */
  ghost predicate Agrees(sessions: seq<Summary>, retitled: set<Id>, catalog: seq<Summary>, previous: seq<Summary>, boundary: nat) {
    && DistinctIds(sessions)
    && (forall c | c in catalog :: Listed(sessions, retitled, c))
    && (forall s | s in sessions ::
          || Current(catalog, retitled, s)
          || (s in previous && s.updatedAt <= boundary && forall c | c in catalog :: c.id != s.id))
  }

  /** A catalog whose newest sessions end with one that `previous` knows unchanged. */
  ghost predicate Bounded(previous: seq<Summary>, seen: nat, retitled: set<Id>, catalog: seq<Summary>, clock: nat) {
    && Tracks(previous, seen, retitled, catalog) && DistinctIds(catalog) && Ordered(catalog, clock) && |catalog| > PROBE_LIMIT
    && catalog[PROBE_LIMIT - 1].updatedAt <= seen
  }

  lemma MergeCovers(previous: seq<Summary>, seen: nat, retitled: set<Id>, catalog: seq<Summary>, clock: nat, c: Summary)
    requires Bounded(previous, seen, retitled, catalog, clock) && c in catalog
    ensures var probe := catalog[..PROBE_LIMIT];
            Listed(probe + Unchanged(previous, Ids(probe), catalog[PROBE_LIMIT - 1].updatedAt), retitled, c)
  {
    var probe, b := catalog[..PROBE_LIMIT], catalog[PROBE_LIMIT - 1].updatedAt;
    var merged := probe + Unchanged(previous, Ids(probe), b);
    UnchangedSelects(previous, Ids(probe), b);
    if c in probe {
      assert c in merged;
    } else {
      assert Listed(previous, retitled, c);
      var s :| s in previous && s.id == c.id && s.updatedAt == c.updatedAt && (s == c || c.id in retitled);
      assert s in merged;
    }
  }

  ghost predicate Current(catalog: seq<Summary>, retitled: set<Id>, s: Summary) {
    exists c | c in catalog :: s.id == c.id && s.updatedAt == c.updatedAt && (s == c || c.id in retitled)
  }

  lemma MergedIsDistinct(probe: seq<Summary>, rest: seq<Summary>)
    requires DistinctIds(probe) && DistinctIds(rest) && forall s | s in rest :: s.id !in Ids(probe)
    ensures DistinctIds(probe + rest)
  {
    forall i, j | 0 <= i < |probe| && 0 <= j < |rest| ensures probe[i].id != rest[j].id { assert probe[i] in probe && rest[j] in rest; }
  }

  lemma MergedHolds(previous: seq<Summary>, seen: nat, retitled: set<Id>, catalog: seq<Summary>, clock: nat, s: Summary)
    requires Bounded(previous, seen, retitled, catalog, clock)
    requires var probe := catalog[..PROBE_LIMIT]; s in probe + Unchanged(previous, Ids(probe), catalog[PROBE_LIMIT - 1].updatedAt)
    ensures s.updatedAt <= clock || s.updatedAt <= seen
    ensures Current(catalog, retitled, s) || (s in previous && s.updatedAt <= catalog[PROBE_LIMIT - 1].updatedAt && forall c | c in catalog :: c.id != s.id)
  {
    var probe, b := catalog[..PROBE_LIMIT], catalog[PROBE_LIMIT - 1].updatedAt;
    UnchangedSelects(previous, Ids(probe), b);
    assert s in probe ==> s in catalog;
  }

  lemma BoundaryIsKnown(previous: seq<Summary>, seen: nat, retitled: set<Id>, catalog: seq<Summary>, clock: nat)
    requires Tracks(previous, seen, retitled, catalog) && DistinctIds(catalog) && Ordered(catalog, clock) && |catalog| > PROBE_LIMIT
    requires Merged(previous, catalog[..PROBE_LIMIT]).Some?
    ensures Bounded(previous, seen, retitled, catalog, clock)
  {
    KnownIsFirst(previous, catalog[PROBE_LIMIT - 1].id);
  }

  lemma MergeAgrees(previous: seq<Summary>, seen: nat, retitled: set<Id>, catalog: seq<Summary>, clock: nat)
    requires Tracks(previous, seen, retitled, catalog) && DistinctIds(catalog) && Ordered(catalog, clock) && |catalog| > PROBE_LIMIT
    requires Merged(previous, catalog[..PROBE_LIMIT]).Some?
    ensures Agrees(Merged(previous, catalog[..PROBE_LIMIT]).value, retitled, catalog, previous, catalog[PROBE_LIMIT - 1].updatedAt)
    ensures forall s | s in Merged(previous, catalog[..PROBE_LIMIT]).value :: s.updatedAt <= clock || s.updatedAt <= seen
  {
    var probe, b := catalog[..PROBE_LIMIT], catalog[PROBE_LIMIT - 1];
    var rest := Unchanged(previous, Ids(probe), b.updatedAt);
    assert Merged(previous, probe).value == probe + rest;
    BoundaryIsKnown(previous, seen, retitled, catalog, clock);
    UnchangedSelects(previous, Ids(probe), b.updatedAt);
    MergedIsDistinct(probe, rest);
    forall c | c in catalog ensures Listed(probe + rest, retitled, c) { MergeCovers(previous, seen, retitled, catalog, clock, c); }
    forall s: Summary | s in probe + rest
      ensures (s.updatedAt <= clock || s.updatedAt <= seen)
              && (Current(catalog, retitled, s) || (s in previous && s.updatedAt <= b.updatedAt && forall c | c in catalog :: c.id != s.id)) {
      MergedHolds(previous, seen, retitled, catalog, clock, s);
    }
  }

  // ---- Every step ----

  lemma RetitleKeeps(w: World, id: Id, title: nat)
    requires Inv(w) && id in w.renaming
    ensures Inv(Next(w, RenameTakesEffect(id, title)))
  {
    RetitledKeeps(w.catalog, id, title, w.clock);
    if w.cache.listing.Some? { TracksRetitled(w.cache.listing.value.sessions, w.cacheSeen, w.cacheRetitled, w.catalog, id, title, w.clock); }
    if w.call.Some? && w.call.value.Probing? {
      TracksRetitled(w.call.value.previous.sessions, w.callSeen, w.callRetitled, w.catalog, id, title, w.clock);
    }
  }

  lemma NativeStep(w: World, ev: Event, u: World)
    requires Inv(w) && Enabled(w, ev) && (ev.Updated? || ev.Removed? || ev.RenameTakesEffect?) && u == Next(w, ev)
    ensures Inv(u)
  {
    if ev.RenameTakesEffect? {
      RetitleKeeps(w, ev.id, ev.title);
    } else {
      WithoutKeeps(w.catalog, ev.id, w.clock);
    }
  }

  lemma DirectoryStep(w: World, ev: Event)
    requires Inv(w) && Enabled(w, ev) && !(ev.Updated? || ev.Removed? || ev.RenameTakesEffect?)
    ensures Inv(Next(w, ev))
  {
    match ev
    case ProbeAnswered(now) =>
      var call := w.call.value;
      if Probe(w).next.None? {
        assert w.catalog[0..] == w.catalog;
      } else if Merged(call.previous.sessions, Probe(w).sessions).Some? {
        MergeAgrees(call.previous.sessions, w.callSeen, w.callRetitled, w.catalog, w.clock);
      }
    case _ =>
  }

  // ---- Runs ----

  ghost predicate Starts(w: World) {
    && DistinctIds(w.catalog) && Ordered(w.catalog, w.clock) && w.renaming == multiset{}
    && w.cache == Cache(None, 0) && w.call.None?
  }

  ghost predicate IsRun(ws: seq<World>, events: seq<Event>) {
    && |ws| == |events| + 1 && Starts(ws[0])
    && (forall i | 0 <= i < |events| :: Enabled(ws[i], events[i]) && ws[i + 1] == Next(ws[i], events[i]))
  }

  lemma {:induction false} RunKeeps(ws: seq<World>, events: seq<Event>, i: nat)
    requires IsRun(ws, events) && i < |ws|
    ensures Inv(ws[i])
  {
    if i > 0 {
      RunKeeps(ws, events, i - 1);
      var ev := events[i - 1];
      if ev.Updated? || ev.Removed? || ev.RenameTakesEffect? { NativeStep(ws[i - 1], ev, ws[i]); } else { DirectoryStep(ws[i - 1], ev); }
    }
  }

  // ---- The main results ----

  /** The listing a probe answers is the catalog of that moment: every session is in it with its update
      time, and with its title unless a rename changed that since the call began or is still under way.
      Besides those it only holds sessions of the previous listing that were removed since, none
      updated after the last probed one. */
  lemma IncrementalIsCurrent(ws: seq<World>, events: seq<Event>, i: nat)
    requires IsRun(ws, events) && i < |events| && events[i].ProbeAnswered?
    ensures var w := ws[i];
            var (_, result, _) := ProbedOf(w.cache, w.call.value, Probe(w), events[i].now);
            && (result.Some? && Probe(w).next.None? ==> result.value == w.catalog)
            && (result.Some? && Probe(w).next.Some? ==>
                  Agrees(result.value, w.callRetitled, w.catalog, w.call.value.previous.sessions, w.catalog[PROBE_LIMIT - 1].updatedAt))
            && (w.call.value.generation == w.cache.generation ==> forall id | id in w.callRetitled :: id in w.renaming)
  {
    RunKeeps(ws, events, i);
    var w := ws[i];
    if Probe(w).next.None? {
      assert w.catalog[0..] == w.catalog;
    } else if Merged(w.call.value.previous.sessions, Probe(w).sessions).Some? {
      MergeAgrees(w.call.value.previous.sessions, w.callSeen, w.callRetitled, w.catalog, w.clock);
    }
  }

  /** A listing begun before a rename ended is not kept: whatever is cached shows every session not
      updated since with its current title, unless a rename of it is still under way. */
  lemma CachedTitlesAreCurrent(ws: seq<World>, events: seq<Event>, i: nat, c: Summary)
    requires IsRun(ws, events) && i < |ws| && ws[i].cache.listing.Some?
    requires c in ws[i].catalog && c.updatedAt <= ws[i].cacheSeen && c.id !in ws[i].renaming
    ensures c in ws[i].cache.listing.value.sessions
  {
    RunKeeps(ws, events, i);
    assert Listed(ws[i].cache.listing.value.sessions, ws[i].cacheRetitled, c);
  }

  lemma {:induction false} GenerationsGrow(ws: seq<World>, events: seq<Event>, i: nat, j: nat)
    requires IsRun(ws, events) && i <= j < |ws|
    ensures ws[i].cache.generation <= ws[j].cache.generation
  {
    if i < j { GenerationsGrow(ws, events, i, j - 1); }
  }

  /** When a rename ends while a probe or a full reading of the catalog is out, what it answers does
      not touch what is cached, although the caller gets it. */
  lemma ListingFromBeforeIsNotKept(ws: seq<World>, events: seq<Event>, i: nat, j: nat)
    requires IsRun(ws, events) && i < j < |events| && events[i].RenameEnds? && (events[j].ProbeAnswered? || events[j].AllAnswered?)
    requires ws[i].call == ws[j].call
    ensures ws[j + 1].cache == ws[j].cache && ws[j + 1].cacheSeen == ws[j].cacheSeen && ws[j + 1].cacheRetitled == ws[j].cacheRetitled
  {
    RunKeeps(ws, events, i);
    GenerationsGrow(ws, events, i + 1, j);
    assert ws[i + 1] == Next(ws[i], events[i]);
    AnswerIsOld(ws[j], events[j], ws[j + 1]);
  }

  lemma AnswerIsOld(w: World, ev: Event, u: World)
    requires Enabled(w, ev) && (ev.ProbeAnswered? || ev.AllAnswered?) && w.call.value.generation < w.cache.generation && u == Next(w, ev)
    ensures u.cache == w.cache && u.cacheSeen == w.cacheSeen && u.cacheRetitled == w.cacheRetitled
  {}

  // ---- How old an answer can be ----

  /** The directory reads the whole catalog, at once or as a probe that reaches its end. */
  predicate ReadsAll(w: World, ev: Event) {
    Enabled(w, ev) && (ev.AllAnswered? || (ev.ProbeAnswered? && Probe(w).next.None?))
  }

  /** Each of the sessions was in the catalog at some moment from `k` to `i`. */
  ghost predicate Witnessed(ws: seq<World>, k: nat, i: nat, sessions: seq<Summary>) {
    forall s | s in sessions :: exists m: nat :: k <= m <= i < |ws| && HasId(ws[m].catalog, s.id)
  }

  predicate HasId(catalog: seq<Summary>, id: Id) {
    exists c | c in catalog :: c.id == id
  }

  /** A call that waits for its probe began when the listing it has was younger than five minutes. */
  lemma {:induction false} CallBegan(ws: seq<World>, events: seq<Event>, i: nat) returns (b: nat)
    requires IsRun(ws, events) && i < |ws| && ws[i].call.Some? && ws[i].call.value.Probing?
    ensures b < i && events[b].Begin? && ws[b].cache.listing == Some(ws[i].call.value.previous)
    ensures events[b].now < ws[i].call.value.previous.completedAt + 300000
  {
    if ws[i - 1].call == ws[i].call { b := CallBegan(ws, events, i - 1); } else { b := i - 1; }
  }

  lemma WitnessedLater(ws: seq<World>, k: nat, i: nat, j: nat, sessions: seq<Summary>)
    requires Witnessed(ws, k, i, sessions) && i <= j < |ws|
    ensures Witnessed(ws, k, j, sessions)
  {
    forall s | s in sessions ensures exists m: nat :: k <= m <= j && HasId(ws[m].catalog, s.id) {
      var m: nat :| k <= m <= i && HasId(ws[m].catalog, s.id);
      assert k <= m <= j && HasId(ws[m].catalog, s.id);
    }
  }

  lemma WitnessedNow(ws: seq<World>, k: nat, i: nat, sessions: seq<Summary>)
    requires k <= i < |ws| && forall s | s in sessions :: s in ws[i].catalog
    ensures Witnessed(ws, k, i, sessions)
  {
    forall s | s in sessions ensures exists m: nat :: k <= m <= i && HasId(ws[m].catalog, s.id) {
      assert HasId(ws[i].catalog, s.id);
    }
  }

  lemma MergeIsWitnessed(ws: seq<World>, k: nat, i: nat, previous: seq<Summary>, probe: seq<Summary>)
    requires k <= i < |ws| && Witnessed(ws, k, i, previous) && (forall s | s in probe :: s in ws[i].catalog)
    requires DistinctIds(previous) && Merged(previous, probe).Some?
    ensures Witnessed(ws, k, i, Merged(previous, probe).value)
  {
    var boundary := probe[|probe| - 1].updatedAt;
    UnchangedSelects(previous, Ids(probe), boundary);
    WitnessedNow(ws, k, i, probe);
    forall s | s in probe + Unchanged(previous, Ids(probe), boundary) ensures exists m: nat :: k <= m <= i && HasId(ws[m].catalog, s.id) {
      assert s in probe || s in previous;
    }
  }

  lemma ProbeIsCatalog(w: World)
    ensures forall s | s in Probe(w).sessions :: s in w.catalog
    ensures Probe(w).next.None? ==> Probe(w).sessions == w.catalog
  {
    assert w.catalog[0..] == w.catalog;
  }

  /** What is cached goes back to a reading of the whole catalog at the time it bears, and holds only
      sessions that were there then or later. */
  lemma {:induction false} CacheGoesBack(ws: seq<World>, events: seq<Event>, i: nat) returns (k: nat)
    requires IsRun(ws, events) && i < |ws| && ws[i].cache.listing.Some?
    ensures k < i && ReadsAll(ws[k], events[k]) && events[k].now == ws[i].cache.listing.value.completedAt
    ensures Witnessed(ws, k, i, ws[i].cache.listing.value.sessions)
    decreases i
  {
    var w, ev := ws[i - 1], events[i - 1];
    assert ws[i] == Next(w, ev) && Enabled(w, ev);
    if ws[i].cache.listing == w.cache.listing {
      k := CacheGoesBack(ws, events, i - 1);
      WitnessedLater(ws, k, i - 1, i, ws[i].cache.listing.value.sessions);
    } else if ReadsAll(w, ev) {
      k := i - 1;
      ProbeIsCatalog(w);
      WitnessedNow(ws, k, i - 1, ws[i].cache.listing.value.sessions);
      WitnessedLater(ws, k, i - 1, i, ws[i].cache.listing.value.sessions);
    } else {
      k := MergeGoesBack(ws, events, i - 1);
      WitnessedLater(ws, k, i - 1, i, ws[i].cache.listing.value.sessions);
    }
  }

  lemma {:induction false} MergeGoesBack(ws: seq<World>, events: seq<Event>, i: nat) returns (k: nat)
    requires IsRun(ws, events) && i < |events| && events[i].ProbeAnswered? && Probe(ws[i]).next.Some?
    requires Merged(ws[i].call.value.previous.sessions, Probe(ws[i]).sessions).Some?
    ensures k < i && ReadsAll(ws[k], events[k]) && events[k].now == ws[i].call.value.previous.completedAt
    ensures Witnessed(ws, k, i, Merged(ws[i].call.value.previous.sessions, Probe(ws[i]).sessions).value)
    decreases i
  {
    assert Enabled(ws[i], events[i]);
    var b := CallBegan(ws, events, i);
    k := CacheGoesBack(ws, events, b);
    WitnessedLater(ws, k, b, i, ws[i].call.value.previous.sessions);
    RunKeeps(ws, events, i);
    ProbeIsCatalog(ws[i]);
    MergeIsWitnessed(ws, k, i, ws[i].call.value.previous.sessions, Probe(ws[i]).sessions);
  }

  /** A removed session goes within five minutes: whatever a probe answers was in the catalog after a
      reading of all of it that was younger than five minutes when the call began, or is that reading. */
  lemma AnswerIsRecent(ws: seq<World>, events: seq<Event>, i: nat) returns (b: nat, k: nat)
    requires IsRun(ws, events) && i < |events| && events[i].ProbeAnswered?
    requires ProbedOf(ws[i].cache, ws[i].call.value, Probe(ws[i]), events[i].now).1.Some?
    ensures b < i && events[b].Begin? && k <= i && ReadsAll(ws[k], events[k]) && (k < i ==> events[b].now < events[k].now + 300000)
    ensures Witnessed(ws, k, i, ProbedOf(ws[i].cache, ws[i].call.value, Probe(ws[i]), events[i].now).1.value)
  {
    assert Enabled(ws[i], events[i]);
    b := CallBegan(ws, events, i);
    if Probe(ws[i]).next.None? {
      k := i;
      ProbeIsCatalog(ws[i]);
      WitnessedNow(ws, i, i, Probe(ws[i]).sessions);
    } else {
      k := MergeGoesBack(ws, events, i);
    }
  }

  /** A call reads everything when there is no listing, the one there is five minutes old, or its probe
      does not end with a session that is known unchanged. */
  lemma ReadsAllExactly(w: World, now: nat)
    requires w.call.None?
    ensures var u := Next(w, Begin(now));
            && u.call.Some? && u.cache == w.cache && u.call.value.generation == w.cache.generation
            && (u.call.value.Reading? <==> w.cache.listing.None? || now >= w.cache.listing.value.completedAt + 300000)
            && (u.call.value.Probing? ==> Some(u.call.value.previous) == w.cache.listing)
  {}

  lemma GoesOnReading(w: World, now: nat)
    requires w.call.Some? && w.call.value.Probing?
    ensures var u, probe := Next(w, ProbeAnswered(now)), Probe(w);
            && (u.call.Some? <==> probe.next.Some? && !EndsKnown(w.call.value.previous.sessions, probe.sessions))
            && (u.call.Some? ==> u.call == Some(Reading(w.cache.generation)) && u.cache == w.cache)
  {
    var probe := Probe(w).sessions;
    if probe != [] { KnownIsFirst(w.call.value.previous.sessions, probe[|probe| - 1].id); }
  }

  /** The last probed session is the first of its identity in the previous listing, with the same time. */
  predicate EndsKnown(previous: seq<Summary>, probe: seq<Summary>) {
    probe != [] && Known(previous, probe[|probe| - 1].id).Some? && Known(previous, probe[|probe| - 1].id).value.updatedAt == probe[|probe| - 1].updatedAt
  }

  // ---- A rename, step by step ----

  ghost predicate IsReachable(w: World) {
    exists ws, events :: IsRun(ws, events) && ws[|events|] == w
  }

  lemma Go(w: World, ev: Event) returns (v: World)
    requires IsReachable(w) && Enabled(w, ev)
    ensures IsReachable(v) && v == Next(w, ev)
  {
    var ws, events :| IsRun(ws, events) && ws[|events|] == w;
    v := Next(w, ev);
    assert IsRun(ws + [v], events + [ev]) && (ws + [v])[|events + [ev]|] == v;
  }

  const EMPTY := World([], 0, multiset{}, Cache(None, 0), 0, {}, None, 0, {})

  lemma Listed1() returns (w: World)
    ensures IsReachable(w)
    ensures w.catalog == [Summary(1, 1, 5)] && w.renaming == multiset{} && w.cache == Cache(Some(Listing([Summary(1, 1, 5)], 0)), 0) && w.call == None
  {
    var none: seq<Event> := [];
    assert IsRun([EMPTY], none) && [EMPTY][|none|] == EMPTY;
    w := Go(EMPTY, Updated(1, 5));
    w := Go(w, Begin(0));
    w := Go(w, AllAnswered(0));
  }

  lemma RenamedWhileListed() returns (w: World)
    ensures IsReachable(w)
    ensures w.catalog == [Summary(1, 1, 6)] && w.renaming == multiset{} && w.cache == Cache(None, 1) && w.call == None
  {
    w := Listed1();
    w := Go(w, RenameStarts(1));
    w := Go(w, RenameTakesEffect(1, 6));
    assert w.catalog == [Summary(1, 1, 6)] + Retitled([], 1, 6);
    w := Go(w, RenameEnds(1));
  }

  lemma ReadAgain() returns (w: World)
    ensures IsReachable(w)
    ensures w.catalog == [Summary(1, 1, 6)] && w.cache == Cache(Some(Listing([Summary(1, 1, 6)], 1)), 1) && w.call == None
  {
    w := RenamedWhileListed();
    w := Go(w, Begin(1));
    w := Go(w, AllAnswered(1));
  }

  /** A renamed session is read again with its new title, and a removed one is gone from the next
      listing of a small catalog. */
  lemma RenamedThenRemoved() returns (w: World)
    ensures IsReachable(w) && w.catalog == [] && w.cache == Cache(Some(Listing([], 2)), 1) && w.call == None
  {
    w := ReadAgain();
    w := Go(w, Removed(1));
    assert w.catalog == Without([], 1) == [];
    w := Go(w, Begin(2));
    w := Go(w, ProbeAnswered(2));
  }
}

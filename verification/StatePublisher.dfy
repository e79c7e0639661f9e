/** Session states a Host reports, and the copy a Relay keeps by applying the reports. */
module StatePublisher {

  datatype Option<+T> = None | Some(value: T)

  const LIMIT: nat := 4096
  const STALE_MS: nat := 180000

  datatype Activity = Running | Waiting | Idle | Failed

  datatype Key = Key(provider: nat, session: nat)

  datatype State = State(key: Key, activity: Activity, updatedAt: Option<nat>)

  /** What one provider's catalog last reported. */
  datatype Reading = Reading(provider: nat, states: seq<State>, readAt: nat, nextReadAt: nat)

  /** A complete report replaces the receiver's states; otherwise it removes and sets the listed ones. */
  datatype Report = Report(full: bool, states: seq<State>, removed: seq<Key>)

  // ---- Maps that remember the order of insertion ----

  ghost predicate Distinct(m: seq<State>) {
    forall i, j | 0 <= i < j < |m| :: m[i].key != m[j].key
  }

  function Get(m: seq<State>, k: Key): Option<State> {
    if m == [] then None else if m[0].key == k then Some(m[0]) else Get(m[1..], k)
  }

  function Put(m: seq<State>, s: State): seq<State> {
    if m == [] then [s] else if m[0].key == s.key then [s] + m[1..] else [m[0]] + Put(m[1..], s)
  }

  function PutAll(m: seq<State>, states: seq<State>): seq<State> {
    if states == [] then m else Put(PutAll(m, states[..|states| - 1]), states[|states| - 1])
  }

  function AsMap(m: seq<State>): map<Key, State> {
    if m == [] then map[] else AsMap(m[1..])[m[0].key := m[0]]
  }

  lemma {:induction false} AsMapGets(m: seq<State>, k: Key)
    ensures k in AsMap(m) <==> Get(m, k).Some?
    ensures k in AsMap(m) ==> AsMap(m)[k] == Get(m, k).value && Get(m, k).value in m && Get(m, k).value.key == k
  {
    if m != [] { AsMapGets(m[1..], k); }
  }

  lemma {:induction false} PutMaps(m: seq<State>, s: State)
    ensures AsMap(Put(m, s)) == AsMap(m)[s.key := s]
  {
    if m != [] && m[0].key != s.key {
      PutMaps(m[1..], s);
      assert ([m[0]] + Put(m[1..], s))[1..] == Put(m[1..], s);
    } else if m != [] {
      assert ([s] + m[1..])[1..] == m[1..];
    }
  }

  lemma {:induction false} PutKeeps(m: seq<State>, s: State)
    requires Distinct(m)
    ensures Distinct(Put(m, s)) && forall x :: x in Put(m, s) <==> x == s || (x in m && x.key != s.key)
  {
    if m != [] {
      assert m == [m[0]] + m[1..];
      if m[0].key != s.key {
        PutKeeps(m[1..], s);
        var rest := Put(m[1..], s);
        forall i | 0 <= i < |rest| ensures rest[i].key != m[0].key { assert rest[i] in rest; }
      }
    }
  }

  lemma {:induction false} KeysOfDistinct(m: seq<State>)
    requires Distinct(m)
    ensures |AsMap(m)| == |m|
  {
    if m != [] {
      KeysOfDistinct(m[1..]);
      AsMapGets(m[1..], m[0].key);
      assert forall i | 0 <= i < |m[1..]| :: m[1..][i] == m[i + 1];
      assert AsMap(m).Keys == AsMap(m[1..]).Keys + {m[0].key};
    }
  }

  lemma {:induction false} PutAllIsDistinct(m: seq<State>, states: seq<State>)
    requires Distinct(m)
    ensures Distinct(PutAll(m, states))
  {
    if states != [] {
      PutAllIsDistinct(m, states[..|states| - 1]);
      PutKeeps(PutAll(m, states[..|states| - 1]), states[|states| - 1]);
    }
  }

  // ---- What the Host knows now ----

  function Catalogued(catalogs: seq<Reading>, now: nat): seq<State> {
    if catalogs == [] then []
    else
      var m, last := Catalogued(catalogs[..|catalogs| - 1], now), catalogs[|catalogs| - 1];
      if now as int - last.readAt < STALE_MS then PutAll(m, last.states) else m
  }

  /** An open session knows its state better than its catalog; the catalog may know when it changed. */
  function Shown(m: seq<State>, s: State): State {
    match (s.updatedAt, Get(m, s.key))
    case (None, Some(known)) => s.(updatedAt := known.updatedAt)
    case _ => s
  }

  function Overlaid(m: seq<State>, live: seq<State>): seq<State> {
    if live == [] then m
    else
      var before := Overlaid(m, live[..|live| - 1]);
      Put(before, Shown(before, live[|live| - 1]))
  }

  /** `a` was changed later than `b`; a state without a time counts as the latest. */
  predicate Later(a: State, b: State) {
    b.updatedAt.Some? && (a.updatedAt.None? || a.updatedAt.value > b.updatedAt.value)
  }

  function Inserted(x: State, s: seq<State>): seq<State> {
    if s == [] || !Later(s[0], x) then [x] + s else [s[0]] + Inserted(x, s[1..])
  }

  function LatestFirst(s: seq<State>): seq<State> {
    if s == [] then [] else Inserted(s[0], LatestFirst(s[1..]))
  }

  function Bounded(m: seq<State>): seq<State> {
    if |m| <= LIMIT then m
    else
      var ordered := LatestFirst(m);
      if |ordered| <= LIMIT then ordered else ordered[..LIMIT]
  }

  function CurrentOf(catalogs: seq<Reading>, live: seq<State>, now: nat): seq<State> {
    Bounded(Overlaid(Catalogued(catalogs, now), live))
  }

  lemma {:induction false} CataloguedIsFresh(catalogs: seq<Reading>, now: nat)
    ensures Distinct(Catalogued(catalogs, now))
    ensures forall s | s in Catalogued(catalogs, now) :: exists c | c in catalogs :: now as int - c.readAt < STALE_MS && s in c.states
  {
    if catalogs != [] {
      var before, last := catalogs[..|catalogs| - 1], catalogs[|catalogs| - 1];
      CataloguedIsFresh(before, now);
      PutAllIsDistinct(Catalogued(before, now), last.states);
      PutAllHolds(Catalogued(before, now), last.states);
      forall s | s in Catalogued(catalogs, now) ensures exists c | c in catalogs :: now as int - c.readAt < STALE_MS && s in c.states {
        if s in Catalogued(before, now) {
          var c :| c in before && now as int - c.readAt < STALE_MS && s in c.states;
          assert c in catalogs;
        } else {
          assert last in catalogs;
        }
      }
    }
  }

  lemma {:induction false} PutAllHolds(m: seq<State>, states: seq<State>)
    requires Distinct(m)
    ensures forall s | s in PutAll(m, states) :: s in m || s in states
  {
    if states != [] {
      PutAllHolds(m, states[..|states| - 1]);
      PutAllIsDistinct(m, states[..|states| - 1]);
      PutKeeps(PutAll(m, states[..|states| - 1]), states[|states| - 1]);
    }
  }

  lemma {:induction false} PutAllHas(m: seq<State>, states: seq<State>, k: Key)
    ensures Get(PutAll(m, states), k).Some? <==> Get(m, k).Some? || exists s | s in states :: s.key == k
  {
    if states != [] {
      var n := |states| - 1;
      PutAllHas(m, states[..n], k);
      PutMaps(PutAll(m, states[..n]), states[n]);
      AsMapGets(PutAll(m, states), k);
      AsMapGets(PutAll(m, states[..n]), k);
      assert states == states[..n] + [states[n]];
    }
  }

  lemma {:induction false} CataloguedIsComplete(catalogs: seq<Reading>, now: nat)
    ensures forall c, x | c in catalogs && now as int - c.readAt < STALE_MS && x in c.states :: Get(Catalogued(catalogs, now), x.key).Some?
  {
    if catalogs != [] {
      var before, last := catalogs[..|catalogs| - 1], catalogs[|catalogs| - 1];
      CataloguedIsComplete(before, now);
      assert catalogs == before + [last];
      forall c, x | c in catalogs && now as int - c.readAt < STALE_MS && x in c.states ensures Get(Catalogued(catalogs, now), x.key).Some? {
        PutAllHas(Catalogued(before, now), last.states, x.key);
      }
    }
  }

  /** The entry of an open session: its own state, and its own time or, when it has none, one that
      its catalog knows. */
  ghost predicate IsShown(catalogued: seq<State>, live: seq<State>, s: State) {
    exists i | 0 <= i < |live| ::
      && live[i].key == s.key && live[i].activity == s.activity && (forall j | i < j < |live| :: live[j].key != s.key)
      && (live[i].updatedAt.Some? ==> s.updatedAt == live[i].updatedAt)
      && (TimeOf(catalogued, s.key).Some? ==> s.updatedAt.Some?)
      && (s.updatedAt.Some? ==> s.updatedAt == TimeOf(catalogued, s.key) || exists x | x in live :: x.key == s.key && x.updatedAt == s.updatedAt)
  }

  function TimeOf(m: seq<State>, k: Key): Option<nat> {
    match Get(m, k) case Some(s) => s.updatedAt case None => None
  }

  /** What an entry of the overlay is: shown as open, or left as the catalogs have it. */
  ghost predicate Explained(m: seq<State>, live: seq<State>, s: State) {
    IsShown(m, live, s) || (s in m && Get(m, s.key) == Some(s) && forall x | x in live :: x.key != s.key)
  }

  lemma ExplainedOnce(m: seq<State>, live: seq<State>, last: State, before: seq<State>)
    requires Distinct(before) && forall s | s in before :: Explained(m, live, s)
    requires forall x | x in m :: Get(before, x.key).Some?
    ensures IsShown(m, live + [last], Shown(before, last))
  {
    var s, all := Shown(before, last), live + [last];
    AsMapGets(before, last.key);
    AsMapGets(m, last.key);
    assert all[|live|] == last && last in all;
    var known := Get(before, last.key);
    if last.updatedAt.None? && known.Some? {
      assert Explained(m, live, known.value);
      if IsShown(m, live, known.value) && known.value.updatedAt.Some? && known.value.updatedAt != TimeOf(m, s.key) {
        var x :| x in live && x.key == s.key && x.updatedAt == s.updatedAt;
        assert x in all;
      }
    }
  }

  lemma ExplainedStill(m: seq<State>, live: seq<State>, last: State, s: State)
    requires Explained(m, live, s) && s.key != last.key
    ensures Explained(m, live + [last], s)
  {
    var all := live + [last];
    if IsShown(m, live, s) {
      var i :| 0 <= i < |live| && live[i].key == s.key && live[i].activity == s.activity && (forall j | i < j < |live| :: live[j].key != s.key)
        && (live[i].updatedAt.Some? ==> s.updatedAt == live[i].updatedAt);
      assert all[i] == live[i];
      assert forall x | x in live :: x in all;
    }
  }

  lemma {:induction false} OverlaidShows(m: seq<State>, live: seq<State>)
    requires Distinct(m)
    ensures Distinct(Overlaid(m, live))
    ensures forall s | s in Overlaid(m, live) :: Explained(m, live, s)
    ensures forall x | x in live || x in m :: Get(Overlaid(m, live), x.key).Some?
  {
    if live == [] {
      forall x | x in m ensures Get(m, x.key) == Some(x) { MemberIsGot(m, x); }
    } else {
      var n := |live| - 1;
      var before, last := Overlaid(m, live[..n]), live[n];
      assert live == live[..n] + [last];
      OverlaidShows(m, live[..n]);
      var shown := Shown(before, last);
      ExplainedOnce(m, live[..n], last, before);
      PutKeeps(before, shown);
      PutMaps(before, shown);
      forall s | s in Overlaid(m, live) ensures Explained(m, live, s) {
        if s != shown { ExplainedStill(m, live[..n], last, s); }
      }
      forall x | x in live || x in m ensures Get(Overlaid(m, live), x.key).Some? {
        AsMapGets(Overlaid(m, live), x.key);
        AsMapGets(before, x.key);
      }
    }
  }

  lemma {:induction false} GetsMember(m: seq<State>, x: State)
    requires x in m
    ensures Get(m, x.key).Some?
  {
    if m[0].key != x.key { GetsMember(m[1..], x); }
  }

  lemma {:induction false} InsertedKeeps(x: State, s: seq<State>)
    requires Distinct(s) && (forall y | y in s :: y.key != x.key) && forall i, j | 0 <= i < j < |s| :: !Later(s[j], s[i])
    ensures var r := Inserted(x, s);
            Distinct(r) && |r| == |s| + 1 && (forall y :: y in r <==> y == x || y in s) && forall i, j | 0 <= i < j < |r| :: !Later(r[j], r[i])
  {
    if s == [] {
    } else if Later(s[0], x) {
      InsertedKeeps(x, s[1..]);
      var rest := Inserted(x, s[1..]);
      assert s == [s[0]] + s[1..];
      forall k | 0 <= k < |rest| ensures !Later(rest[k], s[0]) && rest[k].key != s[0].key {
        assert rest[k] in rest;
        if rest[k] != x { assert rest[k] in s[1..]; }
      }
    }
  }

  lemma {:induction false} LatestFirstSorts(s: seq<State>)
    requires Distinct(s)
    ensures var r := LatestFirst(s);
            Distinct(r) && |r| == |s| && (forall y :: y in r <==> y in s) && forall i, j | 0 <= i < j < |r| :: !Later(r[j], r[i])
  {
    if s != [] {
      LatestFirstSorts(s[1..]);
      forall y | y in LatestFirst(s[1..]) ensures y.key != s[0].key {
        var i :| 0 <= i < |s[1..]| && s[1..][i] == y;
        assert s[i + 1] == y;
      }
      InsertedKeeps(s[0], LatestFirst(s[1..]));
      assert s == [s[0]] + s[1..];
    }
  }

  /** What was left out was not changed later than what was kept; one without a time counts as the latest. */
  ghost predicate KeepsLatest(all: seq<State>, kept: seq<State>) {
    forall s, t | s in all && s !in kept && t in kept :: t.updatedAt.None? || (s.updatedAt.Some? && s.updatedAt.value <= t.updatedAt.value)
  }

  /** The bound keeps at most LIMIT states, and none it drops was changed later than one it keeps. */
  lemma BoundedKeepsLatest(m: seq<State>)
    requires Distinct(m)
    ensures Distinct(Bounded(m)) && |Bounded(m)| == (if |m| <= LIMIT then |m| else LIMIT)
    ensures forall s | s in Bounded(m) :: s in m
    ensures KeepsLatest(m, Bounded(m))
  {
    if |m| > LIMIT {
      var ordered := LatestFirst(m);
      LatestFirstSorts(m);
      forall s | s in ordered[..LIMIT] ensures s in m { assert s in ordered; }
      forall s, t | s in m && s !in Bounded(m) && t in Bounded(m) ensures !Later(s, t) {
        var j :| 0 <= j < |ordered| && ordered[j] == s;
        var i :| 0 <= i < LIMIT && ordered[..LIMIT][i] == t;
        assert forall k | 0 <= k < LIMIT :: ordered[..LIMIT][k] == ordered[k];
      }
    }
  }

  /** The session is not open, and a catalog read within the last three minutes has it so. */
  ghost predicate IsFresh(catalogs: seq<Reading>, live: seq<State>, now: nat, s: State) {
    (forall x | x in live :: x.key != s.key) && exists c | c in catalogs :: now as int - c.readAt < STALE_MS && s in c.states
  }

  /** Every open session has an entry, and every one of a catalog read within the last three minutes. */
  ghost predicate AllPublished(published: seq<State>, catalogs: seq<Reading>, live: seq<State>, now: nat) {
    && (forall x | x in live :: Get(published, x.key).Some?)
    && (forall c, x | c in catalogs && now as int - c.readAt < STALE_MS && x in c.states :: Get(published, x.key).Some?)
  }

  lemma NoneIsMissing(catalogs: seq<Reading>, live: seq<State>, now: nat)
    requires |CurrentOf(catalogs, live, now)| < LIMIT
    ensures AllPublished(CurrentOf(catalogs, live, now), catalogs, live, now)
  {
    var catalogued := Catalogued(catalogs, now);
    CataloguedIsFresh(catalogs, now);
    CataloguedIsComplete(catalogs, now);
    OverlaidShows(catalogued, live);
    BoundedKeepsLatest(Overlaid(catalogued, live));
    forall c, x | c in catalogs && now as int - c.readAt < STALE_MS && x in c.states ensures Get(Overlaid(catalogued, live), x.key).Some? {
      AsMapGets(catalogued, x.key);
      assert Get(catalogued, x.key).value in catalogued;
    }
  }

  /** What is published at any moment: at most LIMIT sessions, each once; an open session with its
      own state, any other from a catalog read within the last three minutes; and unless there are
      too many sessions, every open one and every one of those catalogs. */
  lemma PublishedIsCurrent(catalogs: seq<Reading>, live: seq<State>, now: nat)
    ensures var published, catalogued := CurrentOf(catalogs, live, now), Catalogued(catalogs, now);
            && Distinct(published) && |published| <= LIMIT
            && (forall s | s in published :: IsShown(catalogued, live, s) || IsFresh(catalogs, live, now, s))
            && (|published| < LIMIT ==> AllPublished(published, catalogs, live, now))
            && KeepsLatest(Overlaid(catalogued, live), published)
  {
    CataloguedIsFresh(catalogs, now);
    if |CurrentOf(catalogs, live, now)| < LIMIT { NoneIsMissing(catalogs, live, now); }
    OverlaidShows(Catalogued(catalogs, now), live);
    BoundedKeepsLatest(Overlaid(Catalogued(catalogs, now), live));
  }

  // ---- Reports ----

  function Changed(next: seq<State>, published: seq<State>): seq<State> {
    if next == [] then []
    else
      var n := |next| - 1;
      Changed(next[..n], published) + (if Get(published, next[n].key) == Some(next[n]) then [] else [next[n]])
  }

  function Removed(published: seq<State>, next: seq<State>): seq<Key> {
    if published == [] then []
    else
      var n := |published| - 1;
      Removed(published[..n], next) + (if Get(next, published[n].key).Some? then [] else [published[n].key])
  }

  function Delta(published: seq<State>, next: seq<State>): Option<Report> {
    var states, removed := Changed(next, published), Removed(published, next);
    if states == [] && removed == [] then None else Some(Report(false, states, removed))
  }

  function Full(next: seq<State>): Report {
    Report(true, next, [])
  }

  /** The Relay removes first, then sets; it takes no more than LIMIT sessions. */
  function Setting(target: map<Key, State>, states: seq<State>): map<Key, State> {
    if states == [] then target
    else
      var before, s := Setting(target, states[..|states| - 1]), states[|states| - 1];
      if s.key !in before && |before| >= LIMIT then before else before[s.key := s]
  }

  /** What is left of the receiver's states once the removed ones are gone. */
  function Remaining(replica: map<Key, State>, removed: seq<Key>): map<Key, State> {
    map k | k in replica && k !in removed :: replica[k]
  }

  function Received(target: map<Key, State>, report: Report): map<Key, State> {
    Setting(if report.full then map[] else Remaining(target, report.removed), report.states)
  }

  lemma {:induction false} ChangedLists(next: seq<State>, published: seq<State>)
    ensures forall s :: s in Changed(next, published) <==> s in next && Get(published, s.key) != Some(s)
  {
    if next != [] {
      ChangedLists(next[..|next| - 1], published);
      assert next == next[..|next| - 1] + [next[|next| - 1]];
    }
  }

  lemma {:induction false} RemovedLists(published: seq<State>, next: seq<State>)
    ensures forall k :: k in Removed(published, next) <==> (exists s | s in published :: s.key == k) && Get(next, k).None?
  {
    if published != [] {
      var n := |published| - 1;
      RemovedLists(published[..n], next);
      assert published == published[..n] + [published[n]];
      forall k ensures k in Removed(published, next) <==> (exists s | s in published :: s.key == k) && Get(next, k).None? {
        if k in Removed(published[..n], next) {
          var s :| s in published[..n] && s.key == k;
          assert s in published;
        }
        if (exists s | s in published :: s.key == k) && k != published[n].key {
          var s :| s in published && s.key == k;
          assert s in published[..n];
        }
      }
    }
  }

  function Lookup(r: map<Key, State>, k: Key): Option<State> {
    if k in r then Some(r[k]) else None
  }

  lemma RoomForOne(before: map<Key, State>, next: map<Key, State>, k: Key)
    requires |next| <= LIMIT && (forall x | x in before :: x in next) && k in next && k !in before
    ensures |before| < LIMIT
  {
    assert before.Keys <= next.Keys - {k};
    Smaller(before.Keys, next.Keys - {k});
    assert |next.Keys - {k}| == |next| - 1;
  }

  predicate Subset(a: map<Key, State>, b: map<Key, State>) {
    forall k | k in a :: k in b
  }

  predicate AllIn(states: seq<State>, next: map<Key, State>) {
    forall s | s in states :: s.key in next && next[s.key] == s
  }

  /** Setting states of a map that is within the limit never meets the limit. */
  lemma {:induction false} SettingFits(target: map<Key, State>, states: seq<State>, next: map<Key, State>)
    requires |next| <= LIMIT && Subset(target, next) && AllIn(states, next)
    ensures Subset(Setting(target, states), next)
  {
    if states != [] {
      var init, last := states[..|states| - 1], states[|states| - 1];
      assert states == init + [last];
      SettingFits(target, init, next);
      if last.key !in Setting(target, init) { RoomForOne(Setting(target, init), next, last.key); }
    }
  }

  lemma {:induction false} SettingAt(target: map<Key, State>, states: seq<State>, next: map<Key, State>, k: Key)
    requires |next| <= LIMIT && Subset(target, next) && AllIn(states, next)
    ensures Lookup(Setting(target, states), k) == if exists s | s in states :: s.key == k then Some(next[k]) else Lookup(target, k)
  {
    if states != [] {
      var init, last := states[..|states| - 1], states[|states| - 1];
      assert states == init + [last];
      SettingFits(target, init, next);
      if last.key !in Setting(target, init) { RoomForOne(Setting(target, init), next, last.key); }
      SettingAt(target, init, next, k);
      assert Setting(target, states) == Setting(target, init)[last.key := last];
    }
  }

  lemma {:induction false} Smaller<T>(a: set<T>, b: set<T>)
    requires a <= b
    ensures |a| <= |b|
  {
    if a != {} {
      var x :| x in a;
      Smaller(a - {x}, b - {x});
    }
  }

  predicate Covered(target: map<Key, State>, states: seq<State>, k: Key, s: State) {
    (s in states && s.key == k) || (k in target && target[k] == s && forall x | x in states :: x.key != k)
  }

  lemma SettingCompletes(target: map<Key, State>, states: seq<State>, next: map<Key, State>)
    requires |next| <= LIMIT && Subset(target, next) && AllIn(states, next)
    requires forall k | k in next :: Covered(target, states, k, next[k])
    ensures Setting(target, states) == next
  {
    SettingFits(target, states, next);
    forall k | k in next ensures Lookup(Setting(target, states), k) == Some(next[k]) {
      assert Covered(target, states, k, next[k]);
      SettingAt(target, states, next, k);
    }
  }

  ghost predicate Within(m: seq<State>) {
    Distinct(m) && |m| <= LIMIT
  }

  /** A full report leaves the receiver with exactly the published states, whatever it had. */
  lemma FullRestores(replica: map<Key, State>, next: seq<State>)
    requires Within(next)
    ensures Received(replica, Full(next)) == AsMap(next)
  {
    var empty: map<Key, State> := map[];
    KeysOfDistinct(next);
    forall s | s in next ensures s.key in AsMap(next) && AsMap(next)[s.key] == s { MemberIsGot(next, s); }
    forall k | k in AsMap(next) ensures Covered(empty, next, k, AsMap(next)[k]) { AsMapGets(next, k); }
    SettingCompletes(empty, next, AsMap(next));
  }

  lemma MemberIsGot(m: seq<State>, s: State)
    requires Distinct(m) && s in m
    ensures Get(m, s.key) == Some(s) && s.key in AsMap(m) && AsMap(m)[s.key] == s
  {
    GetsMember(m, s);
    AsMapGets(m, s.key);
  }

  /** The receiver holds what was published, except at sessions whose state the next report changes. */
  ghost predicate Agrees(replica: map<Key, State>, published: seq<State>, next: seq<State>) {
    forall k :: Get(published, k) == Get(next, k) ==> Lookup(replica, k) == Get(published, k)
  }

  lemma RemainingIsKnown(replica: map<Key, State>, published: seq<State>, next: seq<State>, k: Key)
    requires Agrees(replica, published, next) && k in Remaining(replica, Removed(published, next))
    ensures k in AsMap(next)
  {
    RemovedLists(published, next);
    AsMapGets(next, k);
    AsMapGets(published, k);
    assert Get(published, k).Some? ==> Get(published, k).value in published;
  }

  lemma UnchangedRemains(replica: map<Key, State>, published: seq<State>, next: seq<State>, k: Key)
    requires Within(next) && Agrees(replica, published, next) && Get(next, k).Some? && Get(published, k) == Get(next, k)
    ensures k in Remaining(replica, Removed(published, next)) && replica[k] == Get(next, k).value
    ensures forall x | x in Changed(next, published) :: x.key != k
  {
    RemovedLists(published, next);
    ChangedLists(next, published);
    forall x | x in Changed(next, published) ensures x.key != k { if x.key == k { MemberIsGot(next, x); } }
  }

  lemma DeltaApplies(replica: map<Key, State>, published: seq<State>, next: seq<State>)
    requires Within(published) && Within(next) && Agrees(replica, published, next) && Delta(published, next).Some?
    ensures Received(replica, Delta(published, next).value) == AsMap(next)
  {
    var states := Changed(next, published);
    var kept := Remaining(replica, Removed(published, next));
    ChangedLists(next, published);
    KeysOfDistinct(next);
    forall s | s in states ensures s.key in AsMap(next) && AsMap(next)[s.key] == s { MemberIsGot(next, s); }
    forall k | k in kept ensures k in AsMap(next) { RemainingIsKnown(replica, published, next, k); }
    forall k | k in AsMap(next) ensures Covered(kept, states, k, AsMap(next)[k]) {
      AsMapGets(next, k);
      if Get(published, k) == Get(next, k) { UnchangedRemains(replica, published, next, k); } else { assert AsMap(next)[k] in states; }
    }
    SettingCompletes(kept, states, AsMap(next));
  }

  /** After a report of changes the receiver holds exactly the published states if and only if it held
      what was published before it wherever the report changes nothing. */
  lemma DeltaIsExact(replica: map<Key, State>, published: seq<State>, next: seq<State>)
    requires Within(published) && Within(next) && Delta(published, next).Some? && |replica| <= LIMIT
    requires forall k | k in replica :: replica[k].key == k
    ensures Received(replica, Delta(published, next).value) == AsMap(next) <==> Agrees(replica, published, next)
  {
    if Agrees(replica, published, next) {
      DeltaApplies(replica, published, next);
    } else {
      var k :| Get(published, k) == Get(next, k) && Lookup(replica, k) != Get(published, k);
      ChangedLists(next, published);
      RemovedLists(published, next);
      AsMapGets(next, k);
      var states, removed := Changed(next, published), Removed(published, next);
      forall s | s in states ensures s.key != k { if s.key == k { MemberIsGot(next, s); } }
      if k in removed { AsMapGets(published, k); GetsKey(published, k); }
      SettingLeaves(Remaining(replica, removed), states, k);
    }
  }

  lemma {:induction false} GetsKey(m: seq<State>, k: Key)
    requires exists s | s in m :: s.key == k
    ensures Get(m, k).Some?
  {
    var s :| s in m && s.key == k;
    GetsMember(m, s);
  }

  lemma {:induction false} SettingLeaves(target: map<Key, State>, states: seq<State>, k: Key)
    requires forall s | s in states :: s.key != k
    ensures Lookup(Setting(target, states), k) == Lookup(target, k)
  {
    if states != [] {
      assert states[|states| - 1] in states;
      SettingLeaves(target, states[..|states| - 1], k);
    }
  }

  /** Nothing to report means nothing changed. */
  lemma NoDelta(published: seq<State>, next: seq<State>)
    requires Within(published) && Within(next) && Delta(published, next).None?
    ensures AsMap(published) == AsMap(next)
  {
    ChangedLists(next, published);
    RemovedLists(published, next);
    forall s | s in published ensures Get(next, s.key).Some? { assert s.key !in Removed(published, next); }
    forall s | s in next ensures Get(published, s.key) == Some(s) { assert s !in Changed(next, published); }
    forall k ensures (k in AsMap(published) <==> k in AsMap(next)) && (k in AsMap(next) ==> AsMap(published)[k] == AsMap(next)[k]) {
      AsMapGets(next, k);
      AsMapGets(published, k);
    }
  }

  // ---- Catalog readings ----

  function ReadingOf(catalogs: seq<Reading>, provider: nat): Option<Reading> {
    if catalogs == [] then None else if catalogs[0].provider == provider then Some(catalogs[0]) else ReadingOf(catalogs[1..], provider)
  }

  function WithReading(catalogs: seq<Reading>, r: Reading): seq<Reading> {
    if catalogs == [] then [r] else if catalogs[0].provider == r.provider then [r] + catalogs[1..] else [catalogs[0]] + WithReading(catalogs[1..], r)
  }

  function Enabled(catalogs: seq<Reading>, enabled: set<nat>): seq<Reading> {
    if catalogs == [] then []
    else (if catalogs[0].provider in enabled then [catalogs[0]] else []) + Enabled(catalogs[1..], enabled)
  }

  /** A catalog that is due was asked at `asked` and answered, or failed, at `at`. */
  function AfterRead(catalogs: seq<Reading>, provider: nat, outcome: Option<seq<State>>, open: set<Key>, asked: nat, at: nat, quietMs: nat): seq<Reading> {
    var previous := ReadingOf(catalogs, provider);
    if previous.Some? && previous.value.nextReadAt > asked then catalogs
    else if outcome.Some? then
      var informative := exists s | s in outcome.value :: s.key !in open;
      WithReading(catalogs, Reading(provider, outcome.value, at, at + if informative then 0 else quietMs))
    else if previous.Some? then WithReading(catalogs, previous.value.(nextReadAt := 0))
    else catalogs
  }

  /** The catalogs of providers that are no longer asked are dropped, the others kept as they are. */
  lemma {:induction false} EnabledStay(catalogs: seq<Reading>, enabled: set<nat>, p: nat)
    ensures ReadingOf(Enabled(catalogs, enabled), p) == if p in enabled then ReadingOf(catalogs, p) else None
  {
    if catalogs != [] {
      EnabledStay(catalogs[1..], enabled, p);
      if catalogs[0].provider in enabled {
        assert Enabled(catalogs, enabled)[1..] == Enabled(catalogs[1..], enabled);
      } else {
        assert Enabled(catalogs, enabled) == Enabled(catalogs[1..], enabled);
      }
    }
  }

  lemma {:induction false} WithReadingSets(catalogs: seq<Reading>, r: Reading, p: nat)
    ensures ReadingOf(WithReading(catalogs, r), p) == if p == r.provider then Some(r) else ReadingOf(catalogs, p)
  {
    if catalogs != [] && catalogs[0].provider != r.provider { WithReadingSets(catalogs[1..], r, p); }
  }

  lemma {:induction false} ReadingIsOwn(catalogs: seq<Reading>, p: nat)
    ensures ReadingOf(catalogs, p).Some? ==> ReadingOf(catalogs, p).value.provider == p
  {
    if catalogs != [] { ReadingIsOwn(catalogs[1..], p); }
  }

  /** Reading one catalog leaves the others alone.  A reading that is not due changes nothing; an
      answer replaces what was known; a failure keeps it with its old time, so it still grows stale,
      and makes it due again. */
  lemma ReadTouchesOne(catalogs: seq<Reading>, provider: nat, outcome: Option<seq<State>>, open: set<Key>, asked: nat, at: nat, quietMs: nat, p: nat)
    ensures var before, after := ReadingOf(catalogs, p), ReadingOf(AfterRead(catalogs, provider, outcome, open, asked, at, quietMs), p);
            var due := before.None? || before.value.nextReadAt <= asked;
            && (p != provider || !due ==> after == before)
            && (p == provider && due && outcome.Some? ==>
                  && after.Some? && after.value.states == outcome.value && after.value.readAt == at
                  && after.value.nextReadAt == (if exists s | s in outcome.value :: s.key !in open then at else at + quietMs))
            && (p == provider && due && outcome.None? ==>
                  && after.Some? == before.Some?
                  && (after.Some? ==> after.value.states == before.value.states && after.value.readAt == before.value.readAt && after.value.nextReadAt == 0))
  {
    var previous := ReadingOf(catalogs, provider);
    ReadingIsOwn(catalogs, provider);
    if outcome.Some? {
      var informative := exists s | s in outcome.value :: s.key !in open;
      WithReadingSets(catalogs, Reading(provider, outcome.value, at, at + if informative then 0 else quietMs), p);
    } else if previous.Some? {
      WithReadingSets(catalogs, previous.value.(nextReadAt := 0), p);
    }
  }

  // ---- The publisher ----

  class SessionStatePublisher {
    var catalogs: seq<Reading>
    var published: seq<State>
    var listeners: nat
    const quietMs: nat

    constructor (quietMs: nat)
      ensures catalogs == [] && published == [] && listeners == 0 && this.quietMs == quietMs
    {
      catalogs, published, listeners := [], [], 0;
      this.quietMs := quietMs;
    }

    method Current(live: seq<State>, now: nat) returns (merged: seq<State>)
      ensures merged == CurrentOf(catalogs, live, now)
    {
      merged := [];
      var i := 0;
      while i < |catalogs|
        invariant 0 <= i <= |catalogs| && merged == Catalogued(catalogs[..i], now)
      {
        var catalog := catalogs[i];
        assert catalogs[..i + 1][..i] == catalogs[..i];
        if now - catalog.readAt < STALE_MS {
          var j, states := 0, catalog.states;
          ghost var before := merged;
          while j < |states|
            invariant 0 <= j <= |states| && merged == PutAll(before, states[..j])
          {
            assert states[..j + 1][..j] == states[..j];
            merged := Put(merged, states[j]);
            j := j + 1;
          }
          assert states[..j] == states;
        }
        i := i + 1;
      }
      assert catalogs[..i] == catalogs;
      ghost var catalogued := merged;
      i := 0;
      while i < |live|
        invariant 0 <= i <= |live| && merged == Overlaid(catalogued, live[..i])
      {
        assert live[..i + 1][..i] == live[..i];
        merged := Put(merged, Shown(merged, live[i]));
        i := i + 1;
      }
      assert live[..i] == live;
      merged := Bounded(merged);
    }

    method Compare(next: seq<State>) returns (states: seq<State>, removed: seq<Key>)
      ensures states == Changed(next, published) && removed == Removed(published, next)
    {
      states, removed := [], [];
      var i := 0;
      while i < |next|
        invariant 0 <= i <= |next| && states == Changed(next[..i], published)
      {
        assert next[..i + 1][..i] == next[..i];
        if Get(published, next[i].key) != Some(next[i]) { states := states + [next[i]]; }
        i := i + 1;
      }
      assert next[..i] == next;
      i := 0;
      while i < |published|
        invariant 0 <= i <= |published| && removed == Removed(published[..i], next)
      {
        assert published[..i + 1][..i] == published[..i];
        if Get(next, published[i].key).None? { removed := removed + [published[i].key]; }
        i := i + 1;
      }
      assert published[..i] == published;
    }

    method SendChanges(live: seq<State>, now: nat) returns (report: Option<Report>)
      modifies this`published
      ensures listeners == 0 ==> report == None && published == old(published)
      ensures listeners > 0 ==> published == CurrentOf(catalogs, live, now) && report == Delta(old(published), published)
    {
      if listeners == 0 { return None; }
      var next := Current(live, now);
      var states, removed := Compare(next);
      published := next;
      return if states == [] && removed == [] then None else Some(Report(false, states, removed));
    }

    method Confirm(live: seq<State>, now: nat) returns (report: Option<Report>)
      modifies this`published
      ensures listeners == 0 ==> report == None && published == old(published)
      ensures listeners > 0 ==> published == CurrentOf(catalogs, live, now) && report == Some(Full(published))
    {
      if listeners == 0 { return None; }
      published := Current(live, now);
      return Some(Report(true, published, []));
    }

    method Snapshot(live: seq<State>, now: nat) returns (states: seq<State>)
      modifies this`published
      ensures states == published == CurrentOf(catalogs, live, now)
    {
      published := Current(live, now);
      return published;
    }

    method ReadCatalog(provider: nat, outcome: Option<seq<State>>, open: set<Key>, asked: nat, at: nat)
      modifies this`catalogs
      ensures catalogs == AfterRead(old(catalogs), provider, outcome, open, asked, at, quietMs)
    {
      var previous := ReadingOf(catalogs, provider);
      if previous.Some? && previous.value.nextReadAt > asked { return; }
      if outcome.Some? {
        var informative := exists s | s in outcome.value :: s.key !in open;
        catalogs := WithReading(catalogs, Reading(provider, outcome.value, at, at + if informative then 0 else quietMs));
      } else if previous.Some? {
        catalogs := WithReading(catalogs, previous.value.(nextReadAt := 0));
      }
    }
  }

  // ---- A receiver over whole runs ----

  datatype Event =
    | Tick(live: seq<State>, now: nat)
    | Drop(enabled: set<nat>)
    | ReadEnds(provider: nat, outcome: Option<seq<State>>, open: set<Key>, asked: nat, at: nat)
    | Confirmed(live: seq<State>, now: nat)
    | Join                                       // the receiver's connection subscribes ...
    | OwnSnapshot(live: seq<State>, now: nat)    // ... and sends the snapshot as a full report
    | Leave
    | OtherJoin
    | OtherSnapshot(live: seq<State>, now: nat)  // another connection of the same Host does
    | OtherLeave

  datatype World = World(catalogs: seq<Reading>, published: seq<State>, joined: bool, others: nat, replica: map<Key, State>)

  const START := World([], [], false, 0, map[])

  function Hear(w: World, report: Option<Report>): World {
    if w.joined && report.Some? then w.(replica := Received(w.replica, report.value)) else w
  }

  function Next(w: World, ev: Event): World {
    match ev
    case Tick(live, now) =>
      if !w.joined && w.others == 0 then w
      else
        var next := CurrentOf(w.catalogs, live, now);
        Hear(w.(published := next), Delta(w.published, next))
    case Drop(enabled) => w.(catalogs := Enabled(w.catalogs, enabled))
    case ReadEnds(provider, outcome, open, asked, at) => w.(catalogs := AfterRead(w.catalogs, provider, outcome, open, asked, at, 600000))
    case Confirmed(live, now) =>
      if !w.joined && w.others == 0 then w
      else
        var next := CurrentOf(w.catalogs, live, now);
        Hear(w.(published := next), Some(Full(next)))
    case Join => w.(joined := true)
    case OwnSnapshot(live, now) =>
      var next := CurrentOf(w.catalogs, live, now);
      Hear(w.(published := next), Some(Full(next)))
    case Leave => w.(joined := false)
    case OtherJoin => w.(others := w.others + 1)
    case OtherSnapshot(live, now) => w.(published := CurrentOf(w.catalogs, live, now))
    case OtherLeave => w.(others := if w.others > 0 then w.others - 1 else 0)
  }

  ghost predicate IsRun(ws: seq<World>, events: seq<Event>) {
    |ws| == |events| + 1 && ws[0] == START && forall i | 0 <= i < |events| :: ws[i + 1] == Next(ws[i], events[i])
  }

  predicate SendsAll(w: World, ev: Event) {
    w.joined && (ev.OwnSnapshot? || ev.Confirmed?)
  }

  lemma PublishedFits(w: World, ev: Event)
    requires Within(w.published)
    ensures Within(Next(w, ev).published)
  {
    match ev
    case Tick(live, now) => PublishedIsCurrent(w.catalogs, live, now);
    case Confirmed(live, now) => PublishedIsCurrent(w.catalogs, live, now);
    case OwnSnapshot(live, now) => PublishedIsCurrent(w.catalogs, live, now);
    case OtherSnapshot(live, now) => PublishedIsCurrent(w.catalogs, live, now);
    case _ =>
  }

  lemma {:induction false} AlwaysFits(ws: seq<World>, events: seq<Event>, i: nat)
    requires IsRun(ws, events) && i < |ws|
    ensures Within(ws[i].published)
  {
    if i > 0 {
      AlwaysFits(ws, events, i - 1);
      PublishedFits(ws[i - 1], events[i - 1]);
    }
  }

  lemma StaysEqual(w: World, ev: Event)
    requires Within(w.published) && w.joined && !ev.Leave? && !ev.OtherSnapshot?
    requires SendsAll(w, ev) || w.replica == AsMap(w.published)
    ensures var u := Next(w, ev); u.joined && u.replica == AsMap(u.published)
  {
    PublishedFits(w, ev);
    var u := Next(w, ev);
    if SendsAll(w, ev) {
      FullRestores(w.replica, u.published);
    } else if ev.Tick? {
      if Delta(w.published, u.published).Some? {
        forall k ensures Lookup(w.replica, k) == Get(w.published, k) { AsMapGets(w.published, k); }
        DeltaApplies(w.replica, w.published, u.published);
      } else {
        NoDelta(w.published, u.published);
      }
    }
  }

  // ---- The main results ----

  /** From a full report on, the receiver's copy is exactly what is published, through any interleaving
      of ticks, catalog readings, confirmations and clock readings, until it leaves or another
      connection of the Host takes a snapshot. */
  lemma {:induction false} ReplicaIsExact(ws: seq<World>, events: seq<Event>, i: nat, j: nat)
    requires IsRun(ws, events) && i < j <= |events| && SendsAll(ws[i], events[i])
    requires forall k | i <= k < j :: !events[k].Leave? && !events[k].OtherSnapshot?
    ensures ws[j].joined && ws[j].replica == AsMap(ws[j].published)
  {
    AlwaysFits(ws, events, j - 1);
    if i < j - 1 { ReplicaIsExact(ws, events, i, j - 1); }
    StaysEqual(ws[j - 1], events[j - 1]);
  }

  /** What is published is renewed by every tick, confirmation and snapshot while somebody listens, and
      left alone otherwise; whoever left hears nothing. */
  lemma PublishesToListeners(w: World, ev: Event)
    requires ev.Tick? || ev.Confirmed?
    ensures var u := Next(w, ev);
            && u.published == (if w.joined || w.others > 0 then CurrentOf(w.catalogs, ev.live, ev.now) else w.published)
            && u.catalogs == w.catalogs && u.joined == w.joined && u.others == w.others && (!w.joined ==> u.replica == w.replica)
    ensures Next(w, Leave) == w.(joined := false) && Next(w, Join) == w.(joined := true)
    ensures Next(w, OtherJoin) == w.(others := w.others + 1) && Next(Next(w, OtherJoin), OtherLeave) == w
  {}

  /** Providers that are no longer asked are forgotten at once. */
  lemma DroppedIsForgotten(w: World, enabled: set<nat>, p: nat)
    ensures ReadingOf(Next(w, Drop(enabled)).catalogs, p) == if p in enabled then ReadingOf(w.catalogs, p) else None
  {
    EnabledStay(w.catalogs, enabled, p);
  }

  /** So a receiver's copy is what the Host knows at each tick and each confirmation. */
  lemma ReplicaIsRecent(ws: seq<World>, events: seq<Event>, i: nat, j: nat)
    requires IsRun(ws, events) && i < j < |events| && SendsAll(ws[i], events[i]) && (events[j].Tick? || events[j].Confirmed?)
    requires forall k | i <= k < j :: !events[k].Leave? && !events[k].OtherSnapshot?
    ensures ws[j + 1].replica == AsMap(CurrentOf(ws[j].catalogs, events[j].live, events[j].now))
  {
    ReplicaIsExact(ws, events, i, j);
    ReplicaIsExact(ws, events, i, j + 1);
    PublishesToListeners(ws[j], events[j]);
  }

  lemma {:induction false} WithReadingHolds(catalogs: seq<Reading>, r: Reading)
    ensures forall c | c in WithReading(catalogs, r) :: c == r || c in catalogs
  {
    if catalogs != [] && catalogs[0].provider != r.provider { WithReadingHolds(catalogs[1..], r); }
  }

  lemma {:induction false} EnabledHolds(catalogs: seq<Reading>, enabled: set<nat>)
    ensures forall c | c in Enabled(catalogs, enabled) :: c in catalogs && c.provider in enabled
  {
    if catalogs != [] { EnabledHolds(catalogs[1..], enabled); }
  }

  lemma {:induction false} ReadingIsIn(catalogs: seq<Reading>, p: nat)
    ensures ReadingOf(catalogs, p).Some? ==> ReadingOf(catalogs, p).value in catalogs && ReadingOf(catalogs, p).value.provider == p
  {
    if catalogs != [] { ReadingIsIn(catalogs[1..], p); }
  }

  /** The reading is what `ev` was answered. */
  predicate AnsweredBy(ev: Event, c: Reading) {
    ev.ReadEnds? && ev.provider == c.provider && ev.outcome == Some(c.states) && ev.at == c.readAt
  }

  lemma ReadingComes(w: World, ev: Event, u: World, c: Reading) returns (before: Reading)
    requires u == Next(w, ev) && c in u.catalogs
    ensures AnsweredBy(ev, c) || (before in w.catalogs && before.(nextReadAt := c.nextReadAt) == c)
  {
    before := c;
    if ev.Drop? {
      EnabledHolds(w.catalogs, ev.enabled);
    } else if ev.ReadEnds? {
      var previous := ReadingOf(w.catalogs, ev.provider);
      ReadingIsIn(w.catalogs, ev.provider);
      if ev.outcome.Some? {
        var informative := exists s | s in ev.outcome.value :: s.key !in ev.open;
        WithReadingHolds(w.catalogs, Reading(ev.provider, ev.outcome.value, ev.at, ev.at + if informative then 0 else 600000));
      } else if previous.Some? {
        WithReadingHolds(w.catalogs, previous.value.(nextReadAt := 0));
        if c !in w.catalogs { before := previous.value; }
      }
    }
  }

  /** What a catalog is taken to report is what it answered at the time the reading bears. */
  lemma {:induction false} ReadingGoesBack(ws: seq<World>, events: seq<Event>, i: nat, c: Reading) returns (k: nat)
    requires IsRun(ws, events) && i < |ws| && c in ws[i].catalogs
    ensures k < i && events[k].ReadEnds? && events[k].provider == c.provider && events[k].outcome == Some(c.states) && events[k].at == c.readAt
    decreases i
  {
    var before := ReadingComes(ws[i - 1], events[i - 1], ws[i], c);
    if AnsweredBy(events[i - 1], c) { k := i - 1; } else { k := ReadingGoesBack(ws, events, i - 1, before); }
  }

  /** The event does not replace or drop what the provider's catalog answered. */
  predicate Spares(ev: Event, provider: nat) {
    (ev.ReadEnds? ==> ev.provider != provider || ev.outcome.None?) && (ev.Drop? ==> provider in ev.enabled)
  }

  /** And what it answered when it was due is kept until it answers again or is no longer asked. */
  lemma {:induction false} ReadingIsKept(ws: seq<World>, events: seq<Event>, k: nat, i: nat, provider: nat)
    requires IsRun(ws, events) && k < i < |ws| && events[k].ReadEnds? && events[k].provider == provider && events[k].outcome.Some?
    requires ReadingOf(ws[k].catalogs, provider).None? || ReadingOf(ws[k].catalogs, provider).value.nextReadAt <= events[k].asked
    requires forall m | k < m < i :: Spares(events[m], provider)
    ensures var r := ReadingOf(ws[i].catalogs, provider); r.Some? && r.value.states == events[k].outcome.value && r.value.readAt == events[k].at
  {
    var w, ev := ws[i - 1], events[i - 1];
    assert ws[i] == Next(w, ev);
    if i > k + 1 { ReadingIsKept(ws, events, k, i - 1, provider); }
    if ev.ReadEnds? {
      ReadTouchesOne(w.catalogs, ev.provider, ev.outcome, ev.open, ev.asked, ev.at, 600000, provider);
    } else if ev.Drop? {
      EnabledStay(w.catalogs, ev.enabled, provider);
    }
  }

  /** The premise about snapshots is needed: a change that another connection's snapshot took in is
      never reported to the receiver, whose copy lacks it even after the next report of changes. */
  lemma SnapshotHidesChange(s: State)
    ensures exists ws: seq<World>, events: seq<Event> ::
              && IsRun(ws, events) && |events| == 4 && events == [Join, OwnSnapshot([], 0), OtherSnapshot([s], 1), Tick([s], 2)]
              && s.key in AsMap(ws[4].published) && ws[4].replica == map[]
  {
    var events := [Join, OwnSnapshot([], 0), OtherSnapshot([s], 1), Tick([s], 2)];
    var w1 := Next(START, events[0]);
    var w2 := Next(w1, events[1]);
    var w3 := Next(w2, events[2]);
    var w4 := Next(w3, events[3]);
    var none: seq<State> := [];
    assert w2 == World([], [], true, 0, map[]) by { assert Overlaid(none, none) == none; }
    assert w3.published == [s] by {
      assert [s][..0] == none;
      assert Overlaid(none, [s]) == [s];
    }
    assert w4.published == [s];
    assert Changed([s], [s]) == none by { assert [s][..0] == none; assert Changed(none, [s]) == none; }
    var gone: seq<Key> := [];
    assert Removed([s], [s]) == gone by { assert [s][..0] == none; assert Removed(none, [s]) == gone; }
    assert IsRun([START, w1, w2, w3, w4], events);
    assert [START, w1, w2, w3, w4][4] == w4;
  }
}

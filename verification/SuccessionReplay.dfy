/** Paging over the committed handoffs of a Host: every page is read on its own, from the store and
    the cursor the caller sends back, yet the pages together list every committed handoff once. */
module SuccessionReplay {
  import JsonQuote

  datatype Option<+T> = None | Some(value: T)

  /** Text as UTF-16 code units, which is what comparing two texts goes by. */
  type Id = JsonQuote.Text

  const MAX_BYTES: nat := 8 * 1024 * 1024
  const MAX_LIMIT: nat := 64
  const DEFAULT_LIMIT: nat := 32
  const MAX_CURSOR: nat := 4096
  const MAX_SAFE: nat := 0x1F_FFFF_FFFF_FFFF

  predicate ValidId(id: Id) {
    0 < |id| <= 512 && forall u | u in id :: u > 0x1F
  }

  predicate Before(a: Id, b: Id) {
    if a == [] then b != []
    else b != [] && (a[0] < b[0] || (a[0] == b[0] && Before(a[1..], b[1..])))
  }

  lemma {:induction false} BeforeIsTotal(a: Id, b: Id)
    ensures a == b || Before(a, b) || Before(b, a)
    ensures !(Before(a, b) && Before(b, a)) && !Before(a, a)
  {
    if a != [] && b != [] {
      BeforeIsTotal(a[1..], b[1..]);
      assert a == [a[0]] + a[1..] && b == [b[0]] + b[1..];
    }
    if a != [] { BeforeIsTotal(a[1..], a[1..]); }
  }

  lemma {:induction false} BeforeIsTransitive(a: Id, b: Id, c: Id)
    requires Before(a, b) && Before(b, c)
    ensures Before(a, c)
  {
    if a != [] && a[0] == b[0] == c[0] { BeforeIsTransitive(a[1..], b[1..], c[1..]); }
  }

  // ---- The store and its projections ----

  datatype Record = Record(committed: bool, revision: nat, operation: nat, size: nat, sound: bool)

  /** A role and its handoffs; `local` says that both its ends belong to this Controller. */
  datatype State = State(role: Id, origin: nat, local: bool, records: seq<Record>)

  datatype Key = Key(role: Id, revision: nat)

  datatype Item = Item(key: Key, operation: nat, size: nat, sound: bool)

  predicate Less(a: Key, b: Key) {
    Before(a.role, b.role) || (a.role == b.role && a.revision < b.revision)
  }

  lemma LessIsOrder(a: Key, b: Key, c: Key)
    ensures a == b || Less(a, b) || Less(b, a)
    ensures !(Less(a, b) && Less(b, a)) && !Less(a, a)
    ensures Less(a, b) && Less(b, c) ==> Less(a, c)
  {
    BeforeIsTotal(a.role, b.role);
    if Before(a.role, b.role) && Before(b.role, c.role) { BeforeIsTransitive(a.role, b.role, c.role); }
  }

  function Roles(store: seq<State>, origin: Option<nat>): seq<State> {
    if store == [] then []
    else (if store[0].local && (origin.None? || origin.value == store[0].origin) then [store[0]] else []) + Roles(store[1..], origin)
  }

  function Committed(role: Id, records: seq<Record>): seq<Item> {
    if records == [] then []
    else
      var r := records[0];
      (if r.committed then [Item(Key(role, r.revision), r.operation, r.size, r.sound)] else []) + Committed(role, records[1..])
  }

  function Gathered(states: seq<State>, roleId: Option<Id>): seq<Item> {
    if states == [] then []
    else (if roleId.None? || roleId.value == states[0].role then Committed(states[0].role, states[0].records) else []) + Gathered(states[1..], roleId)
  }

  function Inserted(x: Item, s: seq<Item>): seq<Item> {
    if s == [] || !Less(s[0].key, x.key) then [x] + s else [s[0]] + Inserted(x, s[1..])
  }

  function Sorted(s: seq<Item>): seq<Item> {
    if s == [] then [] else Inserted(s[0], Sorted(s[1..]))
  }

  function Kept(s: seq<Item>, afterRevision: nat, after: Option<Key>): seq<Item> {
    if s == [] then []
    else (if s[0].key.revision > afterRevision && (after.None? || Less(after.value, s[0].key)) then [s[0]] else []) + Kept(s[1..], afterRevision, after)
  }

  function Entries(store: seq<State>, origin: Option<nat>, roleId: Option<Id>): seq<Item> {
    Sorted(Gathered(Roles(store, origin), roleId))
  }

  function Bytes(s: seq<Item>): nat {
    if s == [] then 0 else Bytes(s[..|s| - 1]) + s[|s| - 1].size
  }

  // ---- One page ----

  /** How many of `items` still fit after `count` items of `bytes`; none at all when an item the
      builder looks at is larger than a page. */
  function Filled(items: seq<Item>, count: nat, bytes: nat, limit: nat): (r: Option<nat>)
    ensures r.Some? ==> r.value <= |items|
  {
    if items == [] then Some(0)
    else if items[0].size > MAX_BYTES then None
    else if count >= limit || bytes + items[0].size > MAX_BYTES then Some(0)
    else
      var rest := Filled(items[1..], count + 1, bytes + items[0].size, limit);
      if rest.None? then None else Some(rest.value + 1)
  }

  lemma {:induction false} BytesOfMore(s: seq<Item>, k: nat)
    requires k < |s|
    ensures Bytes(s[..k + 1]) == Bytes(s[..k]) + s[k].size
  {
    assert s[..k + 1][..k] == s[..k];
  }

  /** What the loop of the builder does next. */
  lemma FilledNext(available: seq<Item>, i: nat, bytes: nat, limit: nat)
    requires i < |available|
    ensures Filled(available[i..], i, bytes, limit) ==
            (if available[i].size > MAX_BYTES then None
             else if i >= limit || bytes + available[i].size > MAX_BYTES then Some(0)
             else match Filled(available[i + 1..], i + 1, bytes + available[i].size, limit) case None => None case Some(k) => Some(k + 1))
  {
    assert available[i..][1..] == available[i + 1..];
  }

  method BuildPage(available: seq<Item>, limit: nat) returns (taken: Option<seq<Item>>)
    ensures taken == (match Filled(available, 0, 0, limit) case None => None case Some(k) => Some(available[..k]))
    ensures taken.Some? ==> |taken.value| <= limit && Bytes(taken.value) <= MAX_BYTES
  {
    var successions, bytes, i := [], 0, 0;
    while i < |available|
      invariant 0 <= i <= |available| && i <= limit && successions == available[..i] && bytes == Bytes(successions) <= MAX_BYTES
      invariant Filled(available, 0, 0, limit) ==
                (match Filled(available[i..], i, bytes, limit) case None => None case Some(k) => Some(i + k))
    {
      var item := available[i];
      FilledNext(available, i, bytes, limit);
      if item.size > MAX_BYTES { return None; }
      if |successions| >= limit || bytes + item.size > MAX_BYTES { break; }
      BytesOfMore(available, i);
      successions, bytes, i := successions + [item], bytes + item.size, i + 1;
    }
    return Some(successions);
  }

  datatype Scope = Scope(origin: Option<nat>, roleId: Option<Id>, afterRevision: nat)

  datatype Cursor = Cursor(scope: Scope, role: Id, revision: nat)

  /** A query parameter: left out, not of the right form, or a value. */
  datatype Field<T> = Absent | Malformed | Given(value: T)

  datatype Query = Query(roleId: Option<Id>, afterRevision: Field<nat>, limit: Field<nat>, cursor: Field<Cursor>)

  datatype Answer = Failed(status: nat) | Page(items: seq<Item>, next: Option<Cursor>)

  function Counter(f: Field<nat>, fallback: nat): Option<nat> {
    match f case Absent => Some(fallback) case Malformed => None case Given(n) => if n <= MAX_SAFE then Some(n) else None
  }

  predicate AcceptsCursor(length: Cursor -> nat, c: Cursor, scope: Scope) {
    length(c) <= MAX_CURSOR && c.scope == scope && ValidId(c.role) && 2 <= c.revision <= MAX_SAFE
  }

  predicate Sound(entries: seq<Item>) {
    forall x | x in entries :: x.sound
  }

  predicate HasRole(states: seq<State>, roleId: Id) {
    exists i | 0 <= i < |states| :: states[i].role == roleId
  }

  function PageOf(length: Cursor -> nat, scope: Scope, available: seq<Item>, limit: nat): Answer {
    match Filled(available, 0, 0, limit)
    case None => Failed(503)
    case Some(k) =>
      if 0 < k < |available| then
        var next := Cursor(scope, available[k - 1].key.role, available[k - 1].key.revision);
        if length(next) <= MAX_CURSOR then Page(available[..k], Some(next)) else Failed(503)
      else Page(available[..k], None)
  }

  function RevisionOf(q: Query): nat {
    match Counter(q.afterRevision, 0) case Some(n) => n case None => 0
  }

  function LimitOf(q: Query): nat {
    match Counter(q.limit, DEFAULT_LIMIT) case Some(n) => n case None => 0
  }

  function ScopeOf(origin: Option<nat>, q: Query): Scope {
    Scope(origin, q.roleId, RevisionOf(q))
  }

  /** Where the cursor of an accepted query stands. */
  function StartOf(q: Query): Option<Key> {
    match q.cursor case Given(c) => Some(Key(c.role, c.revision)) case _ => None
  }

  function Refused(store: seq<State>, length: Cursor -> nat, origin: Option<nat>, q: Query): Option<nat> {
    if (q.roleId.Some? && !ValidId(q.roleId.value)) || (!q.afterRevision.Absent? && q.roleId.None?) then Some(400)
    else if q.roleId.Some? && !HasRole(Roles(store, origin), q.roleId.value) then Some(403)
    else if !Sound(Entries(store, origin, q.roleId)) then Some(503)
    else if Counter(q.afterRevision, 0).None? || Counter(q.limit, DEFAULT_LIMIT).None? || LimitOf(q) < 1 || LimitOf(q) > MAX_LIMIT then Some(400)
    else if q.cursor.Malformed? || (q.cursor.Given? && !AcceptsCursor(length, q.cursor.value, ScopeOf(origin, q))) then Some(400)
    else None
  }

  function Read(store: seq<State>, length: Cursor -> nat, origin: Option<nat>, q: Query): Answer {
    match Refused(store, length, origin, q)
    case Some(status) => Failed(status)
    case None => PageOf(length, ScopeOf(origin, q), Kept(Entries(store, origin, q.roleId), RevisionOf(q), StartOf(q)), LimitOf(q))
  }

  // ---- What a store promises ----

  /** Role ids are unique, and so are the revisions of one role's committed handoffs, which start at 2. */
  ghost predicate WellFormed(store: seq<State>) {
    && (forall i, j | 0 <= i < j < |store| :: store[i].role != store[j].role)
    && (forall i | 0 <= i < |store| :: ValidId(store[i].role) && RecordsOk(store[i].records))
  }

  ghost predicate RecordsOk(records: seq<Record>) {
    && (forall i, j | 0 <= i < j < |records| && records[i].committed && records[j].committed :: records[i].revision != records[j].revision)
    && (forall i | 0 <= i < |records| && records[i].committed :: 2 <= records[i].revision <= MAX_SAFE)
  }

  /** The committed handoff `item` is visible from `origin` and selected by `roleId` and `afterRevision`. */
  ghost predicate InScope(store: seq<State>, scope: Scope, item: Item) {
    exists s, r | s in store && r in s.records ::
      && s.local && (scope.origin.None? || scope.origin.value == s.origin) && (scope.roleId.None? || scope.roleId.value == s.role)
      && r.committed && r.revision > scope.afterRevision && item == Item(Key(s.role, r.revision), r.operation, r.size, r.sound)
  }

  ghost predicate DistinctKeys(s: seq<Item>) {
    forall i, j | 0 <= i < j < |s| :: s[i].key != s[j].key
  }

  ghost predicate Ascending(s: seq<Item>) {
    forall i, j | 0 <= i < j < |s| :: Less(s[i].key, s[j].key)
  }

  // ---- Gathering keeps exactly what is in scope ----

  lemma {:induction false} RolesSelect(store: seq<State>, origin: Option<nat>)
    requires WellFormed(store)
    ensures WellFormed(Roles(store, origin))
    ensures forall s :: s in Roles(store, origin) <==> s in store && s.local && (origin.None? || origin.value == s.origin)
  {
    if store != [] {
      assert store == [store[0]] + store[1..];
      RolesSelect(store[1..], origin);
      forall s | s in Roles(store[1..], origin) ensures s.role != store[0].role {
        assert s in store[1..];
      }
    }
  }

  /** The committed handoff `x` is one of the records of `role`. */
  ghost predicate Recorded(role: Id, records: seq<Record>, x: Item) {
    exists r | r in records :: r.committed && x == Item(Key(role, r.revision), r.operation, r.size, r.sound)
  }

  lemma {:induction false} CommittedAre(role: Id, records: seq<Record>, x: Item)
    ensures x in Committed(role, records) <==> Recorded(role, records, x)
  {
    if records != [] {
      assert records == [records[0]] + records[1..];
      CommittedAre(role, records[1..], x);
    }
  }

  lemma {:induction false} CommittedAreDistinct(role: Id, records: seq<Record>)
    requires RecordsOk(records)
    ensures DistinctKeys(Committed(role, records))
  {
    if records != [] {
      CommittedAreDistinct(role, records[1..]);
      var rest := Committed(role, records[1..]);
      forall k | 0 <= k < |rest| ensures records[0].committed ==> rest[k].key != Key(role, records[0].revision) {
        CommittedAre(role, records[1..], rest[k]);
      }
    }
  }

  lemma CommittedSelect(role: Id, records: seq<Record>)
    requires RecordsOk(records)
    ensures DistinctKeys(Committed(role, records))
    ensures forall x | x in Committed(role, records) :: x.key.role == role && 2 <= x.key.revision <= MAX_SAFE
    ensures forall x :: x in Committed(role, records) <==> Recorded(role, records, x)
  {
    CommittedAreDistinct(role, records);
    forall x ensures x in Committed(role, records) <==> Recorded(role, records, x) { CommittedAre(role, records, x); }
  }

  ghost predicate Collects(states: seq<State>, roleId: Option<Id>, x: Item) {
    exists s | s in states :: (roleId.None? || roleId.value == s.role) && x in Committed(s.role, s.records)
  }

  lemma {:induction false} GatheredSelect(states: seq<State>, roleId: Option<Id>)
    requires WellFormed(states)
    ensures DistinctKeys(Gathered(states, roleId))
    ensures forall x :: x in Gathered(states, roleId) <==> Collects(states, roleId, x)
    ensures forall x | x in Gathered(states, roleId) :: ValidId(x.key.role) && 2 <= x.key.revision <= MAX_SAFE
  {
    if states != [] {
      assert states == [states[0]] + states[1..];
      GatheredSelect(states[1..], roleId);
      CommittedSelect(states[0].role, states[0].records);
      var head := if roleId.None? || roleId.value == states[0].role then Committed(states[0].role, states[0].records) else [];
      var rest := Gathered(states[1..], roleId);
      forall i, j | 0 <= i < |head| && 0 <= j < |rest| ensures head[i].key != rest[j].key {
        assert head[i] in head && rest[j] in rest;
        var s :| s in states[1..] && rest[j] in Committed(s.role, s.records);
        CommittedSelect(s.role, s.records);
      }
      forall x ensures x in Gathered(states, roleId) <==> Collects(states, roleId, x) {
        if x in rest {
          var s :| s in states[1..] && (roleId.None? || roleId.value == s.role) && x in Committed(s.role, s.records);
          assert s in states;
        }
        if Collects(states, roleId, x) {
          var s :| s in states && (roleId.None? || roleId.value == s.role) && x in Committed(s.role, s.records);
          if s in states[1..] { assert Collects(states[1..], roleId, x); }
        }
      }
    }
  }

  // ---- Sorting ----

  lemma {:induction false} InsertedKeeps(x: Item, s: seq<Item>)
    requires Ascending(s) && forall i | 0 <= i < |s| :: s[i].key != x.key
    ensures Ascending(Inserted(x, s))
    ensures forall y :: y in Inserted(x, s) <==> y == x || y in s
  {
    if s == [] {
    } else if !Less(s[0].key, x.key) {
      forall i | 0 <= i < |s| ensures Less(x.key, s[i].key) {
        LessIsOrder(x.key, s[0].key, s[i].key);
      }
    } else {
      InsertedKeeps(x, s[1..]);
      var rest := Inserted(x, s[1..]);
      assert s == [s[0]] + s[1..];
      forall k | 0 <= k < |rest| ensures Less(s[0].key, rest[k].key) {
        assert rest[k] in rest;
        if rest[k] != x { var i :| 0 <= i < |s[1..]| && s[1..][i] == rest[k]; assert s[i + 1] == rest[k]; }
      }
    }
  }

  lemma {:induction false} SortedSorts(s: seq<Item>)
    requires DistinctKeys(s)
    ensures Ascending(Sorted(s)) && forall x :: x in Sorted(s) <==> x in s
  {
    if s != [] {
      SortedSorts(s[1..]);
      var rest := Sorted(s[1..]);
      forall i | 0 <= i < |rest| ensures rest[i].key != s[0].key {
        assert rest[i] in s[1..];
        var j :| 0 <= j < |s[1..]| && s[1..][j] == rest[i];
        assert s[j + 1] == rest[i];
      }
      InsertedKeeps(s[0], rest);
      assert s == [s[0]] + s[1..];
    }
  }

  lemma {:induction false} KeptSelects(s: seq<Item>, afterRevision: nat, after: Option<Key>)
    requires Ascending(s)
    ensures Ascending(Kept(s, afterRevision, after))
    ensures forall x :: x in Kept(s, afterRevision, after) <==>
                        x in s && x.key.revision > afterRevision && (after.None? || Less(after.value, x.key))
  {
    if s != [] {
      assert s == [s[0]] + s[1..];
      KeptSelects(s[1..], afterRevision, after);
      var rest := Kept(s[1..], afterRevision, after);
      forall k | 0 <= k < |rest| ensures Less(s[0].key, rest[k].key) {
        assert rest[k] in s[1..];
        var i :| 0 <= i < |s[1..]| && s[1..][i] == rest[k];
        assert s[i + 1] == rest[k];
      }
    }
  }

  function Above(s: seq<Item>, k: Key): seq<Item> {
    if s == [] then [] else (if Less(k, s[0].key) then [s[0]] else []) + Above(s[1..], k)
  }

  lemma {:induction false} KeptThenAbove(s: seq<Item>, afterRevision: nat, k: Key)
    ensures Kept(s, afterRevision, Some(k)) == Above(Kept(s, afterRevision, None), k)
  {
    if s != [] {
      KeptThenAbove(s[1..], afterRevision, k);
      var rest := Kept(s[1..], afterRevision, None);
      assert ([s[0]] + rest)[1..] == rest;
      if s[0].key.revision <= afterRevision { assert Kept(s, afterRevision, None) == rest; }
    }
  }

  lemma {:induction false} AboveIsRest(s: seq<Item>, k: Key, n: nat)
    requires n <= |s| && (forall i | 0 <= i < n :: !Less(k, s[i].key)) && (forall i | n <= i < |s| :: Less(k, s[i].key))
    ensures Above(s, k) == s[n..]
  {
    if s != [] { AboveIsRest(s[1..], k, if n == 0 then 0 else n - 1); }
  }

  /** Asking for what comes after an entry of the listing asks for the rest of the listing. */
  lemma KeptIsRest(s: seq<Item>, afterRevision: nat, n: nat)
    requires Ascending(s) && n < |Kept(s, afterRevision, None)|
    ensures Kept(s, afterRevision, Some(Kept(s, afterRevision, None)[n].key)) == Kept(s, afterRevision, None)[n + 1..]
  {
    var all := Kept(s, afterRevision, None);
    var k := all[n].key;
    KeptThenAbove(s, afterRevision, k);
    KeptSelects(s, afterRevision, None);
    forall i | 0 <= i <= n ensures !Less(k, all[i].key) { LessIsOrder(all[i].key, k, k); }
    AboveIsRest(all, k, n + 1);
  }

  // ---- Walking all pages ----

  /** The listing a query selects, whatever its cursor. */
  function Listing(store: seq<State>, origin: Option<nat>, q: Query): seq<Item> {
    Kept(Entries(store, origin, q.roleId), RevisionOf(q), None)
  }

  lemma ListingIsScope(store: seq<State>, origin: Option<nat>, q: Query)
    requires WellFormed(store)
    ensures Ascending(Entries(store, origin, q.roleId)) && Ascending(Listing(store, origin, q))
    ensures forall x :: x in Listing(store, origin, q) <==> InScope(store, ScopeOf(origin, q), x)
    ensures forall x | x in Listing(store, origin, q) :: ValidId(x.key.role) && 2 <= x.key.revision <= MAX_SAFE
  {
    var states, scope := Roles(store, origin), ScopeOf(origin, q);
    RolesSelect(store, origin);
    GatheredSelect(states, q.roleId);
    SortedSorts(Gathered(states, q.roleId));
    KeptSelects(Entries(store, origin, q.roleId), scope.afterRevision, None);
    forall x ensures x in Listing(store, origin, q) <==> InScope(store, scope, x) {
      if x in Listing(store, origin, q) {
        assert Collects(states, q.roleId, x);
        var s :| s in states && (q.roleId.None? || q.roleId.value == s.role) && x in Committed(s.role, s.records);
        CommittedSelect(s.role, s.records);
      }
      if InScope(store, scope, x) {
        var s, r :| s in store && r in s.records && s.local && (origin.None? || origin.value == s.origin)
          && (q.roleId.None? || q.roleId.value == s.role) && r.committed && r.revision > scope.afterRevision
          && x == Item(Key(s.role, r.revision), r.operation, r.size, r.sound);
        CommittedSelect(s.role, s.records);
        assert s in states;
        assert Collects(states, q.roleId, x);
      }
    }
  }

  /** A caller that follows `nextCursor` until it is null: the pages it got, and whether it got there. */
  datatype Walk = Walk(pages: seq<seq<Item>>, complete: bool)

  function WalkFrom(read: Field<Cursor> -> Answer, cursor: Field<Cursor>, steps: nat): Walk
    decreases steps
  {
    match read(cursor)
    case Failed(_) => Walk([], false)
    case Page(items, None) => Walk([items], true)
    case Page(items, Some(c)) =>
      if steps == 0 then Walk([items], false)
      else
        var rest := WalkFrom(read, Given(c), steps - 1);
        Walk([items] + rest.pages, rest.complete)
  }

  function Flat(pages: seq<seq<Item>>): seq<Item> {
    if pages == [] then [] else pages[0] + Flat(pages[1..])
  }

  /** The query is one the Host answers. */
  ghost predicate Readable(store: seq<State>, length: Cursor -> nat, origin: Option<nat>, q: Query) {
    WellFormed(store) && Refused(store, length, origin, q.(cursor := Absent)).None?
  }

  /** Every page of `rest` but the last one ends at an entry whose cursor fits in an answer. */
  predicate EndsFit(length: Cursor -> nat, scope: Scope, rest: seq<Item>, limit: nat)
    decreases |rest|
  {
    match Filled(rest, 0, 0, limit)
    case None => true
    case Some(k) =>
      0 < k < |rest| ==>
        length(Cursor(scope, rest[k - 1].key.role, rest[k - 1].key.revision)) <= MAX_CURSOR && EndsFit(length, scope, rest[k..], limit)
  }

  /** The builder takes as much as the two limits allow. */
  lemma {:induction false} FilledIsGreedy(items: seq<Item>, count: nat, bytes: nat, limit: nat, k: nat)
    requires bytes <= MAX_BYTES && count <= limit && Filled(items, count, bytes, limit) == Some(k)
    ensures k <= limit - count && bytes + Bytes(items[..k]) <= MAX_BYTES && (forall i | 0 <= i < k :: items[i].size <= MAX_BYTES)
    ensures k < |items| ==> items[k].size <= MAX_BYTES && (k == limit - count || bytes + Bytes(items[..k + 1]) > MAX_BYTES)
  {
    if items != [] && count < limit && bytes + items[0].size <= MAX_BYTES {
      FilledIsGreedy(items[1..], count + 1, bytes + items[0].size, limit, k - 1);
      BytesOfFirst(items, k);
      if k < |items| { BytesOfFirst(items, k + 1); }
    } else if items != [] {
      BytesOfMore(items, 0);
    }
  }

  lemma {:induction false} RefusedForSize(items: seq<Item>, count: nat, bytes: nat, limit: nat)
    requires Filled(items, count, bytes, limit).None?
    ensures !Small(items)
  {
    if items[0].size <= MAX_BYTES { RefusedForSize(items[1..], count + 1, bytes + items[0].size, limit); }
  }

  lemma {:induction false} BytesOfFirst(items: seq<Item>, k: nat)
    requires 1 <= k <= |items|
    ensures Bytes(items[..k]) == items[0].size + Bytes(items[1..][..k - 1])
  {
    if k == 1 {
      BytesOfMore(items, 0);
    } else {
      BytesOfFirst(items, k - 1);
      BytesOfMore(items, k - 1);
      BytesOfMore(items[1..], k - 2);
    }
  }

  /** The cursor that asks for what follows the first `n` entries. */
  function CursorAt(scope: Scope, all: seq<Item>, n: nat): Field<Cursor> {
    if 0 < n <= |all| then Given(Cursor(scope, all[n - 1].key.role, all[n - 1].key.revision)) else Absent
  }

  predicate FitsAt(length: Cursor -> nat, scope: Scope, all: seq<Item>, n: nat) {
    CursorAt(scope, all, n).Given? ==> length(CursorAt(scope, all, n).value) <= MAX_CURSOR
  }

  lemma StartIsRest(entries: seq<Item>, scope: Scope, afterRevision: nat, n: nat, c: Field<Cursor>)
    requires Ascending(entries) && n <= |Kept(entries, afterRevision, None)| && c == CursorAt(scope, Kept(entries, afterRevision, None), n)
    ensures Kept(entries, afterRevision, if c.Given? then Some(Key(c.value.role, c.value.revision)) else None) == Kept(entries, afterRevision, None)[n..]
  {
    var all := Kept(entries, afterRevision, None);
    if n > 0 {
      KeptIsRest(entries, afterRevision, n - 1);
      assert Key(all[n - 1].key.role, all[n - 1].key.revision) == all[n - 1].key;
    }
  }

  /** Only its cursor can turn a query the Host answers into one it refuses. */
  lemma OnlyCursorsMatter(store: seq<State>, length: Cursor -> nat, origin: Option<nat>, q: Query, c: Field<Cursor>)
    requires Refused(store, length, origin, q.(cursor := Absent)).None?
    requires c.Absent? || (c.Given? && AcceptsCursor(length, c.value, ScopeOf(origin, q)))
    ensures Refused(store, length, origin, q.(cursor := c)).None?
  {}

  lemma CursorIsAccepted(store: seq<State>, length: Cursor -> nat, origin: Option<nat>, q: Query, n: nat)
    requires Readable(store, length, origin, q) && n <= |Listing(store, origin, q)|
    requires FitsAt(length, ScopeOf(origin, q), Listing(store, origin, q), n)
    ensures Refused(store, length, origin, q.(cursor := CursorAt(ScopeOf(origin, q), Listing(store, origin, q), n))).None?
  {
    var all := Listing(store, origin, q);
    ListingIsScope(store, origin, q);
    assert n > 0 ==> all[n - 1] in all;
    OnlyCursorsMatter(store, length, origin, q, CursorAt(ScopeOf(origin, q), all, n));
  }

  lemma ReadIsPage(store: seq<State>, length: Cursor -> nat, origin: Option<nat>, q: Query, n: nat)
    requires Readable(store, length, origin, q) && n <= |Listing(store, origin, q)|
    requires FitsAt(length, ScopeOf(origin, q), Listing(store, origin, q), n)
    ensures Read(store, length, origin, q.(cursor := CursorAt(ScopeOf(origin, q), Listing(store, origin, q), n))) ==
            PageOf(length, ScopeOf(origin, q), Listing(store, origin, q)[n..], LimitOf(q))
  {
    var c := CursorAt(ScopeOf(origin, q), Listing(store, origin, q), n);
    CursorIsAccepted(store, length, origin, q, n);
    ListingIsScope(store, origin, q);
    StartIsRest(Entries(store, origin, q.roleId), ScopeOf(origin, q), RevisionOf(q), n, c);
    assert StartOf(q.(cursor := c)) == (if c.Given? then Some(Key(c.value.role, c.value.revision)) else None);
  }

  predicate Small(s: seq<Item>) {
    forall i | 0 <= i < |s| :: s[i].size <= MAX_BYTES
  }

  function Cursors(scope: Scope, all: seq<Item>): nat -> Field<Cursor> {
    (n: nat) => CursorAt(scope, all, n)
  }

  function Fitting(length: Cursor -> nat, scope: Scope, all: seq<Item>): nat -> bool {
    (n: nat) => FitsAt(length, scope, all, n)
  }

  function Endings(length: Cursor -> nat, scope: Scope, all: seq<Item>, limit: nat): nat -> bool {
    (n: nat) => n <= |all| && EndsFit(length, scope, all[n..], limit)
  }

  /** The answer to a request for what follows the first `n` entries: refused, because of a size or
      of the cursor it would need, the last page, or a page followed by another; empty only when
      nothing is left.  `at` are the cursors, `ok` says which of them fit, and `fits` whether all
      those a walk from there needs do. */
  ghost predicate Leads(answer: Answer, at: nat -> Field<Cursor>, ok: nat -> bool, fits: nat -> bool, all: seq<Item>, n: nat, limit: nat)
    requires n <= |all|
  {
    match answer
    case Failed(_) => !Small(all[n..]) || !fits(n)
    case Page(items, next) =>
      && Taken(items, all, n, limit)
      && (next.None? ==> items == all[n..] && fits(n))
      && (next.Some? ==> 0 < |items| < |all| - n && Given(next.value) == at(n + |items|) && ok(n + |items|) && fits(n) == fits(n + |items|))
  }

  ghost predicate Taken(items: seq<Item>, all: seq<Item>, n: nat, limit: nat)
    requires n <= |all|
  {
    && n + |items| <= |all| && items == all[n..n + |items|]
    && |items| <= limit && Bytes(items) <= MAX_BYTES && Small(items) && (items == [] ==> n == |all|)
  }

  lemma PageLeads(length: Cursor -> nat, scope: Scope, all: seq<Item>, n: nat, limit: nat)
    requires limit >= 1 && n <= |all|
    ensures Leads(PageOf(length, scope, all[n..], limit), Cursors(scope, all), Fitting(length, scope, all), Endings(length, scope, all, limit), all, n, limit)
  {
    var rest := all[n..];
    if rest != [] { BytesOfMore(rest, 0); }
    var filled := Filled(rest, 0, 0, limit);
    if filled.None? {
      RefusedForSize(rest, 0, 0, limit);
    } else {
      FilledIsGreedy(rest, 0, 0, limit, filled.value);
      assert rest[..filled.value] == all[n..n + filled.value] && rest[filled.value..] == all[n + filled.value..];
    }
  }

  ghost predicate ReadsAll(w: Walk, rest: seq<Item>, fit: bool, limit: nat) {
    && (w.complete <==> Small(rest) && fit)
    && (w.complete ==> Flat(w.pages) == rest)
    && (forall p | p in w.pages :: |p| <= limit && Bytes(p) <= MAX_BYTES)
    && (rest != [] ==> forall i | 0 <= i < |w.pages| :: w.pages[i] != [])
  }

  lemma PageThenRest(page: seq<Item>, w: Walk, rest: seq<Item>, fit: bool, limit: nat)
    requires ReadsAll(w, rest, fit, limit) && page != [] && rest != [] && Small(page) && |page| <= limit && Bytes(page) <= MAX_BYTES
    ensures ReadsAll(Walk([page] + w.pages, w.complete), page + rest, fit, limit)
  {
    assert ([page] + w.pages)[1..] == w.pages;
    if Small(page + rest) {
      forall i | 0 <= i < |rest| ensures rest[i].size <= MAX_BYTES { assert rest[i] == (page + rest)[|page| + i]; }
    }
  }

  lemma LastPage(page: seq<Item>, limit: nat)
    requires Small(page) && |page| <= limit && Bytes(page) <= MAX_BYTES
    ensures ReadsAll(Walk([page], true), page, true, limit)
  {
    assert Flat([page]) == page + Flat([page][1..]);
  }

  /** Starting where `n` entries have been read, the walk reads exactly the rest. */
  lemma {:induction false} WalkReadsRest(read: Field<Cursor> -> Answer, at: nat -> Field<Cursor>, ok: nat -> bool, fits: nat -> bool,
                                         all: seq<Item>, limit: nat, n: nat, steps: nat)
    requires forall m | 0 <= m <= |all| && ok(m) :: Leads(read(at(m)), at, ok, fits, all, m, limit)
    requires n <= |all| <= n + steps && ok(n)
    ensures ReadsAll(WalkFrom(read, at(n), steps), all[n..], fits(n), limit)
    decreases steps
  {
    var answer := read(at(n));
    assert Leads(answer, at, ok, fits, all, n, limit);
    if answer.Page? && answer.next.Some? {
      var m := n + |answer.items|;
      WalkReadsRest(read, at, ok, fits, all, limit, m, steps - 1);
      PageThenRest(answer.items, WalkFrom(read, at(m), steps - 1), all[m..], fits(m), limit);
      assert answer.items + all[m..] == all[n..];
    } else if answer.Page? {
      LastPage(answer.items, limit);
    }
  }

  /** The requests of one caller, which differ in their cursors only. */
  function Reader(store: seq<State>, length: Cursor -> nat, origin: Option<nat>, q: Query): Field<Cursor> -> Answer {
    (c: Field<Cursor>) => Read(store, length, origin, q.(cursor := c))
  }

  // ---- The main result ----

  /** For a fixed store, following `nextCursor` from the start ends, within one request per handoff
      and one more, if and only if no handoff in scope is too large for a page and the cursor at the
      end of every page but the last fits.  The pages then list every committed handoff in scope, each
      once, in (role, revision) order; every page keeps both limits. */
  lemma PagingIsComplete(store: seq<State>, length: Cursor -> nat, origin: Option<nat>, q: Query)
    requires Readable(store, length, origin, q)
    ensures var scope := ScopeOf(origin, q);
            var w := WalkFrom(Reader(store, length, origin, q), Absent, |Listing(store, origin, q)|);
            && (w.complete <==> (forall x | InScope(store, scope, x) :: x.size <= MAX_BYTES)
                                && EndsFit(length, scope, Listing(store, origin, q), LimitOf(q)))
            && (w.complete ==> Ascending(Flat(w.pages)) && forall x :: x in Flat(w.pages) <==> InScope(store, scope, x))
            && (forall p | p in w.pages :: |p| <= LimitOf(q) && Bytes(p) <= MAX_BYTES)
            && (Listing(store, origin, q) != [] ==> forall i | 0 <= i < |w.pages| :: w.pages[i] != [])
  {
    var all, read, scope := Listing(store, origin, q), Reader(store, length, origin, q), ScopeOf(origin, q);
    ListingIsScope(store, origin, q);
    var at, ok, fits := Cursors(scope, all), Fitting(length, scope, all), Endings(length, scope, all, LimitOf(q));
    forall m | 0 <= m <= |all| && ok(m) ensures Leads(read(at(m)), at, ok, fits, all, m, LimitOf(q)) {
      ReadIsPage(store, length, origin, q, m);
      PageLeads(length, scope, all, m, LimitOf(q));
    }
    WalkReadsRest(read, at, ok, fits, all, LimitOf(q), 0, |all|);
    assert all[0..] == all;
    forall i | 0 <= i < |all| ensures all[i] in all {}
  }

  /** A cursor is only good for the listing it came from. */
  lemma ForeignCursorIsRefused(store: seq<State>, length: Cursor -> nat, origin: Option<nat>, q: Query)
    requires Readable(store, length, origin, q) && q.cursor.Given?
    requires q.cursor.value.scope != ScopeOf(origin, q)
    ensures Read(store, length, origin, q) == Failed(400)
  {}

  // ---- Which queries are answered ----

  ghost predicate GoodId(id: Id) {
    1 <= |id| <= 512 && forall u | u in id :: u >= 32
  }

  ghost predicate GoodSelection(q: Query) {
    (q.roleId.Some? ==> GoodId(q.roleId.value)) && (q.roleId.None? ==> q.afterRevision.Absent?)
  }

  /** The selected role is one of this Controller's own, and visible from the origin. */
  ghost predicate GoodRole(store: seq<State>, origin: Option<nat>, q: Query) {
    q.roleId.Some? ==> exists s | s in store :: s.local && (origin.None? || origin.value == s.origin) && s.role == q.roleId.value
  }

  ghost predicate GoodCounters(q: Query) {
    && (q.afterRevision.Absent? || (q.afterRevision.Given? && q.afterRevision.value <= 9007199254740991))
    && (q.limit.Absent? || (q.limit.Given? && 1 <= q.limit.value <= 64))
  }

  ghost predicate GoodCursor(length: Cursor -> nat, scope: Scope, c: Field<Cursor>) {
    c.Absent? || (c.Given? && length(c.value) <= 4096 && c.value.scope == scope && GoodId(c.value.role) && 2 <= c.value.revision <= 9007199254740991)
  }

  /** A query is answered if and only if its selection has the right form, its role is visible, every
      entry is sound, and its counters and its cursor are in range.  The first thing that is wrong
      decides the status: 400 for the form, 403 for the role, 503 for an entry. */
  lemma AnsweredExactly(store: seq<State>, length: Cursor -> nat, origin: Option<nat>, q: Query)
    requires WellFormed(store)
    ensures var refused, sound := Refused(store, length, origin, q), forall x | x in Entries(store, origin, q.roleId) :: x.sound;
            && (refused.None? <==> GoodSelection(q) && GoodRole(store, origin, q) && sound && GoodCounters(q) && GoodCursor(length, ScopeOf(origin, q), q.cursor))
            && (refused == Some(403) <==> GoodSelection(q) && !GoodRole(store, origin, q))
            && (refused == Some(503) <==> GoodSelection(q) && GoodRole(store, origin, q) && !sound)
            && (refused.Some? ==> refused.value in {400, 403, 503} && Read(store, length, origin, q) == Failed(refused.value))
  {
    if q.roleId.Some? { RoleIsVisible(store, origin, q); }
  }

  lemma RoleIsVisible(store: seq<State>, origin: Option<nat>, q: Query)
    requires WellFormed(store) && q.roleId.Some?
    ensures HasRole(Roles(store, origin), q.roleId.value) <==> GoodRole(store, origin, q)
  {
    RolesSelect(store, origin);
    var states := Roles(store, origin);
    if i :| 0 <= i < |states| && states[i].role == q.roleId.value { assert states[i] in store; }
    if s :| s in store && s.local && (origin.None? || origin.value == s.origin) && s.role == q.roleId.value { assert s in states; }
  }

  // ---- The cursor as it is written ----

  function Digit(n: nat): JsonQuote.Unit { 48 + n % 10 }

  function Digits(n: nat): JsonQuote.Text {
    if n < 10 then [Digit(n)] else Digits(n / 10) + [Digit(n)]
  }

  function Quoted(id: Option<JsonQuote.Text>): JsonQuote.Text {
    match id case None => JsonQuote.Units("null") case Some(text) => JsonQuote.Quote(text)
  }

  /** The text of a cursor; `address` gives the key of an origin session. */
  function CursorText(controller: JsonQuote.Text, address: nat -> JsonQuote.Text, c: Cursor): JsonQuote.Text {
    BeforeRole(controller, address, c) + Quoted(c.scope.roleId) + BetweenRoles(c) + JsonQuote.Quote(c.role) + AfterRoles(c)
  }

  function BeforeRole(controller: JsonQuote.Text, address: nat -> JsonQuote.Text, c: Cursor): JsonQuote.Text {
    var origin := match c.scope.origin case None => None case Some(n) => Some(address(n));
    JsonQuote.Units("{\"scope\":[") + JsonQuote.Quote(controller) + JsonQuote.Units(",") + Quoted(origin) + JsonQuote.Units(",")
  }

  function BetweenRoles(c: Cursor): JsonQuote.Text {
    JsonQuote.Units(",") + Digits(c.scope.afterRevision) + JsonQuote.Units("],\"roleId\":")
  }

  function AfterRoles(c: Cursor): JsonQuote.Text {
    JsonQuote.Units(",\"revision\":") + Digits(c.revision) + JsonQuote.Units("}")
  }

  /** Bytes of a text in UTF-8; the two halves of a surrogate pair make up four. */
  function Utf8Length(s: JsonQuote.Text): nat {
    if s == [] then 0
    else (if s[0] < 0x80 then 1 else if s[0] < 0x800 || JsonQuote.High(s[0]) || JsonQuote.Low(s[0]) then 2 else 3) + Utf8Length(s[1..])
  }

  /** Length of a cursor in an answer, as base64url without padding. */
  function WireLength(controller: JsonQuote.Text, address: nat -> JsonQuote.Text): Cursor -> nat {
    (c: Cursor) => (4 * Utf8Length(CursorText(controller, address, c)) + 2) / 3
  }

  lemma {:induction false} Utf8LengthAdds(s: JsonQuote.Text, t: JsonQuote.Text)
    ensures Utf8Length(s + t) == Utf8Length(s) + Utf8Length(t)
  {
    if s == [] {
      assert s + t == t;
    } else {
      assert (s + t)[1..] == s[1..] + t;
      Utf8LengthAdds(s[1..], t);
    }
  }

  /** Characters that take three bytes each and no escape. */
  predicate Wide(s: JsonQuote.Text) {
    forall u | u in s :: u >= 0x800 && !JsonQuote.High(u) && !JsonQuote.Low(u)
  }

  lemma WidePiece(s: JsonQuote.Text)
    requires Wide(s) && s != []
    ensures JsonQuote.Taken(s) == 1 && JsonQuote.Piece(s) == [s[0]] && s == [s[0]] + s[1..] && Wide(s[1..])
  {
    assert s[0] in s && s == [s[0]] + s[1..];
  }

  lemma {:induction false} WideBody(s: JsonQuote.Text)
    requires Wide(s)
    ensures JsonQuote.Body(s) == s
  {
    if s != [] {
      WidePiece(s);
      WideBody(s[1..]);
    }
  }

  lemma {:induction false} WideLength(s: JsonQuote.Text)
    requires Wide(s)
    ensures Utf8Length(s) == 3 * |s|
  {
    if s != [] {
      WidePiece(s);
      assert s[0] in s;
      WideLength(s[1..]);
    }
  }

  lemma QuotedLength(s: JsonQuote.Text)
    requires Wide(s)
    ensures Utf8Length(JsonQuote.Quote(s)) == 3 * |s| + 2
  {
    WideBody(s);
    WideLength(s);
    Utf8LengthAdds([JsonQuote.QUOTE] + s, [JsonQuote.QUOTE]);
    Utf8LengthAdds([JsonQuote.QUOTE], s);
  }

  lemma PartLength(before: JsonQuote.Text, part: JsonQuote.Text, rest: JsonQuote.Text)
    ensures Utf8Length(before + part + rest) >= Utf8Length(part) + Utf8Length(rest)
  {
    Utf8LengthAdds(before + part, rest);
    Utf8LengthAdds(before, part);
  }

  lemma TwoPartsLength(before: JsonQuote.Text, a: JsonQuote.Text, between: JsonQuote.Text, b: JsonQuote.Text, rest: JsonQuote.Text)
    ensures Utf8Length(before + a + between + b + rest) >= Utf8Length(a) + Utf8Length(b)
  {
    PartLength(before, a, between + b + rest);
    PartLength(between, b, rest);
    assert before + a + between + b + rest == before + a + (between + b + rest);
  }

  /** A cursor that names a wide role twice takes eight characters or more for each of its units. */
  lemma WideCursorIsLong(controller: JsonQuote.Text, address: nat -> JsonQuote.Text, c: Cursor)
    requires c.scope.roleId == Some(c.role) && Wide(c.role)
    ensures WireLength(controller, address)(c) >= 8 * |c.role| + 2
  {
    TwoPartsLength(BeforeRole(controller, address, c), JsonQuote.Quote(c.role), BetweenRoles(c), JsonQuote.Quote(c.role), AfterRoles(c));
    QuotedLength(c.role);
  }

  /** Selecting a role whose id has 512 characters of three bytes, no cursor ever fits: the walk
      reaches the end exactly when all handoffs in scope make up one page. */
  lemma WideRoleHasOnePage(store: seq<State>, controller: JsonQuote.Text, address: nat -> JsonQuote.Text, origin: Option<nat>, q: Query)
    requires Readable(store, WireLength(controller, address), origin, q)
    requires q.roleId.Some? && |q.roleId.value| == 512 && Wide(q.roleId.value)
    ensures var all := Listing(store, origin, q);
            WalkFrom(Reader(store, WireLength(controller, address), origin, q), Absent, |all|).complete <==> Filled(all, 0, 0, LimitOf(q)) == Some(|all|)
  {
    var all, scope, length, limit := Listing(store, origin, q), ScopeOf(origin, q), WireLength(controller, address), LimitOf(q);
    PagingIsComplete(store, length, origin, q);
    ListingIsScope(store, origin, q);
    forall x | x in all ensures length(Cursor(scope, x.key.role, x.key.revision)) > MAX_CURSOR {
      assert InScope(store, scope, x);
      WideCursorIsLong(controller, address, Cursor(scope, x.key.role, x.key.revision));
    }
    OnePage(length, scope, all, limit);
    SmallAre(all);
  }

  lemma SmallAre(s: seq<Item>)
    ensures Small(s) <==> forall x | x in s :: x.size <= MAX_BYTES
  {
    assert forall i | 0 <= i < |s| :: s[i] in s;
  }

  lemma OnePage(length: Cursor -> nat, scope: Scope, all: seq<Item>, limit: nat)
    requires limit >= 1
    requires forall x | x in all :: length(Cursor(scope, x.key.role, x.key.revision)) > MAX_CURSOR
    ensures Small(all) && EndsFit(length, scope, all, limit) <==> Filled(all, 0, 0, limit) == Some(|all|)
  {
    var filled := Filled(all, 0, 0, limit);
    if filled.None? {
      RefusedForSize(all, 0, 0, limit);
    } else {
      FilledIsGreedy(all, 0, 0, limit, filled.value);
      if all != [] { BytesOfMore(all, 0); }
      assert 0 < filled.value < |all| ==> all[filled.value - 1] in all;
    }
  }

  /** The listing of one role whose records are all committed, in revision order, and none too old. */
  lemma {:induction false} OrderedListing(items: seq<Item>)
    requires Ascending(items) && forall x | x in items :: x.key.revision > 0
    ensures Kept(Sorted(items), 0, None) == items
  {
    if items != [] {
      OrderedListing(items[1..]);
      OrderedIsSorted(items);
      OrderedIsSorted(items[1..]);
      assert items[0] in items;
    }
  }

  lemma {:induction false} OrderedIsSorted(items: seq<Item>)
    requires Ascending(items)
    ensures Sorted(items) == items
  {
    if |items| > 1 {
      OrderedIsSorted(items[1..]);
      LessIsOrder(items[0].key, items[1].key, items[0].key);
    }
  }

  lemma TwoItemListing(role: Id, limit: nat) returns (store: seq<State>, q: Query)
    requires ValidId(role)
    ensures store == [State(role, 0, true, [Record(true, 2, 0, 1, true), Record(true, 3, 1, 1, true)])] && WellFormed(store)
    ensures q == Query(Some(role), Absent, Given(limit), Absent)
    ensures Listing(store, None, q) == [Item(Key(role, 2), 0, 1, true), Item(Key(role, 3), 1, 1, true)]
    ensures Roles(store, None) == store && Entries(store, None, q.roleId) == Listing(store, None, q)
  {
    var items := [Item(Key(role, 2), 0, 1, true), Item(Key(role, 3), 1, 1, true)];
    store, q := [State(role, 0, true, [Record(true, 2, 0, 1, true), Record(true, 3, 1, 1, true)])], Query(Some(role), Absent, Given(limit), Absent);
    assert Committed(role, store[0].records[1..]) == items[1..];
    assert Gathered(store[1..], Some(role)) == [];
    assert Gathered(store, Some(role)) == Committed(role, store[0].records) + [];
    LessIsOrder(items[0].key, items[1].key, items[0].key);
    OrderedListing(items);
    OrderedIsSorted(items);
    assert Roles(store[1..], None) == [];
    assert Roles(store, None) == store;
    assert Gathered(store, Some(role)) == items;
  }

  lemma OneOfTwo(a: Item, b: Item)
    requires a.size == b.size == 1
    ensures Filled([a, b], 0, 0, 1) == Some(1)
  {
    assert [a, b][1..] == [b];
    assert Filled([b], 1, 1, 1) == Some(0);
  }

  /** Two handoffs of one byte each that no caller can page through. */
  lemma LongCursorStopsPaging(controller: JsonQuote.Text, address: nat -> JsonQuote.Text) returns (store: seq<State>, q: Query)
    ensures Readable(store, WireLength(controller, address), None, q) && q.cursor == Absent
    ensures forall x | InScope(store, ScopeOf(None, q), x) :: x.size == 1
    ensures Read(store, WireLength(controller, address), None, q) == Failed(503)
  {
    var role: Id := seq(512, _ => 0x4E00);
    var length := WireLength(controller, address);
    store, q := TwoItemListing(role, 1);
    assert HasRole(store, role);
    ListingIsScope(store, None, q);
    OneOfTwo(Listing(store, None, q)[0], Listing(store, None, q)[1]);
    WideCursorIsLong(controller, address, Cursor(ScopeOf(None, q), role, 2));
    ReadIsPage(store, length, None, q, 0);
  }
}

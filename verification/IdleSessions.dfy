/** Releasing native sessions nobody uses.  A watch gives a session an entry; a later watch replaces
    it, so every entry has a number of its own, its generation, and callbacks keep the generation
    they were started for. */
module IdleSessions {

  datatype Option<+T> = None | Some(value: T)

  type Id = nat
  type Gen = nat
  type Lease = nat
  type Time = nat

  datatype Entry = Entry(
    users: int, idleSince: Time, dormant: bool, releasing: bool, checking: bool,
    revision: nat, retryAt: Time, failures: nat, canReconcile: bool)

  datatype Config = Config(graceMs: nat, reconcileMs: nat)

  const MAX_BACKOFF: nat := 15 * 60000

  function Pow2(n: nat): nat {
    if n == 0 then 1 else 2 * Pow2(n - 1)
  }

  function Min(a: int, b: int): int {
    if a < b then a else b
  }

  function Reset(e: Entry, config: Config, now: Time): Entry {
    e.(revision := e.revision + 1, idleSince := now, retryAt := now + config.reconcileMs, failures := 0)
  }

  /** The whole table.  `order` lists the watched sessions in the order of their first watch. */
  datatype Table = Table(
    order: seq<Id>, current: map<Id, Gen>, entries: map<Gen, Entry>, connected: bool, closed: bool,
    reconciling: Option<(Gen, nat)>, leases: map<Lease, Id>)

  function ResetAt(t: Table, g: Gen, config: Config, now: Time): Table
    requires g in t.entries
  {
    t.(entries := t.entries[g := Reset(t.entries[g], config, now)])
  }

  function Users(t: Table, id: Id): int {
    if id in t.current && t.current[id] in t.entries then t.entries[t.current[id]].users else 0
  }

  function Watched(t: Table, id: Id, g: Gen, canReconcile: bool, config: Config, now: Time): Table {
    var t1 := if id in t.current && t.current[id] in t.entries then ResetAt(t, t.current[id], config, now) else t;
    var entry := Reset(Entry(Users(t, id), 0, false, false, false, 0, 0, 0, canReconcile), config, now);
    t1.(order := if id in t.current then t.order else t.order + [id], current := t1.current[id := g],
        entries := t1.entries[g := entry])
  }

  function Retained(t: Table, id: Id, lease: Lease, config: Config, now: Time): Table {
    if t.closed || id !in t.current || t.current[id] !in t.entries then t
    else
      var g := t.current[id];
      ResetAt(t.(entries := t.entries[g := t.entries[g].(users := t.entries[g].users + 1)], leases := t.leases[lease := id]), g, config, now)
  }

  function LeaseReleased(t: Table, lease: Lease, config: Config, now: Time): Table {
    if lease !in t.leases then t
    else
      var id, t1 := t.leases[lease], t.(leases := t.leases - {lease});
      if id !in t.current || t.current[id] !in t.entries then t1
      else
        var g := t.current[id];
        ResetAt(t1.(entries := t.entries[g := t.entries[g].(users := t.entries[g].users - 1)]), g, config, now)
  }

  function Touched(t: Table, id: Id, config: Config, now: Time): Table {
    if id in t.current && t.current[id] in t.entries then ResetAt(t, t.current[id], config, now) else t
  }

  function ResetAll(t: Table, ids: seq<Id>, config: Config, now: Time): Table
    decreases |ids|
  {
    if ids == [] then t
    else ResetAll(Touched(t, ids[0], config, now), ids[1..], config, now)
  }

  function Connected(t: Table, value: bool, config: Config, now: Time): Table {
    if t.connected == value then t else ResetAll(t.(connected := value), t.order, config, now)
  }

  /** The sweep begins to release this entry. */
  predicate StartsRelease(t: Table, g: Gen, safe: Gen -> bool, config: Config, now: Time) {
    && !t.closed && t.connected && g in t.entries
    && var e := t.entries[g];
       !e.dormant && !e.releasing && !e.checking && e.users == 0 && safe(g) && now - e.idleSince >= config.graceMs
  }

  function SweptOne(t: Table, id: Id, safe: Gen -> bool, config: Config, now: Time): Table {
    if id !in t.current || t.current[id] !in t.entries then t
    else
      var g := t.current[id];
      var e := t.entries[g];
      if e.dormant || e.releasing then t
      else if e.checking then t.(entries := t.entries[g := e.(idleSince := now)])
      else if !(e.users == 0 && safe(g)) then
        var check := e.users == 0 && e.canReconcile && t.reconciling.None? && now >= e.retryAt;
        t.(entries := t.entries[g := e.(idleSince := now, checking := check)],
           reconciling := if check then Some((g, e.revision)) else t.reconciling)
      else if now - e.idleSince < config.graceMs then t
      else t.(entries := t.entries[g := e.(releasing := true)])
  }

  function SweptAll(t: Table, ids: seq<Id>, safe: Gen -> bool, config: Config, now: Time): Table
    decreases |ids|
  {
    if ids == [] then t else SweptAll(SweptOne(t, ids[0], safe, config, now), ids[1..], safe, config, now)
  }

  function Swept(t: Table, safe: Gen -> bool, config: Config, now: Time): Table {
    if t.closed || !t.connected then t else SweptAll(t, t.order, safe, config, now)
  }

  function ReleaseSettled(t: Table, g: Gen, ok: bool, now: Time): Table {
    if g !in t.entries || !t.entries[g].releasing then t
    else t.(entries := t.entries[g := if ok then t.entries[g].(dormant := true, releasing := false)
                                      else t.entries[g].(idleSince := now, releasing := false)])
  }

  predicate IsCurrent(t: Table, g: Gen, revision: nat) {
    !t.closed && t.connected && g in t.entries && t.entries[g].users == 0 && t.entries[g].revision == revision
  }

  function ReconcileSettled(t: Table, confirmed: bool, config: Config, now: Time): Table {
    if t.reconciling.None? || t.reconciling.value.0 !in t.entries then t
    else
      var (g, revision) := t.reconciling.value;
      var e := t.entries[g];
      var failures := if confirmed then 0 else Min(10, e.failures + 1);
      t.(reconciling := None, entries := t.entries[g :=
        if IsCurrent(t, g, revision) then e.(checking := false, idleSince := now, failures := failures,
                                             retryAt := now + Min(MAX_BACKOFF, config.reconcileMs * Pow2(failures)))
        else e.(checking := false)])
  }

  // ---- The object ----

  class IdleSessionTable {
    const config: Config
    var order: seq<Id>
    var current: map<Id, Gen>
    var entries: map<Gen, Entry>
    var connected: bool
    var closed: bool
    var reconciling: Option<(Gen, nat)>
    var leases: map<Lease, Id>
    var next: nat                        // the next generation or lease number

    function View(): Table
      reads this
    {
      Table(order, current, entries, connected, closed, reconciling, leases)
    }

    /** Entries stay in the table, and numbers are never reused. */
    ghost predicate Valid()
      reads this
    {
      && (forall id | id in current :: current[id] in entries)
      && (forall id | id in order :: id in current)
      && (forall g | g in entries :: g < next)
      && (forall l | l in leases :: l < next)
    }

    constructor (graceMs: nat, reconcileMs: nat)
      requires graceMs >= 1 && reconcileMs >= 1
      ensures Valid() && config == Config(graceMs, reconcileMs)
      ensures View() == Table([], map[], map[], true, false, None, map[])
    {
      config := Config(graceMs, reconcileMs);
      order, current, entries, connected, closed, reconciling, leases, next := [], map[], map[], true, false, None, map[], 0;
    }

    method ResetEntry(g: Gen, now: Time)
      requires Valid() && g in entries
      modifies this`entries
      ensures Valid() && View() == ResetAt(old(View()), g, config, now)
    {
      var e := entries[g];
      entries := entries[g := e.(revision := e.revision + 1, idleSince := now, retryAt := now + config.reconcileMs, failures := 0)];
    }

    method Watch(id: Id, canReconcile: bool, now: Time) returns (g: Gen)
      requires Valid()
      modifies this
      ensures Valid() && g !in old(entries) && View() == Watched(old(View()), id, g, canReconcile, config, now)
    {
      var users := 0;
      if id in current {
        users := entries[current[id]].users;
        ResetEntry(current[id], now);
      } else {
        order := order + [id];
      }
      g := next;
      next := next + 1;
      current := current[id := g];
      entries := entries[g := Entry(users, 0, false, false, false, 0, 0, 0, canReconcile)];
      ResetEntry(g, now);
    }

    method Retain(id: Id, now: Time) returns (lease: Lease)
      requires Valid()
      modifies this
      ensures Valid() && lease !in old(leases) && View() == Retained(old(View()), id, lease, config, now)
    {
      lease := next;
      next := next + 1;
      if closed || id !in current { return; }
      var g := current[id];
      entries := entries[g := entries[g].(users := entries[g].users + 1)];
      leases := leases[lease := id];
      ResetEntry(g, now);
    }

    method ReleaseLease(lease: Lease, now: Time)
      requires Valid()
      modifies this
      ensures Valid() && View() == LeaseReleased(old(View()), lease, config, now)
    {
      if lease !in leases { return; }
      var id := leases[lease];
      leases := leases - {lease};
      if id in current {
        var g := current[id];
        entries := entries[g := entries[g].(users := entries[g].users - 1)];
        ResetEntry(g, now);
      }
    }

    method Touch(id: Id, now: Time)
      requires Valid()
      modifies this
      ensures Valid() && View() == Touched(old(View()), id, config, now)
    {
      if id in current { ResetEntry(current[id], now); }
    }

    method SetConnected(value: bool, now: Time)
      requires Valid()
      modifies this
      ensures Valid() && View() == Connected(old(View()), value, config, now)
    {
      if connected == value { return; }
      connected := value;
      for i := 0 to |order|
        invariant Valid() && order == old(order)
        invariant ResetAll(View(), order[i..], config, now) == Connected(old(View()), value, config, now)
      {
        assert order[i..][0] == order[i] && order[i..][1..] == order[i + 1..];
        ResetEntry(current[order[i]], now);
      }
    }

    method SweepEntry(id: Id, safe: Gen -> bool, now: Time)
      requires Valid() && id in current
      modifies this`entries, this`reconciling
      ensures Valid() && View() == SweptOne(old(View()), id, safe, config, now)
    {
      var g := current[id];
      var e := entries[g];
      if e.dormant || e.releasing { return; }
      if e.checking {
        entries := entries[g := e.(idleSince := now)];
        return;
      }
      if !(e.users == 0 && safe(g)) {
        entries := entries[g := e.(idleSince := now)];
        if e.users == 0 && e.canReconcile && reconciling.None? && now >= e.retryAt {
          entries := entries[g := entries[g].(checking := true)];
          reconciling := Some((g, e.revision));
        }
        return;
      }
      if now - e.idleSince < config.graceMs { return; }
      entries := entries[g := e.(releasing := true)];
    }

    method Sweep(safe: Gen -> bool, now: Time)
      requires Valid()
      modifies this
      ensures Valid() && View() == Swept(old(View()), safe, config, now)
    {
      if closed || !connected { return; }
      for i := 0 to |order|
        invariant Valid() && order == old(order)
        invariant SweptAll(View(), order[i..], safe, config, now) == Swept(old(View()), safe, config, now)
      {
        assert order[i..][0] == order[i] && order[i..][1..] == order[i + 1..];
        SweepEntry(order[i], safe, now);
      }
    }

    method SettleRelease(g: Gen, ok: bool, now: Time)
      requires Valid()
      modifies this
      ensures Valid() && View() == ReleaseSettled(old(View()), g, ok, now)
    {
      if g !in entries || !entries[g].releasing { return; }
      if ok {
        entries := entries[g := entries[g].(dormant := true)];
      } else {
        entries := entries[g := entries[g].(idleSince := now)];
      }
      entries := entries[g := entries[g].(releasing := false)];
    }

    method SettleReconcile(confirmed: bool, now: Time)
      requires Valid()
      modifies this
      ensures Valid() && View() == ReconcileSettled(old(View()), confirmed, config, now)
    {
      if reconciling.None? || reconciling.value.0 !in entries { return; }
      var g, revision := reconciling.value.0, reconciling.value.1;
      var e := entries[g];
      if !closed && connected && e.users == 0 && e.revision == revision {
        var failures := if confirmed then 0 else Min(10, e.failures + 1);
        e := e.(idleSince := now, failures := failures, retryAt := now + Min(MAX_BACKOFF, config.reconcileMs * Pow2(failures)));
      }
      entries := entries[g := e.(checking := false)];
      reconciling := None;
    }

    method Close()
      requires Valid()
      modifies this
      ensures Valid() && View() == old(View()).(closed := true)
    {
      closed := true;
    }
  }

  // ---- Runs ----

  datatype Event =
    | Watch(id: Id, g: Gen, canReconcile: bool)
    | Retain(id: Id, lease: Lease)
    | ReleaseLease(lease: Lease)
    | Touch(id: Id)
    | SetConnected(value: bool)
    | Sweep(safe: Gen -> bool)
    | SettleRelease(g: Gen, ok: bool)
    | SettleReconcile(confirmed: bool)
    | Close

  /** A new watch gets a new generation, a new lease a new number. */
  predicate Enabled(t: Table, ev: Event) {
    (ev.Watch? ==> ev.g !in t.entries) && (ev.Retain? ==> ev.lease !in t.leases)
  }

  function Next(t: Table, ev: Event, config: Config, now: Time): Table {
    match ev
    case Watch(id, g, canReconcile) => Watched(t, id, g, canReconcile, config, now)
    case Retain(id, lease) => Retained(t, id, lease, config, now)
    case ReleaseLease(lease) => LeaseReleased(t, lease, config, now)
    case Touch(id) => Touched(t, id, config, now)
    case SetConnected(value) => Connected(t, value, config, now)
    case Sweep(safe) => Swept(t, safe, config, now)
    case SettleRelease(g, ok) => ReleaseSettled(t, g, ok, now)
    case SettleReconcile(confirmed) => ReconcileSettled(t, confirmed, config, now)
    case Close => t.(closed := true)
  }

  const INIT := Table([], map[], map[], true, false, None, map[])

  /** A run under a monotonic clock, with the tables it goes through. */
  ghost predicate IsRun(ts: seq<Table>, events: seq<Event>, times: seq<Time>, config: Config) {
    && |ts| == |events| + 1 && |times| == |events| && ts[0] == INIT
    && (forall i, j :: 0 <= i <= j < |times| ==> times[i] <= times[j])
    && (forall i :: 0 <= i < |events| ==> Enabled(ts[i], events[i]) && ts[i + 1] == Next(ts[i], events[i], config, times[i]))
  }

  function Holders(t: Table, id: Id): set<Lease> {
    set l | l in t.leases && t.leases[l] == id
  }

  predicate Shape(t: Table) {
    && (forall id | id in t.current :: t.current[id] in t.entries && id in t.order)
    && (forall id | id in t.order :: id in t.current)
    && (forall i, j | 0 <= i < j < |t.order| :: t.order[i] != t.order[j])
    && (forall a, b | a in t.current && b in t.current && a != b :: t.current[a] != t.current[b])
    && (forall l | l in t.leases :: t.leases[l] in t.current)
  }

  ghost predicate Counted(t: Table) {
    forall id | id in t.current :: Users(t, id) == |Holders(t, id)|
  }

  /** What sweeps and resets leave as it is. */
  predicate SameFrame(t: Table, u: Table) {
    && u.order == t.order && u.current == t.current && u.leases == t.leases && u.entries.Keys == t.entries.Keys
    && (forall g | g in t.entries :: u.entries[g].users == t.entries[g].users)
  }

  lemma {:induction false} ResetAllFrame(t: Table, ids: seq<Id>, config: Config, now: Time)
    ensures SameFrame(t, ResetAll(t, ids, config, now)) && ResetAll(t, ids, config, now).connected == t.connected
    decreases |ids|
  {
    if ids != [] { ResetAllFrame(Touched(t, ids[0], config, now), ids[1..], config, now); }
  }

  lemma SweptOneFrame(t: Table, id: Id, safe: Gen -> bool, config: Config, now: Time)
    ensures SameFrame(t, SweptOne(t, id, safe, config, now))
  {}

  lemma {:induction false} SweptAllFrame(t: Table, ids: seq<Id>, safe: Gen -> bool, config: Config, now: Time)
    ensures SameFrame(t, SweptAll(t, ids, safe, config, now))
    decreases |ids|
  {
    if ids != [] {
      SweptOneFrame(t, ids[0], safe, config, now);
      SweptAllFrame(SweptOne(t, ids[0], safe, config, now), ids[1..], safe, config, now);
    }
  }

  lemma FrameKeeps(t: Table, u: Table)
    requires Shape(t) && Counted(t) && SameFrame(t, u)
    ensures Shape(u) && Counted(u)
  {
    forall id | id in u.current ensures Users(u, id) == |Holders(u, id)| {
      assert Holders(u, id) == Holders(t, id);
    }
  }

  lemma HoldersMove(t: Table, u: Table, id: Id, lease: Lease, delta: int, x: Id)
    requires delta == 1 ==> lease !in t.leases && u.leases == t.leases[lease := id]
    requires delta == -1 ==> lease in t.leases && t.leases[lease] == id && u.leases == t.leases - {lease}
    requires delta == 1 || delta == -1
    ensures |Holders(u, x)| == |Holders(t, x)| + (if x == id then delta else 0)
  {
    if x != id {
      assert Holders(u, x) == Holders(t, x);
    } else if delta == 1 {
      assert Holders(u, x) == Holders(t, x) + {lease} && lease !in Holders(t, x);
    } else {
      assert Holders(t, x) == Holders(u, x) + {lease} && lease !in Holders(u, x);
    }
  }

  /** One lease more or fewer on one session, together with its count. */
  lemma CountMoves(t: Table, u: Table, id: Id, lease: Lease, delta: int)
    requires Shape(t) && Counted(t) && id in t.current && (delta == 1 || delta == -1)
    requires u.order == t.order && u.current == t.current && u.entries.Keys == t.entries.Keys
    requires forall g | g in t.entries :: u.entries[g].users == t.entries[g].users + (if g == t.current[id] then delta else 0)
    requires delta == 1 ==> lease !in t.leases && u.leases == t.leases[lease := id]
    requires delta == -1 ==> lease in t.leases && t.leases[lease] == id && u.leases == t.leases - {lease}
    ensures Shape(u) && Counted(u)
  {
    forall x | x in u.current ensures Users(u, x) == |Holders(u, x)| {
      assert Users(t, x) == |Holders(t, x)|;
      HoldersMove(t, u, id, lease, delta, x);
    }
  }

  /** A new entry takes over the users of the one it replaces. */
  ghost predicate TakesOver(t: Table, u: Table, id: Id, g: Gen) {
    && g !in t.entries && u.order == (if id in t.current then t.order else t.order + [id]) && u.current == t.current[id := g] && u.leases == t.leases
    && u.entries.Keys == t.entries.Keys + {g} && u.entries[g].users == Users(t, id)
    && (forall h | h in t.entries :: u.entries[h].users == t.entries[h].users)
  }

  lemma EntryFits(t: Table, u: Table, id: Id, g: Gen)
    requires Shape(t) && TakesOver(t, u, id, g)
    ensures Shape(u)
  {}

  lemma EntryMoves(t: Table, u: Table, id: Id, g: Gen)
    requires Shape(t) && Counted(t) && TakesOver(t, u, id, g)
    ensures Shape(u) && Counted(u)
  {
    EntryFits(t, u, id, g);
    forall x | x in u.current ensures Users(u, x) == |Holders(u, x)| {
      assert Holders(u, x) == Holders(t, x);
    }
  }

  lemma WatchKeeps(t: Table, id: Id, g: Gen, canReconcile: bool, config: Config, now: Time)
    requires Shape(t) && Counted(t) && g !in t.entries
    ensures var u := Watched(t, id, g, canReconcile, config, now); Shape(u) && Counted(u)
  {
    EntryMoves(t, Watched(t, id, g, canReconcile, config, now), id, g);
  }

  lemma RetainKeeps(t: Table, id: Id, lease: Lease, config: Config, now: Time)
    requires Shape(t) && Counted(t) && lease !in t.leases
    ensures var u := Retained(t, id, lease, config, now); Shape(u) && Counted(u)
  {
    if !t.closed && id in t.current {
      CountMoves(t, Retained(t, id, lease, config, now), id, lease, 1);
    }
  }

  lemma ReleaseKeeps(t: Table, lease: Lease, config: Config, now: Time)
    requires Shape(t) && Counted(t)
    ensures var u := LeaseReleased(t, lease, config, now); Shape(u) && Counted(u)
  {
    if lease in t.leases {
      CountMoves(t, LeaseReleased(t, lease, config, now), t.leases[lease], lease, -1);
    }
  }

  lemma SettleFrame(t: Table, g: Gen, ok: bool, confirmed: bool, config: Config, now: Time)
    ensures SameFrame(t, ReleaseSettled(t, g, ok, now)) && SameFrame(t, ReconcileSettled(t, confirmed, config, now))
  {}

  lemma SettleKeeps(t: Table, g: Gen, ok: bool, confirmed: bool, config: Config, now: Time)
    requires Shape(t) && Counted(t)
    ensures Shape(ReleaseSettled(t, g, ok, now)) && Counted(ReleaseSettled(t, g, ok, now))
    ensures Shape(ReconcileSettled(t, confirmed, config, now)) && Counted(ReconcileSettled(t, confirmed, config, now))
  {
    SettleFrame(t, g, ok, confirmed, config, now);
    FrameKeeps(t, ReleaseSettled(t, g, ok, now));
    FrameKeeps(t, ReconcileSettled(t, confirmed, config, now));
  }

  lemma SweepKeeps(t: Table, value: bool, safe: Gen -> bool, config: Config, now: Time)
    requires Shape(t) && Counted(t)
    ensures Shape(Connected(t, value, config, now)) && Counted(Connected(t, value, config, now))
    ensures Shape(Swept(t, safe, config, now)) && Counted(Swept(t, safe, config, now))
  {
    ResetAllFrame(t.(connected := value), t.order, config, now);
    SweptAllFrame(t, t.order, safe, config, now);
    FrameKeeps(t, Connected(t, value, config, now));
    FrameKeeps(t, Swept(t, safe, config, now));
  }

  lemma TouchKeeps(t: Table, id: Id, config: Config, now: Time)
    requires Shape(t) && Counted(t)
    ensures Shape(Touched(t, id, config, now)) && Counted(Touched(t, id, config, now))
  {
    FrameKeeps(t, Touched(t, id, config, now));
  }

  lemma Kept(t: Table, ev: Event, config: Config, now: Time)
    requires Shape(t) && Counted(t) && Enabled(t, ev)
    ensures Shape(Next(t, ev, config, now)) && Counted(Next(t, ev, config, now))
  {
    match ev
    case Watch(id, g, canReconcile) => WatchKeeps(t, id, g, canReconcile, config, now);
    case Retain(id, lease) => RetainKeeps(t, id, lease, config, now);
    case ReleaseLease(lease) => ReleaseKeeps(t, lease, config, now);
    case SetConnected(value) => SweepKeeps(t, value, g => true, config, now);
    case Sweep(safe) => SweepKeeps(t, true, safe, config, now);
    case Touch(id) => TouchKeeps(t, id, config, now);
    case SettleRelease(g, ok) => SettleKeeps(t, g, ok, true, config, now);
    case SettleReconcile(confirmed) => SettleKeeps(t, 0, true, confirmed, config, now);
    case Close => FrameKeeps(t, t.(closed := true));
  }

  lemma {:induction false} RunKeeps(ts: seq<Table>, events: seq<Event>, times: seq<Time>, config: Config, i: nat)
    requires IsRun(ts, events, times, config) && i < |ts|
    ensures Shape(ts[i]) && Counted(ts[i])
  {
    if i > 0 {
      RunKeeps(ts, events, times, config, i - 1);
      Kept(ts[i - 1], events[i - 1], config, times[i - 1]);
    }
  }

  // ---- When a release starts ----

  predicate IsCurrentOf(t: Table, id: Id, g: Gen) {
    id in t.current && t.current[id] == g
  }

  /** The event uses the entry's session, or a sweep sees it in doubt. */
  ghost predicate Disturbs(t: Table, ev: Event, g: Gen) {
    match ev
    case Watch(id, h, _) => h == g || IsCurrentOf(t, id, g)
    case Retain(id, _) => !t.closed && IsCurrentOf(t, id, g)
    case ReleaseLease(lease) => lease in t.leases && IsCurrentOf(t, t.leases[lease], g)
    case Touch(id) => IsCurrentOf(t, id, g)
    case SetConnected(value) => value != t.connected && exists id :: IsCurrentOf(t, id, g)
    case Sweep(safe) =>
      && !t.closed && t.connected && (exists id :: IsCurrentOf(t, id, g)) && g in t.entries
      && !t.entries[g].dormant && !t.entries[g].releasing && (t.entries[g].checking || t.entries[g].users != 0 || !safe(g))
    case _ => false
  }

  lemma {:induction false} ResetAllAt(t: Table, ids: seq<Id>, config: Config, now: Time, g: Gen)
    requires g in t.entries
    ensures var u := ResetAll(t, ids, config, now);
            && g in u.entries && (u.entries[g] == t.entries[g] || (u.entries[g].idleSince == now && u.entries[g].revision > t.entries[g].revision
                                  && u.entries[g].releasing == t.entries[g].releasing && u.entries[g].checking == t.entries[g].checking
                                  && u.entries[g].dormant == t.entries[g].dormant))
            && ((forall i | 0 <= i < |ids| :: !IsCurrentOf(t, ids[i], g)) ==> u.entries[g] == t.entries[g])
            && ((exists i | 0 <= i < |ids| :: IsCurrentOf(t, ids[i], g)) ==> u.entries[g] != t.entries[g])
            && u.closed == t.closed && u.reconciling == t.reconciling
    decreases |ids|
  {
    if ids != [] {
      var t1 := Touched(t, ids[0], config, now);
      ResetAllAt(t1, ids[1..], config, now, g);
      if exists i | 0 <= i < |ids| :: IsCurrentOf(t, ids[i], g) {
        var i :| 0 <= i < |ids| && IsCurrentOf(t, ids[i], g);
        if i > 0 { assert IsCurrentOf(t1, ids[1..][i - 1], g); }
      }
    }
  }

  lemma SweptOneAt(t: Table, id: Id, safe: Gen -> bool, config: Config, now: Time, g: Gen)
    requires g in t.entries
    ensures var u := SweptOne(t, id, safe, config, now);
            && u.current == t.current && u.order == t.order && u.closed == t.closed && u.connected == t.connected && g in u.entries
            && (!IsCurrentOf(t, id, g) ==> u.entries[g] == t.entries[g])
            && (IsCurrentOf(t, id, g) && !t.closed && t.connected ==> SweepEffect(t, u, safe, config, now, g))
  {}

  /** What a sweep does to an entry that is current. */
  predicate SweepEffect(t: Table, u: Table, safe: Gen -> bool, config: Config, now: Time, g: Gen)
    requires g in t.entries && g in u.entries
  {
    var e, f := t.entries[g], u.entries[g];
    && f.revision == e.revision && f.dormant == e.dormant && f.users == e.users
    && (f.releasing <==> e.releasing || StartsRelease(t, g, safe, config, now))
    && f.idleSince == (if !e.dormant && !e.releasing && (e.checking || e.users != 0 || !safe(g)) then now else e.idleSince)
  }

  lemma {:induction false} SweptAllAt(t: Table, ids: seq<Id>, safe: Gen -> bool, config: Config, now: Time, g: Gen)
    requires g in t.entries && !t.closed && t.connected
    requires forall i, j | 0 <= i < j < |ids| :: ids[i] != ids[j]
    requires forall a, b | a in t.current && b in t.current && a != b :: t.current[a] != t.current[b]
    ensures var u := SweptAll(t, ids, safe, config, now);
            && u.current == t.current && g in u.entries
            && ((forall i | 0 <= i < |ids| :: !IsCurrentOf(t, ids[i], g)) ==> u.entries[g] == t.entries[g])
            && ((exists i | 0 <= i < |ids| :: IsCurrentOf(t, ids[i], g)) ==> SweepEffect(t, u, safe, config, now, g))
    decreases |ids|
  {
    if ids != [] {
      var t1 := SweptOne(t, ids[0], safe, config, now);
      SweptOneAt(t, ids[0], safe, config, now, g);
      SweptAllAt(t1, ids[1..], safe, config, now, g);
      assert forall i | 0 < i < |ids| :: IsCurrentOf(t, ids[i], g) <==> IsCurrentOf(t1, ids[1..][i - 1], g);
    }
  }

  /** The event moves the entry's revision on, so that a reconciliation begun before it is stale. */
  ghost predicate Outdates(t: Table, ev: Event, g: Gen) {
    Disturbs(t, ev, g) && !ev.Sweep?
  }

  /** The event sets the entry's grace time going anew. */
  ghost predicate Refreshes(t: Table, ev: Event, g: Gen) {
    || Disturbs(t, ev, g)
    || (ev.SettleRelease? && ev.g == g && !ev.ok && g in t.entries && t.entries[g].releasing)
    || (ev.SettleReconcile? && t.reconciling.Some? && t.reconciling.value.0 == g)
  }

  /** How any event changes one entry. */
  ghost predicate EntryStep(t: Table, u: Table, ev: Event, config: Config, now: Time, g: Gen) {
    && (g in t.entries ==> g in u.entries && u.entries[g].revision >= t.entries[g].revision
                           && (u.entries[g].idleSince == t.entries[g].idleSince || u.entries[g].idleSince == now)
                           && (Outdates(t, ev, g) ==> u.entries[g].revision > t.entries[g].revision))
    && (g in u.entries && g !in t.entries ==> ev.Watch? && ev.g == g && u.entries[g].idleSince == now && !u.entries[g].releasing)
    && (Disturbs(t, ev, g) ==> g in u.entries && u.entries[g].idleSince == now)
    && (g in t.entries && g in u.entries && u.entries[g].releasing && !t.entries[g].releasing ==>
          ev.Sweep? && StartsRelease(t, g, ev.safe, config, now) && exists id :: IsCurrentOf(t, id, g))
    && (g in t.entries && g in u.entries && u.entries[g].idleSince != t.entries[g].idleSince ==> Refreshes(t, ev, g))
    && (g in t.entries && g in u.entries && u.entries[g].dormant != t.entries[g].dormant ==> ev == SettleRelease(g, true) && t.entries[g].releasing)
    && (ev.Sweep? && StartsRelease(t, g, ev.safe, config, now) && (exists id :: IsCurrentOf(t, id, g)) ==> g in u.entries && u.entries[g].releasing)
  }

  lemma SweepStep(t: Table, ev: Event, config: Config, now: Time, g: Gen)
    requires Shape(t) && ev.Sweep?
    ensures EntryStep(t, Next(t, ev, config, now), ev, config, now, g)
  {
    SweptAllFrame(t, t.order, ev.safe, config, now);
    if g in t.entries && !t.closed && t.connected {
      SweptAllAt(t, t.order, ev.safe, config, now, g);
      if exists id :: IsCurrentOf(t, id, g) {
        var id :| IsCurrentOf(t, id, g);
        var i :| 0 <= i < |t.order| && t.order[i] == id;
        assert IsCurrentOf(t, t.order[i], g);
      } else {
        assert forall i | 0 <= i < |t.order| :: !IsCurrentOf(t, t.order[i], g);
      }
    }
  }

  lemma ConnectedAt(t: Table, value: bool, config: Config, now: Time, g: Gen)
    requires Shape(t) && value != t.connected && g in t.entries
    ensures var u := Connected(t, value, config, now);
            && g in u.entries && u.closed == t.closed
            && (if exists id :: IsCurrentOf(t, id, g)
                then u.entries[g].idleSince == now && u.entries[g].revision > t.entries[g].revision
                     && u.entries[g].releasing == t.entries[g].releasing && u.entries[g].dormant == t.entries[g].dormant
                else u.entries[g] == t.entries[g])
  {
    var t0 := t.(connected := value);
    ResetAllAt(t0, t.order, config, now, g);
    if id :| IsCurrentOf(t, id, g) {
      var i :| 0 <= i < |t.order| && t.order[i] == id;
      assert IsCurrentOf(t0, t.order[i], g);
    } else {
      assert forall i | 0 <= i < |t.order| :: !IsCurrentOf(t0, t.order[i], g) by {
        forall i | 0 <= i < |t.order| ensures !IsCurrentOf(t0, t.order[i], g) { assert !IsCurrentOf(t, t.order[i], g); }
      }
    }
  }

  lemma ConnectStep(t: Table, ev: Event, config: Config, now: Time, g: Gen)
    requires Shape(t) && ev.SetConnected?
    ensures EntryStep(t, Next(t, ev, config, now), ev, config, now, g)
  {
    if ev.value != t.connected {
      ResetAllFrame(t.(connected := ev.value), t.order, config, now);
      if g in t.entries { ConnectedAt(t, ev.value, config, now, g); }
    }
  }

  lemma WatchStep(t: Table, ev: Event, config: Config, now: Time, g: Gen)
    requires Shape(t) && Enabled(t, ev) && ev.Watch?
    ensures EntryStep(t, Next(t, ev, config, now), ev, config, now, g)
  {}

  lemma LeaseStep(t: Table, ev: Event, config: Config, now: Time, g: Gen)
    requires Shape(t) && Enabled(t, ev) && (ev.Retain? || ev.ReleaseLease?)
    ensures EntryStep(t, Next(t, ev, config, now), ev, config, now, g)
  {}

  lemma TouchStep(t: Table, ev: Event, config: Config, now: Time, g: Gen)
    requires Shape(t) && (ev.Touch? || ev.Close?)
    ensures EntryStep(t, Next(t, ev, config, now), ev, config, now, g)
  {}

  lemma SettleStep(t: Table, ev: Event, config: Config, now: Time, g: Gen)
    requires Shape(t) && ev.SettleRelease?
    ensures EntryStep(t, Next(t, ev, config, now), ev, config, now, g)
  {}

  lemma ReconcileStep(t: Table, ev: Event, config: Config, now: Time, g: Gen)
    requires Shape(t) && ev.SettleReconcile?
    ensures EntryStep(t, Next(t, ev, config, now), ev, config, now, g)
  {}

  lemma Step(t: Table, ev: Event, config: Config, now: Time, g: Gen)
    requires Shape(t) && Enabled(t, ev)
    ensures EntryStep(t, Next(t, ev, config, now), ev, config, now, g)
  {
    match ev
    case Sweep(_) => SweepStep(t, ev, config, now, g);
    case SetConnected(_) => ConnectStep(t, ev, config, now, g);
    case Watch(_, _, _) => WatchStep(t, ev, config, now, g);
    case Retain(_, _) => LeaseStep(t, ev, config, now, g);
    case ReleaseLease(_) => LeaseStep(t, ev, config, now, g);
    case SettleRelease(_, _) => SettleStep(t, ev, config, now, g);
    case SettleReconcile(_) => ReconcileStep(t, ev, config, now, g);
    case _ => TouchStep(t, ev, config, now, g);
  }

  lemma {:induction false} IdleAfterDisturbance(ts: seq<Table>, events: seq<Event>, times: seq<Time>, config: Config, j: nat, i: nat, g: Gen)
    requires IsRun(ts, events, times, config) && j < i < |ts| && Disturbs(ts[j], events[j], g)
    ensures g in ts[i].entries && ts[i].entries[g].idleSince >= times[j]
  {
    RunKeeps(ts, events, times, config, i - 1);
    Step(ts[i - 1], events[i - 1], config, times[i - 1], g);
    if i > j + 1 {
      IdleAfterDisturbance(ts, events, times, config, j, i - 1, g);
      IdleStays(ts[i - 1], ts[i], events[i - 1], config, times[i - 1], g, times[j]);
    }
  }

  lemma IdleStays(t: Table, u: Table, ev: Event, config: Config, now: Time, g: Gen, since: Time)
    requires EntryStep(t, u, ev, config, now, g) && g in t.entries && t.entries[g].idleSince >= since && now >= since
    ensures g in u.entries && u.entries[g].idleSince >= since
  {}

  // ---- The main results ----

  /** The count of users is the number of leases not yet released, over every run, also when a new
      watch replaced the entry the leases were taken from. */
  lemma UsersAreLeases(ts: seq<Table>, events: seq<Event>, times: seq<Time>, config: Config, i: nat, id: Id)
    requires IsRun(ts, events, times, config) && i < |ts| && id in ts[i].current
    ensures Users(ts[i], id) == |Holders(ts[i], id)|
  {
    RunKeeps(ts, events, times, config, i);
  }

  /** A release starts only in a sweep, while connected and open, on the current entry of a session
      that has no lease and is safe, and only if throughout the preceding grace time there was no
      watch, retain, lease release, touch or reconnect of it and no sweep saw it in doubt. */
  lemma ReleaseStartsIdle(ts: seq<Table>, events: seq<Event>, times: seq<Time>, config: Config, i: nat, g: Gen)
    requires IsRun(ts, events, times, config) && i < |events|
    requires g in ts[i + 1].entries && ts[i + 1].entries[g].releasing && !(g in ts[i].entries && ts[i].entries[g].releasing)
    ensures events[i].Sweep? && events[i].safe(g) && ts[i].connected && !ts[i].closed
    ensures exists id :: IsCurrentOf(ts[i], id, g) && Holders(ts[i], id) == {}
    ensures forall j | 0 <= j < i && Disturbs(ts[j], events[j], g) :: times[i] - times[j] >= config.graceMs
  {
    RunKeeps(ts, events, times, config, i);
    Step(ts[i], events[i], config, times[i], g);
    var id :| IsCurrentOf(ts[i], id, g);
    assert Users(ts[i], id) == |Holders(ts[i], id)| == 0;
    forall j | 0 <= j < i && Disturbs(ts[j], events[j], g) ensures times[i] - times[j] >= config.graceMs {
      IdleAfterDisturbance(ts, events, times, config, j, i, g);
    }
  }

  /** An entry's grace time counts from the last event that set it going. */
  lemma {:induction false} IdleSinceRefresh(ts: seq<Table>, events: seq<Event>, times: seq<Time>, config: Config, i: nat, g: Gen) returns (j: nat)
    requires IsRun(ts, events, times, config) && i < |ts| && g in ts[i].entries
    ensures j < i && Refreshes(ts[j], events[j], g) && ts[i].entries[g].idleSince == times[j]
  {
    RunKeeps(ts, events, times, config, i - 1);
    Step(ts[i - 1], events[i - 1], config, times[i - 1], g);
    if g in ts[i - 1].entries && ts[i].entries[g].idleSince == ts[i - 1].entries[g].idleSince {
      j := IdleSinceRefresh(ts, events, times, config, i - 1, g);
    } else {
      j := i - 1;
    }
  }

  /** A session nobody uses is released.  While connected and open, a sweep releases the current entry
      of every session without leases that is safe, was not released before and is not being released
      or reconciled, once it was left alone for the grace time: not watched, retained, touched or
      reconnected, not seen in doubt, and without a failed release or a reconciliation that ended. */
  lemma IdleIsReleased(ts: seq<Table>, events: seq<Event>, times: seq<Time>, config: Config, i: nat, id: Id)
    requires IsRun(ts, events, times, config) && i < |events| && events[i].Sweep? && ts[i].connected && !ts[i].closed
    requires id in ts[i].current && ts[i].current[id] in ts[i].entries && Holders(ts[i], id) == {}
    requires var g := ts[i].current[id];
             && events[i].safe(g) && !ts[i].entries[g].dormant && !ts[i].entries[g].releasing && !ts[i].entries[g].checking
             && forall j | 0 <= j < i && Refreshes(ts[j], events[j], g) :: times[i] - times[j] >= config.graceMs
    ensures ts[i].current[id] in ts[i + 1].entries && ts[i + 1].entries[ts[i].current[id]].releasing
  {
    var g := ts[i].current[id];
    RunKeeps(ts, events, times, config, i);
    assert Users(ts[i], id) == |Holders(ts[i], id)| == 0;
    var j := IdleSinceRefresh(ts, events, times, config, i, g);
    assert IsCurrentOf(ts[i], id, g);
    Step(ts[i], events[i], config, times[i], g);
  }

  /** A release that succeeded is the last one of its entry; one that failed leaves it to be released
      again. */
  lemma {:induction false} ReleasedOnce(ts: seq<Table>, events: seq<Event>, times: seq<Time>, config: Config, i: nat, j: nat, g: Gen, ok: bool)
    requires IsRun(ts, events, times, config) && i < j < |ts| && events[i] == SettleRelease(g, ok)
    requires g in ts[i].entries && ts[i].entries[g].releasing
    ensures ok ==> g in ts[j].entries && ts[j].entries[g].dormant && !ts[j].entries[g].releasing
    ensures !ok && j == i + 1 ==> g in ts[j].entries && ts[j].entries[g] == ts[i].entries[g].(releasing := false, idleSince := times[i])
  {
    if j == i + 1 {
      assert ts[j] == Next(ts[i], events[i], config, times[i]);
    } else {
      ReleasedOnce(ts, events, times, config, i, j - 1, g, ok);
      RunKeeps(ts, events, times, config, j - 1);
      Step(ts[j - 1], events[j - 1], config, times[j - 1], g);
    }
  }

  lemma ClosedStep(t: Table, ev: Event, config: Config, now: Time)
    requires t.closed
    ensures var u := Next(t, ev, config, now);
            && u.closed && (u.reconciling == t.reconciling || u.reconciling == None) && forall l | l in u.leases :: l in t.leases
  {
    if ev.SetConnected? && ev.value != t.connected { ResetAllCloses(t.(connected := ev.value), t.order, config, now); }
  }

  lemma {:induction false} ResetAllCloses(t: Table, ids: seq<Id>, config: Config, now: Time)
    ensures var u := ResetAll(t, ids, config, now); u.closed == t.closed && u.reconciling == t.reconciling && u.leases == t.leases
    decreases |ids|
  {
    if ids != [] { ResetAllCloses(Touched(t, ids[0], config, now), ids[1..], config, now); }
  }

  /** After closing, nothing begins any more: no release, no reconciliation and no lease. */
  lemma {:induction false} ClosedBeginsNothing(ts: seq<Table>, events: seq<Event>, times: seq<Time>, config: Config, i: nat, j: nat, g: Gen)
    requires IsRun(ts, events, times, config) && i < j < |events| && events[i].Close?
    ensures ts[j].closed && (ts[j + 1].reconciling == ts[j].reconciling || ts[j + 1].reconciling == None)
    ensures forall l | l in ts[j + 1].leases :: l in ts[j].leases
    ensures g in ts[j + 1].entries && ts[j + 1].entries[g].releasing ==> g in ts[j].entries && ts[j].entries[g].releasing
  {
    if i + 1 < j { ClosedBeginsNothing(ts, events, times, config, i, j - 1, g); }
    if i + 1 < j { ClosedStep(ts[j - 1], events[j - 1], config, times[j - 1]); }
    ClosedStep(ts[j], events[j], config, times[j]);
    RunKeeps(ts, events, times, config, j);
    Step(ts[j], events[j], config, times[j], g);
  }

  // ---- When a reconciliation starts, and when the next one ----

  /** A sweep finds the session in doubt, and it is time to reconcile it. */
  predicate Due(t: Table, id: Id, safe: Gen -> bool, now: Time) {
    id in t.current && t.current[id] in t.entries
    && var e := t.entries[t.current[id]];
       !e.dormant && !e.releasing && !e.checking && e.users == 0 && !safe(t.current[id]) && e.canReconcile && now >= e.retryAt
  }

  function FirstDue(t: Table, ids: seq<Id>, safe: Gen -> bool, now: Time): Option<Id> {
    if ids == [] then None else if Due(t, ids[0], safe, now) then Some(ids[0]) else FirstDue(t, ids[1..], safe, now)
  }

  lemma {:induction false} FirstDueIsFirst(t: Table, ids: seq<Id>, safe: Gen -> bool, now: Time)
    ensures FirstDue(t, ids, safe, now).None? <==> forall i | 0 <= i < |ids| :: !Due(t, ids[i], safe, now)
    ensures FirstDue(t, ids, safe, now).Some? ==>
              exists i | 0 <= i < |ids| :: ids[i] == FirstDue(t, ids, safe, now).value && Due(t, ids[i], safe, now)
                                           && forall j | 0 <= j < i :: !Due(t, ids[j], safe, now)
  {
    if ids != [] && !Due(t, ids[0], safe, now) {
      var rest := ids[1..];
      FirstDueIsFirst(t, rest, safe, now);
      assert forall i | 0 < i < |ids| :: ids[i] == rest[i - 1];
      if FirstDue(t, rest, safe, now).Some? {
        var i :| 0 <= i < |rest| && rest[i] == FirstDue(t, rest, safe, now).value && Due(t, rest[i], safe, now)
          && forall j | 0 <= j < i :: !Due(t, rest[j], safe, now);
        assert ids[i + 1] == rest[i];
        forall j | 0 <= j < i + 1 ensures !Due(t, ids[j], safe, now) { assert j > 0 ==> ids[j] == rest[j - 1]; }
      }
    }
  }

  function Begun(t: Table, due: Option<Id>): Option<(Gen, nat)> {
    if t.reconciling.Some? || due.None? || due.value !in t.current || t.current[due.value] !in t.entries then t.reconciling
    else Some((t.current[due.value], t.entries[t.current[due.value]].revision))
  }

  /** Only the reconciliation that begins is marked, and none of their delays changes. */
  predicate MarksBegun(t: Table, u: Table) {
    u.entries.Keys == t.entries.Keys && forall g | g in t.entries :: MarkedAt(t, u, g)
  }

  predicate MarkedAt(t: Table, u: Table, g: Gen)
    requires g in t.entries && g in u.entries
  {
    && (u.entries[g].checking <==> t.entries[g].checking || (t.reconciling.None? && u.reconciling.Some? && u.reconciling.value.0 == g))
    && u.entries[g].retryAt == t.entries[g].retryAt && u.entries[g].failures == t.entries[g].failures
  }

  lemma SweptOneStarts(t: Table, id: Id, safe: Gen -> bool, config: Config, now: Time)
    ensures var u := SweptOne(t, id, safe, config, now);
            u.reconciling == Begun(t, if Due(t, id, safe, now) then Some(id) else None) && u.current == t.current && u.entries.Keys == t.entries.Keys
  {}

  lemma SweptOneMarks(t: Table, id: Id, safe: Gen -> bool, config: Config, now: Time, u: Table, g: Gen)
    requires g in t.entries && u == SweptOne(t, id, safe, config, now)
    ensures g in u.entries && MarkedAt(t, u, g) && (!IsCurrentOf(t, id, g) ==> u.entries[g] == t.entries[g])
  {}

  lemma SweptOneBegins(t: Table, id: Id, safe: Gen -> bool, config: Config, now: Time)
    ensures var u := SweptOne(t, id, safe, config, now);
            && u.reconciling == Begun(t, if Due(t, id, safe, now) then Some(id) else None) && MarksBegun(t, u)
            && u.current == t.current && u.entries.Keys == t.entries.Keys
            && forall g | g in t.entries && !IsCurrentOf(t, id, g) :: u.entries[g] == t.entries[g]
  {
    var u := SweptOne(t, id, safe, config, now);
    SweptOneStarts(t, id, safe, config, now);
    forall g | g in t.entries ensures g in u.entries && MarkedAt(t, u, g) && (!IsCurrentOf(t, id, g) ==> u.entries[g] == t.entries[g]) {
      SweptOneMarks(t, id, safe, config, now, u, g);
    }
  }

  lemma {:induction false} OthersStayDue(t: Table, u: Table, ids: seq<Id>, safe: Gen -> bool, now: Time)
    requires u.current == t.current && forall i | 0 <= i < |ids| && ids[i] in t.current && t.current[ids[i]] in t.entries ::
               t.current[ids[i]] in u.entries && u.entries[t.current[ids[i]]] == t.entries[t.current[ids[i]]]
    requires u.entries.Keys == t.entries.Keys
    ensures FirstDue(u, ids, safe, now) == FirstDue(t, ids, safe, now)
  {
    if ids != [] {
      assert forall i | 0 < i < |ids| :: ids[i] == ids[1..][i - 1];
      OthersStayDue(t, u, ids[1..], safe, now);
    }
  }

  lemma SameBegun(t: Table, u: Table, due: Option<Id>)
    requires u.current == t.current && u.reconciling == t.reconciling && u.entries.Keys == t.entries.Keys
    requires due.Some? && due.value in t.current && t.current[due.value] in t.entries ==> u.entries[t.current[due.value]] == t.entries[t.current[due.value]]
    ensures Begun(u, due) == Begun(t, due)
  {}

  lemma {:induction false} SweepBegins(t: Table, ids: seq<Id>, safe: Gen -> bool, config: Config, now: Time)
    requires forall i, j | 0 <= i < j < |ids| :: ids[i] != ids[j]
    requires forall a, b | a in t.current && b in t.current && a != b :: t.current[a] != t.current[b]
    ensures var u := SweptAll(t, ids, safe, config, now); u.reconciling == Begun(t, FirstDue(t, ids, safe, now)) && MarksBegun(t, u)
    decreases |ids|
  {
    if ids != [] {
      var t1, rest := SweptOne(t, ids[0], safe, config, now), ids[1..];
      SweptOneBegins(t, ids[0], safe, config, now);
      assert forall i | 0 <= i < |rest| :: rest[i] == ids[i + 1] && rest[i] != ids[0];
      SweepBegins(t1, rest, safe, config, now);
      OthersStayDue(t, t1, rest, safe, now);
      if FirstDue(t, rest, safe, now).Some? { FirstDueIsFirst(t, rest, safe, now); }
      if t1.reconciling == t.reconciling { SameBegun(t, t1, FirstDue(t, rest, safe, now)); }
    }
  }

  /** A session in doubt is reconciled when its time has come: a sweep of a connected and open table
      begins exactly that of the first one due in the order of watching, unless one is under way. */
  lemma DoubtIsReconciled(ts: seq<Table>, events: seq<Event>, times: seq<Time>, config: Config, i: nat)
    requires IsRun(ts, events, times, config) && i < |events| && events[i].Sweep? && ts[i].connected && !ts[i].closed
    ensures ts[i + 1].reconciling == Begun(ts[i], FirstDue(ts[i], ts[i].order, events[i].safe, times[i])) && MarksBegun(ts[i], ts[i + 1])
  {
    RunKeeps(ts, events, times, config, i);
    SweepBegins(ts[i], ts[i].order, events[i].safe, config, times[i]);
  }

  /** When the next reconciliation may begin: after a failed one, later each time, from twice the interval on and at
      most a quarter of an hour; after a confirmed one, or any use of the session, after the interval.
      A reconciliation that was overtaken says nothing. */
  lemma SettledReconciliationDelays(t: Table, confirmed: bool, config: Config, now: Time, g: Gen, revision: nat)
    requires t.reconciling == Some((g, revision)) && g in t.entries
    ensures var u, e := ReconcileSettled(t, confirmed, config, now), t.entries[g];
            var current := !t.closed && t.connected && e.users == 0 && e.revision == revision;
            && u.reconciling == None && g in u.entries && !u.entries[g].checking
            && (!current ==> u.entries[g] == e.(checking := false))
            && (current ==> u.entries[g].idleSince == now && u.entries[g].failures == (if confirmed then 0 else if e.failures >= 10 then 10 else e.failures + 1))
            && (current ==> u.entries[g].retryAt <= now + 900000 && u.entries[g].retryAt <= now + config.reconcileMs * Pow2(u.entries[g].failures))
            && (current ==> u.entries[g].retryAt == now + 900000 || u.entries[g].retryAt == now + config.reconcileMs * Pow2(u.entries[g].failures))
            && u.order == t.order && u.current == t.current && u.leases == t.leases && forall h | h in t.entries && h != g :: h in u.entries && u.entries[h] == t.entries[h]
  {}

  lemma UseResetsDelay(t: Table, id: Id, config: Config, now: Time)
    requires id in t.current && t.current[id] in t.entries
    ensures var e := Touched(t, id, config, now).entries[t.current[id]];
            e.failures == 0 && e.retryAt == now + config.reconcileMs && e.idleSince == now && e.revision == t.entries[t.current[id]].revision + 1
  {}

  /** A new watch starts anew, whatever became of the entry it replaces, and takes over its users. */
  lemma WatchStartsAnew(t: Table, id: Id, g: Gen, canReconcile: bool, config: Config, now: Time)
    requires g !in t.entries
    ensures var u := Watched(t, id, g, canReconcile, config, now);
            && u.current == t.current[id := g] && g in u.entries && u.leases == t.leases && u.reconciling == t.reconciling
            && var e := u.entries[g];
               && !e.dormant && !e.releasing && !e.checking && e.users == Users(t, id) && e.canReconcile == canReconcile
               && e.idleSince == now && e.retryAt == now + config.reconcileMs && e.failures == 0
  {}

  /** The end of a release or of a reconciliation touches no other generation. */
  lemma CallbacksStayInTheirGeneration(t: Table, g: Gen, ok: bool, confirmed: bool, config: Config, now: Time, h: Gen)
    requires h in t.entries
    ensures h != g ==> ReleaseSettled(t, g, ok, now).entries[h] == t.entries[h]
    ensures t.reconciling.None? || h != t.reconciling.value.0 ==> ReconcileSettled(t, confirmed, config, now).entries[h] == t.entries[h]
  {}

  lemma {:induction false} RevisionGrows(ts: seq<Table>, events: seq<Event>, times: seq<Time>, config: Config, m: nat, i: nat, g: Gen)
    requires IsRun(ts, events, times, config) && m <= i < |ts| && g in ts[m].entries
    ensures g in ts[i].entries && ts[i].entries[g].revision >= ts[m].entries[g].revision
  {
    if m < i {
      RevisionGrows(ts, events, times, config, m, i - 1, g);
      RunKeeps(ts, events, times, config, i - 1);
      Step(ts[i - 1], events[i - 1], config, times[i - 1], g);
    }
  }

  /** A reconciliation that was overtaken, by a new watch or any use of the session since it was
      begun for `revision`, settles without changing anything but its own mark. */
  lemma StaleReconciliationIsIgnored(ts: seq<Table>, events: seq<Event>, times: seq<Time>, config: Config, b: nat, m: nat, i: nat, g: Gen,
                                     revision: nat, confirmed: bool)
    requires IsRun(ts, events, times, config) && b <= m < i < |events| && events[i] == SettleReconcile(confirmed)
    requires g in ts[b].entries && ts[b].entries[g].revision == revision && Outdates(ts[m], events[m], g)
    requires ts[i].reconciling == Some((g, revision))
    ensures g in ts[i].entries && ts[i + 1].entries == ts[i].entries[g := ts[i].entries[g].(checking := false)]
  {
    RevisionGrows(ts, events, times, config, b, m, g);
    RunKeeps(ts, events, times, config, m);
    Step(ts[m], events[m], config, times[m], g);
    RevisionGrows(ts, events, times, config, m + 1, i, g);
  }
}

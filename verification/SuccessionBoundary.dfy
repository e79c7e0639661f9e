/** The admission boundary for session handoff: which operations may touch a native session, and
    which sessions a handoff has reserved. */
module SuccessionBoundary {

  /** A native session address, and the identity of an operation or of a handoff. */
  type Key = nat
  type Op = nat

  /** What the stores and adapters behind the boundary answer at the moment of a call. */
  datatype Env = Env(
    admits: Key -> bool,     // the role store allows new work on the session
    covered: Key -> bool,    // mutation coverage is known, no restart fence
    idle: Key -> bool,       // the Host sees no active or unsynchronized work
    unmoved: Key -> bool)    // nor a timeline that moved past the captured cursor

  datatype Entry = Entry(targets: set<Key>, inFlight: bool)

  /** The shared operation cache, as far as the boundary relies on it.  `handles` and `loose` count
      native effects, retained work and reserved effects that are not settled: an entry with one of
      `handles` never expires, while `loose` are those begun when no one kept the session's evidence.
      `pins` counts who keeps it. */
  datatype Cache = Cache(entries: map<Op, Entry>, handles: multiset<(Op, Key)>, loose: multiset<(Op, Key)>, pins: map<Key, nat>)

  function Open(c: Cache, op: Op, k: Key): nat {
    c.handles[(op, k)] + c.loose[(op, k)]
  }

  datatype State = State(
    admissions: map<Op, set<Key>>,
    reservations: map<Op, seq<Key>>,   // the first key is the source
    enabled: set<Key>,
    closing: bool,
    cache: Cache)

  predicate Reserved(s: State, k: Key) {
    exists id | id in s.reservations :: k in s.reservations[id]
  }

  predicate ReservedByOther(s: State, id: Op, k: Key) {
    exists other | other in s.reservations :: other != id && k in s.reservations[other]
  }

  predicate Pending(s: State, k: Key) {
    exists op | op in s.admissions :: k in s.admissions[op]
  }

  predicate Unsettled(c: Cache, k: Key) {
    exists op | op in c.entries :: k in c.entries[op].targets && (c.entries[op].inFlight || Open(c, op, k) > 0)
  }

  predicate Valid(s: State, env: Env, k: Key) {
    !s.closing && !Reserved(s, k) && env.admits(k)
  }

  /** With a captured cursor the session must also not have moved since. */
  predicate Quiescent(s: State, env: Env, k: Key, captured: bool) {
    env.covered(k) && !Pending(s, k) && !Unsettled(s.cache, k) && env.idle(k) && (captured ==> env.unmoved(k))
  }

  function Pins(pins: map<Key, nat>, k: Key): nat {
    if k in pins then pins[k] else 0
  }

  function Repinned(pins: map<Key, nat>, up: set<Key>, down: set<Key>): map<Key, nat> {
    map k | k in pins.Keys + up :: Pins(pins, k) + (if k in up then 1 else 0) - (if k in down && Pins(pins, k) > 0 then 1 else 0)
  }

  function Set(keys: seq<Key>): set<Key> {
    set k | k in keys
  }

  // ---- The operations as functions of the state ----

  predicate AdmitOk(s: State, env: Env, targets: seq<Key>, op: Op) {
    (forall k | k in targets :: Valid(s, env, k)) && op !in s.admissions
  }

  function Admitted(s: State, targets: seq<Key>, op: Op): State {
    s.(admissions := s.admissions[op := Set(targets)], enabled := s.enabled + Set(targets),
       cache := s.cache.(pins := Repinned(s.cache.pins, Set(targets) - s.enabled, {})))
  }

  datatype Reservation = Taken | Held | Refused

  function ReserveResult(s: State, env: Env, id: Op, source: Key, restored: bool): Reservation {
    if id in s.reservations then (if source in s.reservations[id] then Held else Refused)
    else if Reserved(s, source) || (!restored && !Valid(s, env, source)) || !Quiescent(s, env, source, false) then Refused
    else Taken
  }

  function WithReservation(s: State, id: Op, keys: seq<Key>, pinned: Key): State {
    s.(reservations := s.reservations[id := keys], cache := s.cache.(pins := Repinned(s.cache.pins, {pinned}, {})))
  }

  predicate Conflict(s: State, id: Op, k: Key) {
    Pending(s, k) || Unsettled(s.cache, k) || ReservedByOther(s, id, k)
  }

  /** The cursor, when one was captured, is that of the source. */
  predicate CommitOk(s: State, env: Env, id: Op, captured: bool) {
    && id in s.reservations
    && (forall i | 0 <= i < |s.reservations[id]| ::
          !ReservedByOther(s, id, s.reservations[id][i]) && Quiescent(s, env, s.reservations[id][i], captured && i == 0))
  }

  function Released(s: State, id: Op, committed: bool): State
    requires id in s.reservations
  {
    var keys := s.reservations[id];
    s.(reservations := s.reservations - {id}, enabled := s.enabled + (if committed then Set(keys) else {}),
       cache := s.cache.(pins := Repinned(s.cache.pins, {}, Given(keys, committed, s.enabled))))
  }

  // ---- The object ----

  class SessionSuccessionBoundary {
    var admissions: map<Op, set<Key>>
    var reservations: map<Op, seq<Key>>
    var enabled: set<Key>
    var closing: bool
    var cache: Cache

    constructor ()
      ensures View() == State(map[], map[], {}, false, Cache(map[], multiset{}, multiset{}, map[]))
    {
      admissions, reservations, enabled, closing := map[], map[], {}, false;
      cache := Cache(map[], multiset{}, multiset{}, map[]);
    }

    function View(): State
      reads this
    {
      State(admissions, reservations, enabled, closing, cache)
    }

    method Validate(target: Key, env: Env) returns (ok: bool)
      ensures ok == Valid(View(), env, target)
      ensures ok <==> !closing && env.admits(target) && forall id | id in reservations :: target !in reservations[id]
    {
      if closing { return false; }
      if exists id | id in reservations :: target in reservations[id] { return false; }
      return env.admits(target);
    }

    method AssertQuiescent(target: Key, env: Env, captured: bool) returns (ok: bool)
      ensures ok == Quiescent(View(), env, target, captured)
      ensures ok <==> env.covered(target) && env.idle(target) && Untouched(View(), target) && (captured ==> env.unmoved(target))
    {
      UntouchedIs(View(), target);
      if !env.covered(target) { return false; }
      if (exists op | op in admissions :: target in admissions[op]) || Unsettled(cache, target) { return false; }
      return env.idle(target) && (!captured || env.unmoved(target));
    }

    method Pin(target: Key)
      modifies this`cache
      ensures cache == old(cache).(pins := Repinned(old(cache.pins), {target}, {}))
    {
      cache := cache.(pins := cache.pins[target := Pins(cache.pins, target) + 1]);
      assert cache.pins == Repinned(old(cache.pins), {target}, {});
    }

    method Unpin(target: Key)
      modifies this`cache
      ensures cache == old(cache).(pins := Repinned(old(cache.pins), {}, {target}))
    {
      if target in cache.pins && cache.pins[target] > 0 {
        cache := cache.(pins := cache.pins[target := cache.pins[target] - 1]);
      }
      assert cache.pins == Repinned(old(cache.pins), {}, {target});
    }

    method ValidateAll(targets: seq<Key>, env: Env) returns (ok: bool)
      ensures ok <==> forall k | k in targets :: Valid(View(), env, k)
    {
      for i := 0 to |targets|
        invariant forall k | k in targets[..i] :: Valid(View(), env, k)
      {
        var valid := Validate(targets[i], env);
        if !valid { return false; }
        assert targets[..i + 1] == targets[..i] + [targets[i]];
      }
      assert targets[..|targets|] == targets;
      return true;
    }

    /** Keeps the evidence of sessions that were not kept before. */
    method EnableAll(targets: seq<Key>)
      modifies this`enabled, this`cache
      ensures enabled == old(enabled) + Set(targets)
      ensures cache == old(cache).(pins := Repinned(old(cache.pins), Set(targets) - old(enabled), {}))
    {
      for i := 0 to |targets|
        invariant enabled == old(enabled) + Set(targets[..i])
        invariant cache == old(cache).(pins := cache.pins)
        invariant cache.pins == Repinned(old(cache.pins), Set(targets[..i]) - old(enabled), {})
      {
        var up := Set(targets[..i]) - old(enabled);
        assert Set(targets[..i + 1]) == Set(targets[..i]) + {targets[i]} by {
          assert targets[..i + 1] == targets[..i] + [targets[i]];
        }
        if targets[i] !in enabled {
          Pin(targets[i]);
          enabled := enabled + {targets[i]};
          PinnedTogether(old(cache.pins), up, targets[i]);
          assert up + {targets[i]} == Set(targets[..i + 1]) - old(enabled);
        } else {
          assert up == Set(targets[..i + 1]) - old(enabled);
        }
      }
      assert targets[..|targets|] == targets;
    }

    method Admit(targets: seq<Key>, op: Op, env: Env) returns (ok: bool)
      modifies this
      ensures ok == AdmitOk(old(View()), env, targets, op)
      ensures View() == if ok then Admitted(old(View()), targets, op) else old(View())
    {
      ok := ValidateAll(targets, env);
      if !ok || op in admissions { return false; }
      EnableAll(targets);
      admissions := admissions[op := Set(targets)];
    }

    method Reserve(id: Op, source: Key, restored: bool, env: Env) returns (result: Reservation)
      modifies this
      ensures result == ReserveResult(old(View()), env, id, source, restored)
      ensures View() == if result == Taken then WithReservation(old(View()), id, [source], source) else old(View())
    {
      if id in reservations {
        return if source in reservations[id] then Held else Refused;
      }
      if exists other | other in reservations :: source in reservations[other] { return Refused; }
      if !restored {
        var valid := Validate(source, env);
        if !valid { return Refused; }
      }
      var quiescent := AssertQuiescent(source, env, false);
      if !quiescent { return Refused; }
      Pin(source);
      reservations := reservations[id := [source]];
      return Taken;
    }

    method RegisterCandidate(id: Op, target: Key) returns (conflict: bool)
      modifies this
      ensures conflict <==> id in old(reservations) && Conflict(old(View()), id, target)
      ensures View() == if id in old(reservations) && target !in old(reservations)[id]
                        then WithReservation(old(View()), id, old(reservations)[id] + [target], target) else old(View())
    {
      if id !in reservations { return false; }
      conflict := (exists op | op in admissions :: target in admissions[op]) || Unsettled(cache, target);
      if exists other | other in reservations :: other != id && target in reservations[other] { conflict := true; }
      if target !in reservations[id] {
        Pin(target);
        reservations := reservations[id := reservations[id] + [target]];
      }
    }

    method AssertCommit(id: Op, env: Env, captured: bool) returns (ok: bool)
      ensures ok == CommitOk(View(), env, id, captured)
      ensures ok <==>
                && id in reservations && (captured && reservations[id] != [] ==> env.unmoved(reservations[id][0]))
                && forall k | k in reservations[id] ::
                     env.covered(k) && env.idle(k) && Untouched(View(), k) && forall other | other in reservations && other != id :: k !in reservations[other]
    {
      CommitsExactly(View(), env, id, captured);
      if id !in reservations { return false; }
      if exists other | other in reservations :: other != id && exists k | k in reservations[other] :: k in reservations[id] {
        return false;
      }
      var keys := reservations[id];
      assert forall i | 0 <= i < |keys| :: keys[i] in keys && !ReservedByOther(View(), id, keys[i]);
      for i := 0 to |keys|
        invariant forall j | 0 <= j < i :: Quiescent(View(), env, keys[j], captured && j == 0)
      {
        var quiescent := AssertQuiescent(keys[i], env, captured && i == 0);
        if !quiescent { return false; }
      }
      return true;
    }

    method Disable(target: Key, committed: bool)
      modifies this`enabled, this`cache
      ensures enabled == old(enabled) + (if committed then {target} else {})
      ensures cache == old(cache).(pins := Repinned(old(cache.pins), {}, if committed && target !in old(enabled) then {} else {target}))
    {
      if committed && target !in enabled {
        enabled := enabled + {target};
        assert cache.pins == Repinned(cache.pins, {}, {});
      } else {
        Unpin(target);
      }
    }

    /** Gives pins back, or turns them into enabled sessions after a commit. */
    method DisableAll(keys: seq<Key>, committed: bool)
      requires forall a, b | 0 <= a < b < |keys| :: keys[a] != keys[b]
      modifies this`enabled, this`cache
      ensures enabled == old(enabled) + (if committed then Set(keys) else {})
      ensures cache == old(cache).(pins := Repinned(old(cache.pins), {}, Given(keys, committed, old(enabled))))
    {
      ghost var pins := cache.pins;
      assert pins == Repinned(pins, {}, Given(keys[..0], committed, enabled));
      for i := 0 to |keys|
        invariant enabled == old(enabled) + (if committed then Set(keys[..i]) else {})
        invariant cache == old(cache).(pins := Repinned(pins, {}, Given(keys[..i], committed, old(enabled))))
      {
        GivenGrows(keys, i, committed, old(enabled));
        UnpinnedTogether(pins, Given(keys[..i], committed, old(enabled)), if committed && keys[i] !in old(enabled) then {} else {keys[i]});
        Disable(keys[i], committed);
      }
      assert keys[..|keys|] == keys;
    }

    method ReleaseReservation(id: Op, committed: bool)
      requires id in reservations ==> forall a, b | 0 <= a < b < |reservations[id]| :: reservations[id][a] != reservations[id][b]
      modifies this
      ensures View() == if id in old(reservations) then Released(old(View()), id, committed) else old(View())
    {
      if id !in reservations { return; }
      var keys := reservations[id];
      reservations := reservations - {id};
      DisableAll(keys, committed);
    }
  }

  // ---- What the answers mean ----

  /** Nobody works on the session: no admitted operation reaches it, no dispatched one is in flight for
      it, and no effect begun on it is unsettled. */
  ghost predicate Untouched(s: State, k: Key) {
    && (forall op | op in s.admissions :: k !in s.admissions[op])
    && (forall op | op in s.cache.entries && k in s.cache.entries[op].targets ::
          !s.cache.entries[op].inFlight && s.cache.handles[(op, k)] == 0 && s.cache.loose[(op, k)] == 0)
  }

  /** The commit check passes if and only if the reservation exists, its source has not moved past a
      captured cursor, and every session of it is covered, idle, untouched and in no other reservation. */
  lemma CommitsExactly(s: State, env: Env, id: Op, captured: bool)
    ensures CommitOk(s, env, id, captured) <==>
            && id in s.reservations && (captured && s.reservations[id] != [] ==> env.unmoved(s.reservations[id][0]))
            && forall k | k in s.reservations[id] ::
                 env.covered(k) && env.idle(k) && Untouched(s, k) && forall other | other in s.reservations && other != id :: k !in s.reservations[other]
  {
    if id in s.reservations {
      var keys := s.reservations[id];
      assert forall i | 0 <= i < |keys| :: keys[i] in keys;
      forall k | k in keys ensures (Pending(s, k) || Unsettled(s.cache, k) <==> !Untouched(s, k)) { UntouchedIs(s, k); }
    }
  }

  lemma UntouchedIs(s: State, k: Key)
    ensures Untouched(s, k) <==> !Pending(s, k) && !Unsettled(s.cache, k)
  {}

  /** New work is accepted if and only if the boundary is open, no handoff reserved the session and the
      role store admits it; then it also starts an effect. */
  lemma AcceptsExactly(y: System, env: Env, op: Op, k: Key)
    ensures Starts(y, Effect(op, k, env), k) <==>
            && op in y.st.cache.entries && y.st.cache.entries[op].inFlight && k in y.st.cache.entries[op].targets
            && !y.st.closing && env.admits(k) && forall id | id in y.st.reservations :: k !in y.st.reservations[id]
  {}

  /** An operation is admitted if and only if that holds of all its targets and it is a new one; then all
      of them are admitted, enabled and kept as evidence, and otherwise none is. */
  lemma AdmitsExactly(y: System, op: Op, targets: seq<Key>, env: Env)
    requires op !in y.st.cache.entries
    ensures var z := Next(y, Begin(op, targets, env));
            var open := op !in y.st.admissions
                        && forall k | k in targets :: !y.st.closing && env.admits(k) && forall id | id in y.st.reservations :: k !in y.st.reservations[id];
            && op in z.st.cache.entries && (z.st.cache.entries[op].inFlight <==> open) && z.st.cache.entries[op].targets == Set(targets)
            && z.st.admissions == (if open then y.st.admissions[op := Set(targets)] else y.st.admissions)
            && z.st.enabled == (if open then y.st.enabled + Set(targets) else y.st.enabled)
            && z.st.reservations == y.st.reservations && z.st.closing == y.st.closing && z.prepared == y.prepared
  {
    forall k | k in targets ensures Valid(y.st, env, k) <==> !y.st.closing && env.admits(k) && forall id | id in y.st.reservations :: k !in y.st.reservations[id] {}
  }

  /** A source is reserved if and only if no handoff has it, nobody works on it, it is covered and idle
      and, unless the reservation is restored, new work would be accepted on it. */
  lemma ReservesExactly(y: System, id: Op, k: Key, restored: bool, env: Env)
    requires id !in y.st.reservations
    ensures var z := Next(y, Reserve(id, k, restored, env));
            (id in z.st.reservations <==>
              && (forall other | other in y.st.reservations :: k !in y.st.reservations[other])
              && env.covered(k) && env.idle(k) && Untouched(y.st, k) && (restored || (!y.st.closing && env.admits(k))))
            && (if id in z.st.reservations then z.st.reservations == y.st.reservations[id := [k]] else z == y)
  {
    UntouchedIs(y.st, k);
    assert Reserved(y.st, k) <==> !(forall other | other in y.st.reservations :: k !in y.st.reservations[other]);
  }

  /** A handoff that has its reservation keeps it as it is; asking again is answered only for a session of it. */
  lemma ReservedAgain(y: System, id: Op, k: Key, restored: bool, env: Env)
    requires id in y.st.reservations
    ensures Next(y, Reserve(id, k, restored, env)) == y
    ensures ReserveResult(y.st, env, id, k, restored) == if k in y.st.reservations[id] then Held else Refused
  {}

  /** A candidate joins its handoff whatever its state; the conflict says whether somebody works on it or
      another handoff has it. */
  lemma RegistersExactly(y: System, id: Op, k: Key)
    requires id in y.st.reservations
    ensures var z := Next(y, Register(id, k));
            && id in z.st.reservations && k in z.st.reservations[id] && y.st.reservations[id] <= z.st.reservations[id]
            && (forall x | x in z.st.reservations[id] :: x == k || x in y.st.reservations[id])
            && (forall other | other != id :: other in z.st.reservations <==> other in y.st.reservations)
            && (forall other | other != id && other in y.st.reservations :: z.st.reservations[other] == y.st.reservations[other])
    ensures Conflict(y.st, id, k) <==> !Untouched(y.st, k) || exists other | other in y.st.reservations && other != id :: k in y.st.reservations[other]
  {
    UntouchedIs(y.st, k);
  }

  lemma PinnedTogether(pins: map<Key, nat>, up: set<Key>, k: Key)
    requires k !in up
    ensures Repinned(Repinned(pins, up, {}), {k}, {}) == Repinned(pins, up + {k}, {})
  {}

  /** The sessions whose pin is given back when a reservation ends. */
  function Given(keys: seq<Key>, committed: bool, enabled: set<Key>): set<Key> {
    if committed then Set(keys) * enabled else Set(keys)
  }

  lemma GivenGrows(keys: seq<Key>, i: nat, committed: bool, enabled: set<Key>)
    requires i < |keys| && forall a, b | 0 <= a < b < |keys| :: keys[a] != keys[b]
    ensures Set(keys[..i + 1]) == Set(keys[..i]) + {keys[i]} && keys[i] !in Set(keys[..i])
    ensures Given(keys[..i + 1], committed, enabled)
            == Given(keys[..i], committed, enabled) + (if committed && keys[i] !in enabled then {} else {keys[i]})
  {
    assert keys[..i + 1] == keys[..i] + [keys[i]];
  }

  lemma UnpinnedTogether(pins: map<Key, nat>, given: set<Key>, more: set<Key>)
    requires given !! more
    ensures Repinned(Repinned(pins, {}, given), {}, more) == Repinned(pins, {}, given + more)
  {}

  // ---- Runs of operations and handoffs ----

  /** The boundary with the work under way: `prepared` are inputs between the durable mark of
      `preparedEffect` and the start of their native effect. */
  datatype System = System(st: State, prepared: set<(Op, Key)>)

  const INIT := System(State(map[], map[], {}, false, Cache(map[], multiset{}, multiset{}, map[])), {})

  datatype Event =
    | Begin(op: Op, targets: seq<Key>, env: Env)    // the cache executes an operation; admission is part of it
    | Effect(op: Op, key: Key, env: Env)            // validation and effect start without an await between
    | Prepare(op: Op, key: Key, env: Env)           // validation, before an await
    | StartPrepared(op: Op, key: Key)               // the effect start after it, without validation
    | Retain(op: Op, key: Key)                      // an accepted setting intent keeps work or an effect slot
    | RetainedEffect(op: Op, key: Key, env: Env)    // that intent starts its effect later
    | Settle(op: Op, key: Key)
    | FinishEntry(op: Op)                           // the dispatched work returned
    | ReleaseAdmission(op: Op)
    | Expire(op: Op)
    | Reserve(id: Op, key: Key, restored: bool, env: Env)
    | Register(id: Op, key: Key)
    | ReleaseReservation(id: Op, committed: bool)
    | BeginClose

  predicate Running(y: System, op: Op, k: Key) {
    op in y.st.cache.entries && y.st.cache.entries[op].inFlight && k in y.st.cache.entries[op].targets
  }

  /** A handle is pinned when the session's evidence is kept as it begins. */
  function WithHandle(c: Cache, op: Op, k: Key): Cache {
    if Pins(c.pins, k) > 0 then c.(handles := c.handles + multiset{(op, k)}) else c.(loose := c.loose + multiset{(op, k)})
  }

  function Next(y: System, ev: Event): System {
    var s, c := y.st, y.st.cache;
    match ev
    case Begin(op, targets, env) =>
      if op in c.entries then y
      else if AdmitOk(s, env, targets, op) then
        var t := Admitted(s, targets, op);
        y.(st := t.(cache := t.cache.(entries := c.entries[op := Entry(Set(targets), true)])))
      else y.(st := s.(cache := c.(entries := c.entries[op := Entry(Set(targets), false)])))
    case Effect(op, k, env) =>
      if Running(y, op, k) && Valid(s, env, k) then y.(st := s.(cache := WithHandle(c, op, k))) else y
    case Prepare(op, k, env) =>
      if Running(y, op, k) && Valid(s, env, k) then y.(prepared := y.prepared + {(op, k)}) else y
    case StartPrepared(op, k) =>
      if (op, k) in y.prepared then System(s.(cache := WithHandle(c, op, k)), y.prepared - {(op, k)}) else y
    case Retain(op, k) => if Running(y, op, k) then y.(st := s.(cache := WithHandle(c, op, k))) else y
    case RetainedEffect(_, _, _) => y
    case Settle(op, k) =>
      if (op, k) in c.handles then y.(st := s.(cache := c.(handles := c.handles - multiset{(op, k)})))
      else y.(st := s.(cache := c.(loose := c.loose - multiset{(op, k)})))
    case FinishEntry(op) =>
      if op in c.entries && forall p | p in y.prepared :: p.0 != op then
        y.(st := s.(cache := c.(entries := c.entries[op := c.entries[op].(inFlight := false)])))
      else y
    case ReleaseAdmission(op) =>
      if op in c.entries && !c.entries[op].inFlight then y.(st := s.(admissions := s.admissions - {op})) else y
    case Expire(op) =>
      if op in c.entries && !c.entries[op].inFlight && op !in s.admissions && forall h | h in c.handles :: h.0 != op then
        y.(st := s.(cache := c.(entries := c.entries - {op})))
      else y
    case Reserve(id, k, restored, env) =>
      if ReserveResult(s, env, id, k, restored) == Taken then y.(st := WithReservation(s, id, [k], k)) else y
    case Register(id, k) =>
      if id in s.reservations && k !in s.reservations[id] then y.(st := WithReservation(s, id, s.reservations[id] + [k], k)) else y
    case ReleaseReservation(id, committed) => if id in s.reservations then y.(st := Released(s, id, committed)) else y
    case BeginClose => y.(st := s.(closing := true))
  }

  /** The event starts a native effect on the session. */
  predicate Starts(y: System, ev: Event, k: Key) {
    match ev
    case Effect(op, key, env) => key == k && Running(y, op, k) && Valid(y.st, env, k)
    case StartPrepared(op, key) => key == k && (op, k) in y.prepared
    case RetainedEffect(op, key, env) => key == k && Open(y.st.cache, op, k) > 0 && Valid(y.st, env, k)
    case _ => false
  }

  predicate IsSource(s: State, k: Key) {
    exists id | id in s.reservations :: |s.reservations[id]| > 0 && s.reservations[id][0] == k
  }

  function Holders(s: State, k: Key): set<Op> {
    set id | id in s.reservations && k in s.reservations[id]
  }

  predicate WorkInv(y: System) {
    var c := y.st.cache;
    && (forall p | p in y.prepared :: Running(y, p.0, p.1))
    && (forall h | h in c.handles :: h.0 in c.entries && h.1 in c.entries[h.0].targets)
    && (forall op | op in y.st.admissions :: op in c.entries && y.st.admissions[op] == c.entries[op].targets)
    && (forall op | op in c.entries && c.entries[op].inFlight :: op in y.st.admissions)
    && c.loose == multiset{}
  }

  /** Whatever can begin work has its sessions' evidence kept. */
  predicate EvidenceInv(s: State) {
    forall op | op in s.cache.entries && s.cache.entries[op].inFlight :: s.cache.entries[op].targets <= s.enabled
  }

  predicate ReservationInv(s: State) {
    forall id | id in s.reservations ::
      s.reservations[id] != [] && forall i, j | 0 <= i < j < |s.reservations[id]| :: s.reservations[id][i] != s.reservations[id][j]
  }

  ghost predicate SourceInv(s: State) {
    forall k | IsSource(s, k) :: !Pending(s, k) && !Unsettled(s.cache, k)
  }

  /** Each pin belongs to the session being enabled or to one reservation of it, and none is lost. */
  ghost predicate PinInv(s: State) {
    forall k: Key :: PinsAt(s, k)
  }

  ghost predicate Inv(y: System) {
    WorkInv(y) && EvidenceInv(y.st) && ReservationInv(y.st) && SourceInv(y.st) && PinInv(y.st)
  }

  lemma PreparedKept(y: System, ev: Event, p: (Op, Key))
    requires WorkInv(y) && p in Next(y, ev).prepared
    ensures Running(Next(y, ev), p.0, p.1)
  {
    assert p in y.prepared ==> Running(y, p.0, p.1);
  }

  predicate AddsHandle(ev: Event) {
    ev.Effect? || ev.StartPrepared? || ev.Retain?
  }

  predicate HandleOk(c: Cache, h: (Op, Key)) {
    h in c.handles ==> h.0 in c.entries && h.1 in c.entries[h.0].targets
  }

  lemma AddedHandleOk(y: System, ev: Event, h: (Op, Key), c: Cache)
    requires AddsHandle(ev) && WorkInv(y) && HandleOk(y.st.cache, h) && c == Next(y, ev).st.cache
    ensures HandleOk(c, h)
  {
    if ev.StartPrepared? && (ev.op, ev.key) in y.prepared { assert Running(y, ev.op, ev.key); }
  }

  lemma HandlesKept(y: System, ev: Event, h: (Op, Key))
    requires WorkInv(y)
    ensures HandleOk(Next(y, ev).st.cache, h)
  {
    assert HandleOk(y.st.cache, h);
    var c := Next(y, ev).st.cache;
    if AddsHandle(ev) { AddedHandleOk(y, ev, h, c); } else if ChangesWork(ev) { OtherHandleOk(y, ev, h, c); } else { WorkIsSame(y, ev, c); }
  }

  predicate ChangesWork(ev: Event) {
    AddsHandle(ev) || ev.Begin? || ev.Settle? || ev.FinishEntry? || ev.Expire?
  }

  lemma WorkIsSame(y: System, ev: Event, c: Cache)
    requires !ChangesWork(ev) && c == Next(y, ev).st.cache
    ensures c.entries == y.st.cache.entries && c.handles == y.st.cache.handles && c.loose == y.st.cache.loose
  {}

  lemma OtherHandleOk(y: System, ev: Event, h: (Op, Key), c: Cache)
    requires !AddsHandle(ev) && ChangesWork(ev) && HandleOk(y.st.cache, h) && c == Next(y, ev).st.cache
    ensures HandleOk(c, h)
  {}

  predicate Matches(s: State, op: Op) {
    && (op in s.admissions ==> op in s.cache.entries && s.admissions[op] == s.cache.entries[op].targets)
    && (op in s.cache.entries && s.cache.entries[op].inFlight ==> op in s.admissions)
  }

  predicate Dispatches(ev: Event) {
    ev.Begin? || ev.FinishEntry? || ev.ReleaseAdmission? || ev.Expire?
  }

  lemma DispatchMatches(y: System, ev: Event, t: State, op: Op)
    requires Matches(y.st, op) && Dispatches(ev) && t == Next(y, ev).st
    ensures Matches(t, op)
  {}

  lemma EffectMatches(y: System, ev: Event, t: State, op: Op)
    requires Matches(y.st, op) && !Dispatches(ev) && t == Next(y, ev).st
    ensures Matches(t, op)
  {}

  lemma AdmissionsKept(y: System, ev: Event)
    requires WorkInv(y)
    ensures forall op :: Matches(Next(y, ev).st, op)
  {
    forall op ensures Matches(Next(y, ev).st, op) {
      assert Matches(y.st, op);
      if Dispatches(ev) { DispatchMatches(y, ev, Next(y, ev).st, op); } else { EffectMatches(y, ev, Next(y, ev).st, op); }
    }
  }

  predicate EvidenceAt(s: State, op: Op) {
    op in s.cache.entries && s.cache.entries[op].inFlight ==> s.cache.entries[op].targets <= s.enabled
  }

  lemma DispatchKeepsEvidence(y: System, ev: Event, t: State, op: Op)
    requires EvidenceAt(y.st, op) && Dispatches(ev) && t == Next(y, ev).st
    ensures EvidenceAt(t, op)
  {}

  lemma EffectKeepsEvidence(y: System, ev: Event, t: State, op: Op)
    requires EvidenceAt(y.st, op) && !Dispatches(ev) && t == Next(y, ev).st
    ensures EvidenceAt(t, op)
  {}

  lemma EvidenceKept(y: System, ev: Event)
    requires EvidenceInv(y.st)
    ensures EvidenceInv(Next(y, ev).st)
  {
    forall op ensures EvidenceAt(Next(y, ev).st, op) {
      assert EvidenceAt(y.st, op);
      if Dispatches(ev) { DispatchKeepsEvidence(y, ev, Next(y, ev).st, op); } else { EffectKeepsEvidence(y, ev, Next(y, ev).st, op); }
    }
    forall op | op in Next(y, ev).st.cache.entries ensures EvidenceAt(Next(y, ev).st, op) {}
  }

  lemma RunningIsPinned(y: System, op: Op, k: Key)
    requires EvidenceInv(y.st) && PinInv(y.st) && Running(y, op, k)
    ensures Pins(y.st.cache.pins, k) > 0
  {
    assert PinsAt(y.st, k);
  }

  lemma PinnedIsNotLoose(y: System, ev: Event, c: Cache)
    requires AddsHandle(ev) && y.st.cache.loose == multiset{} && c == Next(y, ev).st.cache
    requires Running(y, ev.op, ev.key) ==> Pins(y.st.cache.pins, ev.key) > 0
    requires (ev.op, ev.key) in y.prepared ==> Running(y, ev.op, ev.key)
    ensures c.loose == multiset{}
  {}

  /** Every handle begins pinned. */
  lemma NoneIsLoose(y: System, ev: Event, c: Cache)
    requires WorkInv(y) && EvidenceInv(y.st) && PinInv(y.st) && c == Next(y, ev).st.cache
    ensures c.loose == multiset{}
  {
    if AddsHandle(ev) {
      if Running(y, ev.op, ev.key) { RunningIsPinned(y, ev.op, ev.key); }
      PinnedIsNotLoose(y, ev, c);
    } else if ChangesWork(ev) {
      NoneBecomesLoose(y, ev, c);
    } else {
      WorkIsSame(y, ev, c);
    }
  }

  lemma NoneBecomesLoose(y: System, ev: Event, c: Cache)
    requires !AddsHandle(ev) && ChangesWork(ev) && y.st.cache.loose == multiset{} && c == Next(y, ev).st.cache
    ensures c.loose == multiset{}
  {}

  lemma WorkKept(y: System, ev: Event)
    requires WorkInv(y) && EvidenceInv(y.st) && PinInv(y.st)
    ensures WorkInv(Next(y, ev))
  {
    var z := Next(y, ev);
    NoneIsLoose(y, ev, z.st.cache);
    forall p | p in z.prepared ensures Running(z, p.0, p.1) { PreparedKept(y, ev, p); }
    forall h | h in z.st.cache.handles ensures h.0 in z.st.cache.entries && h.1 in z.st.cache.entries[h.0].targets {
      HandlesKept(y, ev, h);
    }
    AdmissionsKept(y, ev);
    forall op | op in z.st.admissions || op in z.st.cache.entries ensures Matches(z.st, op) {}
  }

  lemma ReservationsKept(y: System, ev: Event)
    requires ReservationInv(y.st)
    ensures ReservationInv(Next(y, ev).st)
  {}

  /** A source that was one before, or the one just reserved while it was quiet. */
  lemma SourceOrigin(y: System, ev: Event, k: Key)
    requires ReservationInv(y.st) && IsSource(Next(y, ev).st, k)
    ensures IsSource(y.st, k)
            || (ev.Reserve? && ev.key == k && ReserveResult(y.st, ev.env, ev.id, k, ev.restored) == Taken)
  {
    var s, t := y.st, Next(y, ev).st;
    var id :| id in t.reservations && |t.reservations[id]| > 0 && t.reservations[id][0] == k;
    if id in s.reservations {
      assert |s.reservations[id]| > 0 && s.reservations[id][0] == k;
    }
  }

  /** No new admission reaches a session that is a source. */
  lemma StillUnadmitted(y: System, ev: Event, op: Op, k: Key)
    requires !Pending(y.st, k) && (IsSource(y.st, k) || ev.Reserve?) && op in Next(y, ev).st.admissions
    ensures k !in Next(y, ev).st.admissions[op]
  {
    if IsSource(y.st, k) { assert Reserved(y.st, k); }
  }

  lemma SourceKeptAt(y: System, ev: Event, t: State, k: Key)
    requires WorkInv(y) && !Pending(y.st, k) && !Unsettled(y.st.cache, k) && (IsSource(y.st, k) || ev.Reserve?) && t == Next(y, ev).st
    ensures !Pending(t, k) && !Unsettled(t.cache, k)
  {
    forall op | op in t.cache.entries && k in t.cache.entries[op].targets
      ensures !t.cache.entries[op].inFlight && Open(t.cache, op, k) == 0
    {
      StillQuiet(y, ev, op, k);
    }
    forall op | op in t.admissions ensures k !in t.admissions[op] { StillUnadmitted(y, ev, op, k); }
  }

  lemma SourceKept(y: System, ev: Event)
    requires WorkInv(y) && ReservationInv(y.st) && SourceInv(y.st)
    ensures SourceInv(Next(y, ev).st)
  {
    forall k | IsSource(Next(y, ev).st, k) ensures !Pending(Next(y, ev).st, k) && !Unsettled(Next(y, ev).st.cache, k) {
      SourceOrigin(y, ev, k);
      assert !Pending(y.st, k) && !Unsettled(y.st.cache, k);
      SourceKeptAt(y, ev, Next(y, ev).st, k);
    }
  }

  predicate QuietAt(c: Cache, op: Op, k: Key) {
    op in c.entries && k in c.entries[op].targets ==> !c.entries[op].inFlight && Open(c, op, k) == 0
  }

  lemma BegunIsElsewhere(y: System, ev: Event, c: Cache, op: Op, k: Key)
    requires ev.Begin? && WorkInv(y) && Reserved(y.st, k) && QuietAt(y.st.cache, op, k) && c == Next(y, ev).st.cache
    ensures QuietAt(c, op, k)
  {
    if op !in y.st.cache.entries { assert (op, k) !in y.st.cache.handles; }
  }

  /** Only work of an operation that runs for the session adds an unsettled effect to it. */
  lemma HandleIsElsewhere(y: System, ev: Event, c: Cache, op: Op, k: Key)
    requires AddsHandle(ev) && WorkInv(y) && QuietAt(y.st.cache, op, k) && c == Next(y, ev).st.cache
    ensures QuietAt(c, op, k)
  {
    if ev.StartPrepared? && (ev.op, ev.key) in y.prepared { assert Running(y, ev.op, ev.key); }
  }

  lemma OtherIsQuiet(y: System, ev: Event, c: Cache, op: Op, k: Key)
    requires !ev.Begin? && !AddsHandle(ev) && ChangesWork(ev) && QuietAt(y.st.cache, op, k) && c == Next(y, ev).st.cache
    ensures QuietAt(c, op, k)
  {}

  lemma StillQuiet(y: System, ev: Event, op: Op, k: Key)
    requires WorkInv(y) && !Unsettled(y.st.cache, k) && (IsSource(y.st, k) || ev.Reserve?)
    ensures QuietAt(Next(y, ev).st.cache, op, k)
  {
    assert QuietAt(y.st.cache, op, k);
    if ev.Begin? {
      assert Reserved(y.st, k);
      BegunIsElsewhere(y, ev, Next(y, ev).st.cache, op, k);
    } else if AddsHandle(ev) {
      HandleIsElsewhere(y, ev, Next(y, ev).st.cache, op, k);
    } else if ChangesWork(ev) {
      OtherIsQuiet(y, ev, Next(y, ev).st.cache, op, k);
    } else {
      WorkIsSame(y, ev, Next(y, ev).st.cache);
    }
  }

  ghost predicate PinsAt(s: State, k: Key) {
    Pins(s.cache.pins, k) == (if k in s.enabled then 1 else 0) + |Holders(s, k)|
  }

  lemma ReleaseMovesPins(s: State, id: Op, committed: bool, k: Key)
    requires PinsAt(s, k) && id in s.reservations
    ensures PinsAt(Released(s, id, committed), k)
  {
    var t := Released(s, id, committed);
    assert Holders(t, k) == Holders(s, k) - {id};
    if k in s.reservations[id] {
      assert id in Holders(s, k);
      assert |Holders(s, k)| == |Holders(t, k)| + 1;
    }
  }

  lemma ReservationAddsPin(s: State, id: Op, keys: seq<Key>, key: Key, k: Key)
    requires PinsAt(s, k)
    requires k in keys <==> k == key || (id in s.reservations && k in s.reservations[id])
    requires id in s.reservations ==> key !in s.reservations[id]
    ensures PinsAt(WithReservation(s, id, keys, key), k)
  {
    var t := WithReservation(s, id, keys, key);
    if k == key {
      assert id !in Holders(s, k);
      assert Holders(t, k) == Holders(s, k) + {id};
    } else {
      assert Holders(t, k) == Holders(s, k);
    }
  }

  lemma AdmissionAddsPins(s: State, t: State, targets: set<Key>, k: Key)
    requires PinsAt(s, k) && t.reservations == s.reservations && t.enabled == s.enabled + targets
    requires t.cache.pins == Repinned(s.cache.pins, targets - s.enabled, {})
    ensures PinsAt(t, k)
  {
    assert Holders(t, k) == Holders(s, k);
  }

  predicate SamePins(s: State, t: State) {
    t.reservations == s.reservations && t.enabled == s.enabled && t.cache.pins == s.cache.pins
  }

  lemma EffectsKeepPins(y: System, ev: Event, t: State)
    requires ev.Effect? || ev.Prepare? || ev.StartPrepared? || ev.Retain? || ev.RetainedEffect? || ev.Settle?
    requires t == Next(y, ev).st
    ensures SamePins(y.st, t)
  {}

  lemma EndsKeepPins(y: System, ev: Event, t: State)
    requires ev.FinishEntry? || ev.ReleaseAdmission? || ev.Expire? || ev.BeginClose?
    requires t == Next(y, ev).st
    ensures SamePins(y.st, t)
  {}

  lemma PinKeptAt(y: System, ev: Event, k: Key)
    requires PinsAt(y.st, k)
    ensures PinsAt(Next(y, ev).st, k)
  {
    var s := y.st;
    match ev
    case ReleaseReservation(id, committed) =>
      if id in s.reservations { ReleaseMovesPins(s, id, committed, k); }
    case Reserve(id, key, restored, env) =>
      if ReserveResult(s, env, id, key, restored) == Taken { ReservationAddsPin(s, id, [key], key, k); }
    case Register(id, key) =>
      if id in s.reservations && key !in s.reservations[id] { ReservationAddsPin(s, id, s.reservations[id] + [key], key, k); }
    case Begin(op, targets, env) =>
      var t := Next(y, ev).st;
      if op !in s.cache.entries && AdmitOk(s, env, targets, op) { AdmissionAddsPins(s, t, Set(targets), k); }
      else { assert Holders(t, k) == Holders(s, k); }
    case _ =>
      if ev.FinishEntry? || ev.ReleaseAdmission? || ev.Expire? || ev.BeginClose? {
        EndsKeepPins(y, ev, Next(y, ev).st);
      } else {
        EffectsKeepPins(y, ev, Next(y, ev).st);
      }
      assert Holders(Next(y, ev).st, k) == Holders(s, k);
  }

  lemma PinKept(y: System, ev: Event)
    requires Inv(y)
    ensures PinInv(Next(y, ev).st)
  {
    forall k: Key ensures PinsAt(Next(y, ev).st, k) {
      assert PinsAt(y.st, k);
      PinKeptAt(y, ev, k);
    }
  }

  lemma Kept(y: System, ev: Event)
    requires Inv(y)
    ensures Inv(Next(y, ev))
  {
    WorkKept(y, ev);
    EvidenceKept(y, ev);
    ReservationsKept(y, ev);
    SourceKept(y, ev);
    PinKept(y, ev);
  }

  /** A run of any length and interleaving, with the systems it goes through. */
  ghost predicate IsRun(ys: seq<System>, events: seq<Event>) {
    && |ys| == |events| + 1 && ys[0] == INIT
    && (forall i :: 0 <= i < |events| ==> ys[i + 1] == Next(ys[i], events[i]))
  }

  lemma InitInv()
    ensures Inv(INIT)
  {
    forall k: Key ensures PinsAt(INIT.st, k) {
      assert Holders(INIT.st, k) == {};
    }
  }

  lemma {:induction false} RunKeeps(ys: seq<System>, events: seq<Event>, i: nat)
    requires IsRun(ys, events) && i < |ys|
    ensures Inv(ys[i])
  {
    if i == 0 {
      InitInv();
    } else {
      RunKeeps(ys, events, i - 1);
      Kept(ys[i - 1], events[i - 1]);
    }
  }

  // ---- The main results ----

  predicate Ends(ev: Event, id: Op) {
    ev.ReleaseReservation? && ev.id == id
  }

  predicate HasSource(s: State, id: Op, k: Key) {
    id in s.reservations && |s.reservations[id]| > 0 && s.reservations[id][0] == k
  }

  lemma SourceStays(y: System, ev: Event, id: Op, k: Key)
    requires HasSource(y.st, id, k) && !Ends(ev, id)
    ensures HasSource(Next(y, ev).st, id, k)
  {}

  lemma {:induction false} SourceHeld(ys: seq<System>, events: seq<Event>, i: nat, j: nat, id: Op, k: Key)
    requires IsRun(ys, events) && i < j < |ys| && events[i].Reserve? && events[i].id == id && events[i].key == k
    requires ReserveResult(ys[i].st, events[i].env, id, k, events[i].restored) == Taken
    requires forall m | i < m < j :: !Ends(events[m], id)
    ensures HasSource(ys[j].st, id, k)
  {
    if j == i + 1 {
      assert ys[j] == Next(ys[i], events[i]);
    } else {
      SourceHeld(ys, events, i, j - 1, id, k);
      SourceStays(ys[j - 1], events[j - 1], id, k);
    }
  }

  /** Handoff exclusion.  From a successful reservation of a source until that reservation is
      released, nothing is admitted or unsettled on the source, no input is between its validation
      and its effect, and no event starts a native effect on it. */
  lemma SourceIsExclusive(ys: seq<System>, events: seq<Event>, i: nat, j: nat, id: Op, k: Key, op: Op, ev: Event)
    requires IsRun(ys, events) && i < j < |ys| && events[i].Reserve? && events[i].id == id && events[i].key == k
    requires ReserveResult(ys[i].st, events[i].env, id, k, events[i].restored) == Taken
    requires forall m | i < m < j :: !Ends(events[m], id)
    ensures !Pending(ys[j].st, k) && !Unsettled(ys[j].st.cache, k) && (op, k) !in ys[j].prepared && !Starts(ys[j], ev, k)
  {
    SourceHeld(ys, events, i, j, id, k);
    RunKeeps(ys, events, j);
  }

  /** A session that is reserved as a candidate is protected less: an effect can still start on it,
      but only from an input validated before the registration, and meanwhile no handoff that
      reserves the session passes its commit check. */
  lemma ReservedEffectIsPrepared(ys: seq<System>, events: seq<Event>, i: nat, ev: Event, k: Key, id: Op, env: Env, captured: bool)
    requires IsRun(ys, events) && i < |ys| && id in ys[i].st.reservations && k in ys[i].st.reservations[id] && Starts(ys[i], ev, k)
    ensures ev.StartPrepared? && Pending(ys[i].st, k) && !CommitOk(ys[i].st, env, id, captured)
  {
    RunKeeps(ys, events, i);
    var y := ys[i];
    assert Reserved(y.st, k);
    assert Running(y, ev.op, k);
    assert k in y.st.admissions[ev.op];
  }

  /** When the commit check passes, every reserved session is quiet, belongs to this handoff alone,
      and no event can start an effect on it. */
  lemma CommitIsQuiet(ys: seq<System>, events: seq<Event>, i: nat, env: Env, id: Op, captured: bool, k: Key, other: Op, ev: Event)
    requires IsRun(ys, events) && i < |ys| && CommitOk(ys[i].st, env, id, captured) && k in ys[i].st.reservations[id]
    ensures !Pending(ys[i].st, k) && !Unsettled(ys[i].st.cache, k) && !Starts(ys[i], ev, k)
    ensures other != id && other in ys[i].st.reservations ==> k !in ys[i].st.reservations[other] && !Reserved(Released(ys[i].st, id, true), k)
  {
    if Starts(ys[i], ev, k) {
      ReservedEffectIsPrepared(ys, events, i, ev, k, id, env, captured);
    }
    assert !ReservedByOther(ys[i].st, id, k);
  }

  /** The cache keeps a session's evidence exactly once for being enabled and once for each
      reservation of it, over every run. */
  lemma PinsAreConserved(ys: seq<System>, events: seq<Event>, i: nat, k: Key)
    requires IsRun(ys, events) && i < |ys|
    ensures var s := ys[i].st; Pins(s.cache.pins, k) == (if k in s.enabled then 1 else 0) + |Holders(s, k)|
  {
    RunKeeps(ys, events, i);
    assert PinsAt(ys[i].st, k);
  }

  lemma HandleStays(y: System, ev: Event, z: System, op: Op, k: Key)
    requires (op, k) in y.st.cache.handles && z == Next(y, ev) && !(ev.Settle? && ev.op == op && ev.key == k)
    ensures (op, k) in z.st.cache.handles
  {}

  /** Evidence of unsettled work is never lost.  An effect begun in any run is kept until it is
      settled, whatever expires, is released or handed over in between: its session counts as
      unsettled all that time, and the expiry of its operation's entry changes nothing. */
  lemma {:induction false} EvidenceIsKept(ys: seq<System>, events: seq<Event>, i: nat, j: nat, op: Op, k: Key)
    requires IsRun(ys, events) && i <= j < |ys| && Open(ys[i].st.cache, op, k) > 0
    requires forall m | i <= m < j :: events[m] != Settle(op, k)
    ensures Open(ys[j].st.cache, op, k) > 0 && Unsettled(ys[j].st.cache, k) && Next(ys[j], Expire(op)) == ys[j]
  {
    RunKeeps(ys, events, j);
    if i < j {
      EvidenceIsKept(ys, events, i, j - 1, op, k);
      RunKeeps(ys, events, j - 1);
      HandleStays(ys[j - 1], events[j - 1], ys[j], op, k);
    }
    HandleIsUnsettled(ys[j], op, k);
  }

  lemma HandleIsUnsettled(y: System, op: Op, k: Key)
    requires WorkInv(y) && Open(y.st.cache, op, k) > 0
    ensures (op, k) in y.st.cache.handles && Unsettled(y.st.cache, k) && Next(y, Expire(op)) == y
  {
    assert (op, k) in y.st.cache.handles;
  }

  // ---- What becomes of work ----

  ghost predicate IsReachable(y: System) {
    exists ys, events :: IsRun(ys, events) && ys[|events|] == y
  }

  lemma Go(y: System, ev: Event) returns (z: System)
    requires IsReachable(y)
    ensures IsReachable(z) && z == Next(y, ev)
  {
    var ys, events :| IsRun(ys, events) && ys[|events|] == y;
    z := Next(y, ev);
    assert IsRun(ys + [z], events + [ev]) && (ys + [z])[|events + [ev]|] == z;
  }

  lemma ReachableInv(y: System)
    requires IsReachable(y)
    ensures Inv(y)
  {
    var ys, events :| IsRun(ys, events) && ys[|events|] == y;
    RunKeeps(ys, events, |events|);
  }

  /** The event begins an effect or retains work of `op` on the session. */
  predicate Begins(y: System, ev: Event, op: Op, k: Key) {
    match ev
    case Effect(o, _, _) => o == op && Starts(y, ev, k)
    case StartPrepared(o, _) => o == op && Starts(y, ev, k)
    case Retain(o, key) =>
      o == op && key == k && op in y.st.cache.entries && y.st.cache.entries[op].inFlight && k in y.st.cache.entries[op].targets
    case _ => false
  }

  lemma HandleAdds(c: Cache, o: Op, x: Key, op: Op, k: Key)
    ensures Open(WithHandle(c, o, x), op, k) == Open(c, op, k) + if o == op && x == k then 1 else 0
  {}

  lemma CacheWithHandle(y: System, ev: Event, c: Cache)
    requires AddsHandle(ev) && c == Next(y, ev).st.cache
    ensures c == if Begins(y, ev, ev.op, ev.key) then WithHandle(y.st.cache, ev.op, ev.key) else y.st.cache
  {}

  lemma AddsOne(y: System, ev: Event, c: Cache, op: Op, k: Key)
    requires AddsHandle(ev) && c == Next(y, ev).st.cache
    ensures Open(c, op, k) == Open(y.st.cache, op, k) + if Begins(y, ev, op, k) then 1 else 0
  {
    CacheWithHandle(y, ev, c);
    HandleAdds(y.st.cache, ev.op, ev.key, op, k);
    assert Begins(y, ev, op, k) <==> op == ev.op && k == ev.key && Begins(y, ev, ev.op, ev.key);
  }

  lemma SettlesOne(y: System, o: Op, x: Key, c: Cache, op: Op, k: Key)
    requires c == Next(y, Settle(o, x)).st.cache
    ensures Open(c, op, k) == Open(y.st.cache, op, k) - if o == op && x == k && Open(y.st.cache, op, k) > 0 then 1 else 0
  {
    var b := y.st.cache;
    if (o, x) in b.handles {
      assert c.loose == b.loose && c.handles == b.handles - multiset{(o, x)};
    } else {
      assert c.handles == b.handles && c.loose == b.loose - multiset{(o, x)};
    }
  }

  lemma OthersAddNone(y: System, ev: Event, c: Cache)
    requires (ev.Begin? || ev.FinishEntry? || ev.Expire?) && c == Next(y, ev).st.cache
    ensures c.handles == y.st.cache.handles && c.loose == y.st.cache.loose
  {}

  /** Unsettled work is conserved: every effect that begins and every piece of retained work counts once
      until it is settled once; nothing else adds or takes any. */
  lemma WorkIsConserved(y: System, ev: Event, op: Op, k: Key)
    ensures Open(Next(y, ev).st.cache, op, k) ==
            Open(y.st.cache, op, k) + (if Begins(y, ev, op, k) then 1 else 0)
            - (if ev == Settle(op, k) && Open(y.st.cache, op, k) > 0 then 1 else 0)
  {
    var c := Next(y, ev).st.cache;
    if AddsHandle(ev) {
      AddsOne(y, ev, c, op, k);
    } else if ev.Settle? {
      SettlesOne(y, ev.op, ev.key, c, op, k);
    } else if ChangesWork(ev) {
      OthersAddNone(y, ev, c);
    } else {
      WorkIsSame(y, ev, c);
    }
  }

  /** An input is prepared only where new work is accepted, and its effect starts once.  Work that was
      retained may start its effect as long as it is not settled, where new work is accepted. */
  lemma StartsExactly(y: System, ev: Event, op: Op, k: Key, env: Env)
    ensures (op, k) in Next(y, ev).prepared <==>
              || ((op, k) in y.prepared && ev != StartPrepared(op, k))
              || (ev.Prepare? && ev.op == op && ev.key == k && Starts(y, Effect(op, k, ev.env), k))
    ensures Starts(y, StartPrepared(op, k), k) <==> (op, k) in y.prepared
    ensures Starts(y, RetainedEffect(op, k, env), k) <==>
              && Open(y.st.cache, op, k) > 0 && !y.st.closing && env.admits(k) && forall id | id in y.st.reservations :: k !in y.st.reservations[id]
    ensures Next(y, RetainedEffect(op, k, env)) == y
  {}

  /** Dispatched work is over when its call returned and no input of it is between its validation and
      its effect; only then is its admission given back; and only without unsettled work does it expire. */
  lemma EndsExactly(y: System, op: Op)
    requires IsReachable(y) && op in y.st.cache.entries
    ensures Next(y, FinishEntry(op)).st.cache.entries ==
            (if forall p | p in y.prepared :: p.0 != op then y.st.cache.entries[op := Entry(y.st.cache.entries[op].targets, false)] else y.st.cache.entries)
    ensures Next(y, ReleaseAdmission(op)).st.admissions == (if y.st.cache.entries[op].inFlight then y.st.admissions else y.st.admissions - {op})
    ensures op !in Next(y, Expire(op)).st.cache.entries <==>
            !y.st.cache.entries[op].inFlight && op !in y.st.admissions && forall k: Key :: Open(y.st.cache, op, k) == 0
  {
    NoHandleIsNoWork(y, op);
  }

  lemma NoHandleIsNoWork(y: System, op: Op)
    requires IsReachable(y)
    ensures (forall h | h in y.st.cache.handles :: h.0 != op) <==> forall k: Key :: Open(y.st.cache, op, k) == 0
  {
    ReachableInv(y);
    if h :| h in y.st.cache.handles && h.0 == op { assert Open(y.st.cache, op, h.1) > 0; }
    if k: Key :| Open(y.st.cache, op, k) > 0 { assert (op, k) in y.st.cache.handles; }
  }

  /** Releasing a reservation frees its sessions of it; after a commit they stay enabled. */
  lemma ReleaseFrees(y: System, id: Op, committed: bool)
    requires id in y.st.reservations
    ensures var z := Next(y, ReleaseReservation(id, committed));
            && z.st.reservations == y.st.reservations - {id} && z.st.admissions == y.st.admissions && z.prepared == y.prepared
            && z.st.enabled == y.st.enabled + (if committed then Set(y.st.reservations[id]) else {})
            && forall op, k :: Open(z.st.cache, op, k) == Open(y.st.cache, op, k)
  {}

  lemma ClosedStays(y: System, ev: Event, z: System)
    requires y.st.closing && z == Next(y, ev)
    ensures z.st.closing && forall p | p in z.prepared :: p in y.prepared
  {}

  /** After closing, only effects of inputs that were prepared before still start. */
  lemma {:induction false} ClosedStartsNothingNew(ys: seq<System>, events: seq<Event>, i: nat, j: nat, ev: Event, k: Key)
    requires IsRun(ys, events) && i < j < |ys| && events[i].BeginClose?
    ensures ys[j].st.closing && (forall p | p in ys[j].prepared :: p in ys[i].prepared)
    ensures Starts(ys[j], ev, k) ==> ev.StartPrepared? && (ev.op, k) in ys[i].prepared
  {
    if j == i + 1 {
      assert ys[j] == Next(ys[i], events[i]);
    } else {
      ClosedStartsNothingNew(ys, events, i, j - 1, ev, k);
      ClosedStays(ys[j - 1], events[j - 1], ys[j]);
    }
  }

  /** Only `op` still touches the session. */
  predicate TouchedOnlyBy(s: State, op: Op, k: Key) {
    && (forall other | other in s.admissions && other != op :: k !in s.admissions[other])
    && (forall other | other in s.cache.entries && other != op && k in s.cache.entries[other].targets ::
          !s.cache.entries[other].inFlight && Open(s.cache, other, k) == 0)
  }

  lemma Drained(y: System, op: Op, k: Key) returns (z: System)
    requires IsReachable(y) && op in y.st.cache.entries && (forall p | p in y.prepared :: p.0 != op) && Open(y.st.cache, op, k) == 0
    requires TouchedOnlyBy(y.st, op, k)
    ensures IsReachable(z) && z == y.(st := y.st.(admissions := y.st.admissions - {op}, cache := z.st.cache)) && Untouched(z.st, k)
  {
    var ended := Go(y, FinishEntry(op));
    z := Go(ended, ReleaseAdmission(op));
    UntouchedIs(z.st, k);
  }

  /** A handoff becomes possible.  From every reachable state a session that only one operation touches
      can be reserved, once that operation's call returned without unsettled or prepared work. */
  lemma HandoffBecomesPossible(y: System, op: Op, id: Op, k: Key) returns (z: System)
    requires IsReachable(y) && op in y.st.cache.entries && (forall p | p in y.prepared :: p.0 != op) && Open(y.st.cache, op, k) == 0
    requires id !in y.st.reservations && !y.st.closing && forall other | other in y.st.reservations :: k !in y.st.reservations[other]
    requires TouchedOnlyBy(y.st, op, k)
    ensures IsReachable(z) && id in z.st.reservations && z.st.reservations[id] == [k]
  {
    var drained := Drained(y, op, k);
    ReservesExactly(drained, id, k, false, OPEN);
    z := Go(drained, Reserve(id, k, false, OPEN));
  }

  // ---- The weaker protection of candidates is real ----

  const OPEN := Env(k => true, k => true, k => true, k => true)

  lemma Preparing() returns (y: System)
    ensures IsReachable(y)
    ensures y.prepared == {(1, 5)} && y.st.reservations == map[] && y.st.admissions.Keys == {1} && y.st.admissions[1] == {5}
    ensures y.st.cache.entries.Keys == {1} && y.st.cache.entries[1] == Entry({5}, true) && !y.st.closing
  {
    var none: seq<Event> := [];
    assert IsRun([INIT], none) && [INIT][|none|] == INIT;
    y := Go(INIT, Begin(1, [5], OPEN));
    assert Set([5]) == {5};
    y := Go(y, Prepare(1, 5, OPEN));
  }

  /** Session 5 is registered as a candidate of handoff 9 while an input to it is being prepared. */
  lemma CandidateEffectHappens() returns (y: System)
    ensures IsReachable(y) && Reserved(y.st, 5) && Starts(y, StartPrepared(1, 5), 5)
  {
    y := Preparing();
    y := Go(y, Reserve(9, 3, false, OPEN));
    assert y.st.reservations == map[9 := [3]];
    y := Go(y, Register(9, 5));
    assert y.st.reservations[9][1] == 5;
  }
}

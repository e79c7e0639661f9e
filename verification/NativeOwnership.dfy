/** The lease that lets one endpoint at a time write to a native session.

    Endpoints in any number of processes share an ownership file, one reservation file per
    requester and a gate directory.  Every synchronous file operation of a gated section is a
    step of its own, so other endpoints, and crashes, may come between any two of them. */
module NativeOwnership {

  datatype Option<+T> = None | Some(value: T)

  /** A generation names one endpoint; its record carries it together with pid, port and token. */
  type Id = nat

  /** Where the acquiring call, and later the lease's `release`, stands. */
  datatype Phase =
    | Listening                // the management server is up, nothing else happened
    | Acquiring                // gate held
    | Recorded                 // gate held; the file names this endpoint, `owned` is still false
    | Contending(prior: Id)    // gate released; a live owner was found
    | Reserving(prior: Id)     // gate held
    | Requesting(prior: Id)    // reservation written; the takeover request is under way
    | Granted(prior: Id)       // the old owner answered that it released the session
    | Failing                  // acquisition threw; the withdrawal did not start
    | Withdrawing              // gate held
    | Unreserved               // gate held; the own reservation is gone
    | Withdrawn                // the withdrawal ran under the gate
    | Abandoned                // the gate was busy, so nothing was withdrawn
    | Leased
    | Stranded                 // `release` found the gate busy and threw
    | Releasing                // gate held by `release`
    | Vacated                  // gate held; the file no longer names this endpoint
    | Released

  /** Where the owner's takeover handler stands; `next` is the requester it serves. */
  datatype Handoff =
    | Quiet
    | Stopping(next: Id)       // the stop callback runs
    | Stopped(next: Id)        // the stop callback resolved
    | Committing(next: Id)     // gate held
    | Dropped(next: Id)        // gate held; the requester had left, the file is removed
    | Replacing(next: Id)      // gate held; the reservation matches
    | Replaced(next: Id)       // gate held; the file names the requester
    | Unlocked(next: Id)       // gate released, `owned` not cleared yet
    | Done(next: Id)
    | Failed

  datatype Endpoint = Endpoint(
    live: bool,                // its process runs
    takeOver: Option<Id>,
    phase: Phase,
    handoff: Handoff,
    owned: bool,
    active: bool,
    activated: bool,           // a stop callback was ever given
    released: bool,
    successor: Option<Id>,
    child: bool)               // a native writer runs under this lease

  datatype World = World(
    eps: map<Id, Endpoint>,
    file: Option<Id>,          // the ownership record
    reservations: set<Id>,
    gate: Option<Id>,          // who made the gate directory
    requests: set<(Id, Id)>)   // takeover requests sent: (old owner, requester)

  const INIT := World(map[], None, {}, None, {})

  /** The steps a live endpoint takes. */
  datatype Action =
    | GateAcquire
    | FindOwner    // a recorded owner whose pid answers
    | WriteOwn
    | RefuseChanged    // a dead owner, but not the one to take over from
    | OwnNow
    | GateReserve
    | WriteReservation
    | RefuseReserve
    | Respond
    | Adopt
    | Fail
    | GateWithdraw
    | WithdrawBusy
    | RemoveReservation
    | RemoveOwnRecord
    | StartChild
    | Activate
    | ChildExit
    | CallRelease
    | GateRelease
    | ReleaseBusy
    | ReleaseUnowned
    | VacateFile
    | FinishRelease
    | Takeover(next: Id)
    | StopResolves
    | StopRejects
    | GateCommit
    | CommitBusy
    | CommitChanged
    | CommitDrop
    | CommitMatch
    | FinishDrop
    | WriteSuccessor
    | ClearReservation
    | ClearOwned

  datatype Event =
    | Listen(e: Id, takeOver: Option<Id>)
    | Step(e: Id, action: Action)
    | Crash(gone: set<Id>)     // processes end; whatever they held stays as it is

  predicate MainGate(p: Phase) {
    p.Acquiring? || p.Recorded? || p.Reserving? || p.Withdrawing? || p.Unreserved? || p.Releasing? || p.Vacated?
  }

  predicate HandGate(h: Handoff) {
    h.Committing? || h.Dropped? || h.Replacing? || h.Replaced?
  }

  /** No transfer is pending, so `release` need not wait for one. */
  predicate Settled(h: Handoff) {
    h.Quiet? || h.Done? || h.Failed?
  }

  predicate Live(w: World, e: Id) {
    e in w.eps && w.eps[e].live
  }

  predicate Enabled(w: World, ev: Event) {
    match ev
    case Listen(e, _) => e !in w.eps
    case Crash(gone) => gone <= w.eps.Keys
    case Step(e, action) => Live(w, e) && EnabledAt(w, e, w.eps[e], action)
  }

  /** The guards of the steps taken by a live endpoint `x`.  A pid check answers yes for a live
      process; for a dead one it may still answer yes, since the pid can be in use again. */
  predicate EnabledAt(w: World, e: Id, x: Endpoint, action: Action)
  {
    match action
    case GateAcquire => x.phase.Listening? && w.gate.None?
    case FindOwner => x.phase.Acquiring? && w.file.Some?
    case WriteOwn => x.phase.Acquiring? && (w.file.Some? ==> !Live(w, w.file.value))
                        && !(x.takeOver.Some? && w.file.Some? && w.file != x.takeOver)
    case RefuseChanged => x.phase.Acquiring? && w.file.Some? && !Live(w, w.file.value)
                             && x.takeOver.Some? && w.file != x.takeOver
    case OwnNow => x.phase.Recorded?
    case GateReserve => x.phase.Contending? && x.takeOver == Some(x.phase.prior) && w.gate.None?
    case WriteReservation => x.phase.Reserving? && w.file == Some(x.phase.prior)
    case RefuseReserve => x.phase.Reserving? && w.file != Some(x.phase.prior)
    case Respond => x.phase.Requesting? && x.phase.prior in w.eps && w.eps[x.phase.prior].handoff == Done(e)
    case Adopt => x.phase.Granted? && w.file == Some(e)
    case Fail => x.phase.Listening? || x.phase.Contending? || x.phase.Requesting?
                    || (x.phase.Granted? && w.file != Some(e))
    case GateWithdraw => x.phase.Failing? && w.gate.None?
    case WithdrawBusy => x.phase.Failing? && w.gate.Some?
    case RemoveReservation => x.phase.Withdrawing?
    case RemoveOwnRecord => x.phase.Unreserved?
    case StartChild => x.phase.Leased? && !x.released && !x.child && (x.active || !x.activated)
    case Activate => x.phase.Leased? && x.owned && !x.released && x.successor.None?
    case ChildExit => x.child
    case CallRelease => x.phase.Leased? && !x.released && !x.child
    case GateRelease => x.phase.Leased? && x.released && x.owned && w.gate.None? && Settled(x.handoff)
    case ReleaseBusy => x.phase.Leased? && x.released && x.owned && w.gate.Some? && Settled(x.handoff)
    case ReleaseUnowned => x.phase.Leased? && x.released && !x.owned && Settled(x.handoff)
    case VacateFile => x.phase.Releasing?
    case FinishRelease => x.phase.Vacated?
    case Takeover(next) => (e, next) in w.requests && x.handoff.Quiet? && x.owned && x.active
    case StopResolves => x.handoff.Stopping? && !x.child
    case StopRejects => x.handoff.Stopping?
    case GateCommit => x.handoff.Stopped? && w.gate.None?
    case CommitBusy => x.handoff.Stopped? && w.gate.Some?
    case CommitChanged => x.handoff.Committing? && w.file != Some(e)
    case CommitDrop => x.handoff.Committing? && w.file == Some(e)
                          && (x.handoff.next !in w.reservations || !Live(w, x.handoff.next))
    case CommitMatch => x.handoff.Committing? && w.file == Some(e) && x.handoff.next in w.reservations
    case FinishDrop => x.handoff.Dropped?
    case WriteSuccessor => x.handoff.Replacing?
    case ClearReservation => x.handoff.Replaced?
    case ClearOwned => x.handoff.Unlocked?
  }

  /** The endpoint after its own step. */
  function Moved(w: World, e: Id, x: Endpoint, action: Action): Endpoint
    requires EnabledAt(w, e, x, action)
  {
    match action
    case GateAcquire => x.(phase := Acquiring)
    case FindOwner => x.(phase := Contending(w.file.value))
    case WriteOwn => x.(phase := Recorded)
    case RefuseChanged => x.(phase := Failing)
    case OwnNow => x.(phase := Leased, owned := true)
    case GateReserve => x.(phase := Reserving(x.phase.prior))
    case WriteReservation => x.(phase := Requesting(x.phase.prior))
    case RefuseReserve => x.(phase := Failing)
    case Respond => x.(phase := Granted(x.phase.prior))
    case Adopt => x.(phase := Leased, owned := true)
    case Fail => x.(phase := Failing)
    case GateWithdraw => x.(phase := Withdrawing)
    case WithdrawBusy => x.(phase := Abandoned)
    case RemoveReservation => x.(phase := Unreserved)
    case RemoveOwnRecord => x.(phase := Withdrawn)
    case StartChild => x.(child := true)
    case Activate => x.(active := true, activated := true)
    case ChildExit => x.(child := false)
    case CallRelease => x.(released := true, active := false)
    case GateRelease => x.(phase := Releasing)
    case ReleaseBusy => x.(phase := Stranded)
    case ReleaseUnowned => x.(phase := Released)
    case VacateFile => x.(phase := Vacated)
    case FinishRelease => x.(phase := Released, owned := false)
    case Takeover(next) => x.(handoff := Stopping(next), successor := Some(next), active := false)
    case StopResolves => x.(handoff := Stopped(x.handoff.next))
    case StopRejects => x.(handoff := Failed)
    case GateCommit => x.(handoff := Committing(x.handoff.next))
    case CommitBusy => x.(handoff := Failed)
    case CommitChanged => x.(handoff := Failed)
    case CommitDrop => x.(handoff := Dropped(x.handoff.next))
    case CommitMatch => x.(handoff := Replacing(x.handoff.next))
    case FinishDrop => x.(handoff := Failed, owned := false)
    case WriteSuccessor => x.(handoff := Replaced(x.handoff.next))
    case ClearReservation => x.(handoff := Unlocked(x.handoff.next))
    case ClearOwned => x.(handoff := Done(x.handoff.next), owned := false)
  }

  function FileAfter(w: World, e: Id, x: Endpoint, action: Action): Option<Id>
    requires EnabledAt(w, e, x, action)
  {
    match action
    case WriteOwn => Some(e)
    case RemoveOwnRecord => if w.file == Some(e) then None else w.file
    case VacateFile => if w.file == Some(e) then None else w.file
    case CommitDrop => None
    case WriteSuccessor => Some(x.handoff.next)
    case _ => w.file
  }

  function ReservationsAfter(w: World, e: Id, x: Endpoint, action: Action): set<Id>
    requires EnabledAt(w, e, x, action)
  {
    match action
    case WriteReservation => w.reservations + {e}
    case RemoveReservation => w.reservations - {e}
    case ClearReservation => w.reservations - {x.handoff.next}
    case _ => w.reservations
  }

  function GateAfter(w: World, e: Id, action: Action): Option<Id> {
    if action.GateAcquire? || action.GateReserve? || action.GateWithdraw? || action.GateRelease? || action.GateCommit? then Some(e)
    else if action.FindOwner? || action.RefuseChanged? || action.OwnNow? || action.WriteReservation? || action.RefuseReserve?
         || action.RemoveOwnRecord? || action.FinishRelease? || action.CommitChanged? || action.FinishDrop? || action.ClearReservation?
    then None
    else w.gate
  }

  function RequestsAfter(w: World, e: Id, x: Endpoint, action: Action): set<(Id, Id)>
    requires EnabledAt(w, e, x, action)
  {
    if action.WriteReservation? then w.requests + {(x.phase.prior, e)} else w.requests
  }

  function Apply(w: World, ev: Event): World
    requires Enabled(w, ev)
  {
    match ev
    case Listen(e, takeOver) =>
      w.(eps := w.eps[e := Endpoint(true, takeOver, Listening, Quiet, false, false, false, false, None, false)])
    case Crash(gone) =>
      w.(eps := map e | e in w.eps :: if e in gone then w.eps[e].(live := false) else w.eps[e])
    case Step(e, action) =>
      var x := w.eps[e];
      World(w.eps[e := Moved(w, e, x, action)], FileAfter(w, e, x, action), ReservationsAfter(w, e, x, action), GateAfter(w, e, action),
            RequestsAfter(w, e, x, action))
  }

  /** A run of any length from the empty directory, with the worlds it goes through. */
  ghost predicate IsRun(ws: seq<World>, events: seq<Event>) {
    && |ws| == |events| + 1 && ws[0] == INIT
    && (forall i | 0 <= i < |events| :: Enabled(ws[i], events[i]) && ws[i + 1] == Apply(ws[i], events[i]))
  }

  ghost predicate IsReachable(w: World) {
    exists ws, events :: IsRun(ws, events) && ws[|events|] == w
  }

  // ---- What every step keeps ----

  predicate InLease(p: Phase) {
    p.Leased? || p.Stranded? || p.Releasing? || p.Vacated?
  }

  /** What holds of each endpoint by itself. */
  predicate LocalOk(x: Endpoint) {
    && (x.owned ==> InLease(x.phase))
    && (x.handoff.Quiet? <==> x.successor.None?)
    && (!x.handoff.Quiet? ==> x.activated && !x.active)
    && (!x.handoff.Quiet? && !x.handoff.Failed? ==> x.successor == Some(x.handoff.next))
    && (x.active ==> x.phase.Leased? && x.owned && !x.released && x.activated)
    && (x.phase.Leased? && !x.handoff.Done? && !x.handoff.Failed? ==> x.owned)
    && (InLease(x.phase) && !x.phase.Leased? ==> x.owned && x.released && Settled(x.handoff))
    && (x.handoff.Done? ==> !x.owned)
    && (x.phase.Released? ==> Settled(x.handoff))
    && (!InLease(x.phase) && !x.phase.Released? ==> x.handoff.Quiet? && !x.activated && !x.released)
    && (x.child ==> x.phase.Leased? && x.owned && !x.released && (x.handoff.Quiet? || x.handoff.Stopping? || x.handoff.Failed?))
  }

  predicate LocalInv(w: World) {
    forall e | e in w.eps :: LocalOk(w.eps[e])
  }

  predicate InGate(x: Endpoint) {
    MainGate(x.phase) || HandGate(x.handoff)
  }

  /** Exactly the endpoint inside a gated section holds the gate, also after its process died. */
  predicate GateInv(w: World) {
    && (forall e | e in w.eps :: InGate(w.eps[e]) <==> w.gate == Some(e))
    && (w.gate.Some? ==> w.gate.value in w.eps)
  }

  /** `owned` is set and the endpoint has not itself given the session away or up. */
  predicate Holds(x: Endpoint) {
    x.owned && !x.phase.Vacated? && !x.handoff.Dropped? && !x.handoff.Replaced? && !x.handoff.Unlocked?
  }

  /** `o` has assigned the ownership file to `n`. */
  predicate Assigned(w: World, o: Id, n: Id) {
    o in w.eps && (w.eps[o].handoff == Replaced(n) || w.eps[o].handoff == Unlocked(n) || w.eps[o].handoff == Done(n))
  }

  ghost predicate OwnersInv(w: World) {
    && (w.file.Some? ==> w.file.value in w.eps)
    && (forall e | Live(w, e) && (Holds(w.eps[e]) || w.eps[e].phase.Recorded?) :: w.file == Some(e))
    && (forall e | e in w.eps && w.eps[e].handoff.Replacing? :: w.file == Some(e))
  }

  ghost predicate MarksInv(w: World) {
    && (forall e | e in w.eps && w.eps[e].phase.Withdrawn? :: w.file != Some(e))
    && (forall e | e in w.eps && (w.eps[e].phase.Vacated? || w.eps[e].handoff.Dropped?) :: w.file == None)
    && (forall e | e in w.eps && w.eps[e].handoff.Replaced? :: w.file == Some(w.eps[e].handoff.next))
  }

  /** The endpoint still waits for the outcome of its takeover request. */
  predicate Waiting(p: Phase) {
    p.Requesting? || p.Failing? || p.Withdrawing? || p.Abandoned?
  }

  /** The endpoint has not written its reservation. */
  predicate Early(p: Phase) {
    p.Listening? || p.Acquiring? || p.Recorded? || p.Contending? || p.Reserving?
  }

  predicate ReservationInv(w: World) {
    && (forall e | e in w.reservations :: e in w.eps && Waiting(w.eps[e].phase))
    && (forall e | e in w.eps && (w.eps[e].handoff.Replacing? || w.eps[e].handoff.Replaced?) ::
          w.eps[e].handoff.next in w.reservations)
    && (forall e | e in w.eps && (w.eps[e].handoff.Unlocked? || w.eps[e].handoff.Done?) ::
          w.eps[e].handoff.next !in w.reservations)
  }

  predicate RequestInv(w: World) {
    && (forall r | r in w.requests :: r.1 in w.eps && !Early(w.eps[r.1].phase))
    && (forall e | e in w.eps && w.eps[e].successor.Some? :: (e, w.eps[e].successor.value) in w.requests)
  }

  /** A requester that still waits finds itself recorded once the old owner has assigned the file. */
  ghost predicate GrantInv(w: World) {
    && (forall e | Live(w, e) && w.eps[e].phase.Requesting? && Assigned(w, w.eps[e].phase.prior, e) :: w.file == Some(e))
    && (forall e | Live(w, e) && w.eps[e].phase.Granted? :: w.file == Some(e))
  }

  ghost predicate FileInv(w: World) {
    OwnersInv(w) && MarksInv(w)
  }

  ghost predicate Inv(w: World) {
    LocalInv(w) && GateInv(w) && FileInv(w) && ReservationInv(w) && RequestInv(w) && GrantInv(w)
  }

  // What a step of `e` from `x` to `y` may do to the shared files, whichever step it is.

  predicate GateMove(w: World, e: Id, y: Endpoint, gate: Option<Id>) {
    && (InGate(y) <==> gate == Some(e))
    && (gate == w.gate || (w.gate == None && gate == Some(e)) || (w.gate == Some(e) && gate == None))
  }

  predicate FileMove(w: World, e: Id, x: Endpoint, y: Endpoint, file: Option<Id>) {
    && (file != w.file ==> w.gate == Some(e))
    && (file == w.file
        || (w.file == Some(e) && file == None && !x.phase.Requesting?)
        || (w.file == Some(e) && x.handoff.Replacing? && file == Some(x.handoff.next))
        || (x.phase.Acquiring? && file == Some(e) && (w.file.Some? ==> !Live(w, w.file.value))))
    && (Holds(y) || y.phase.Recorded? || y.handoff.Replacing? || y.phase.Granted? ==> file == Some(e))
    && (y.phase.Withdrawn? ==> file != Some(e))
    && (y.phase.Vacated? || y.handoff.Dropped? ==> file == None)
    && (y.handoff.Replaced? ==> (x.handoff == y.handoff || x.handoff == Replacing(y.handoff.next)) && file == Some(y.handoff.next))
  }

  predicate ReservationMove(w: World, e: Id, x: Endpoint, y: Endpoint, reservations: set<Id>) {
    && (reservations == w.reservations
        || (reservations == w.reservations + {e} && x.phase.Reserving?)
        || (reservations == w.reservations - {e} && w.gate == Some(e) && x.phase.Withdrawing?)
        || (x.successor.Some? && reservations == w.reservations - {x.successor.value} && w.gate == Some(e) && y.handoff.Unlocked?))
    && (e in reservations ==> Waiting(y.phase))
    && (y.handoff.Unlocked? || y.handoff.Done? ==> y.handoff.next !in reservations)
    && (y.handoff.Replacing? || y.handoff.Replaced? ==> y.handoff.next in reservations)
  }

  predicate TransferMove(w: World, e: Id, x: Endpoint, y: Endpoint, requests: set<(Id, Id)>) {
    && (requests == w.requests || (x.phase.Reserving? && requests == w.requests + {(x.phase.prior, e)} && y.phase.Requesting?))
    && (!Early(x.phase) ==> !Early(y.phase))
    && (y.successor.Some? ==> (e, y.successor.value) in requests)
    && (y.handoff.Unlocked? ==> x.handoff == y.handoff || x.handoff == Replaced(y.handoff.next))
    && (y.handoff.Done? ==> x.handoff == y.handoff || x.handoff == Unlocked(y.handoff.next))
    && (y.phase.Requesting? ==> x.phase == y.phase || x.phase.Reserving?)
    && (x.phase.Withdrawn? ==> y.phase.Withdrawn?)
    && (x.successor.Some? ==> y.successor == x.successor)
  }

  predicate Move(w: World, e: Id, x: Endpoint, y: Endpoint, v: World) {
    && v.eps == w.eps[e := y] && y.live && LocalOk(y)
    && GateMove(w, e, y, v.gate) && FileMove(w, e, x, y, v.file)
    && ReservationMove(w, e, x, y, v.reservations) && TransferMove(w, e, x, y, v.requests)
  }

  /** The steps of the takeover handler; all others are the acquiring call's, the lease's or the child's. */
  predicate HandsOver(a: Action) {
    a.Takeover? || a.StopResolves? || a.StopRejects? || a.GateCommit? || a.CommitBusy? || a.CommitChanged? || a.CommitDrop? || a.CommitMatch?
    || a.FinishDrop? || a.WriteSuccessor? || a.ClearReservation? || a.ClearOwned?
  }

  predicate UsesLease(a: Action) {
    a.StartChild? || a.Activate? || a.ChildExit? || a.CallRelease? || a.GateRelease? || a.ReleaseBusy? || a.ReleaseUnowned? || a.VacateFile?
    || a.FinishRelease?
  }

  predicate Acquires(a: Action) {
    !HandsOver(a) && !UsesLease(a)
  }

  predicate FileReady(w: World, e: Id, x: Endpoint) {
    && (Holds(x) || x.phase.Recorded? || x.phase.Granted? || x.handoff.Replacing? ==> w.file == Some(e))
    && (x.phase.Requesting? && Assigned(w, x.phase.prior, e) ==> w.file == Some(e))
    && (x.phase.Withdrawn? ==> w.file != Some(e))
    && (x.phase.Vacated? || x.handoff.Dropped? ==> w.file == None)
    && (x.handoff.Replaced? ==> w.file == Some(x.handoff.next))
    && (InGate(x) ==> w.gate == Some(e))
  }

  predicate ReservationReady(w: World, e: Id, x: Endpoint) {
    && (e in w.reservations ==> Waiting(x.phase))
    && (InGate(x) <==> w.gate == Some(e))
    && (x.handoff.Replacing? || x.handoff.Replaced? ==> x.handoff.next in w.reservations)
    && (x.handoff.Unlocked? || x.handoff.Done? ==> x.handoff.next !in w.reservations)
    && (x.phase.Requesting? && x.phase.prior in w.eps && w.eps[x.phase.prior].handoff == Done(e) ==> e !in w.reservations)
  }

  lemma AcquireMovesItself(w: World, e: Id, x: Endpoint, action: Action)
    requires Acquires(action) && EnabledAt(w, e, x, action) && LocalOk(x) && x.live && (InGate(x) <==> w.gate == Some(e))
    ensures LocalOk(Moved(w, e, x, action)) && Moved(w, e, x, action).live
    ensures GateMove(w, e, Moved(w, e, x, action), GateAfter(w, e, action))
  {}

  lemma AcquireMovesFile(w: World, e: Id, x: Endpoint, action: Action)
    requires Acquires(action) && EnabledAt(w, e, x, action) && LocalOk(x) && x.live && FileReady(w, e, x)
    ensures FileMove(w, e, x, Moved(w, e, x, action), FileAfter(w, e, x, action))
  {}

  lemma AcquireMovesRequests(w: World, e: Id, x: Endpoint, action: Action)
    requires Acquires(action) && EnabledAt(w, e, x, action) && LocalOk(x) && ReservationReady(w, e, x)
    requires x.successor.Some? ==> (e, x.successor.value) in w.requests
    ensures ReservationMove(w, e, x, Moved(w, e, x, action), ReservationsAfter(w, e, x, action))
    ensures TransferMove(w, e, x, Moved(w, e, x, action), RequestsAfter(w, e, x, action))
  {}

  lemma LeaseMovesItself(w: World, e: Id, x: Endpoint, action: Action)
    requires UsesLease(action) && EnabledAt(w, e, x, action) && LocalOk(x) && x.live && (InGate(x) <==> w.gate == Some(e))
    ensures LocalOk(Moved(w, e, x, action)) && Moved(w, e, x, action).live
    ensures GateMove(w, e, Moved(w, e, x, action), GateAfter(w, e, action))
  {}

  lemma LeaseMovesFile(w: World, e: Id, x: Endpoint, action: Action)
    requires UsesLease(action) && EnabledAt(w, e, x, action) && LocalOk(x) && x.live && FileReady(w, e, x)
    ensures FileMove(w, e, x, Moved(w, e, x, action), FileAfter(w, e, x, action))
  {}

  lemma LeaseMovesRequests(w: World, e: Id, x: Endpoint, action: Action)
    requires UsesLease(action) && EnabledAt(w, e, x, action) && LocalOk(x) && ReservationReady(w, e, x)
    requires x.successor.Some? ==> (e, x.successor.value) in w.requests
    ensures ReservationMove(w, e, x, Moved(w, e, x, action), ReservationsAfter(w, e, x, action))
    ensures TransferMove(w, e, x, Moved(w, e, x, action), RequestsAfter(w, e, x, action))
  {}

  lemma HandlerStaysOk(w: World, e: Id, x: Endpoint, action: Action)
    requires HandsOver(action) && EnabledAt(w, e, x, action) && LocalOk(x) && x.live
    ensures LocalOk(Moved(w, e, x, action)) && Moved(w, e, x, action).live
  {}

  lemma HandlerMovesItself(w: World, e: Id, x: Endpoint, action: Action)
    requires HandsOver(action) && EnabledAt(w, e, x, action) && LocalOk(x) && x.live && (InGate(x) <==> w.gate == Some(e))
    ensures LocalOk(Moved(w, e, x, action)) && Moved(w, e, x, action).live
    ensures GateMove(w, e, Moved(w, e, x, action), GateAfter(w, e, action))
  {
    HandlerStaysOk(w, e, x, action);
  }

  lemma HandlerMovesFile(w: World, e: Id, x: Endpoint, action: Action)
    requires HandsOver(action) && EnabledAt(w, e, x, action) && LocalOk(x) && x.live && FileReady(w, e, x)
    ensures FileMove(w, e, x, Moved(w, e, x, action), FileAfter(w, e, x, action))
  {}

  lemma HandlerReserves(w: World, e: Id, x: Endpoint, action: Action)
    requires HandsOver(action) && EnabledAt(w, e, x, action) && LocalOk(x) && ReservationReady(w, e, x)
    ensures ReservationMove(w, e, x, Moved(w, e, x, action), ReservationsAfter(w, e, x, action))
  {}

  lemma HandlerTransfers(w: World, e: Id, x: Endpoint, action: Action)
    requires HandsOver(action) && EnabledAt(w, e, x, action) && LocalOk(x) && (x.successor.Some? ==> (e, x.successor.value) in w.requests)
    ensures TransferMove(w, e, x, Moved(w, e, x, action), RequestsAfter(w, e, x, action))
  {}

  lemma StepIsMove(w: World, e: Id, action: Action)
    requires Inv(w) && Enabled(w, Step(e, action))
    ensures var v := Apply(w, Step(e, action)); Move(w, e, w.eps[e], v.eps[e], v)
  {
    var x := w.eps[e];
    assert FileReady(w, e, x) && ReservationReady(w, e, x);
    if HandsOver(action) {
      HandlerMovesItself(w, e, x, action);
      HandlerMovesFile(w, e, x, action);
      HandlerReserves(w, e, x, action);
      HandlerTransfers(w, e, x, action);
    } else if UsesLease(action) {
      LeaseMovesItself(w, e, x, action);
      LeaseMovesFile(w, e, x, action);
      LeaseMovesRequests(w, e, x, action);
    } else {
      AcquireMovesItself(w, e, x, action);
      AcquireMovesFile(w, e, x, action);
      AcquireMovesRequests(w, e, x, action);
    }
  }

  lemma MoveKeepsGate(w: World, e: Id, y: Endpoint, v: World)
    requires Inv(w) && Live(w, e) && Move(w, e, w.eps[e], y, v)
    ensures LocalInv(v) && GateInv(v)
  {}

  lemma MoveKeepsOwners(w: World, e: Id, y: Endpoint, v: World)
    requires Inv(w) && Live(w, e) && Move(w, e, w.eps[e], y, v)
    ensures OwnersInv(v)
  {}

  lemma MoveKeepsMarks(w: World, e: Id, y: Endpoint, v: World)
    requires Inv(w) && Live(w, e) && Move(w, e, w.eps[e], y, v)
    ensures MarksInv(v)
  {}

  lemma MoveKeepsRequests(w: World, e: Id, y: Endpoint, v: World)
    requires Inv(w) && Live(w, e) && Move(w, e, w.eps[e], y, v)
    ensures RequestInv(v)
  {}

  lemma MoveKeepsReservations(w: World, e: Id, y: Endpoint, v: World)
    requires Inv(w) && Live(w, e) && Move(w, e, w.eps[e], y, v)
    ensures ReservationInv(v)
  {
    forall o | o in v.eps && (v.eps[o].handoff.Replacing? || v.eps[o].handoff.Replaced?)
      ensures v.eps[o].handoff.next in v.reservations
    {
      if o != e { assert w.gate == Some(o); }
    }
    forall o | o in v.eps && (v.eps[o].handoff.Unlocked? || v.eps[o].handoff.Done?)
      ensures v.eps[o].handoff.next !in v.reservations
    {
      if o != e { assert (o, v.eps[o].handoff.next) in w.requests; }
    }
  }

  lemma MoveKeepsGrants(w: World, e: Id, y: Endpoint, v: World)
    requires Inv(w) && Live(w, e) && Move(w, e, w.eps[e], y, v)
    ensures GrantInv(v)
  {
    forall n | Live(v, n) && v.eps[n].phase.Requesting? && Assigned(v, v.eps[n].phase.prior, n) ensures v.file == Some(n) {
      var o, x := v.eps[n].phase.prior, w.eps[e];
      if n == e {
        assert LocalOk(v.eps[o]);
        assert o != e ==> (o, n) in w.requests;
        assert x.phase == y.phase;
      } else if o == e && y.handoff == Replaced(n) && x.handoff != y.handoff {
        assert v.file == Some(n);
      } else {
        assert Assigned(w, o, n);
      }
    }
  }

  predicate IsNew(y: Endpoint) {
    y.phase.Listening? && y.handoff.Quiet? && !y.owned && !y.active && !y.activated && !y.released && y.successor.None? && !y.child
  }

  lemma ListenKeepsFiles(w: World, e: Id, y: Endpoint, v: World)
    requires LocalInv(w) && GateInv(w) && FileInv(w) && e !in w.eps && v == w.(eps := w.eps[e := y]) && IsNew(y)
    ensures LocalInv(v) && GateInv(v) && OwnersInv(v) && MarksInv(v)
  {}

  lemma ListenKeepsGrants(w: World, e: Id, y: Endpoint, v: World)
    requires RequestInv(w) && GrantInv(w) && e !in w.eps && v == w.(eps := w.eps[e := y]) && IsNew(y)
    ensures GrantInv(v)
  {
    forall n | Live(v, n) && v.eps[n].phase.Requesting? && Assigned(v, v.eps[n].phase.prior, n) ensures v.file == Some(n) {
      assert Assigned(w, w.eps[n].phase.prior, n);
    }
  }

  lemma ListenKeeps(w: World, e: Id, y: Endpoint, v: World)
    requires Inv(w) && e !in w.eps && v == w.(eps := w.eps[e := y]) && IsNew(y)
    ensures Inv(v)
  {
    ListenKeepsFiles(w, e, y, v);
    ListenKeepsGrants(w, e, y, v);
  }

  /** The same endpoint, except that its process may have ended. */
  predicate Frozen(x: Endpoint, y: Endpoint) {
    && (y.live ==> x.live)
    && y.phase == x.phase && y.handoff == x.handoff && y.owned == x.owned && y.active == x.active && y.activated == x.activated
    && y.released == x.released && y.successor == x.successor && y.child == x.child
  }

  lemma CrashKeeps(w: World, v: World)
    requires Inv(w) && v.eps.Keys == w.eps.Keys && v == w.(eps := v.eps)
    requires forall e | e in v.eps :: Frozen(w.eps[e], v.eps[e])
    ensures Inv(v)
  {
    assert LocalInv(v) by {
      forall e | e in v.eps ensures LocalOk(v.eps[e]) { assert LocalOk(w.eps[e]); }
    }
    assert GrantInv(v) by {
      forall e | Live(v, e) && v.eps[e].phase.Requesting? && Assigned(v, v.eps[e].phase.prior, e) ensures v.file == Some(e) {
        assert Assigned(w, v.eps[e].phase.prior, e);
      }
    }
  }

  lemma Kept(w: World, ev: Event)
    requires Inv(w) && Enabled(w, ev)
    ensures Inv(Apply(w, ev))
  {
    match ev
    case Step(e, action) =>
      StepIsMove(w, e, action);
      var v := Apply(w, ev);
      MoveKeepsGate(w, e, v.eps[e], v);
      MoveKeepsOwners(w, e, v.eps[e], v);
      MoveKeepsMarks(w, e, v.eps[e], v);
      MoveKeepsRequests(w, e, v.eps[e], v);
      MoveKeepsReservations(w, e, v.eps[e], v);
      MoveKeepsGrants(w, e, v.eps[e], v);
    case Listen(e, _) => ListenKeeps(w, e, Apply(w, ev).eps[e], Apply(w, ev));
    case Crash(_) => CrashKeeps(w, Apply(w, ev));
  }

  lemma {:induction false} RunKeeps(ws: seq<World>, events: seq<Event>, i: nat)
    requires IsRun(ws, events) && i < |ws|
    ensures Inv(ws[i])
  {
    if i > 0 {
      RunKeeps(ws, events, i - 1);
      Kept(ws[i - 1], events[i - 1]);
    }
  }

  lemma ReachableInv(w: World)
    requires IsReachable(w)
    ensures Inv(w)
  {
    var ws, events :| IsRun(ws, events) && ws[|events|] == w;
    RunKeeps(ws, events, |events|);
  }

  // ---- The main results ----

  /** Single owner.  Two live endpoints are never both owners, except while one of them has already
      assigned the file to a requester and only its next statement, clearing `owned`, is missing. */
  lemma SingleOwner(w: World, a: Id, b: Id)
    requires IsReachable(w) && Live(w, a) && Live(w, b) && w.eps[a].owned && w.eps[b].owned
    ensures a == b || w.eps[a].handoff.Unlocked? || w.eps[b].handoff.Unlocked?
  {
    ReachableInv(w);
    assert LocalOk(w.eps[a]) && LocalOk(w.eps[b]);
  }

  /** The lease was had, and given away or up. */
  predicate GaveUp(x: Endpoint) {
    InLease(x.phase) && !Holds(x)
  }

  ghost predicate GivenInv(w: World) {
    forall e | e in w.eps && GaveUp(w.eps[e]) :: w.file != Some(e)
  }

  predicate GivenReady(w: World, e: Id, x: Endpoint) {
    && LocalOk(x) && (GaveUp(x) ==> w.file != Some(e)) && (x.phase.Granted? ==> w.file == Some(e))
    && (x.handoff.Replacing? ==> x.handoff.next != e)
  }

  predicate GivenAfter(w: World, e: Id, x: Endpoint, action: Action)
    requires EnabledAt(w, e, x, action)
  {
    GaveUp(Moved(w, e, x, action)) ==> FileAfter(w, e, x, action) != Some(e)
  }

  lemma AcquireGives(w: World, e: Id, x: Endpoint, action: Action)
    requires Acquires(action) && EnabledAt(w, e, x, action) && GivenReady(w, e, x)
    ensures GivenAfter(w, e, x, action)
  {}

  lemma LeaseGives(w: World, e: Id, x: Endpoint, action: Action)
    requires UsesLease(action) && EnabledAt(w, e, x, action) && GivenReady(w, e, x)
    ensures GivenAfter(w, e, x, action)
  {}

  lemma HandlerGives(w: World, e: Id, x: Endpoint, action: Action)
    requires HandsOver(action) && EnabledAt(w, e, x, action) && GivenReady(w, e, x)
    ensures GivenAfter(w, e, x, action)
  {}

  lemma GivenKept(w: World, ev: Event)
    requires Inv(w) && GivenInv(w) && Enabled(w, ev)
    ensures GivenInv(Apply(w, ev))
  {
    if ev.Step? {
      var e, action, v := ev.e, ev.action, Apply(w, ev);
      var x := w.eps[e];
      StepIsMove(w, e, action);
      GivenIsReady(w, e);
      if HandsOver(action) { HandlerGives(w, e, x, action); } else if UsesLease(action) { LeaseGives(w, e, x, action); } else { AcquireGives(w, e, x, action); }
      GivenByMove(w, e, v.eps[e], v);
    }
  }

  lemma GivenIsReady(w: World, e: Id)
    requires LocalInv(w) && ReservationInv(w) && GrantInv(w) && GivenInv(w) && Live(w, e)
    ensures GivenReady(w, e, w.eps[e])
  {
    assert LocalOk(w.eps[e]);
  }

  lemma GivenByMove(w: World, e: Id, y: Endpoint, v: World)
    requires GivenInv(w) && ReservationInv(w) && e in w.eps && v.eps == w.eps[e := y] && FileMove(w, e, w.eps[e], y, v.file)
    requires GaveUp(y) ==> v.file != Some(e)
    ensures GivenInv(v)
  {}

  lemma {:induction false} RunGives(ws: seq<World>, events: seq<Event>, i: nat)
    requires IsRun(ws, events) && i < |ws|
    ensures GivenInv(ws[i])
  {
    if i > 0 {
      RunGives(ws, events, i - 1);
      RunKeeps(ws, events, i - 1);
      GivenKept(ws[i - 1], events[i - 1]);
    }
  }

  /** A live endpoint with a lease is recorded exactly while it has not given the session away or up. */
  lemma RecordedWhileHolding(w: World, e: Id)
    requires IsReachable(w) && Live(w, e) && InLease(w.eps[e].phase)
    ensures w.file == Some(e) <==> Holds(w.eps[e])
  {
    ReachableFiles(w);
    var ws, events :| IsRun(ws, events) && ws[|events|] == w;
    RunGives(ws, events, |events|);
  }

  /** The endpoint wrote or found the file without its name, and its flag is still to be cleared. */
  predicate Clearing(x: Endpoint) {
    x.phase.Vacated? || x.handoff.Dropped? || x.handoff.Replaced? || x.handoff.Unlocked?
  }

  ghost predicate TwoOwners(w: World) {
    exists a, b :: a != b && Live(w, a) && Live(w, b) && w.eps[a].owned && w.eps[b].owned
  }

  /** When two flags are set: exactly while one live endpoint stands in the window after its commit
      and another live one has a lease and is recorded, or is itself about to clear its flag. */
  lemma TwoOwnersExactly(w: World)
    requires IsReachable(w)
    ensures TwoOwners(w) <==>
            exists u, b :: u != b && Live(w, u) && w.eps[u].handoff.Unlocked? && Live(w, b)
                           && ((InLease(w.eps[b].phase) && w.file == Some(b)) || Clearing(w.eps[b]))
  {
    ReachableFiles(w);
    if TwoOwners(w) {
      var a, b :| a != b && Live(w, a) && Live(w, b) && w.eps[a].owned && w.eps[b].owned;
      SingleOwner(w, a, b);
      OwnedInLease(w, a);
      OwnedInLease(w, b);
    }
    if u, b :| u != b && Live(w, u) && w.eps[u].handoff.Unlocked? && Live(w, b)
               && ((InLease(w.eps[b].phase) && w.file == Some(b)) || Clearing(w.eps[b])) {
      if InLease(w.eps[b].phase) { RecordedWhileHolding(w, b); }
      assert LocalOk(w.eps[u]) && LocalOk(w.eps[b]);
    }
  }

  lemma OwnedInLease(w: World, e: Id)
    requires IsReachable(w) && Live(w, e) && w.eps[e].owned
    ensures InLease(w.eps[e].phase) && (w.file == Some(e) || Clearing(w.eps[e]))
  {
    ReachableFiles(w);
    assert LocalOk(w.eps[e]);
    RecordedWhileHolding(w, e);
  }

  /** An owner outside its gated sections and that window is the one the ownership file names. */
  lemma OwnerIsRecorded(w: World, e: Id)
    requires IsReachable(w) && Live(w, e) && w.eps[e].owned && w.gate != Some(e)
    ensures w.file == Some(e) || w.eps[e].handoff.Unlocked?
  {
    ReachableInv(w);
  }

  /** One writer.  At most one live endpoint runs a native writer, and the file names that endpoint. */
  lemma OneWriter(w: World, a: Id, b: Id)
    requires IsReachable(w) && Live(w, a) && Live(w, b) && w.eps[a].child && w.eps[b].child
    ensures a == b && w.file == Some(a)
  {
    ReachableInv(w);
    assert LocalOk(w.eps[a]) && LocalOk(w.eps[b]);
  }

  lemma WithdrawnStays(w: World, e: Id, ev: Event)
    requires Inv(w) && e in w.eps && w.eps[e].phase.Withdrawn? && Enabled(w, ev)
    ensures e in Apply(w, ev).eps && Apply(w, ev).eps[e].phase.Withdrawn?
  {
    if ev.Step? { StepIsMove(w, ev.e, ev.action); }
  }

  lemma {:induction false} WithdrawnRemains(ws: seq<World>, events: seq<Event>, e: Id, i: nat, j: nat)
    requires IsRun(ws, events) && i <= j < |ws| && e in ws[i].eps && ws[i].eps[e].phase.Withdrawn?
    ensures e in ws[j].eps && ws[j].eps[e].phase.Withdrawn?
  {
    if i < j {
      RunKeeps(ws, events, j - 1);
      WithdrawnRemains(ws, events, e, i, j - 1);
      WithdrawnStays(ws[j - 1], e, events[j - 1]);
    }
  }

  lemma WithdrawnIsNowhere(w: World, e: Id)
    requires MarksInv(w) && ReservationInv(w) && e in w.eps && w.eps[e].phase.Withdrawn?
    ensures w.file != Some(e) && e !in w.reservations
  {}

  /** A requester whose withdrawal ran under the gate is never recorded or reserved afterwards,
      whether the old owner commits before or after it. */
  lemma WithdrawnForGood(ws: seq<World>, events: seq<Event>, e: Id, i: nat, j: nat)
    requires IsRun(ws, events) && i <= j < |ws| && e in ws[i].eps && ws[i].eps[e].phase.Withdrawn?
    ensures ws[j].file != Some(e) && e !in ws[j].reservations
  {
    RunKeeps(ws, events, j);
    WithdrawnRemains(ws, events, e, i, j);
    WithdrawnIsNowhere(ws[j], e);
  }

  lemma SuccessorKept(w: World, e: Id, ev: Event)
    requires Inv(w) && e in w.eps && w.eps[e].successor.Some? && Enabled(w, ev)
    ensures var v := Apply(w, ev); e in v.eps && v.eps[e].successor == w.eps[e].successor
  {
    if ev.Step? { StepIsMove(w, ev.e, ev.action); }
  }

  /** The successor of a generation never changes once set. */
  lemma {:induction false} SuccessorIsFinal(ws: seq<World>, events: seq<Event>, e: Id, i: nat, j: nat)
    requires IsRun(ws, events) && i <= j < |ws| && e in ws[i].eps && ws[i].eps[e].successor.Some?
    ensures e in ws[j].eps && ws[j].eps[e].successor == ws[i].eps[e].successor
  {
    if i < j {
      SuccessorIsFinal(ws, events, e, i, j - 1);
      RunKeeps(ws, events, j - 1);
      SuccessorKept(ws[j - 1], e, events[j - 1]);
    }
  }

  /** The file passes from a live endpoint to another only as its successor, so each generation is
      handed to at most one other. */
  lemma HandedToSuccessorOnly(w: World, ev: Event, o: Id, n: Id)
    requires IsReachable(w) && Enabled(w, ev) && w.file == Some(o) && Live(w, o) && Apply(w, ev).file == Some(n) && n != o
    ensures ev == Step(o, WriteSuccessor) && w.eps[o].successor == Some(n) && n in w.reservations
  {
    ReachableInv(w);
    assert LocalOk(w.eps[o]);
  }

  /** The last check before startup cannot fail: whoever was granted the session is recorded. */
  lemma GrantedIsRecorded(w: World, e: Id)
    requires IsReachable(w) && Live(w, e) && w.eps[e].phase.Granted?
    ensures Enabled(w, Step(e, Adopt)) && !Enabled(w, Step(e, Fail))
  {
    ReachableInv(w);
  }

  lemma CommittingHolds(x: Endpoint)
    requires LocalOk(x) && x.handoff.Committing?
    ensures Holds(x)
  {}

  lemma ReachableFiles(w: World)
    requires IsReachable(w)
    ensures LocalInv(w) && OwnersInv(w)
  {
    ReachableInv(w);
  }

  /** Nor can the old owner's check inside the gate, and a lease whose stop callback was not given
      yet is still owned, so activating it right after the child was started does not throw. */
  lemma LeaseIsIntact(w: World, e: Id)
    requires IsReachable(w) && Live(w, e)
    ensures !Enabled(w, Step(e, CommitChanged))
    ensures w.eps[e].phase.Leased? && !w.eps[e].released && !w.eps[e].activated ==> Enabled(w, Step(e, Activate))
  {
    ReachableFiles(w);
    assert LocalOk(w.eps[e]);
  }

  // ---- Who follows whom ----

  predicate Names(x: Endpoint) {
    x.phase.Reserving? || x.phase.Requesting? || x.phase.Granted? ==> x.takeOver == Some(x.phase.prior)
  }

  /** The request of `n` to `o` is still to be served, or its reservation was used up for it. */
  predicate Served(w: World, o: Id, n: Id) {
    (o, n) in w.requests && (n in w.reservations || (o in w.eps && (w.eps[o].handoff == Unlocked(n) || w.eps[o].handoff == Done(n))))
  }

  /** Only the owner that an endpoint was told to take over from is ever asked. */
  ghost predicate NamedInv(w: World) {
    && (forall e | e in w.eps :: Names(w.eps[e]))
    && (forall r | r in w.requests :: r.1 in w.eps && w.eps[r.1].takeOver == Some(r.0))
    && (forall e | e in w.eps && w.eps[e].phase.Requesting? :: Served(w, w.eps[e].phase.prior, e))
  }

  predicate NameMove(w: World, e: Id, x: Endpoint, y: Endpoint, action: Action)
    requires EnabledAt(w, e, x, action)
  {
    && Names(y) && y.takeOver == x.takeOver
    && (RequestsAfter(w, e, x, action) == w.requests
        || (x.takeOver.Some? && RequestsAfter(w, e, x, action) == w.requests + {(x.takeOver.value, e)}))
    && (y.phase.Requesting? && x.phase != y.phase ==>
          (y.phase.prior, e) in RequestsAfter(w, e, x, action) && e in ReservationsAfter(w, e, x, action))
    && (x.handoff.Unlocked? || x.handoff.Done? ==> y.handoff == x.handoff || y.handoff == Done(x.handoff.next))
  }

  lemma AcquireNames(w: World, e: Id, x: Endpoint, action: Action)
    requires Acquires(action) && EnabledAt(w, e, x, action) && LocalOk(x) && Names(x)
    ensures NameMove(w, e, x, Moved(w, e, x, action), action)
  {}

  lemma LeaseNames(w: World, e: Id, x: Endpoint, action: Action)
    requires UsesLease(action) && EnabledAt(w, e, x, action) && LocalOk(x) && Names(x)
    ensures NameMove(w, e, x, Moved(w, e, x, action), action)
  {}

  lemma HandlerNames(w: World, e: Id, x: Endpoint, action: Action)
    requires HandsOver(action) && EnabledAt(w, e, x, action) && LocalOk(x) && Names(x)
    ensures NameMove(w, e, x, Moved(w, e, x, action), action)
  {}

  lemma StepNames(w: World, e: Id, action: Action)
    requires LocalInv(w) && NamedInv(w) && Enabled(w, Step(e, action))
    ensures NameMove(w, e, w.eps[e], Moved(w, e, w.eps[e], action), action)
  {
    var x := w.eps[e];
    if HandsOver(action) { HandlerNames(w, e, x, action); } else if UsesLease(action) { LeaseNames(w, e, x, action); } else { AcquireNames(w, e, x, action); }
  }

  lemma StillServed(w: World, e: Id, x: Endpoint, y: Endpoint, v: World, n: Id, o: Id)
    requires NamedInv(w) && RequestInv(w) && e in w.eps && x == w.eps[e] && LocalOk(y) && v.eps == w.eps[e := y]
    requires ReservationMove(w, e, x, y, v.reservations) && (x.successor.Some? ==> y.successor == x.successor)
    requires x.handoff.Unlocked? || x.handoff.Done? ==> y.handoff == x.handoff || y.handoff == Done(x.handoff.next)
    requires n in w.eps && (n != e || y.phase == x.phase) && w.eps[n].phase == Requesting(o) && w.requests <= v.requests && Served(w, o, n)
    ensures Served(v, o, n)
  {
    if n in w.reservations && n !in v.reservations && n != e {
      assert x.successor == Some(n) && (e, n) in w.requests;
    }
  }

  lemma MoveNames(w: World, e: Id, x: Endpoint, y: Endpoint, action: Action, v: World)
    requires RequestInv(w) && NamedInv(w) && Live(w, e) && x == w.eps[e] && EnabledAt(w, e, x, action)
    requires Move(w, e, x, y, v) && NameMove(w, e, x, y, action)
    requires v.requests == RequestsAfter(w, e, x, action) && v.reservations == ReservationsAfter(w, e, x, action)
    ensures NamedInv(v)
  {
    forall n | n in v.eps && v.eps[n].phase.Requesting? ensures Served(v, v.eps[n].phase.prior, n) {
      if n != e || y.phase == x.phase { StillServed(w, e, x, y, v, n, v.eps[n].phase.prior); }
    }
  }

  lemma NamesKept(w: World, ev: Event)
    requires Inv(w) && NamedInv(w) && Enabled(w, ev)
    ensures NamedInv(Apply(w, ev))
  {
    var v := Apply(w, ev);
    match ev
    case Step(e, action) =>
      StepIsMove(w, e, action);
      StepNames(w, e, action);
      MoveNames(w, e, w.eps[e], v.eps[e], action, v);
    case Listen(e, _) =>
      forall n | n in v.eps && v.eps[n].phase.Requesting? ensures Served(v, v.eps[n].phase.prior, n) { assert Served(w, w.eps[n].phase.prior, n); }
    case Crash(_) =>
      forall n | n in v.eps && v.eps[n].phase.Requesting? ensures Served(v, v.eps[n].phase.prior, n) { assert Served(w, w.eps[n].phase.prior, n); }
  }

  lemma {:induction false} RunNames(ws: seq<World>, events: seq<Event>, i: nat)
    requires IsRun(ws, events) && i < |ws|
    ensures NamedInv(ws[i])
  {
    if i > 0 {
      RunNames(ws, events, i - 1);
      RunKeeps(ws, events, i - 1);
      NamesKept(ws[i - 1], events[i - 1]);
    }
  }

  lemma ReachableNames(w: World)
    requires IsReachable(w)
    ensures NamedInv(w)
  {
    var ws, events :| IsRun(ws, events) && ws[|events|] == w;
    RunNames(ws, events, |events|);
  }

  /** Whoever replaces a record was told to take over from exactly that owner, or from nobody while
      that owner's process has ended. */
  lemma FollowsItsOwner(w: World, ev: Event, o: Id, e: Id)
    requires IsReachable(w) && Enabled(w, ev) && w.file == Some(o) && Apply(w, ev).file == Some(e) && e != o
    ensures e in w.eps && (w.eps[e].takeOver == Some(o) || (w.eps[e].takeOver == None && !Live(w, o)))
  {
    ReachableInv(w);
    ReachableNames(w);
    assert LocalOk(w.eps[ev.e]);
    FileGoes(w, ev.e, w.eps[ev.e], ev.action, e);
    if ev.action.WriteSuccessor? { assert (ev.e, e) in w.requests; }
  }

  lemma FileGoes(w: World, e: Id, x: Endpoint, action: Action, n: Id)
    requires EnabledAt(w, e, x, action) && FileAfter(w, e, x, action) == Some(n) && w.file != Some(n)
    ensures (action.WriteSuccessor? && x.handoff == Replacing(n)) || (action.WriteOwn? && n == e && MayRecordAs(w, x))
  {}

  /** There is no record, or that of a process that ended and of the owner `x` names, if it names one. */
  predicate MayRecordAs(w: World, x: Endpoint) {
    w.file.None? || (!Live(w, w.file.value) && (x.takeOver.None? || x.takeOver == w.file))
  }

  lemma RecordingMay(w: World, e: Id, action: Action)
    requires Live(w, e) && w.eps[e].phase.Acquiring? && LocalOk(w.eps[e]) && Enabled(w, Step(e, action))
    ensures Moved(w, e, w.eps[e], action).phase.Recorded? ==> MayRecordAs(w, w.eps[e])
  {}

  /** An endpoint in its first gated section can record itself if and only if there is no record, or
      that of a process that ended and of the owner it names, if it names one. */
  lemma RecordsItselfExactly(w: World, e: Id)
    requires IsReachable(w) && Live(w, e) && w.eps[e].phase.Acquiring?
    ensures (exists action :: Enabled(w, Step(e, action)) && Moved(w, e, w.eps[e], action).phase.Recorded?)
            <==> (w.file.None? || (!Live(w, w.file.value) && (w.eps[e].takeOver.None? || w.eps[e].takeOver == w.file)))
  {
    ReachableFiles(w);
    if action :| Enabled(w, Step(e, action)) && Moved(w, e, w.eps[e], action).phase.Recorded? { RecordingMay(w, e, action); }
    if MayRecordAs(w, w.eps[e]) { assert Enabled(w, Step(e, WriteOwn)) && Moved(w, e, w.eps[e], WriteOwn).phase.Recorded?; }
  }

  /** Then it gets its lease, and nobody else is touched. */
  lemma DeadOwnerIsReplaced(w: World, e: Id) returns (v: World)
    requires IsReachable(w) && Live(w, e) && w.eps[e].phase.Acquiring?
    requires w.file.Some? ==> !Live(w, w.file.value) && (w.eps[e].takeOver.None? || w.eps[e].takeOver == w.file)
    ensures IsReachable(v) && v.file == Some(e) && v.gate == None && v.reservations == w.reservations && v.requests == w.requests
    ensures v.eps == w.eps[e := w.eps[e].(phase := Leased, owned := true)]
  {
    v := Go(w, Step(e, WriteOwn));
    v := Go(v, Step(e, OwnNow));
  }

  lemma RefusedSteps(w: World, e: Id, x: Endpoint, action: Action)
    requires EnabledAt(w, e, x, action) && LocalOk(x) && x.phase.Acquiring? && w.file.Some? && !Live(w, w.file.value)
    requires x.takeOver.Some? && x.takeOver != w.file
    ensures action.FindOwner? || action.RefuseChanged?
  {}

  /** An endpoint that names another generation than the recorded one of an ended process leaves the
      file alone: whatever it does next ends its section without a lease, and it can refuse. */
  lemma OtherGenerationIsRefused(w: World, e: Id, action: Action)
    requires IsReachable(w) && Live(w, e) && w.eps[e].phase.Acquiring? && w.file.Some? && !Live(w, w.file.value)
    requires w.eps[e].takeOver.Some? && w.eps[e].takeOver != w.file
    ensures Enabled(w, Step(e, RefuseChanged))
    ensures Enabled(w, Step(e, action)) ==>
              (var v := Apply(w, Step(e, action));
               v.file == w.file && v.gate == None && !v.eps[e].owned
               && v.eps[e].phase == if action.FindOwner? then Contending(w.file.value) else Failing)
  {
    ReachableFiles(w);
    assert LocalOk(w.eps[e]);
    if Enabled(w, Step(e, action)) { RefusedSteps(w, e, w.eps[e], action); }
  }

  /** What the next checks of an acquiring call decide: a refusal in its first section exactly for
      another generation's ended owner; a second section exactly for the live owner it names; and in
      it a reservation exactly while that owner is still recorded. */
  lemma ChecksDecide(w: World, e: Id)
    requires IsReachable(w) && Live(w, e)
    ensures w.eps[e].phase.Acquiring? ==>
              (Enabled(w, Step(e, RefuseChanged)) <==>
                w.file.Some? && !Live(w, w.file.value) && w.eps[e].takeOver.Some? && w.eps[e].takeOver != w.file)
    ensures w.eps[e].phase.Contending? ==>
              Enabled(w, Step(e, Fail)) && (Enabled(w, Step(e, GateReserve)) <==> w.gate.None? && w.eps[e].takeOver == Some(w.eps[e].phase.prior))
    ensures w.eps[e].phase.Reserving? ==>
              w.eps[e].takeOver == Some(w.eps[e].phase.prior)
              && (Enabled(w, Step(e, WriteReservation)) <==> w.file == w.eps[e].takeOver)
              && (Enabled(w, Step(e, RefuseReserve)) <==> w.file != w.eps[e].takeOver)
  {
    ReachableNames(w);
  }

  /** A reservation is only ever written for the owner that is recorded at that moment. */
  lemma ReservesForRecorded(w: World, ev: Event, e: Id)
    requires IsReachable(w) && Enabled(w, ev) && e in Apply(w, ev).reservations && e !in w.reservations
    ensures e in w.eps && w.file.Some? && w.eps[e].takeOver == w.file
  {
    ReachableNames(w);
    assert ev == Step(e, WriteReservation);
  }

  /** Whoever has a fresh lease can run its writer and offer to hand over. */
  lemma WriterCanStart(w: World, e: Id) returns (v: World)
    requires IsReachable(w) && Live(w, e) && w.eps[e].phase.Leased? && !w.eps[e].released && !w.eps[e].activated && !w.eps[e].child
    ensures IsReachable(v) && v == w.(eps := w.eps[e := w.eps[e].(child := true, active := true, activated := true)]) && v.eps[e].owned
  {
    LeaseIsIntact(w, e);
    ReachableFiles(w);
    assert LocalOk(w.eps[e]);
    v := Go(w, Step(e, StartChild));
    v := Go(v, Step(e, Activate));
    assert v.eps == w.eps[e := w.eps[e].(child := true, active := true, activated := true)];
  }

  /** No writer starts where one runs, on a lease that is given up, or once its handover has begun. */
  lemma WriterStartsOnce(w: World, e: Id)
    requires IsReachable(w) && Enabled(w, Step(e, StartChild))
    ensures !w.eps[e].child && !w.eps[e].released && w.eps[e].handoff.Quiet? && w.eps[e].owned && w.file == Some(e)
  {
    ReachableInv(w);
    assert LocalOk(w.eps[e]);
  }

  /** What an owner that nobody disturbs and a requester it still has to serve look like. */
  predicate CanHandOver(w: World, o: Id, n: Id) {
    && Live(w, o) && Live(w, n) && w.gate.None? && w.eps[n].phase == Requesting(o)
    && w.eps[o].active && w.eps[o].handoff.Quiet?
  }

  lemma CanHandOverIs(w: World, o: Id, n: Id)
    requires IsReachable(w) && CanHandOver(w, o, n)
    ensures w.file == Some(o) && (o, n) in w.requests && n in w.reservations && n != o && w.eps[o].owned && w.eps[o].phase.Leased?
  {
    ReachableInv(w);
    ReachableNames(w);
    assert LocalOk(w.eps[o]) && Served(w, o, n);
  }

  lemma HandoverStarts(w: World, o: Id, n: Id) returns (v: World)
    requires IsReachable(w) && CanHandOver(w, o, n)
    ensures IsReachable(v) && v == w.(eps := v.eps)
    ensures o in v.eps && v.eps == w.eps[o := w.eps[o].(handoff := Stopping(n), successor := Some(n), active := false, child := v.eps[o].child)] && !v.eps[o].child
  {
    CanHandOverIs(w, o, n);
    v := w;
    if v.eps[o].child { v := Go(v, Step(o, ChildExit)); }
    v := Go(v, Step(o, Takeover(n)));
  }

  lemma HandoverStops(w: World, o: Id, n: Id) returns (v: World)
    requires IsReachable(w) && Live(w, o) && w.gate.None? && w.eps[o].handoff == Stopping(n) && !w.eps[o].child
    ensures IsReachable(v) && v == w.(eps := w.eps[o := w.eps[o].(handoff := Committing(n))], gate := Some(o))
  {
    v := Go(w, Step(o, StopResolves));
    v := Go(v, Step(o, GateCommit));
    assert v.eps == w.eps[o := w.eps[o].(handoff := Committing(n))];
  }

  lemma HandoverWrites(w: World, o: Id, n: Id) returns (v: World)
    requires IsReachable(w) && Live(w, o) && w.file == Some(o) && n in w.reservations && w.eps[o].handoff == Committing(n)
    ensures IsReachable(v) && v == w.(eps := w.eps[o := w.eps[o].(handoff := Replaced(n))], file := Some(n))
  {
    v := HandoverMatches(w, o, n);
    v := Go(v, Step(o, WriteSuccessor));
    assert v.eps == w.eps[o := w.eps[o].(handoff := Replaced(n))];
  }

  lemma HandoverMatches(w: World, o: Id, n: Id) returns (v: World)
    requires IsReachable(w) && Live(w, o) && w.file == Some(o) && n in w.reservations && w.eps[o].handoff == Committing(n)
    ensures IsReachable(v) && v == w.(eps := w.eps[o := w.eps[o].(handoff := Replacing(n))])
  {
    v := Go(w, Step(o, CommitMatch));
  }

  lemma HandoverCommits(w: World, o: Id, n: Id) returns (v: World)
    requires IsReachable(w) && Live(w, o) && w.eps[o].handoff == Replaced(n)
    ensures IsReachable(v)
    ensures v == w.(eps := w.eps[o := w.eps[o].(handoff := Done(n), owned := false)], reservations := w.reservations - {n}, gate := None)
  {
    v := Go(w, Step(o, ClearReservation));
    v := Go(v, Step(o, ClearOwned));
    assert v.eps == w.eps[o := w.eps[o].(handoff := Done(n), owned := false)];
  }

  lemma HandoverIsReceived(w: World, o: Id, n: Id) returns (v: World)
    requires IsReachable(w) && Live(w, n) && o in w.eps && w.eps[n].phase == Requesting(o) && w.eps[o].handoff == Done(n) && w.file == Some(n)
    ensures IsReachable(v) && v == w.(eps := w.eps[n := w.eps[n].(phase := Leased, owned := true)])
  {
    v := HandoverIsAnswered(w, o, n);
    v := Go(v, Step(n, Adopt));
    assert v.eps == w.eps[n := w.eps[n].(phase := Leased, owned := true)];
  }

  lemma HandoverIsAnswered(w: World, o: Id, n: Id) returns (v: World)
    requires IsReachable(w) && Live(w, n) && o in w.eps && w.eps[n].phase == Requesting(o) && w.eps[o].handoff == Done(n)
    ensures IsReachable(v) && v == w.(eps := w.eps[n := w.eps[n].(phase := Granted(o))])
  {
    v := Go(w, Step(n, Respond));
  }

  /** A takeover can complete: from every reachable state in which an active owner has a requester
      waiting and the gate is free, steps of these two alone lead to the requester's lease, recorded
      and the only one of the two that is owned. */
  lemma HandoverCompletes(w: World, o: Id, n: Id) returns (v: World)
    requires IsReachable(w) && CanHandOver(w, o, n)
    ensures IsReachable(v) && v.file == Some(n) && v.gate == None && v.reservations == w.reservations - {n}
    ensures forall e | e in w.eps && e != o && e != n :: e in v.eps && v.eps[e] == w.eps[e]
    ensures o != n && o in v.eps && !v.eps[o].owned && v.eps[o].handoff == Done(n) && !v.eps[o].child
    ensures n in v.eps && v.eps[n] == w.eps[n].(phase := Leased, owned := true)
  {
    CanHandOverIs(w, o, n);
    v := HandoverStarts(w, o, n);
    v := HandoverStops(v, o, n);
    v := HandoverWrites(v, o, n);
    v := HandoverCommits(v, o, n);
    v := HandoverIsReceived(v, o, n);
  }

  /** What the commit decides: it hands over where the requester's reservation is there, and drops the
      lease exactly where the requester withdrew or its process ended. */
  lemma CommitDecides(w: World, o: Id, n: Id)
    requires IsReachable(w) && Live(w, o) && w.eps[o].handoff == Committing(n)
    ensures Enabled(w, Step(o, CommitMatch)) <==> n in w.reservations
    ensures Enabled(w, Step(o, CommitDrop)) <==> n !in w.reservations || !Live(w, n)
    ensures !Enabled(w, Step(o, CommitChanged))
  {
    ReachableFiles(w);
    CommittingHolds(w.eps[o]);
  }

  /** A dropped lease leaves no record and no flag. */
  lemma DropCompletes(w: World, o: Id, n: Id) returns (v: World)
    requires IsReachable(w) && Live(w, o) && w.eps[o].handoff == Committing(n) && n !in w.reservations
    ensures IsReachable(v) && v == w.(eps := w.eps[o := w.eps[o].(handoff := Failed, owned := false)], file := None, gate := None)
  {
    CommitDecides(w, o, n);
    v := Go(w, Step(o, CommitDrop));
    v := Go(v, Step(o, FinishDrop));
    assert v.eps == w.eps[o := w.eps[o].(handoff := Failed, owned := false)];
  }

  /** A stop that fails ends the handover, and the lease stays owned and recorded. */
  lemma FailedStopKeepsLease(w: World, o: Id)
    requires IsReachable(w) && Live(w, o) && w.eps[o].handoff.Stopping?
    ensures Enabled(w, Step(o, StopRejects))
    ensures Apply(w, Step(o, StopRejects)) == w.(eps := w.eps[o := w.eps[o].(handoff := Failed)])
    ensures w.eps[o].owned && w.file == Some(o)
  {
    ReachableFiles(w);
    assert LocalOk(w.eps[o]);
  }

  lemma ReleaseStarts(w: World, e: Id) returns (v: World)
    requires IsReachable(w) && Live(w, e) && w.gate.None? && w.eps[e].phase.Leased? && !w.eps[e].released && !w.eps[e].child
    requires w.eps[e].owned && Settled(w.eps[e].handoff)
    ensures IsReachable(v) && v == w.(eps := w.eps[e := w.eps[e].(phase := Releasing, released := true, active := false)], gate := Some(e))
  {
    v := Go(w, Step(e, CallRelease));
    v := Go(v, Step(e, GateRelease));
    assert v.eps == w.eps[e := w.eps[e].(phase := Releasing, released := true, active := false)];
  }

  lemma ReleaseEnds(w: World, e: Id) returns (v: World)
    requires IsReachable(w) && Live(w, e) && w.eps[e].phase.Releasing? && w.file == Some(e)
    ensures IsReachable(v) && v == w.(eps := w.eps[e := w.eps[e].(phase := Released, owned := false)], file := None, gate := None)
  {
    v := Go(w, Step(e, VacateFile));
    v := Go(v, Step(e, FinishRelease));
    assert v.eps == w.eps[e := w.eps[e].(phase := Released, owned := false)];
  }

  /** Giving a lease up removes the record. */
  lemma ReleaseCompletes(w: World, e: Id) returns (v: World)
    requires IsReachable(w) && Live(w, e) && w.gate.None? && w.eps[e].phase.Leased? && !w.eps[e].released && !w.eps[e].child
    requires w.eps[e].owned && (w.eps[e].handoff.Quiet? || w.eps[e].handoff.Done? || w.eps[e].handoff.Failed?)
    ensures IsReachable(v) && w.file == Some(e) && v.file == None && v.gate == None && v.reservations == w.reservations
    ensures v.eps == w.eps[e := w.eps[e].(phase := Released, owned := false, released := true, active := false)]
  {
    RecordedWhileHolding(w, e);
    v := ReleaseStarts(w, e);
    v := ReleaseEnds(v, e);
  }

  /** A lease that was handed over, or whose handover failed after it was given up, ends without
      touching anything shared, also while somebody else holds the gate. */
  lemma HandedOverIsReleased(w: World, e: Id) returns (v: World)
    requires IsReachable(w) && Live(w, e) && w.eps[e].phase.Leased? && !w.eps[e].released && !w.eps[e].owned
    ensures IsReachable(v) && v == w.(eps := v.eps) && v.eps == w.eps[e := w.eps[e].(phase := Released, released := true, active := false)]
  {
    ReachableFiles(w);
    assert LocalOk(w.eps[e]);
    v := Go(w, Step(e, CallRelease));
    v := Go(v, Step(e, ReleaseUnowned));
    assert v.eps == w.eps[e := w.eps[e].(phase := Released, released := true, active := false)];
  }

  /** A busy gate is not waited for: the withdrawal is left out, a release throws and leaves its record
      and a handover fails; the shared files stay as they are. */
  lemma BusyGateIsNotAwaited(w: World, e: Id)
    requires IsReachable(w) && Live(w, e) && w.gate.Some?
    ensures w.eps[e].phase.Failing? ==>
              Enabled(w, Step(e, WithdrawBusy)) && Apply(w, Step(e, WithdrawBusy)) == w.(eps := w.eps[e := w.eps[e].(phase := Abandoned)])
    ensures w.eps[e].phase.Leased? && w.eps[e].released && w.eps[e].owned && w.eps[e].handoff.Quiet? ==>
              Enabled(w, Step(e, ReleaseBusy)) && Apply(w, Step(e, ReleaseBusy)) == w.(eps := w.eps[e := w.eps[e].(phase := Stranded)])
    ensures w.eps[e].handoff.Stopped? ==>
              Enabled(w, Step(e, CommitBusy)) && Apply(w, Step(e, CommitBusy)) == w.(eps := w.eps[e := w.eps[e].(handoff := Failed)])
  {}

  /** A requester that gives up under the gate leaves neither a reservation nor a record of its own,
      and those of others as they were. */
  lemma WithdrawalCompletes(w: World, e: Id) returns (v: World)
    requires IsReachable(w) && Live(w, e) && w.gate.None? && w.eps[e].phase.Failing?
    ensures IsReachable(v) && v.gate == None && v.reservations == w.reservations - {e} && v.file == (if w.file == Some(e) then None else w.file)
    ensures v.eps == w.eps[e := w.eps[e].(phase := Withdrawn)]
  {
    v := Go(w, Step(e, GateWithdraw));
    v := WithdrawalRuns(v, e);
  }

  lemma WithdrawalRuns(w: World, e: Id) returns (v: World)
    requires IsReachable(w) && Live(w, e) && w.eps[e].phase.Withdrawing?
    ensures IsReachable(v) && v.gate == None && v.reservations == w.reservations - {e} && v.file == (if w.file == Some(e) then None else w.file)
    ensures v.eps == w.eps[e := w.eps[e].(phase := Withdrawn)]
  {
    v := Go(w, Step(e, RemoveReservation));
    v := Go(v, Step(e, RemoveOwnRecord));
  }

  // ---- Every gated section ends ----

  /** How many steps are left at most until the gate is given back. */
  function StepsLeft(x: Endpoint): nat {
    if x.phase.Acquiring? || x.phase.Withdrawing? || x.phase.Releasing? || x.handoff.Replacing? then 2
    else if x.handoff.Committing? then 3
    else 1
  }

  function MainAction(w: World, x: Endpoint): Action {
    match x.phase
    case Acquiring =>
      if w.file.Some? && Live(w, w.file.value) then FindOwner
      else if x.takeOver.Some? && w.file.Some? && w.file != x.takeOver then RefuseChanged
      else WriteOwn
    case Recorded => OwnNow
    case Reserving(prior) => if w.file == Some(prior) then WriteReservation else RefuseReserve
    case Withdrawing => RemoveReservation
    case Unreserved => RemoveOwnRecord
    case Releasing => VacateFile
    case _ => FinishRelease
  }

  function HandAction(w: World, x: Endpoint): Action {
    match x.handoff
    case Committing(next) => if next in w.reservations then CommitMatch else CommitDrop
    case Dropped(_) => FinishDrop
    case Replacing(_) => WriteSuccessor
    case _ => ClearReservation
  }

  lemma MainGoesOn(w: World, e: Id, x: Endpoint)
    requires MainGate(x.phase) && !HandGate(x.handoff)
    ensures EnabledAt(w, e, x, MainAction(w, x))
    ensures GateAfter(w, e, MainAction(w, x)) == None
            || (GateAfter(w, e, MainAction(w, x)) == w.gate && StepsLeft(Moved(w, e, x, MainAction(w, x))) < StepsLeft(x))
  {}

  lemma HandGoesOn(w: World, e: Id, x: Endpoint)
    requires HandGate(x.handoff) && (x.handoff.Committing? ==> w.file == Some(e)) && !MainGate(x.phase)
    ensures EnabledAt(w, e, x, HandAction(w, x))
    ensures GateAfter(w, e, HandAction(w, x)) == None
            || (GateAfter(w, e, HandAction(w, x)) == w.gate && StepsLeft(Moved(w, e, x, HandAction(w, x))) < StepsLeft(x))
  {}

  lemma SectionGoesOn(w: World, e: Id) returns (action: Action)
    requires IsReachable(w) && Live(w, e) && w.gate == Some(e)
    ensures EnabledAt(w, e, w.eps[e], action)
    ensures GateAfter(w, e, action) == None || (GateAfter(w, e, action) == w.gate && StepsLeft(Moved(w, e, w.eps[e], action)) < StepsLeft(w.eps[e]))
  {
    ReachableInv(w);
    var x := w.eps[e];
    assert LocalOk(x) && InGate(x);
    if MainGate(x.phase) {
      MainGoesOn(w, e, x);
      action := MainAction(w, x);
    } else {
      HandGoesOn(w, e, x);
      action := HandAction(w, x);
    }
  }

  /** No gated section gets stuck: from every reachable state in which a live endpoint holds the gate,
      its own steps give it back, whatever the files hold, and no other endpoint changes. */
  lemma {:induction false} GateIsGivenBack(w: World, e: Id) returns (v: World)
    requires IsReachable(w) && Live(w, e) && w.gate == Some(e)
    ensures IsReachable(v) && v.gate == None && v.eps.Keys == w.eps.Keys && forall o | o in w.eps && o != e :: v.eps[o] == w.eps[o]
    decreases StepsLeft(w.eps[e])
  {
    var action := SectionGoesOn(w, e);
    v := Go(w, Step(e, action));
    if v.gate != None {
      StaysLive(w, e, action);
      v := GateIsGivenBack(v, e);
    }
  }

  lemma StaysLive(w: World, e: Id, action: Action)
    requires IsReachable(w) && Enabled(w, Step(e, action))
    ensures Live(Apply(w, Step(e, action)), e) && Apply(w, Step(e, action)).eps.Keys == w.eps.Keys
  {
    ReachableInv(w);
    StepIsMove(w, e, action);
  }

  // ---- The window of SingleOwner is real ----

  const OWNER := Endpoint(true, None, Leased, Quiet, true, true, true, false, None, false)

  lemma OwnerRecorded() returns (w: World)
    ensures IsReachable(w)
    ensures w == World(map[0 := Endpoint(true, None, Recorded, Quiet, false, false, false, false, None, false)], Some(0), {}, Some(0), {})
  {
    var none: seq<Event> := [];
    assert IsRun([INIT], none) && [INIT][|none|] == INIT;
    w := Go(INIT, Listen(0, None));
    w := Go(w, Step(0, GateAcquire));
    w := Go(w, Step(0, WriteOwn));
    assert w.eps == map[0 := w.eps[0]];
  }

  lemma OwnerAlone() returns (w: World)
    ensures IsReachable(w) && w == World(map[0 := OWNER], Some(0), {}, None, {})
  {
    w := OwnerRecorded();
    w := Go(w, Step(0, OwnNow));
    w := Go(w, Step(0, Activate));
    assert w.eps == map[0 := OWNER];
  }

  /** The owner's process ends, and the endpoint told to take over from it gets the lease. */
  lemma CrashedOwnerIsFollowed() returns (w: World)
    ensures IsReachable(w) && !Live(w, 0) && Live(w, 1) && w.eps[1].takeOver == Some(0)
    ensures w.eps[1].phase.Leased? && w.eps[1].owned && w.file == Some(1)
  {
    w := OwnerAlone();
    w := Go(w, Crash({0}));
    w := Go(w, Listen(1, Some(0)));
    w := Go(w, Step(1, GateAcquire));
    w := DeadOwnerIsReplaced(w, 1);
  }

  lemma RequesterFoundOwner() returns (w: World)
    ensures IsReachable(w) && w.eps.Keys == {0, 1} && w.eps[0] == OWNER
    ensures w.eps[1] == Endpoint(true, Some(0), Contending(0), Quiet, false, false, false, false, None, false)
    ensures w == World(w.eps, Some(0), {}, None, {})
  {
    w := OwnerAlone();
    w := Go(w, Listen(1, Some(0)));
    w := Go(w, Step(1, GateAcquire));
    w := Go(w, Step(1, FindOwner));
  }

  lemma OwnerAndRequester() returns (w: World)
    ensures IsReachable(w) && w.eps.Keys == {0, 1} && w.eps[0] == OWNER && w.eps[1].live && w.eps[1].phase == Requesting(0)
    ensures w == World(w.eps, Some(0), {1}, None, {(0, 1)})
  {
    w := RequesterFoundOwner();
    w := Go(w, Step(1, GateReserve));
    w := Go(w, Step(1, WriteReservation));
  }

  lemma OwnerCommitting() returns (w: World)
    ensures IsReachable(w) && w.eps.Keys == {0, 1} && w.eps[1].live && w.eps[1].phase == Requesting(0)
    ensures w == World(w.eps, Some(0), {1}, Some(0), w.requests) && w.eps[0].live && w.eps[0].owned && w.eps[0].handoff == Committing(1)
  {
    w := OwnerAndRequester();
    w := Go(w, Step(0, Takeover(1)));
    w := Go(w, Step(0, StopResolves));
    w := Go(w, Step(0, GateCommit));
  }

  lemma OwnerMatched() returns (w: World)
    ensures IsReachable(w) && w.eps.Keys == {0, 1} && w.eps[1].live && w.eps[1].phase == Requesting(0)
    ensures w == World(w.eps, Some(0), {1}, Some(0), w.requests) && w.eps[0].live && w.eps[0].owned && w.eps[0].handoff == Replacing(1)
  {
    w := OwnerCommitting();
    w := Go(w, Step(0, CommitMatch));
  }

  lemma RequesterAssigned() returns (w: World)
    ensures IsReachable(w) && w.eps.Keys == {0, 1} && w.eps[1].live && w.eps[1].phase == Requesting(0)
    ensures w == World(w.eps, Some(1), {}, None, w.requests) && w.eps[0].live && w.eps[0].owned && w.eps[0].handoff == Unlocked(1)
  {
    w := OwnerMatched();
    w := Go(w, Step(0, WriteSuccessor));
    w := Go(w, Step(0, ClearReservation));
  }

  lemma RequesterWithdrawing() returns (w: World)
    ensures IsReachable(w) && w.eps.Keys == {0, 1} && w.eps[1].live && w.eps[1].phase == Withdrawing
    ensures w.file == Some(1) && w.gate == Some(1) && w.eps[0].live && w.eps[0].owned
  {
    w := RequesterAssigned();
    w := Go(w, Step(1, Fail));
    w := Go(w, Step(1, GateWithdraw));
  }

  lemma RequesterWithdrew() returns (w: World)
    ensures IsReachable(w) && w.eps.Keys == {0, 1}
    ensures w.file == None && w.gate == None && w.eps[0].live && w.eps[0].owned
  {
    w := RequesterWithdrawing();
    w := Go(w, Step(1, RemoveReservation));
    w := Go(w, Step(1, RemoveOwnRecord));
  }

  /** The window of SingleOwner is real: the requester gives up and withdraws, and a third endpoint
      acquires, all before the old owner clears its flag. */
  lemma TwoOwnedFlags() returns (w: World)
    ensures IsReachable(w) && Live(w, 0) && Live(w, 2) && w.eps[0].owned && w.eps[2].owned
  {
    w := RequesterWithdrew();
    w := Go(w, Listen(2, None));
    w := Go(w, Step(2, GateAcquire));
    w := Go(w, Step(2, WriteOwn));
    w := Go(w, Step(2, OwnNow));
  }

  lemma Go(w: World, ev: Event) returns (v: World)
    requires IsReachable(w) && Enabled(w, ev)
    ensures IsReachable(v) && v == Apply(w, ev)
  {
    var ws, events :| IsRun(ws, events) && ws[|events|] == w;
    v := Apply(w, ev);
    assert IsRun(ws + [v], events + [ev]) && (ws + [v])[|events + [ev]|] == v;
  }
}

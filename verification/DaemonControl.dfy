/** Restarting the Codex daemon on request: the intent is written to disk before the native restart
    is dispatched, and a Controller may crash at any point. */
module DaemonControl {

  datatype Option<+T> = None | Some(value: T)

  type Revision = nat
  type Operation = nat

  datatype Phase = Idle | Restarting | Ready | FailedPhase | Unknown

  datatype Status = Status(revision: Revision, phase: Phase, operation: Option<Operation>)

  datatype NativeOutcome = Returned | OutcomeUnknown | Rejected

  datatype Initialization = NotStarted | Done | Broken

  /** An accepted restart that is on disk; its native call is the next thing to happen. */
  datatype Intent = Intent(consumed: Revision, next: Status)

  datatype Answer = Answered(status: Status) | Conflict | InProgress | Unavailable

  /** A Controller process and its disk.  `running` is the dispatched restart whose completion is
      outstanding, with the outcome of the native call once it is over. */
  datatype Controller = Controller(
    disk: Option<Status>,
    init: Initialization,
    state: Status,                                   // meaningful once initialized
    accepting: Option<Intent>,
    running: map<Revision, (Operation, Option<NativeOutcome>)>)

  function InitializedC(c: Controller, saved: bool, newRevision: Revision): Controller {
    if !c.init.NotStarted? then c
    else if c.disk.None? then
      var idle := Status(newRevision, Idle, None);
      if saved then c.(disk := Some(idle), init := Done, state := idle) else c.(init := Broken)
    else if c.disk.value.phase.Restarting? then
      var unknown := c.disk.value.(phase := Unknown);
      if saved then c.(disk := Some(unknown), init := Done, state := unknown) else c.(init := Broken, state := c.disk.value)
    else c.(init := Done, state := c.disk.value)
  }

  /** The answer to a request, and the Controller after it up to the durable write. */
  function RequestedC(c: Controller, operation: Operation, revision: Revision, saved: bool, newRevision: Revision): (Answer, Controller) {
    if !c.init.Done? then (Unavailable, c)
    else if c.state.operation == Some(operation) then (Answered(c.state), c)
    else if revision != c.state.revision then (Conflict, c)
    else if c.state.phase.Restarting? then (InProgress, c)
    else if !saved then (Unavailable, c)
    else
      var next := Status(newRevision, Restarting, Some(operation));
      (Answered(next), c.(disk := Some(next), accepting := Some(Intent(revision, next))))
  }

  function DispatchedC(c: Controller): Controller
    requires c.accepting.Some? && c.accepting.value.next.operation.Some?
  {
    var next := c.accepting.value.next;
    c.(state := next, accepting := None, running := c.running[next.revision := (next.operation.value, None)])
  }

  function PhaseOf(outcome: NativeOutcome): Phase {
    match outcome case Returned => Ready case OutcomeUnknown => Unknown case Rejected => FailedPhase
  }

  function CompletedC(c: Controller, r: Revision, saved: bool): Controller
    requires r in c.running && c.running[r].1.Some?
  {
    var (operation, outcome) := c.running[r];
    var c1 := c.(running := c.running - {r});
    if c.state.operation != Some(operation) then c1
    else
      var next := c.state.(phase := PhaseOf(outcome.value));
      if saved then c1.(disk := Some(next), state := next) else c1.(state := next.(phase := Unknown))
  }

  // ---- The object ----

  class CodexDaemonControl {
    var disk: Option<Status>
    var init: Initialization
    var state: Status
    var accepting: Option<Intent>
    var running: map<Revision, (Operation, Option<NativeOutcome>)>

    /** A new process over whatever an earlier one left on disk. */
    constructor (disk: Option<Status>)
      ensures View() == Controller(disk, NotStarted, Status(0, Idle, None), None, map[])
    {
      this.disk, init, state, accepting, running := disk, NotStarted, Status(0, Idle, None), None, map[];
    }

    function View(): Controller
      reads this
    {
      Controller(disk, init, state, accepting, running)
    }

    method Save(next: Status, saved: bool)
      modifies this`disk, this`state
      ensures disk == (if saved then Some(next) else old(disk)) && state == (if saved then next else old(state))
    {
      if saved {
        disk := Some(next);
        state := next;
      }
    }

    method Initialize(saved: bool, newRevision: Revision)
      modifies this
      ensures View() == InitializedC(old(View()), saved, newRevision)
    {
      if !init.NotStarted? { return; }
      if disk.None? {
        Save(Status(newRevision, Idle, None), saved);
        init := if saved then Done else Broken;
        return;
      }
      state := disk.value;
      if state.phase.Restarting? {
        Save(state.(phase := Unknown), saved);
        init := if saved then Done else Broken;
      } else {
        init := Done;
      }
    }

    method Restart(operation: Operation, revision: Revision, saved: bool, newRevision: Revision) returns (answer: Answer)
      requires accepting.None?
      modifies this
      ensures (answer, View()) == RequestedC(old(View()), operation, revision, saved, newRevision)
    {
      if !init.Done? { return Unavailable; }
      if state.operation == Some(operation) { return Answered(state); }
      if revision != state.revision { return Conflict; }
      if state.phase.Restarting? { return InProgress; }
      if !saved { return Unavailable; }
      var next := Status(newRevision, Restarting, Some(operation));
      disk := Some(next);
      accepting := Some(Intent(revision, next));
      return Answered(next);
    }

    method Dispatch()
      requires accepting.Some? && accepting.value.next.operation.Some?
      modifies this
      ensures View() == DispatchedC(old(View()))
    {
      state := accepting.value.next;
      accepting := None;
      running := running[state.revision := (state.operation.value, None)];
    }

    method Complete(r: Revision, saved: bool)
      requires r in running && running[r].1.Some?
      modifies this
      ensures View() == CompletedC(old(View()), r, saved)
    {
      var operation, outcome := running[r].0, running[r].1.value;
      running := running - {r};
      if state.operation != Some(operation) { return; }
      var next := state.(phase := PhaseOf(outcome));
      Save(next, saved);
      if !saved { state := next.(phase := Unknown); }
    }
  }

  // ---- Runs over any number of Controller processes ----

  datatype Event =
    | Initialize(saved: bool, newRevision: Revision)
    | Request(operation: Operation, revision: Revision, saved: bool, newRevision: Revision)
    | Dispatch
    | NativeEnds(r: Revision, outcome: NativeOutcome)
    | Complete(r: Revision, saved: bool)
    | Crash          // the process ends; the next one finds the disk

  /** The Controller, the revisions ever made, and what was dispatched so far: the revision each
      native restart consumed, with the status it was dispatched under. */
  datatype World = World(c: Controller, made: set<Revision>, log: seq<(Revision, Status)>, returned: set<Revision>)

  const INIT := World(Controller(None, NotStarted, Status(0, Idle, None), None, map[]), {}, [], {})

  predicate Enabled(w: World, ev: Event) {
    match ev
    case Initialize(_, newRevision) => newRevision !in w.made
    case Request(_, _, _, newRevision) => newRevision !in w.made && w.c.accepting.None?
    case Dispatch => w.c.accepting.Some? && w.c.accepting.value.next.operation.Some?
    case NativeEnds(r, _) => r in w.c.running && w.c.running[r].1.None?
    case Complete(r, _) => r in w.c.running && w.c.running[r].1.Some? && w.c.accepting.None?
    case Crash => true
  }

  function Apply(w: World, ev: Event): World
    requires Enabled(w, ev)
  {
    match ev
    case Initialize(saved, r) => w.(c := InitializedC(w.c, saved, r), made := w.made + {r})
    case Request(operation, revision, saved, r) => w.(c := RequestedC(w.c, operation, revision, saved, r).1, made := w.made + {r})
    case Dispatch => w.(c := DispatchedC(w.c), log := w.log + [(w.c.accepting.value.consumed, w.c.accepting.value.next)])
    case NativeEnds(r, outcome) =>
      w.(c := w.c.(running := w.c.running[r := (w.c.running[r].0, Some(outcome))]), returned := if outcome.Returned? then w.returned + {r} else w.returned)
    case Complete(r, saved) => w.(c := CompletedC(w.c, r, saved))
    case Crash => w.(c := Controller(w.c.disk, NotStarted, Status(0, Idle, None), None, map[]))
  }

  ghost predicate IsRun(ws: seq<World>, events: seq<Event>) {
    && |ws| == |events| + 1 && ws[0] == INIT
    && (forall i :: 0 <= i < |events| ==> Enabled(ws[i], events[i]) && ws[i + 1] == Apply(ws[i], events[i]))
  }

  predicate StatusOk(w: World, s: Status) {
    && s.revision in w.made
    && (s.phase.Ready? ==> s.revision in w.returned)
    && (forall entry | entry in w.log :: entry.0 != s.revision)
  }

  predicate Inv(w: World) {
    var c := w.c;
    && (c.disk.Some? ==> StatusOk(w, c.disk.value))
    && (c.init.Done? ==> StatusOk(w, c.state) && c.disk.Some? && (c.accepting.None? ==> c.disk.value.revision == c.state.revision))
    && (c.accepting.Some? ==> c.init.Done? && c.accepting.value.consumed == c.state.revision && !c.state.phase.Restarting?
                              && c.disk == Some(c.accepting.value.next) && c.accepting.value.next.phase.Restarting?
                              && c.accepting.value.next.revision != c.state.revision && c.accepting.value.next.operation.Some?)
    && (forall r | r in c.running :: c.init.Done? && c.accepting.None? && r == c.state.revision && c.state.phase.Restarting?
          && c.state.operation == Some(c.running[r].0) && (c.running[r].1 == Some(Returned) ==> r in w.returned))
    && (c.init.Done? && c.state.phase.Restarting? ==> c.state.revision in c.running && c.disk == Some(c.state))
    && (forall i | 0 <= i < |w.log| :: w.log[i].0 in w.made && w.log[i].1.revision in w.made)
    && (forall i, j | 0 <= i < j < |w.log| :: w.log[i].0 != w.log[j].0)
    && w.returned <= w.made
  }

  lemma Kept(w: World, ev: Event)
    requires Inv(w) && Enabled(w, ev)
    ensures Inv(Apply(w, ev))
  {}

  lemma {:induction false} RunKeeps(ws: seq<World>, events: seq<Event>, i: nat)
    requires IsRun(ws, events) && i < |ws|
    ensures Inv(ws[i])
  {
    if i > 0 {
      RunKeeps(ws, events, i - 1);
      Kept(ws[i - 1], events[i - 1]);
    }
  }

  // ---- The main results ----

  /** Whatever requests, failed writes and crashes happen, each revision is consumed by at most one
      native restart, so a request that is sent again is never dispatched again. */
  lemma RevisionsAreConsumedOnce(ws: seq<World>, events: seq<Event>, n: nat, i: nat, j: nat)
    requires IsRun(ws, events) && n < |ws| && i < j < |ws[n].log|
    ensures ws[n].log[i].0 != ws[n].log[j].0
  {
    RunKeeps(ws, events, n);
  }

  /** At the moment of dispatch the intent is on disk and no other restart of this process is
      outstanding. */
  lemma DispatchIsDurableAndAlone(ws: seq<World>, events: seq<Event>, i: nat)
    requires IsRun(ws, events) && i < |events| && events[i].Dispatch?
    ensures ws[i].c.disk == Some(ws[i].c.accepting.value.next) && ws[i].c.running == map[]
    ensures ws[i + 1].c.running.Keys == {ws[i].c.accepting.value.next.revision}
  {
    RunKeeps(ws, events, i);
  }

  /** `ready` is only ever recorded, in memory or on disk, for a restart whose native call returned. */
  lemma ReadyMeansReturned(ws: seq<World>, events: seq<Event>, i: nat)
    requires IsRun(ws, events) && i < |ws|
    ensures ws[i].c.disk.Some? && ws[i].c.disk.value.phase.Ready? ==> ws[i].c.disk.value.revision in ws[i].returned
    ensures ws[i].c.init.Done? && ws[i].c.state.phase.Ready? ==> ws[i].c.state.revision in ws[i].returned
  {
    RunKeeps(ws, events, i);
  }

  // ---- What a caller is told, and what becomes of a restart ----

  ghost predicate IsReachable(w: World) {
    exists ws, events :: IsRun(ws, events) && ws[|events|] == w
  }

  lemma ReachableInv(w: World)
    requires IsReachable(w)
    ensures Inv(w)
  {
    var ws, events :| IsRun(ws, events) && ws[|events|] == w;
    RunKeeps(ws, events, |events|);
  }

  /** A request is answered with a status exactly when it repeats the recorded operation, which then
      changes nothing, or begins a new one: with the current revision, while none is in progress, and
      once it is on disk.  The status is always one of the requested operation. */
  lemma AnswersExactly(w: World, operation: Operation, revision: Revision, saved: bool, newRevision: Revision)
    requires IsReachable(w) && Enabled(w, Request(operation, revision, saved, newRevision))
    ensures var (a, c) := RequestedC(w.c, operation, revision, saved, newRevision);
            var again := w.c.init.Done? && w.c.state.operation == Some(operation);
            var begins := w.c.init.Done? && !again && revision == w.c.state.revision && !w.c.state.phase.Restarting?;
            && (a.Answered? <==> again || (begins && saved)) && (a.Answered? ==> a.status.operation == Some(operation))
            && (a == Conflict <==> w.c.init.Done? && !again && revision != w.c.state.revision)
            && (a == InProgress <==> w.c.init.Done? && !again && revision == w.c.state.revision && w.c.state.phase.Restarting?)
            && (again ==> a.status == w.c.state)
            && (begins && saved ==> a == Answered(Status(newRevision, Restarting, Some(operation))))
            && (begins && saved ==> c == w.c.(disk := Some(a.status), accepting := Some(Intent(revision, a.status))))
            && (!(begins && saved) ==> c == w.c)
  {}

  /** From every reachable state a new operation with the current revision is dispatched, unless one
      is in progress: it is on disk first, and then the one that runs. */
  lemma RestartCanBegin(w: World, operation: Operation, r: Revision)
    requires IsReachable(w) && w.c.init.Done? && w.c.accepting.None? && !w.c.state.phase.Restarting?
    requires w.c.state.operation != Some(operation) && r !in w.made
    ensures var request := Request(operation, w.c.state.revision, true, r);
            && Enabled(w, request) && Enabled(Apply(w, request), Dispatch)
            && var u := Apply(Apply(w, request), Dispatch);
               && u.c.disk == Some(u.c.state) && u.c.state == Status(r, Restarting, Some(operation)) && u.c.init.Done? && u.c.accepting.None?
               && u.c.running == map[r := (operation, None)] && u.log == w.log + [(w.c.state.revision, u.c.state)]
  {
    ReachableInv(w);
  }

  /** The first look at the disk: an interrupted restart becomes unknown, any other status is taken
      over, and without one a first revision is made.  What cannot be saved leaves the Controller
      unavailable and the disk as it was. */
  lemma InitializedExactly(w: World, saved: bool, r: Revision)
    requires IsReachable(w) && w.c.init.NotStarted? && Enabled(w, Initialize(saved, r))
    ensures var c := Apply(w, Initialize(saved, r)).c;
            var asIs := w.c.disk.Some? && !w.c.disk.value.phase.Restarting?;
            && (c.init.Done? <==> saved || asIs) && (c.init.Broken? <==> !c.init.Done?)
            && (c.init.Broken? ==> c.disk == w.c.disk && RequestedC(c, 0, 0, true, 0) == (Unavailable, c))
            && (c.init.Done? ==> c.disk == Some(c.state) && c.state.operation == (if w.c.disk.Some? then w.c.disk.value.operation else None)
                                 && c.state.revision == (if w.c.disk.Some? then w.c.disk.value.revision else r)
                                 && c.state.phase == (if asIs then w.c.disk.value.phase else if w.c.disk.Some? then Unknown else Idle))
            && c.accepting.None? && c.running == map[]
  {
    ReachableInv(w);
  }

  lemma CompletesOwn(w: World, r: Revision, saved: bool)
    requires Inv(w) && Enabled(w, Complete(r, saved))
    ensures var outcome, c := w.c.running[r].1.value, Apply(w, Complete(r, saved)).c;
            && c.state.revision == r && c.state.operation == Some(w.c.running[r].0) && c.running == map[] && c.init.Done?
            && (c.state.phase.Ready? <==> saved && outcome.Returned?)
            && (c.state.phase.FailedPhase? <==> saved && outcome.Rejected?)
            && (c.state.phase.Unknown? <==> !saved || outcome.OutcomeUnknown?)
            && (if saved then c.disk == Some(c.state) else c.disk == w.c.disk && c.disk.value.phase.Restarting?)
  {
    assert forall x | x in w.c.running :: x == r;
  }

  lemma {:induction false} OutcomeWaits(ws: seq<World>, events: seq<Event>, k: nat, i: nat, r: Revision, outcome: NativeOutcome)
    requires IsRun(ws, events) && k < i < |ws| && events[k] == NativeEnds(r, outcome)
    requires forall m | k < m < i :: !events[m].Crash? && !events[m].Complete?
    ensures r in ws[i].c.running && ws[i].c.running[r] == (ws[k].c.running[r].0, Some(outcome))
  {
    RunKeeps(ws, events, i - 1);
    assert ws[i] == Apply(ws[i - 1], events[i - 1]) && Enabled(ws[i - 1], events[i - 1]);
    if i > k + 1 { OutcomeWaits(ws, events, k, i - 1, r, outcome); }
  }

  /** What the native call came to is what is recorded, unless the process ends first: `ready` for one
      that returned, `failed` for one that was refused, and `unknown` when nobody knows or the result
      could not be saved.  On disk there is the same, or still the intent. */
  lemma OutcomeIsRecorded(ws: seq<World>, events: seq<Event>, k: nat, i: nat, r: Revision, outcome: NativeOutcome, saved: bool)
    requires IsRun(ws, events) && k < i < |events| && events[k] == NativeEnds(r, outcome) && events[i] == Complete(r, saved)
    requires forall m | k < m < i :: !events[m].Crash? && !events[m].Complete?
    ensures var c := ws[i + 1].c;
            && c.state.revision == r && c.state.operation == Some(ws[k].c.running[r].0) && c.running == map[]
            && (c.state.phase.Ready? <==> saved && outcome.Returned?)
            && (c.state.phase.FailedPhase? <==> saved && outcome.Rejected?)
            && (c.state.phase.Unknown? <==> !saved || outcome.OutcomeUnknown?)
            && (if saved then c.disk == Some(c.state) else c.disk.Some? && c.disk == ws[i].c.disk && c.disk.value.phase.Restarting?)
  {
    OutcomeWaits(ws, events, k, i, r, outcome);
    RunKeeps(ws, events, i);
    CompletesOwn(ws[i], r, saved);
  }

  lemma {:induction false} IntentStays(ws: seq<World>, events: seq<Event>, d: nat, i: nat)
    requires IsRun(ws, events) && d < i < |ws| && events[d].Dispatch?
    requires forall m | d < m < i :: !events[m].Complete? && !events[m].Initialize?
    ensures ws[i].c.disk == Some(ws[d].c.accepting.value.next) && ws[i].c.disk.value.phase.Restarting?
    ensures ws[i].c.init.NotStarted? || (ws[i].c.init.Done? && ws[i].c.accepting.None? && ws[i].c.disk == Some(ws[i].c.state))
    ensures (exists m :: d < m < i && events[m].Crash?) ==> ws[i].c.init.NotStarted?
  {
    RunKeeps(ws, events, d);
    RunKeeps(ws, events, i - 1);
    assert ws[i] == Apply(ws[i - 1], events[i - 1]) && Enabled(ws[i - 1], events[i - 1]);
    if i > d + 1 {
      IntentStays(ws, events, d, i - 1);
      assert ws[i - 1].c.disk == ws[i].c.disk;
    }
  }

  /** A restart whose process ends before its completion is recorded as unknown by the next process,
      under its own operation and revision, so that a caller who asks again learns just that. */
  lemma InterruptedIsUnknown(ws: seq<World>, events: seq<Event>, d: nat, c: nat, i: nat, saved: bool, newRevision: Revision)
    requires IsRun(ws, events) && d < c < i < |events| && events[d].Dispatch? && events[c].Crash? && events[i] == Initialize(saved, newRevision)
    requires forall m | d < m < i :: !events[m].Complete? && !events[m].Initialize?
    ensures var intent, w := ws[d].c.accepting.value.next, ws[i + 1];
            && (saved ==> w.c.init.Done? && w.c.state == intent.(phase := Unknown) && w.c.disk == Some(w.c.state))
            && (!saved ==> w.c.init.Broken? && w.c.disk == Some(intent))
  {
    IntentStays(ws, events, d, i);
    RunKeeps(ws, events, i);
    assert ws[i + 1] == Apply(ws[i], events[i]);
  }

  lemma Go(w: World, ev: Event) returns (v: World)
    requires IsReachable(w) && Enabled(w, ev)
    ensures IsReachable(v) && v == Apply(w, ev)
  {
    var ws, events :| IsRun(ws, events) && ws[|events|] == w;
    v := Apply(w, ev);
    assert IsRun(ws + [v], events + [ev]) && (ws + [v])[|events + [ev]|] == v;
  }

  lemma Dispatched() returns (w: World)
    ensures IsReachable(w) && w.c.disk == Some(Status(2, Restarting, Some(7))) && w.c.accepting.None?
    ensures w.made == {1, 2} && w.c.running == map[2 := (7, None)] && w.c.state == w.c.disk.value && w.c.init.Done?
  {
    var none: seq<Event> := [];
    assert IsRun([INIT], none) && [INIT][|none|] == INIT;
    w := Go(INIT, Initialize(true, 1));
    w := Go(w, Request(7, 1, true, 2));
    w := Go(w, Dispatch);
  }

  /** A run in which a refused restart is recorded, asked for again, and followed by another one. */
  lemma FailureIsAnswered() returns (w: World)
    ensures IsReachable(w) && w.c.init.Done? && w.c.state == Status(2, FailedPhase, Some(7)) && w.c.disk == Some(w.c.state)
    ensures Enabled(w, Request(7, 1, true, 3)) && RequestedC(w.c, 7, 1, true, 3) == (Answered(w.c.state), w.c)
    ensures Enabled(w, Request(8, 2, true, 3)) && RequestedC(w.c, 8, 2, true, 3).0 == Answered(Status(3, Restarting, Some(8)))
  {
    w := Dispatched();
    w := Go(w, NativeEnds(2, Rejected));
    w := Go(w, Complete(2, true));
  }

  /** A run in which the process ends while a restart is out. */
  lemma CrashIsUnknown() returns (w: World)
    ensures IsReachable(w) && w.c.init.Done? && w.c.state == Status(2, Unknown, Some(7)) && w.c.disk == Some(w.c.state)
  {
    w := Dispatched();
    w := Go(w, Crash);
    w := Go(w, Initialize(true, 3));
  }
}

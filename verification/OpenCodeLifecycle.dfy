/** Stopping the managed OpenCode server while older starts may still be under way.

    A start launches a supervisor process with the preference revision it saw.  The supervisor
    publishes a marker file and only then reads the preference; a stop writes a new preference and
    only then lists the markers.  Processes share nothing but these files and control requests. */
module OpenCodeLifecycle {

  datatype Option<+T> = None | Some(value: T)

  /** Revisions are fresh identifiers; here they are numbered in the order of their writes, with 0
      for the revision of a preference that was never written. */
  type Revision = nat
  type Id = nat

  datatype Preference = Preference(enabled: bool, revision: Revision)

  datatype Stage =
    | Launched
    | Marked                        // the marker file is written
    | Read(saw: Option<Revision>)   // the revision read, none when disabled
    | Spawned
    | Finishing                     // the final block waits for the process tree
    | Cleaning                      // that wait ended, one way or the other
    | Gone                          // the marker is removed

  datatype Supervisor = Supervisor(
    expected: Revision,             // the revision it was launched under
    stage: Stage,
    stopping: bool,
    native: bool,                   // its native process tree runs
    marker: bool,
    orphaned: bool,                 // the final wait gave up on the tree
    crashed: bool)

  /** A `stop` command (or the first half of a `restart`). */
  datatype Stop =
    | Wrote(revision: Revision)
    | Named(revision: Revision, names: set<Id>)             // the directory was listed
    | Listed(revision: Revision, todo: set<Id>)             // the records were read
    | Checked(revision: Revision, todo: set<Id>, next: Id)  // revision still current before this request
    | Asked(revision: Revision, todo: set<Id>, next: Id)    // the stop request arrived
    | Succeeded(revision: Revision)
    | Threw(revision: Revision)

  datatype World = World(pref: Preference, sups: map<Id, Supervisor>, owner: Option<Id>, stops: map<Id, Stop>)

  const INIT := World(Preference(true, 0), map[], None, map[])

  datatype Event =
    | Enable                              // `start` or the second half of `restart`
    | Launch(s: Id, revision: Revision)   // a start spawns a supervisor
    | WriteMarker(s: Id)
    | ReadPreference(s: Id)
    | CheckAndSpawn(s: Id)
    | Recheck(s: Id)                      // the repeated check while the native server starts
    | PublishOwner(s: Id)
    | NativeExits(s: Id)
    | GiveUp(s: Id)                       // any other failure, signal or end of the native process
    | TreeGone(s: Id)                     // a stopping tree is confirmed to be gone
    | FinishConfirmed(s: Id)
    | FinishUnconfirmed(s: Id)
    | RemoveMarker(s: Id)
    | SupervisorCrash(s: Id)
    | StopWrites(c: Id)
    | StopNames(c: Id)
    | StopReads(c: Id, todo: set<Id>)
    | StopSkips(c: Id, s: Id)             // no answer to the status request
    | StopChecks(c: Id, s: Id)
    | StopAsks(c: Id)
    | StopConfirmed(c: Id)
    | StopSuperseded(c: Id)
    | StopFails(c: Id)
    | StopSucceeds(c: Id)

  function Visible(p: Preference): Option<Revision> {
    if p.enabled then Some(p.revision) else None
  }

  function Markers(w: World): set<Id> {
    set s | s in w.sups && w.sups[s].marker
  }

  /** The generations recorded in the marker files and in the owner file. */
  function Recorded(w: World): set<Id> {
    Markers(w) + (if w.owner.Some? then {w.owner.value} else {})
  }

  predicate Up(w: World, s: Id) {
    s in w.sups && !w.sups[s].crashed && !w.sups[s].stage.Gone?
  }

  predicate Enabled(w: World, ev: Event) {
    match ev
    case Enable => true
    case Launch(s, r) => s !in w.sups && r <= w.pref.revision
    case WriteMarker(s) => Up(w, s) && w.sups[s].stage.Launched?
    case ReadPreference(s) => Up(w, s) && w.sups[s].stage.Marked?
    case CheckAndSpawn(s) => Up(w, s) && w.sups[s].stage.Read?
    case Recheck(s) => Up(w, s) && w.sups[s].stage.Spawned? && (w.sups[s].stopping || Visible(w.pref) != Some(w.sups[s].expected))
    case PublishOwner(s) => Up(w, s) && w.sups[s].stage.Spawned?
    case NativeExits(s) => Up(w, s) && w.sups[s].native
    case GiveUp(s) => Up(w, s) && !w.sups[s].stage.Finishing? && !w.sups[s].stage.Cleaning?
    case TreeGone(s) => Up(w, s) && w.sups[s].stopping
    case FinishConfirmed(s) => Up(w, s) && w.sups[s].stage.Finishing? && !w.sups[s].native
    case FinishUnconfirmed(s) => Up(w, s) && w.sups[s].stage.Finishing?
    case RemoveMarker(s) => Up(w, s) && w.sups[s].stage.Cleaning?
    case SupervisorCrash(s) => Up(w, s)
    case StopWrites(c) => c !in w.stops
    case StopNames(c) => c in w.stops && w.stops[c].Wrote?
    // A record that was removed after the listing is left out.
    case StopReads(c, todo) => c in w.stops && w.stops[c].Named? && w.stops[c].names * Recorded(w) <= todo <= w.stops[c].names
    // Live supervisors answer: only a supervisor that ended is passed over.
    case StopSkips(c, s) => c in w.stops && w.stops[c].Listed? && s in w.stops[c].todo && !Up(w, s)
    case StopChecks(c, s) => c in w.stops && w.stops[c].Listed? && s in w.stops[c].todo && Up(w, s) && w.pref.revision == w.stops[c].revision
    case StopAsks(c) => c in w.stops && w.stops[c].Checked? && Up(w, w.stops[c].next)
    // The supervisor reports that it no longer runs only once its tree is gone.
    case StopConfirmed(c) => c in w.stops && w.stops[c].Asked? && w.stops[c].next in w.sups && !w.sups[w.stops[c].next].native
    case StopSuperseded(c) => c in w.stops && w.stops[c].Listed? && w.pref.revision != w.stops[c].revision
    case StopFails(c) => c in w.stops && !w.stops[c].Succeeded?
    case StopSucceeds(c) => c in w.stops && w.stops[c].Listed? && w.stops[c].todo == {} && w.pref.revision == w.stops[c].revision
  }

  function Supervised(w: World, ev: Event): World
    requires Enabled(w, ev)
    requires ev.WriteMarker? || ev.ReadPreference? || ev.CheckAndSpawn? || ev.Recheck? || ev.NativeExits? || ev.GiveUp?
             || ev.TreeGone? || ev.FinishConfirmed? || ev.FinishUnconfirmed? || ev.RemoveMarker? || ev.SupervisorCrash?
  {
    var x := w.sups[ev.s];
    var y := match ev
      case WriteMarker(_) => x.(stage := Marked, marker := true)
      case ReadPreference(_) => x.(stage := Read(Visible(w.pref)))
      case CheckAndSpawn(_) =>
        if !x.stopping && x.stage.saw == Some(x.expected) then x.(stage := Spawned, native := true)
        else x.(stage := Finishing, stopping := true)
      case NativeExits(_) => x.(native := false)
      case TreeGone(_) => x.(native := false)
      case FinishConfirmed(_) => x.(stage := Cleaning)
      case FinishUnconfirmed(_) => x.(stage := Cleaning, orphaned := x.native)
      case RemoveMarker(_) => x.(stage := Gone, marker := false)
      case SupervisorCrash(_) => x.(crashed := true)
      case _ => x.(stage := Finishing, stopping := true);
    w.(sups := w.sups[ev.s := y])
  }

  function Apply(w: World, ev: Event): World
    requires Enabled(w, ev)
  {
    match ev
    case Enable => w.(pref := Preference(true, w.pref.revision + 1))
    case Launch(s, r) => w.(sups := w.sups[s := Supervisor(r, Launched, false, false, false, false, false)])
    case PublishOwner(s) => w.(owner := Some(s))
    case StopWrites(c) =>
      w.(pref := Preference(false, w.pref.revision + 1), stops := w.stops[c := Wrote(w.pref.revision + 1)])
    case StopNames(c) => w.(stops := w.stops[c := Named(w.stops[c].revision, Recorded(w))])
    case StopReads(c, todo) => w.(stops := w.stops[c := Listed(w.stops[c].revision, todo)])
    case StopSkips(c, s) => w.(stops := w.stops[c := Listed(w.stops[c].revision, w.stops[c].todo - {s})])
    case StopChecks(c, s) => w.(stops := w.stops[c := Checked(w.stops[c].revision, w.stops[c].todo, s)])
    case StopAsks(c) =>
      var x := w.sups[w.stops[c].next];
      World(w.pref, w.sups[w.stops[c].next := x.(stopping := true)], w.owner,
            w.stops[c := Asked(w.stops[c].revision, w.stops[c].todo, w.stops[c].next)])
    case StopConfirmed(c) => w.(stops := w.stops[c := Listed(w.stops[c].revision, w.stops[c].todo - {w.stops[c].next})])
    case StopSuperseded(c) => w.(stops := w.stops[c := Threw(w.stops[c].revision)])
    case StopFails(c) => w.(stops := w.stops[c := Threw(w.stops[c].revision)])
    case StopSucceeds(c) => w.(stops := w.stops[c := Succeeded(w.stops[c].revision)])
    case _ => Supervised(w, ev)
  }

  // ---- What every step keeps ----

  predicate SupervisorOk(w: World, x: Supervisor) {
    && x.expected <= w.pref.revision
    && (x.native ==> x.stage.Spawned? || x.stage.Finishing? || x.orphaned)
    && (x.stage.Marked? || x.stage.Read? || x.stage.Spawned? || (x.native && !x.orphaned) ==> x.marker)
    && (x.stage.Finishing? || x.stage.Cleaning? ==> x.stopping)
    && (x.orphaned ==> x.stage.Cleaning? || x.stage.Gone?)
    && (x.stage.Read? && x.stage.saw.Some? ==> x.stage.saw.value <= w.pref.revision)
  }

  /** Its native process runs or may still be spawned, and a live supervisor is responsible for it. */
  predicate Hazard(x: Supervisor) {
    !x.orphaned && !x.crashed && (x.native || (x.stage == Read(Some(x.expected)) && !x.stopping))
  }

  /** A supervisor launched no later than the stop's own revision is still to be dealt with. */
  predicate Pending(w: World, s: Id, r: Revision) {
    s in w.sups && w.sups[s].expected <= r && Hazard(w.sups[s])
  }

  ghost predicate StopOk(w: World, k: Stop) {
    && k.revision <= w.pref.revision
    && (k.revision == w.pref.revision ==> !w.pref.enabled)
    && (forall s | s in w.sups && w.sups[s].stage.Read? :: w.sups[s].stage.saw != Some(k.revision))
    && (k.Named? ==> forall s | Pending(w, s, k.revision) :: s in k.names)
    && (k.Listed? || k.Checked? || k.Asked? ==> forall s | Pending(w, s, k.revision) :: s in k.todo)
    && (k.Checked? || k.Asked? ==> k.next in w.sups && w.sups[k.next].expected <= k.revision)
    && (k.Asked? ==> w.sups[k.next].stopping)
    && (k.Succeeded? ==> forall s :: !Pending(w, s, k.revision))
  }

  ghost predicate Inv(w: World) {
    && (forall s | s in w.sups :: SupervisorOk(w, w.sups[s]))
    && (forall c | c in w.stops :: StopOk(w, w.stops[c]))
  }

  lemma SupervisorsKept(w: World, ev: Event)
    requires Inv(w) && Enabled(w, ev)
    ensures var v := Apply(w, ev); forall s | s in v.sups :: SupervisorOk(v, v.sups[s])
  {
    var v := Apply(w, ev);
    forall s | s in v.sups ensures SupervisorOk(v, v.sups[s]) {
      if s in w.sups { assert SupervisorOk(w, w.sups[s]); }
    }
  }

  /** After a stop wrote its preference, no supervisor launched up to then becomes a new hazard. */
  lemma NoNewHazard(w: World, ev: Event, c: Id, s: Id)
    requires Inv(w) && Enabled(w, ev) && c in w.stops && Pending(Apply(w, ev), s, w.stops[c].revision)
    ensures Pending(w, s, w.stops[c].revision)
  {
    assert StopOk(w, w.stops[c]);
    if s in w.sups { assert SupervisorOk(w, w.sups[s]); }
  }

  lemma NewStopKept(w: World, c: Id)
    requires Inv(w) && c !in w.stops
    ensures StopOk(Apply(w, StopWrites(c)), Apply(w, StopWrites(c)).stops[c])
  {
    forall s | s in w.sups ensures SupervisorOk(w, w.sups[s]) {}
  }

  predicate OwnStep(ev: Event, c: Id) {
    (ev.StopNames? || ev.StopReads? || ev.StopSkips? || ev.StopChecks? || ev.StopAsks? || ev.StopConfirmed? || ev.StopSuperseded?
     || ev.StopFails? || ev.StopSucceeds?) && ev.c == c
  }

  lemma OwnStopKept(w: World, ev: Event, c: Id, v: World)
    requires Inv(w) && Enabled(w, ev) && OwnStep(ev, c) && v == Apply(w, ev) && c in w.stops
    requires forall s | Pending(v, s, w.stops[c].revision) :: Pending(w, s, w.stops[c].revision)
    ensures c in v.stops && StopOk(v, v.stops[c])
  {
    assert StopOk(w, w.stops[c]);
  }

  /** What the steps of others leave to a stop: newer preferences only, and supervisors that keep
      what they were told. */
  ghost predicate Leaves(w: World, v: World) {
    && v.pref.revision >= w.pref.revision && (v.pref.revision == w.pref.revision ==> v.pref == w.pref)
    && (forall s | s in w.sups :: s in v.sups && v.sups[s].expected == w.sups[s].expected && (w.sups[s].stopping ==> v.sups[s].stopping))
    && (forall s | s in v.sups && v.sups[s].stage.Read? :: (s in w.sups && v.sups[s].stage == w.sups[s].stage) || v.sups[s].stage.saw == Visible(w.pref))
  }

  predicate StopStep(ev: Event) {
    ev.StopWrites? || ev.StopNames? || ev.StopReads? || ev.StopSkips? || ev.StopChecks? || ev.StopAsks? || ev.StopConfirmed? || ev.StopSuperseded?
    || ev.StopFails? || ev.StopSucceeds?
  }

  lemma StopsLeave(w: World, ev: Event, c: Id, v: World)
    requires Enabled(w, ev) && StopStep(ev) && !OwnStep(ev, c) && v == Apply(w, ev) && c in w.stops
    ensures c in v.stops && v.stops[c] == w.stops[c] && Leaves(w, v)
  {}

  lemma SupervisorsLeave(w: World, ev: Event, c: Id, v: World)
    requires Enabled(w, ev) && !StopStep(ev) && v == Apply(w, ev) && c in w.stops
    ensures c in v.stops && v.stops[c] == w.stops[c] && Leaves(w, v)
  {}

  lemma OthersLeave(w: World, ev: Event, c: Id, v: World)
    requires Enabled(w, ev) && !OwnStep(ev, c) && v == Apply(w, ev) && c in w.stops
    ensures c in v.stops && v.stops[c] == w.stops[c] && Leaves(w, v)
  {
    if StopStep(ev) { StopsLeave(w, ev, c, v); } else { SupervisorsLeave(w, ev, c, v); }
  }

  lemma OtherStopKept(w: World, v: World, k: Stop)
    requires StopOk(w, k) && Leaves(w, v) && forall s | Pending(v, s, k.revision) :: Pending(w, s, k.revision)
    ensures StopOk(v, k)
  {}

  lemma StopKept(w: World, ev: Event, c: Id)
    requires Inv(w) && Enabled(w, ev) && c in Apply(w, ev).stops
    ensures StopOk(Apply(w, ev), Apply(w, ev).stops[c])
  {
    if c in w.stops {
      forall s | Pending(Apply(w, ev), s, w.stops[c].revision) ensures Pending(w, s, w.stops[c].revision) { NoNewHazard(w, ev, c, s); }
      if OwnStep(ev, c) {
        OwnStopKept(w, ev, c, Apply(w, ev));
      } else {
        OthersLeave(w, ev, c, Apply(w, ev));
        OtherStopKept(w, Apply(w, ev), w.stops[c]);
      }
    } else {
      assert ev == StopWrites(c);
      NewStopKept(w, c);
    }
  }

  lemma Kept(w: World, ev: Event)
    requires Inv(w) && Enabled(w, ev)
    ensures Inv(Apply(w, ev))
  {
    SupervisorsKept(w, ev);
    forall c | c in Apply(w, ev).stops ensures StopOk(Apply(w, ev), Apply(w, ev).stops[c]) { StopKept(w, ev, c); }
  }

  // ---- Whole runs ----

  ghost predicate IsRun(ws: seq<World>, events: seq<Event>) {
    && |ws| == |events| + 1 && ws[0] == INIT
    && (forall i :: 0 <= i < |events| ==> Enabled(ws[i], events[i]) && ws[i + 1] == Apply(ws[i], events[i]))
  }

  lemma {:induction false} RunKeeps(ws: seq<World>, events: seq<Event>, i: nat)
    requires IsRun(ws, events) && i < |ws|
    ensures Inv(ws[i])
  {
    if i > 0 {
      RunKeeps(ws, events, i - 1);
      Kept(ws[i - 1], events[i - 1]);
    }
  }

  lemma StepAt(ws: seq<World>, events: seq<Event>, i: nat) returns (w: World, ev: Event, v: World)
    requires IsRun(ws, events) && i < |events|
    ensures w == ws[i] && ev == events[i] && v == ws[i + 1] && Inv(w) && Enabled(w, ev) && v == Apply(w, ev)
  {
    w, ev, v := ws[i], events[i], ws[i + 1];
    RunKeeps(ws, events, i);
  }

  lemma {:induction false} SuccessStays(ws: seq<World>, events: seq<Event>, c: Id, i: nat, j: nat)
    requires IsRun(ws, events) && i <= j < |ws| && c in ws[i].stops && ws[i].stops[c].Succeeded?
    ensures c in ws[j].stops && ws[j].stops[c] == ws[i].stops[c]
  {
    if i < j {
      SuccessStays(ws, events, c, i, j - 1);
      assert ws[j] == Apply(ws[j - 1], events[j - 1]);
    }
  }

  /** Whoever spawns after the stop's write was launched by a newer command. */
  lemma SpawnsAreNewer(ws: seq<World>, events: seq<Event>, c: Id, i: nat, s: Id)
    requires IsRun(ws, events) && i < |events| && c in ws[i].stops && ws[i].stops[c].Succeeded?
    requires events[i] == CheckAndSpawn(s) && !ws[i].sups[s].native && ws[i + 1].sups[s].native
    ensures ws[i].sups[s].expected > ws[i].stops[c].revision
  {
    RunKeeps(ws, events, i);
    NotSpawned(ws[i], c, s);
  }

  lemma {:induction false} OldNativeWasThere(ws: seq<World>, events: seq<Event>, c: Id, r: Revision, i: nat, j: nat, s: Id)
    requires IsRun(ws, events) && i <= j < |ws| && c in ws[i].stops && ws[i].stops[c] == Succeeded(r) && OldNative(ws[j], s, r)
    ensures OldNative(ws[i], s, r)
  {
    if i < j {
      SuccessStays(ws, events, c, i, j - 1);
      LeftOverEarlier(ws, events, c, r, j - 1, s);
      OldNativeWasThere(ws, events, c, r, i, j - 1, s);
    }
  }

  /** Once a stop has succeeded, no supervisor launched under its revision or an older one ever gets
      a native process again; one that still has it had it already when the stop succeeded, and by
      then its supervisor had crashed or reported that the process tree would not die. */
  lemma StopBeatsOlderStarts(ws: seq<World>, events: seq<Event>, c: Id, i: nat, j: nat, s: Id)
    requires IsRun(ws, events) && i <= j < |ws| && c in ws[i].stops && ws[i].stops[c].Succeeded?
    requires s in ws[j].sups && ws[j].sups[s].expected <= ws[i].stops[c].revision && ws[j].sups[s].native
    ensures s in ws[i].sups && ws[i].sups[s].native && (ws[i].sups[s].orphaned || ws[i].sups[s].crashed)
  {
    OldNativeWasThere(ws, events, c, ws[i].stops[c].revision, i, j, s);
    RunKeeps(ws, events, i);
    NativeIsLeftOver(ws[i], c, s);
  }

  /** A native process of a supervisor launched under `r` or an older revision. */
  predicate OldNative(w: World, s: Id, r: Revision) {
    s in w.sups && w.sups[s].expected <= r && w.sups[s].native
  }

  lemma LeftOverEarlier(ws: seq<World>, events: seq<Event>, c: Id, r: Revision, i: nat, s: Id)
    requires IsRun(ws, events) && i < |events| && c in ws[i].stops && ws[i].stops[c] == Succeeded(r) && OldNative(ws[i + 1], s, r)
    ensures OldNative(ws[i], s, r)
  {
    var w, ev, v := StepAt(ws, events, i);
    NativeWasThere(w, ev, v, r, c, s);
  }

  lemma NativeIsLeftOver(w: World, c: Id, s: Id)
    requires Inv(w) && c in w.stops && w.stops[c].Succeeded? && s in w.sups && w.sups[s].expected <= w.stops[c].revision && w.sups[s].native
    ensures w.sups[s].orphaned || w.sups[s].crashed
  {
    assert StopOk(w, w.stops[c]);
    assert !Pending(w, s, w.stops[c].revision);
  }

  lemma NativeIsSpawned(w: World, ev: Event, s: Id)
    requires Enabled(w, ev) && s in Apply(w, ev).sups && Apply(w, ev).sups[s].native && !(s in w.sups && w.sups[s].native)
    ensures ev == CheckAndSpawn(s)
  {}

  /** A native process of an older supervisor is not one that was just spawned. */
  lemma NativeWasThere(w: World, ev: Event, v: World, r: Revision, c: Id, s: Id)
    requires Inv(w) && Enabled(w, ev) && v == Apply(w, ev) && c in w.stops && w.stops[c] == Succeeded(r)
    requires OldNative(v, s, r)
    ensures OldNative(w, s, r)
  {
    if s in w.sups { ExpectedStays(w, ev, v, s); }
    if !(s in w.sups && w.sups[s].native) {
      NativeIsSpawned(w, ev, s);
      NotSpawned(w, c, s);
    }
  }

  /** No older supervisor is about to spawn a native process. */
  lemma NotSpawned(w: World, c: Id, s: Id)
    requires Inv(w) && c in w.stops && w.stops[c].Succeeded? && Enabled(w, CheckAndSpawn(s)) && !w.sups[s].native
    ensures w.sups[s].expected <= w.stops[c].revision ==> !Apply(w, CheckAndSpawn(s)).sups[s].native
  {
    assert StopOk(w, w.stops[c]) && SupervisorOk(w, w.sups[s]);
    assert !Pending(w, s, w.stops[c].revision);
  }

  lemma ExpectedStays(w: World, ev: Event, v: World, s: Id)
    requires Enabled(w, ev) && s in w.sups && v == Apply(w, ev)
    ensures s in v.sups && v.sups[s].expected == w.sups[s].expected
  {}

  /** A stop never interrupts a supervisor launched by a command newer than itself. */
  lemma NewerStartsAreSpared(ws: seq<World>, events: seq<Event>, c: Id, i: nat)
    requires IsRun(ws, events) && i < |events| && events[i] == StopAsks(c)
    ensures ws[i].sups[ws[i].stops[c].next].expected <= ws[i].stops[c].revision
  {
    RunKeeps(ws, events, i);
    assert StopOk(ws[i], ws[i].stops[c]);
  }

  // ---- What a start gets ----

  predicate Writes(ev: Event) {
    ev.Enable? || ev.StopWrites?
  }

  /** A supervisor on its way to its native process, under a preference that still enables it. */
  predicate Starting(w: World, s: Id, r: Revision) {
    && w.pref == Preference(true, r) && s in w.sups && w.sups[s].expected == r && !w.sups[s].stopping && !w.sups[s].native
    && (w.sups[s].stage.Launched? || w.sups[s].stage.Marked? || w.sups[s].stage == Read(Some(r)))
  }

  /** No stop that is under way asks it to end. */
  lemma NotAsked(w: World, s: Id, r: Revision, c: Id)
    requires Inv(w) && s in w.sups && w.sups[s].expected == r && w.pref == Preference(true, r) && c in w.stops && w.stops[c].Checked?
    ensures w.stops[c].next != s
  {
    assert StopOk(w, w.stops[c]);
  }

  /** It gave up, crashed or checked before, and never comes to check again. */
  predicate Past(x: Supervisor) {
    x.crashed || x.stage.Spawned? || x.stage.Finishing? || x.stage.Cleaning? || x.stage.Gone?
  }

  predicate OnItsWay(w: World, s: Id, r: Revision) {
    s in w.sups && (Past(w.sups[s]) || Starting(w, s, r))
  }

  lemma StillStarting(w: World, ev: Event, v: World, s: Id, r: Revision)
    requires Inv(w) && Enabled(w, ev) && v == Apply(w, ev) && Starting(w, s, r) && !Writes(ev)
    ensures OnItsWay(v, s, r)
  {
    if ev.StopAsks? { NotAsked(w, s, r, ev.c); }
  }

  lemma PastStays(w: World, ev: Event, v: World, s: Id)
    requires Enabled(w, ev) && v == Apply(w, ev) && s in w.sups && Past(w.sups[s])
    ensures s in v.sups && Past(v.sups[s])
  {}

  lemma GoesOn(w: World, ev: Event, v: World, s: Id, r: Revision)
    requires Inv(w) && Enabled(w, ev) && v == Apply(w, ev) && OnItsWay(w, s, r) && !Writes(ev)
    ensures OnItsWay(v, s, r)
  {
    if Past(w.sups[s]) { PastStays(w, ev, v, s); } else { StillStarting(w, ev, v, s, r); }
  }

  lemma LaunchedIsOnItsWay(w: World, s: Id, v: World)
    requires Enabled(w, Launch(s, w.pref.revision)) && w.pref.enabled && v == Apply(w, Launch(s, w.pref.revision))
    ensures OnItsWay(v, s, w.pref.revision)
  {}

  lemma GoesOnAt(ws: seq<World>, events: seq<Event>, i: nat, s: Id, r: Revision)
    requires IsRun(ws, events) && i < |events| && OnItsWay(ws[i], s, r) && !Writes(events[i])
    ensures OnItsWay(ws[i + 1], s, r)
  {
    var w, ev, v := StepAt(ws, events, i);
    GoesOn(w, ev, v, s, r);
  }

  lemma {:induction false} StaysOnItsWay(ws: seq<World>, events: seq<Event>, a: nat, b: nat, i: nat, s: Id, r: Revision)
    requires IsRun(ws, events) && a < b < i < |ws| && events[a].Enable? && r == ws[a + 1].pref.revision && events[b] == Launch(s, r)
    requires forall m | a < m < i :: !Writes(events[m])
    ensures OnItsWay(ws[i], s, r)
  {
    if i == b + 1 {
      PreferenceStays(ws, events, a, b);
      var w, _, v := StepAt(ws, events, b);
      LaunchedIsOnItsWay(w, s, v);
    } else {
      StaysOnItsWay(ws, events, a, b, i - 1, s, r);
      GoesOnAt(ws, events, i - 1, s, r);
    }
  }

  lemma Spawns(w: World, s: Id, r: Revision, v: World)
    requires Inv(w) && Enabled(w, CheckAndSpawn(s)) && OnItsWay(w, s, r) && v == Apply(w, CheckAndSpawn(s))
    ensures s in v.sups && v.sups[s].native && v.sups[s].stage.Spawned? && v.sups[s].marker
  {
    assert SupervisorOk(w, w.sups[s]);
  }

  lemma {:induction false} PreferenceStays(ws: seq<World>, events: seq<Event>, a: nat, i: nat)
    requires IsRun(ws, events) && a < i < |ws| && events[a].Enable? && forall m | a < m < i :: !Writes(events[m])
    ensures ws[i].pref == ws[a + 1].pref && ws[i].pref.enabled
  {
    if i == a + 1 {
      assert ws[i] == Apply(ws[a], events[a]);
    } else {
      PreferenceStays(ws, events, a, i - 1);
      KeepsPreference(ws[i - 1], events[i - 1], ws[i]);
    }
  }

  lemma KeepsPreference(w: World, ev: Event, v: World)
    requires Enabled(w, ev) && v == Apply(w, ev) && !Writes(ev)
    ensures v.pref == w.pref
  {}

  /** A start starts.  A supervisor launched under the revision of an enabling write gets its native
      process at its check, unless another write of the preference came before it, and whatever other
      commands and supervisors do meanwhile; a start after a stop is no exception. */
  lemma StartRuns(ws: seq<World>, events: seq<Event>, a: nat, b: nat, i: nat, s: Id)
    requires IsRun(ws, events) && a < b < i < |events| && events[a].Enable? && events[b] == Launch(s, ws[a + 1].pref.revision)
    requires events[i] == CheckAndSpawn(s) && forall m | a < m < i :: !Writes(events[m])
    ensures s in ws[i + 1].sups && ws[i + 1].sups[s].native && ws[i + 1].sups[s].stage.Spawned? && ws[i + 1].sups[s].marker
  {
    StaysOnItsWay(ws, events, a, b, i, s, ws[a + 1].pref.revision);
    RunKeeps(ws, events, i);
    Spawns(ws[i], s, ws[a + 1].pref.revision, ws[i + 1]);
  }

  /** A supervisor that was told to stop, or read another preference than its own, spawns nothing and
      ends; any other spawns. */
  lemma ChecksExactly(w: World, s: Id)
    requires Inv(w) && Enabled(w, CheckAndSpawn(s))
    ensures var x, y := w.sups[s], Apply(w, CheckAndSpawn(s)).sups[s];
            && !x.native && (y.native <==> !x.stopping && x.stage == Read(Some(x.expected)))
            && y.stage == (if y.native then Spawned else Finishing) && (!y.native ==> y.stopping)
  {
    assert SupervisorOk(w, w.sups[s]);
  }

  /** A check during startup ends it exactly when the supervisor was told to stop or a newer write of
      the preference superseded its own. */
  lemma RecheckInterrupts(w: World, s: Id)
    requires Inv(w) && Up(w, s) && w.sups[s].stage.Spawned?
    ensures Enabled(w, Recheck(s)) <==> w.sups[s].stopping || !w.pref.enabled || w.pref.revision > w.sups[s].expected
    ensures Enabled(w, Recheck(s)) ==> Apply(w, Recheck(s)).sups[s].stage.Finishing? && Apply(w, Recheck(s)).sups[s].stopping
  {
    assert SupervisorOk(w, w.sups[s]);
  }

  /** A stop succeeds only as the last write of the preference; once it is superseded it can only fail. */
  lemma SuccessIsCurrent(ws: seq<World>, events: seq<Event>, i: nat, c: Id)
    requires IsRun(ws, events) && i < |events| && c in ws[i].stops && ws[i].stops[c].Listed?
    ensures events[i] == StopSucceeds(c) ==> ws[i].pref == Preference(false, ws[i].stops[c].revision)
    ensures ws[i].pref != Preference(false, ws[i].stops[c].revision) ==>
              Enabled(ws[i], StopSuperseded(c)) && Apply(ws[i], StopSuperseded(c)).stops[c].Threw?
    ensures Enabled(ws[i], StopSuperseded(c)) ==>
              !Enabled(ws[i], StopSucceeds(c)) && (forall s :: !Enabled(ws[i], StopChecks(c, s))) && ws[i].pref.revision > ws[i].stops[c].revision
  {
    RunKeeps(ws, events, i);
    assert StopOk(ws[i], ws[i].stops[c]);
  }

  // ---- The exception is real ----

  ghost predicate IsReachable(w: World) {
    exists ws, events :: IsRun(ws, events) && ws[|events|] == w
  }

  lemma Go(w: World, ev: Event) returns (v: World)
    requires IsReachable(w) && Enabled(w, ev)
    ensures IsReachable(v) && v == Apply(w, ev)
  {
    var ws, events :| IsRun(ws, events) && ws[|events|] == w;
    v := Apply(w, ev);
    assert IsRun(ws + [v], events + [ev]) && (ws + [v])[|events + [ev]|] == v;
  }

  lemma NativeRuns() returns (w: World)
    ensures IsReachable(w) && w == World(INIT.pref, map[7 := Supervisor(0, Spawned, false, true, true, false, false)], None, map[])
  {
    var none: seq<Event> := [];
    assert IsRun([INIT], none) && [INIT][|none|] == INIT;
    w := Go(INIT, Launch(7, 0));
    w := Go(w, WriteMarker(7));
    w := Go(w, ReadPreference(7));
    w := Go(w, CheckAndSpawn(7));
    assert w.sups == map[7 := w.sups[7]];
  }

  lemma NativeIsOrphaned() returns (w: World)
    ensures IsReachable(w) && w == World(INIT.pref, map[7 := Supervisor(0, Gone, true, true, false, true, false)], None, map[])
  {
    w := NativeRuns();
    w := Go(w, GiveUp(7));
    w := Go(w, FinishUnconfirmed(7));
    w := Go(w, RemoveMarker(7));
    assert w.sups == map[7 := w.sups[7]];
  }

  /** A supervisor whose final wait gave up removes its marker, so a later stop cannot see it and
      succeeds while the process still runs. */
  lemma OrphanSurvivesStop() returns (w: World)
    ensures IsReachable(w) && 0 in w.stops && w.stops[0].Succeeded? && 7 in w.sups
    ensures w.sups[7].native && w.sups[7].expected < w.stops[0].revision && w.sups[7].orphaned && !w.sups[7].crashed
  {
    w := NativeIsOrphaned();
    w := Go(w, StopWrites(0));
    w := Go(w, StopNames(0));
    w := Go(w, StopReads(0, {}));
    w := Go(w, StopSucceeds(0));
  }

  lemma NativeOutlivesSupervisor() returns (w: World)
    ensures IsReachable(w) && w == World(Preference(false, 1), map[7 := Supervisor(0, Spawned, false, true, true, false, true)], None, map[0 := Wrote(1)])
  {
    w := NativeRuns();
    w := Go(w, SupervisorCrash(7));
    w := Go(w, StopWrites(0));
    assert w.sups == map[7 := w.sups[7]];
  }

  /** A native process whose supervisor crashed is named by its marker, but nobody answers for it: the
      stop passes over it and succeeds. */
  lemma CrashSurvivesStop() returns (w: World)
    ensures IsReachable(w) && 0 in w.stops && w.stops[0].Succeeded? && 7 in w.sups
    ensures w.sups[7].native && w.sups[7].expected < w.stops[0].revision && w.sups[7].marker && w.sups[7].crashed && !w.sups[7].orphaned
  {
    w := NativeOutlivesSupervisor();
    assert Markers(w) == {7};
    w := Go(w, StopNames(0));
    w := Go(w, StopReads(0, {7}));
    w := Go(w, StopSkips(0, 7));
    w := Go(w, StopSucceeds(0));
  }

  // ---- A stop and a start ----

  lemma NativeIsAsked() returns (w: World)
    ensures IsReachable(w) && w.pref == Preference(false, 1) && w.owner == None && w.sups == map[7 := Supervisor(0, Spawned, true, true, true, false, false)]
    ensures w.stops == map[0 := Asked(1, {7}, 7)]
  {
    w := NativeRuns();
    w := Go(w, StopWrites(0));
    assert Markers(w) == {7};
    w := Go(w, StopNames(0));
    assert Recorded(w) == {7};
    assert w.stops == map[0 := w.stops[0]];
    w := StopReachesNative(w);
  }

  lemma StopReadsNative(w: World) returns (v: World)
    requires IsReachable(w) && w == World(Preference(false, 1), map[7 := Supervisor(0, Spawned, false, true, true, false, false)], None, map[0 := Named(1, {7})])
    ensures IsReachable(v) && v == w.(stops := map[0 := Checked(1, {7}, 7)])
  {
    assert Recorded(w) <= {7};
    v := Go(w, StopReads(0, {7}));
    v := Go(v, StopChecks(0, 7));
    assert v.stops == map[0 := v.stops[0]];
  }

  lemma StopReachesNative(w: World) returns (v: World)
    requires IsReachable(w) && w == World(Preference(false, 1), map[7 := Supervisor(0, Spawned, false, true, true, false, false)], None, map[0 := Named(1, {7})])
    ensures IsReachable(v)
    ensures v == World(w.pref, map[7 := Supervisor(0, Spawned, true, true, true, false, false)], None, map[0 := Asked(1, {7}, 7)])
  {
    v := StopReadsNative(w);
    v := Go(v, StopAsks(0));
    assert v.sups == map[7 := v.sups[7]] && v.stops == map[0 := v.stops[0]];
  }

  /** A stop ends the native process and succeeds. */
  lemma StopEndsNative() returns (w: World)
    ensures IsReachable(w) && w.pref == Preference(false, 1) && w.owner == None && w.sups == map[7 := Supervisor(0, Spawned, true, false, true, false, false)]
    ensures w.stops == map[0 := Succeeded(1)]
  {
    w := NativeIsAsked();
    w := Go(w, TreeGone(7));
    w := Go(w, StopConfirmed(0));
    w := Go(w, StopSucceeds(0));
    assert w.sups == map[7 := w.sups[7]];
  }

  lemma StartAfterStop() returns (w: World)
    ensures IsReachable(w) && w.pref == Preference(true, 2) && 8 in w.sups && w.sups[8] == Supervisor(2, Launched, false, false, false, false, false)
    ensures w.stops == map[0 := Succeeded(1)]
  {
    w := StopEndsNative();
    w := Go(w, Enable);
    w := Go(w, Launch(8, 2));
  }

  /** After it the server can be started again. */
  lemma RunsAgain() returns (w: World)
    ensures IsReachable(w) && w.stops == map[0 := Succeeded(1)] && 8 in w.sups && w.sups[8].native && w.sups[8].expected > 1
  {
    w := StartAfterStop();
    w := Go(w, WriteMarker(8));
    w := Go(w, ReadPreference(8));
    w := Go(w, CheckAndSpawn(8));
  }

  lemma NativeGone() returns (w: World)
    ensures IsReachable(w) && w == World(INIT.pref, map[7 := Supervisor(0, Finishing, true, false, true, false, false)], None, map[])
  {
    w := NativeRuns();
    w := Go(w, NativeExits(7));
    w := Go(w, GiveUp(7));
    assert w.sups == map[7 := w.sups[7]];
  }

  /** A server that ends by itself leaves neither a process nor a marker, nor an orphan. */
  lemma EndsCleanly() returns (w: World)
    ensures IsReachable(w) && w == World(INIT.pref, map[7 := Supervisor(0, Gone, true, false, false, false, false)], None, map[])
  {
    w := NativeGone();
    w := Go(w, FinishConfirmed(7));
    w := Go(w, RemoveMarker(7));
    assert w.sups == map[7 := w.sups[7]];
  }
}

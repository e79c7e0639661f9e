/** The sessions a session references, and the notes that tell its agent when they change. */
module SessionRefs {

  datatype Option<+T> = None | Some(value: T)

  const HOLDER_LIMIT: nat := 4096
  const REF_LIMIT: nat := 32

  datatype Target = Target(provider: nat, session: nat)

  datatype Source = Source(target: Target, removed: bool)

  datatype Holder = Holder(self: Target, revision: nat, refs: seq<Target>, source: Option<Source>, delivered: Option<nat>)

  datatype Origin = FromSource | Added

  datatype Entry = Entry(target: Target, origin: Origin)

  // ---- Holders, the least recently changed first ----

  function Find(store: seq<Holder>, h: Target): Option<Holder> {
    if store == [] then None else if store[0].self == h then Some(store[0]) else Find(store[1..], h)
  }

  function Without(store: seq<Holder>, h: Target): seq<Holder> {
    if store == [] then [] else if store[0].self == h then store[1..] else [store[0]] + Without(store[1..], h)
  }

  function InPlace(store: seq<Holder>, x: Holder): seq<Holder> {
    if store == [] then [x] else if store[0].self == x.self then [x] + store[1..] else [store[0]] + InPlace(store[1..], x)
  }

  function Evicted(store: seq<Holder>): seq<Holder> {
    if |store| > HOLDER_LIMIT then store[|store| - HOLDER_LIMIT..] else store
  }

  function Saved(store: seq<Holder>, h: Target): Holder {
    match Find(store, h) case Some(x) => x case None => Holder(h, 0, [], None, None)
  }

  function Delivered(x: Holder): nat {
    match x.delivered case Some(n) => n case None => 0
  }

  /** A change counts up the revision and makes the holder the most recently changed. */
  function Changed(store: seq<Holder>, x: Holder): seq<Holder> {
    Evicted(Without(store, x.self) + [x.(revision := x.revision + 1)])
  }

  datatype Outcome = Done | Unchanged | Refused

  function AddOf(store: seq<Holder>, h: Target, ref: Target): (Outcome, seq<Holder>) {
    var x := Saved(store, h);
    if ref in x.refs then (Unchanged, store)
    else if |x.refs| >= REF_LIMIT then (Refused, store)
    else (Done, Changed(store, x.(refs := x.refs + [ref])))
  }

  function Filtered(refs: seq<Target>, ref: Target): seq<Target> {
    if refs == [] then []
    else Filtered(refs[..|refs| - 1], ref) + (if refs[|refs| - 1] == ref then [] else [refs[|refs| - 1]])
  }

  function RemoveOf(store: seq<Holder>, h: Target, ref: Target): (Outcome, seq<Holder>) {
    var x := Saved(store, h);
    if ref !in x.refs then (Unchanged, store) else (Done, Changed(store, x.(refs := Filtered(x.refs, ref))))
  }

  function SetSourceOf(store: seq<Holder>, h: Target, source: Source, tell: bool): seq<Holder> {
    var x := Saved(store, h).(source := Some(source));
    if tell then Changed(store, x) else Evicted(InPlace(store, x))
  }

  function SetSourceRemovedOf(store: seq<Holder>, h: Target, removed: bool): (Outcome, seq<Holder>) {
    var x := Saved(store, h);
    if x.source.None? || x.source.value.removed == removed then (Unchanged, store)
    else (Done, Changed(store, x.(source := Some(x.source.value.(removed := removed)))))
  }

  function MarkDeliveredOf(store: seq<Holder>, h: Target, revision: nat): seq<Holder> {
    var found := Find(store, h);
    if found.None? || Delivered(found.value) >= revision then store
    else Evicted(InPlace(store, found.value.(delivered := Some(revision))))
  }

  /** The references of a session as its pages and its agent see them. */
  function Visible(x: Holder): seq<Entry> {
    if x.source.Some? && !x.source.value.removed then [Entry(x.source.value.target, FromSource)] + AddedOf(Filtered(x.refs, x.source.value.target))
    else AddedOf(x.refs)
  }

  function AddedOf(refs: seq<Target>): (r: seq<Entry>) {
    seq(|refs|, i requires 0 <= i < |refs| => Entry(refs[i], Added))
  }

  predicate References(x: Holder, ref: Target) {
    (x.source.Some? && !x.source.value.removed && x.source.value.target == ref) || ref in x.refs
  }

  // ---- Facts about the order of holders ----

  lemma {:induction false} FoundIsSelf(store: seq<Holder>, h: Target)
    ensures Find(store, h).Some? ==> Find(store, h).value.self == h && Find(store, h).value in store
    ensures Find(store, h).None? ==> forall x | x in store :: x.self != h
  {
    if store != [] { FoundIsSelf(store[1..], h); }
  }

  ghost predicate Unique(store: seq<Holder>) {
    forall i, j | 0 <= i < j < |store| :: store[i].self != store[j].self
  }

  lemma {:induction false} FindInUnique(store: seq<Holder>, k: nat)
    requires Unique(store) && k < |store|
    ensures Find(store, store[k].self) == Some(store[k])
  {
    if k > 0 { FindInUnique(store[1..], k - 1); }
  }

  lemma {:induction false} FindAppended(store: seq<Holder>, x: Holder, h: Target)
    ensures Find(store + [x], h) == if Find(store, h).Some? then Find(store, h) else if x.self == h then Some(x) else None
  {
    if store != [] {
      assert (store + [x])[1..] == store[1..] + [x];
      FindAppended(store[1..], x, h);
    }
  }

  lemma {:induction false} WithoutForgets(store: seq<Holder>, h: Target)
    requires Unique(store)
    ensures Unique(Without(store, h)) && forall x :: x in Without(store, h) <==> x in store && x.self != h
    ensures forall g :: Find(Without(store, h), g) == if g == h then None else Find(store, g)
    ensures |Without(store, h)| == |store| - if Find(store, h).Some? then 1 else 0
  {
    if store != [] {
      assert store == [store[0]] + store[1..];
      WithoutForgets(store[1..], h);
      if store[0].self == h {
        FoundIsSelf(store[1..], h);
        forall x | x in store[1..] ensures x.self != h { var i :| 0 <= i < |store[1..]| && store[1..][i] == x; assert store[i + 1] == x; }
      } else {
        var rest := Without(store[1..], h);
        forall i | 0 <= i < |rest| ensures rest[i].self != store[0].self {
          assert rest[i] in store[1..];
          var k :| 0 <= k < |store[1..]| && store[1..][k] == rest[i];
          assert store[k + 1] == rest[i];
        }
        assert ([store[0]] + rest)[1..] == rest;
      }
    }
  }

  lemma {:induction false} InPlaceFind(store: seq<Holder>, x: Holder, g: Target)
    ensures Find(InPlace(store, x), g) == if g == x.self then Some(x) else Find(store, g)
  {
    if store != [] {
      if store[0].self == x.self {
        assert ([x] + store[1..])[1..] == store[1..];
      } else {
        InPlaceFind(store[1..], x, g);
        assert ([store[0]] + InPlace(store[1..], x))[1..] == InPlace(store[1..], x);
      }
    }
  }

  lemma {:induction false} InPlaceSets(store: seq<Holder>, x: Holder)
    requires Unique(store)
    ensures Unique(InPlace(store, x)) && forall y :: y in InPlace(store, x) <==> y == x || (y in store && y.self != x.self)
    ensures |InPlace(store, x)| == |store| + if Find(store, x.self).Some? then 0 else 1
  {
    if store != [] {
      assert store == [store[0]] + store[1..];
      if store[0].self != x.self {
        InPlaceSets(store[1..], x);
        var rest := InPlace(store[1..], x);
        forall i | 0 <= i < |rest| ensures rest[i].self != store[0].self {
          assert rest[i] in rest;
          if rest[i] != x { var k :| 0 <= k < |store[1..]| && store[1..][k] == rest[i]; assert store[k + 1] == rest[i]; }
        }
      }
    }
  }

  lemma {:induction false} DroppedFind(store: seq<Holder>, n: nat, g: Target)
    requires Unique(store) && n <= |store|
    ensures Unique(store[n..]) && (Find(store[n..], g).Some? ==> Find(store[n..], g) == Find(store, g))
  {
    FoundIsSelf(store[n..], g);
    if Find(store[n..], g).Some? {
      var k :| 0 <= k < |store[n..]| && store[n..][k] == Find(store[n..], g).value;
      FindInUnique(store, n + k);
    }
  }

  lemma EvictedFinds(all: seq<Holder>, g: Target)
    requires Unique(all)
    ensures Unique(Evicted(all)) && (Find(Evicted(all), g).Some? ==> Find(Evicted(all), g) == Find(all, g))
    ensures |Evicted(all)| <= HOLDER_LIMIT
  {
    if |all| > HOLDER_LIMIT { DroppedFind(all, |all| - HOLDER_LIMIT, g); }
  }

  lemma MovedFinds(store: seq<Holder>, x: Holder, g: Target)
    requires Unique(store)
    ensures var all := Without(store, x.self) + [x];
            Unique(all) && Find(all, g) == if g == x.self then Some(x) else Find(store, g)
  {
    var before := Without(store, x.self);
    WithoutForgets(store, x.self);
    forall i | 0 <= i < |before| ensures before[i].self != x.self { assert before[i] in before; }
    FindAppended(before, x, g);
  }

  /** A holder that survives a change has the changed record or the one it had. */
  lemma ChangedFinds(store: seq<Holder>, x: Holder, g: Target)
    requires Unique(store)
    ensures Unique(Changed(store, x)) && |Changed(store, x)| <= HOLDER_LIMIT
    ensures Find(Changed(store, x), g).Some? ==>
              Find(Changed(store, x), g) == if g == x.self then Some(x.(revision := x.revision + 1)) else Find(store, g)
  {
    MovedFinds(store, x.(revision := x.revision + 1), g);
    EvictedFinds(Without(store, x.self) + [x.(revision := x.revision + 1)], g);
  }

  lemma InPlaceFinds(store: seq<Holder>, x: Holder, g: Target)
    requires Unique(store)
    ensures Unique(Evicted(InPlace(store, x))) && |Evicted(InPlace(store, x))| <= HOLDER_LIMIT
    ensures Find(Evicted(InPlace(store, x)), g).Some? ==> Find(Evicted(InPlace(store, x)), g) == if g == x.self then Some(x) else Find(store, g)
  {
    InPlaceSets(store, x);
    InPlaceFind(store, x, g);
    EvictedFinds(InPlace(store, x), g);
  }

  lemma {:induction false} FilteredSelects(refs: seq<Target>, ref: Target)
    ensures forall t :: t in Filtered(refs, ref) <==> t in refs && t != ref
    ensures ref !in refs ==> Filtered(refs, ref) == refs
  {
    if refs != [] {
      FilteredSelects(refs[..|refs| - 1], ref);
      assert refs == refs[..|refs| - 1] + [refs[|refs| - 1]];
    }
  }

  /** The visible list names exactly the referenced sessions. */
  lemma VisibleTargets(x: Holder, ref: Target)
    ensures References(x, ref) <==> exists e | e in Visible(x) :: e.target == ref
  {
    var shown := x.source.Some? && !x.source.value.removed;
    var refs := if shown then Filtered(x.refs, x.source.value.target) else x.refs;
    if shown { FilteredSelects(x.refs, x.source.value.target); }
    forall t | t in refs ensures Entry(t, Added) in AddedOf(refs) {
      var i :| 0 <= i < |refs| && refs[i] == t;
      assert AddedOf(refs)[i] == Entry(t, Added);
    }
    forall e | e in AddedOf(refs) ensures e.target in refs {}
    if shown { assert Visible(x)[0] == Entry(x.source.value.target, FromSource); }
    if References(x, ref) && !(shown && x.source.value.target == ref) { assert Entry(ref, Added) in Visible(x); }
  }

  function Referrers(store: seq<Holder>, ref: Target): seq<Entry> {
    if store == [] then []
    else
      var x := store[|store| - 1];
      var before := Referrers(store[..|store| - 1], ref);
      if x.source.Some? && !x.source.value.removed && x.source.value.target == ref then before + [Entry(x.self, FromSource)]
      else if ref in x.refs then before + [Entry(x.self, Added)]
      else before
  }

  ghost predicate Names(list: seq<Entry>, t: Target) {
    exists e | e in list :: e.target == t
  }

  /** Two sides of one fact: `h` is among the referrers of `ref` exactly when `ref` is in the list of `h`. */
  lemma {:induction false} ReferrersMirror(store: seq<Holder>, h: Target, ref: Target)
    requires Unique(store)
    ensures Names(Referrers(store, ref), h) <==> Find(store, h).Some? && Names(Visible(Find(store, h).value), ref)
  {
    if store != [] {
      var n := |store| - 1;
      assert store == store[..n] + [store[n]];
      ReferrersMirror(store[..n], h, ref);
      FindAppended(store[..n], store[n], h);
      FoundIsSelf(store[..n], h);
      VisibleTargets(store[n], ref);
      var before, all := Referrers(store[..n], ref), Referrers(store, ref);
      forall e | e in before ensures e in all {}
      if References(store[n], ref) { assert all[|before|].target == store[n].self && all[|before|] in all; }
    }
  }

  // ---- The store ----

  class SessionRefStore {
    var holders: seq<Holder>

    constructor ()
      ensures holders == []
    {
      holders := [];
    }

    method Write()
      modifies this
      ensures holders == Evicted(old(holders))
    {
      while |holders| > HOLDER_LIMIT
        invariant |holders| <= |old(holders)| && holders == old(holders)[|old(holders)| - |holders|..]
        invariant |holders| >= HOLDER_LIMIT || holders == old(holders)
      {
        holders := holders[1..];
      }
    }

    method SaveChange(x: Holder)
      modifies this
      ensures holders == Changed(old(holders), x)
    {
      holders := Without(holders, x.self) + [x.(revision := x.revision + 1)];
      Write();
    }

    method Add(h: Target, ref: Target) returns (outcome: Outcome)
      modifies this
      ensures (outcome, holders) == AddOf(old(holders), h, ref)
    {
      var saved := Saved(holders, h);
      if ref in saved.refs { return Unchanged; }
      if |saved.refs| >= REF_LIMIT { return Refused; }
      SaveChange(saved.(refs := saved.refs + [ref]));
      return Done;
    }

    method Remove(h: Target, ref: Target) returns (outcome: Outcome)
      modifies this
      ensures (outcome, holders) == RemoveOf(old(holders), h, ref)
    {
      var saved := Saved(holders, h);
      if ref !in saved.refs { return Unchanged; }
      SaveChange(saved.(refs := Filtered(saved.refs, ref)));
      return Done;
    }

    method SetSource(h: Target, source: Source, tell: bool)
      modifies this
      ensures holders == SetSourceOf(old(holders), h, source, tell)
    {
      var saved := Saved(holders, h).(source := Some(source));
      if tell {
        SaveChange(saved);
      } else {
        holders := InPlace(holders, saved);
        Write();
      }
    }

    method SetSourceRemoved(h: Target, removed: bool) returns (outcome: Outcome)
      modifies this
      ensures (outcome, holders) == SetSourceRemovedOf(old(holders), h, removed)
    {
      var saved := Saved(holders, h);
      if saved.source.None? || saved.source.value.removed == removed { return Unchanged; }
      SaveChange(saved.(source := Some(saved.source.value.(removed := removed))));
      return Done;
    }

    method MarkDelivered(h: Target, revision: nat)
      modifies this
      ensures holders == MarkDeliveredOf(old(holders), h, revision)
    {
      var found := Find(holders, h);
      if found.None? || Delivered(found.value) >= revision { return; }
      holders := InPlace(holders, found.value.(delivered := Some(revision)));
      Write();
    }

    method ReferencedBy(ref: Target) returns (result: seq<Entry>)
      ensures result == Referrers(holders, ref)
    {
      result := [];
      var i := 0;
      while i < |holders|
        invariant 0 <= i <= |holders| && result == Referrers(holders[..i], ref)
      {
        var saved := holders[i];
        assert holders[..i + 1][..i] == holders[..i];
        if saved.source.Some? && !saved.source.value.removed && saved.source.value.target == ref {
          result := result + [Entry(saved.self, FromSource)];
        } else if ref in saved.refs {
          result := result + [Entry(saved.self, Added)];
        }
        i := i + 1;
      }
      assert holders[..i] == holders;
    }

    /** Adds or removes one reference; the source is restored and hidden like any other. */
    method ChangeSessionRef(h: Target, add: bool, ref: Target, known: bool) returns (outcome: Outcome)
      requires Unique(holders)
      modifies this
      ensures Unique(holders)
      ensures outcome == Refused ==> holders == old(holders)
      ensures outcome == Refused <==> h == ref || (add && !old(References(Saved(holders, h), ref)) &&
                                        !old(IsSource(Saved(holders, h), ref)) && (!known || |old(Saved(holders, h)).refs| >= REF_LIMIT))
                                      || (add && old(References(Saved(holders, h), ref)) && !old(IsSource(Saved(holders, h), ref)) && !known)
      ensures outcome != Refused ==> forall t :: References(Saved(holders, h), t) <==> if t == ref then add else References(old(Saved(holders, h)), t)
    {
      if h == ref { return Refused; }
      var saved := Saved(holders, h);
      var isSource := IsSource(saved, ref);
      if add {
        if isSource {
          ShownRefers(holders, h, false);
          outcome := SetSourceRemoved(h, false);
        } else {
          if !known { return Refused; }
          AddRefers(holders, h, ref);
          outcome := Add(h, ref);
        }
      } else {
        outcome := Unchanged;
        if isSource {
          ShownRefers(holders, h, true);
          outcome := SetSourceRemoved(h, true);
        }
        RemoveRefers(holders, h, ref);
        var more := Remove(h, ref);
        if more == Done { outcome := Done; }
      }
    }
  }

  lemma AddRefers(store: seq<Holder>, h: Target, ref: Target)
    requires Unique(store)
    ensures var x, y := Saved(store, h), Saved(AddOf(store, h, ref).1, h);
            && Unique(AddOf(store, h, ref).1) && y.source == x.source
            && (AddOf(store, h, ref).0 != Refused ==> forall t :: t in y.refs <==> t in x.refs || t == ref)
  {
    var x := Saved(store, h);
    FoundIsSelf(store, h);
    ChangedIs(store, x.(refs := x.refs + [ref]));
  }

  lemma RemoveRefers(store: seq<Holder>, h: Target, ref: Target)
    requires Unique(store)
    ensures var x, y := Saved(store, h), Saved(RemoveOf(store, h, ref).1, h);
            Unique(RemoveOf(store, h, ref).1) && y.source == x.source && forall t :: t in y.refs <==> t in x.refs && t != ref
  {
    var x := Saved(store, h);
    FoundIsSelf(store, h);
    FilteredSelects(x.refs, ref);
    ChangedIs(store, x.(refs := Filtered(x.refs, ref)));
  }

  lemma ShownRefers(store: seq<Holder>, h: Target, removed: bool)
    requires Unique(store) && Saved(store, h).source.Some?
    ensures var x, y := Saved(store, h), Saved(SetSourceRemovedOf(store, h, removed).1, h);
            && Unique(SetSourceRemovedOf(store, h, removed).1)
            && y.refs == x.refs && y.source == Some(x.source.value.(removed := removed))
  {
    var x := Saved(store, h);
    FoundIsSelf(store, h);
    ChangedIs(store, x.(source := Some(x.source.value.(removed := removed))));
  }

  /** What was just changed is not forgotten. */
  lemma ChangedIs(store: seq<Holder>, x: Holder)
    requires Unique(store)
    ensures Unique(Changed(store, x)) && Find(Changed(store, x), x.self) == Some(x.(revision := x.revision + 1))
  {
    var all := Changed(store, x);
    ChangedFinds(store, x, x.self);
    FoundIsSelf(all, x.self);
    assert all[|all| - 1].self == x.self;
  }

  predicate IsSource(x: Holder, ref: Target) {
    x.source.Some? && x.source.value.target == ref
  }

  // ---- Notes to the agent of one session, over whole runs ----

  datatype Note = Note(revision: nat, silent: nat, refs: seq<Entry>)

  /** An input on its way: it found a change to tell, carries the note, or was accepted with it. */
  datatype Input = Checked | Noted(note: Note) | Sent(note: Note)

  datatype Op =
    | Add(h: Target, ref: Target)
    | Remove(h: Target, ref: Target)
    | SetSource(h: Target, source: Source, tell: bool)
    | SetSourceRemoved(h: Target, removed: bool)

  datatype Event =
    | Change(op: Op)
    | Check(input: nat)
    | Describe(input: nat)
    | Send(input: nat)
    | Mark(input: nat)
    | GiveUp(input: nat)      // the note, the input or the mark failed

  /** `told` is what the agent of the observed session knows, from its creation or from its last note,
      which was written at `toldRevision` and `toldSilent`; `newest` is the highest revision it got a
      note about; `silent` counts the sources recorded without a word after the first revision;
      `lists` is the history of visible lists by revision and such recordings. */
  datatype World = World(
    store: seq<Holder>,
    inputs: map<nat, Input>,
    told: seq<Entry>,
    toldRevision: nat,
    toldSilent: nat,
    newest: nat,
    silent: nat,
    lists: map<(nat, nat), seq<Entry>>)

  function After(store: seq<Holder>, op: Op): seq<Holder> {
    match op
    case Add(h, ref) => AddOf(store, h, ref).1
    case Remove(h, ref) => RemoveOf(store, h, ref).1
    case SetSource(h, source, tell) => SetSourceOf(store, h, source, tell)
    case SetSourceRemoved(h, removed) => SetSourceRemovedOf(store, h, removed).1
  }

  /** A source the agent is taken to know since the session was created. */
  predicate Silently(op: Op, self: Target) {
    op.SetSource? && op.h == self && !op.tell
  }

  predicate Enabled(w: World, ev: Event) {
    match ev
    case Change(_) => true
    case Check(i) => i !in w.inputs
    case Describe(i) => i in w.inputs && w.inputs[i].Checked?
    case Send(i) => i in w.inputs && w.inputs[i].Noted?
    case Mark(i) => i in w.inputs && w.inputs[i].Sent?
    case GiveUp(i) => i in w.inputs
  }

  predicate Pending(x: Holder) {
    x.revision > Delivered(x)
  }

  function Next(w: World, ev: Event, self: Target): World
    requires Enabled(w, ev)
  {
    match ev
    case Change(op) =>
      var store := After(w.store, op);
      var before, now := Saved(w.store, self), Saved(store, self);
      var silent := if Silently(op, self) && before.revision > 0 && Visible(now) != Visible(before) then w.silent + 1 else w.silent;
      var u := w.(store := store, silent := silent, lists := w.lists[(now.revision, silent) := Visible(now)]);
      if Silently(op, self) && before.revision == 0 then u.(told := Visible(now)) else u
    case Check(i) => if Pending(Saved(w.store, self)) then w.(inputs := w.inputs[i := Checked]) else w
    case Describe(i) =>
      var x := Saved(w.store, self);
      w.(inputs := w.inputs[i := Noted(Note(x.revision, w.silent, Visible(x)))])
    case Send(i) =>
      var note := w.inputs[i].note;
      w.(inputs := w.inputs[i := Sent(note)], told := note.refs, toldRevision := note.revision, toldSilent := note.silent,
         newest := if note.revision > w.newest then note.revision else w.newest)
    case Mark(i) => w.(inputs := w.inputs - {i}, store := MarkDeliveredOf(w.store, self, w.inputs[i].note.revision))
    case GiveUp(i) => w.(inputs := w.inputs - {i})
  }

  function Start(): World { World([], map[], [], 0, 0, 0, 0, map[(0, 0) := []]) }

  ghost predicate IsRun(ws: seq<World>, events: seq<Event>, self: Target) {
    && |ws| == |events| + 1 && ws[0] == Start()
    && (forall i | 0 <= i < |events| :: Enabled(ws[i], events[i]) && ws[i + 1] == Next(ws[i], events[i], self))
  }

  /** The observed session is not forgotten. */
  ghost predicate Stays(ws: seq<World>, events: seq<Event>, self: Target)
    requires |ws| == |events| + 1
  {
    forall i | 0 <= i < |events| :: Find(ws[i].store, self).Some? ==> Find(ws[i + 1].store, self).Some?
  }

  ghost predicate NoteOk(w: World, note: Note, revision: nat) {
    1 <= note.revision <= revision && note.silent <= w.silent
    && (note.revision, note.silent) in w.lists && w.lists[(note.revision, note.silent)] == note.refs
  }

  ghost predicate Inv(w: World, self: Target) {
    var x := Saved(w.store, self);
    && Unique(w.store) && (x.revision == 0 ==> w.silent == 0)
    && Delivered(x) <= w.newest <= x.revision && w.toldRevision <= w.newest
    && (x.revision, w.silent) in w.lists && w.lists[(x.revision, w.silent)] == Visible(x)
    && w.toldSilent <= w.silent && (w.toldRevision, w.toldSilent) in w.lists && w.lists[(w.toldRevision, w.toldSilent)] == w.told
    && (Find(w.store, self).None? ==> x.revision == 0 && w.inputs == map[])
    && (forall i | i in w.inputs :: InputOk(w, w.inputs[i], x.revision))
  }

  ghost predicate InputOk(w: World, input: Input, revision: nat) {
    && revision >= 1
    && (input.Noted? || input.Sent? ==> NoteOk(w, input.note, revision))
    && (input.Sent? ==> input.note.revision <= w.newest)
  }

  /** What any change does to one holder: nothing, or its next revision; a source recorded silently
      keeps the revision. */
  lemma AfterOf(store: seq<Holder>, op: Op, g: Target)
    requires Unique(store)
    ensures Unique(After(store, op)) && (|store| <= HOLDER_LIMIT ==> |After(store, op)| <= HOLDER_LIMIT)
    ensures Find(After(store, op), g).Some? ==>
              var x, y := Saved(store, g), Saved(After(store, op), g);
              y.delivered == x.delivered && (if Silently(op, g) then y.revision == x.revision else y == x || y.revision == x.revision + 1)
  {
    FoundIsSelf(store, op.h);
    var x := Saved(store, op.h);
    match op
    case Add(h, ref) => ChangedFinds(store, x.(refs := x.refs + [ref]), g);
    case Remove(h, ref) => ChangedFinds(store, x.(refs := Filtered(x.refs, ref)), g);
    case SetSource(h, source, tell) =>
      ChangedFinds(store, x.(source := Some(source)), g);
      InPlaceFinds(store, x.(source := Some(source)), g);
    case SetSourceRemoved(h, removed) =>
      if x.source.Some? { ChangedFinds(store, x.(source := Some(x.source.value.(removed := removed))), g); }
  }

  lemma ChangeKeeps(w: World, op: Op, self: Target)
    requires Inv(w, self)
    requires Find(w.store, self).Some? ==> Find(After(w.store, op), self).Some?
    ensures Inv(Next(w, Change(op), self), self)
  {
    AfterOf(w.store, op, self);
    var u := Next(w, Change(op), self);
    var x, y := Saved(w.store, self), Saved(u.store, self);
    if Find(u.store, self).None? { assert x == y; }
    forall i | i in u.inputs ensures InputOk(u, u.inputs[i], y.revision) {
      assert InputOk(w, w.inputs[i], x.revision);
    }
  }

  lemma MarkKeeps(w: World, i: nat, self: Target)
    requires Inv(w, self) && Enabled(w, Mark(i))
    requires Find(w.store, self).Some? ==> Find(Next(w, Mark(i), self).store, self).Some?
    ensures Inv(Next(w, Mark(i), self), self)
  {
    var note, found := w.inputs[i].note, Find(w.store, self);
    assert InputOk(w, w.inputs[i], Saved(w.store, self).revision);
    FoundIsSelf(w.store, self);
    if found.Some? { InPlaceFinds(w.store, found.value.(delivered := Some(note.revision)), self); }
    var u := Next(w, Mark(i), self);
    forall k | k in u.inputs ensures InputOk(u, u.inputs[k], Saved(u.store, self).revision) {
      assert InputOk(w, w.inputs[k], Saved(w.store, self).revision);
    }
  }

  lemma InputKeeps(w: World, ev: Event, self: Target)
    requires Inv(w, self) && Enabled(w, ev) && !ev.Change? && !ev.Mark?
    ensures Inv(Next(w, ev, self), self)
  {
    var u, x := Next(w, ev, self), Saved(w.store, self);
    if ev.input in w.inputs { assert InputOk(w, w.inputs[ev.input], x.revision); }
    forall k | k in u.inputs ensures InputOk(u, u.inputs[k], x.revision) {
      if k != ev.input { assert InputOk(w, w.inputs[k], x.revision); }
    }
  }

  lemma {:induction false} RunKeeps(ws: seq<World>, events: seq<Event>, self: Target, i: nat)
    requires IsRun(ws, events, self) && Stays(ws, events, self) && i < |ws|
    ensures Inv(ws[i], self)
  {
    if i > 0 {
      RunKeeps(ws, events, self, i - 1);
      match events[i - 1]
      case Change(op) => ChangeKeeps(ws[i - 1], op, self);
      case Mark(k) => MarkKeeps(ws[i - 1], k, self);
      case _ => InputKeeps(ws[i - 1], events[i - 1], self);
    }
  }

  // ---- The main results ----

  /** No change is lost: `delivered` never passes the revision, every note lists what was visible when
      it was written, and when no note is pending the agent got one about the newest revision, or
      nothing changed since its creation; what it knows is then the list now visible, unless an older
      note came last or a source was recorded silently since its note was written. */
  lemma ChangesAreTold(ws: seq<World>, events: seq<Event>, self: Target, i: nat)
    requires IsRun(ws, events, self) && Stays(ws, events, self) && i < |ws|
    ensures var w, x := ws[i], Saved(ws[i].store, self);
            && Delivered(x) <= x.revision
            && (forall k | k in w.inputs && !w.inputs[k].Checked? :: WasVisible(w, w.inputs[k].note))
            && (!Pending(x) ==> w.newest == x.revision)
            && (!Pending(x) && w.toldRevision == w.newest && w.toldSilent == w.silent ==> w.told == Visible(x))
  {
    RunKeeps(ws, events, self, i);
    forall k | k in ws[i].inputs && !ws[i].inputs[k].Checked? ensures WasVisible(ws[i], ws[i].inputs[k].note) {
      assert InputOk(ws[i], ws[i].inputs[k], Saved(ws[i].store, self).revision);
    }
  }

  ghost predicate WasVisible(w: World, note: Note) {
    (note.revision, note.silent) in w.lists && note.refs == w.lists[(note.revision, note.silent)]
  }

  ghost predicate SendsInOrder(ws: seq<World>, events: seq<Event>)
    requires |ws| == |events| + 1
  {
    forall i | 0 <= i < |events| && events[i].Send? && events[i].input in ws[i].inputs && ws[i].inputs[events[i].input].Noted? ::
      ws[i].inputs[events[i].input].note.revision >= ws[i].toldRevision
  }

  lemma {:induction false} LastToldIsNewest(ws: seq<World>, events: seq<Event>, self: Target, i: nat)
    requires IsRun(ws, events, self) && SendsInOrder(ws, events) && i < |ws|
    ensures ws[i].toldRevision == ws[i].newest
  {
    if i > 0 {
      LastToldIsNewest(ws, events, self, i - 1);
      assert ws[i] == Next(ws[i - 1], events[i - 1], self);
    }
  }

  /** With inputs that reach the agent in the order of their notes, the last thing it was told is the
      current list whenever nothing is pending, also when references change while an input is on its
      way; only a source recorded silently since that note was written is missing. */
  lemma LastNoteIsCurrent(ws: seq<World>, events: seq<Event>, self: Target, i: nat)
    requires IsRun(ws, events, self) && Stays(ws, events, self) && SendsInOrder(ws, events) && i < |ws|
    requires !Pending(Saved(ws[i].store, self)) && ws[i].toldSilent == ws[i].silent
    ensures ws[i].told == Visible(Saved(ws[i].store, self))
  {
    ChangesAreTold(ws, events, self, i);
    LastToldIsNewest(ws, events, self, i);
  }

  /** A change of a session's references counts its revision up by one, and nothing else does: neither
      a change of another session nor one that leaves its references and its source as they were.  Only a
      source that the agent is taken to know is recorded without. */
  lemma RevisionMeansChange(store: seq<Holder>, op: Op, g: Target)
    requires Unique(store) && Find(After(store, op), g).Some?
    ensures var x, y := Saved(store, g), Saved(After(store, op), g);
            && (y.revision == x.revision || y.revision == x.revision + 1)
            && (op.h != g ==> y == x)
            && (!op.SetSource? ==> (y.revision > x.revision <==> y.refs != x.refs || y.source != x.source))
            && (op.SetSource? && op.h == g ==> (y.revision > x.revision <==> op.tell) && y.source == Some(op.source) && y.refs == x.refs)
  {
    var x := Saved(store, op.h);
    FoundIsSelf(store, op.h);
    match op
    case Add(h, ref) =>
      if ref !in x.refs { assert x.refs + [ref] != x.refs; }
      ChangedFinds(store, x.(refs := x.refs + [ref]), g);
    case Remove(h, ref) =>
      FilteredSelects(x.refs, ref);
      ChangedFinds(store, x.(refs := Filtered(x.refs, ref)), g);
    case SetSource(h, source, tell) =>
      ChangedFinds(store, x.(source := Some(source)), g);
      InPlaceFinds(store, x.(source := Some(source)), g);
    case SetSourceRemoved(h, removed) =>
      if x.source.Some? { ChangedFinds(store, x.(source := Some(x.source.value.(removed := removed))), g); }
  }

  /** The store never forgets that an agent was told: `delivered` only grows, and what is not pending
      only comes to be pending by a change. */
  lemma ToldIsKept(ws: seq<World>, events: seq<Event>, self: Target, i: nat)
    requires IsRun(ws, events, self) && Stays(ws, events, self) && i < |events|
    ensures Delivered(Saved(ws[i].store, self)) <= Delivered(Saved(ws[i + 1].store, self))
    ensures !Pending(Saved(ws[i].store, self)) && !events[i].Change? ==> !Pending(Saved(ws[i + 1].store, self))
    ensures events[i].GiveUp? ==> ws[i + 1].store == ws[i].store && ws[i + 1].told == ws[i].told && ws[i + 1].inputs == ws[i].inputs - {events[i].input}
  {
    var w, ev := ws[i], events[i];
    RunKeeps(ws, events, self, i);
    assert ws[i + 1] == Next(w, ev, self) && Enabled(w, ev);
    match ev
    case Change(op) => AfterOf(w.store, op, self);
    case Mark(k) =>
      FoundIsSelf(w.store, self);
      if Find(w.store, self).Some? { InPlaceFinds(w.store, Find(w.store, self).value.(delivered := Some(w.inputs[k].note.revision)), self); }
    case _ =>
  }

  // ---- Runs that show what is needed ----

  /** A run ends in `w`; when `staying`, the observed session is never forgotten in it. */
  ghost predicate Reaches(w: World, self: Target, staying: bool) {
    exists ws, events :: IsRun(ws, events, self) && (staying ==> Stays(ws, events, self)) && ws[|events|] == w
  }

  lemma Started(self: Target)
    ensures Reaches(Start(), self, true)
  {
    var none: seq<Event> := [];
    assert IsRun([Start()], none, self) && Stays([Start()], none, self);
  }

  lemma Go(w: World, ev: Event, self: Target, staying: bool) returns (v: World)
    requires Reaches(w, self, staying) && Enabled(w, ev)
    requires staying && Find(w.store, self).Some? ==> Find(Next(w, ev, self).store, self).Some?
    ensures v == Next(w, ev, self) && Reaches(v, self, staying)
  {
    v := Next(w, ev, self);
    var ws, events :| IsRun(ws, events, self) && (staying ==> Stays(ws, events, self)) && ws[|events|] == w;
    RunExtends(ws, events, ev, v, self);
    if staying { StayExtends(ws, events, ev, v, self); }
    assert (ws + [v])[|events + [ev]|] == v;
  }

  lemma RunExtends(ws: seq<World>, events: seq<Event>, ev: Event, v: World, self: Target)
    requires IsRun(ws, events, self) && Enabled(ws[|events|], ev) && v == Next(ws[|events|], ev, self)
    ensures IsRun(ws + [v], events + [ev], self)
  {
    var ws', events' := ws + [v], events + [ev];
    assert ws'[|events|] == ws[|events|] && ws'[|events'|] == v && events'[|events|] == ev;
    forall i | 0 <= i < |events'| ensures Enabled(ws'[i], events'[i]) && ws'[i + 1] == Next(ws'[i], events'[i], self) {
      assert i < |events| ==> ws'[i] == ws[i] && ws'[i + 1] == ws[i + 1] && events'[i] == events[i];
    }
  }

  lemma StayExtends(ws: seq<World>, events: seq<Event>, ev: Event, v: World, self: Target)
    requires |ws| == |events| + 1 && Stays(ws, events, self)
    requires Find(ws[|events|].store, self).Some? ==> Find(v.store, self).Some?
    ensures Stays(ws + [v], events + [ev], self)
  {
    var ws' := ws + [v];
    forall i | 0 <= i <= |events| && Find(ws'[i].store, self).Some? ensures Find(ws'[i + 1].store, self).Some? {
      assert i < |events| ==> ws'[i] == ws[i] && ws'[i + 1] == ws[i + 1];
    }
  }

  ghost predicate TellsNothing(v: World, w: World) {
    v.told == w.told && v.toldRevision == w.toldRevision && v.toldSilent == w.toldSilent && v.newest == w.newest
  }

  /** One more reference of a session that is alone in the store. */
  lemma AddAlone(w: World, ref: Target, x: Holder) returns (v: World)
    requires Reaches(w, x.self, true) && w.store == (if x.revision == 0 then [] else [x])
    requires x.revision == 0 ==> x == Saved([], x.self)
    requires ref !in x.refs && |x.refs| < REF_LIMIT
    ensures Reaches(v, x.self, true) && v.store == [x.(refs := x.refs + [ref], revision := x.revision + 1)]
    ensures v.inputs == w.inputs && TellsNothing(v, w) && v.silent == w.silent
  {
    assert Without([x], x.self) == [];
    assert AddOf(w.store, x.self, ref).1 == [x.(refs := x.refs + [ref], revision := x.revision + 1)];
    v := Go(w, Change(Add(x.self, ref)), x.self, true);
  }

  /** An input finds a change and gets its note. */
  lemma NoteAlone(w: World, x: Holder, i: nat) returns (v: World)
    requires Reaches(w, x.self, true) && w.store == [x] && Pending(x) && i !in w.inputs
    ensures Reaches(v, x.self, true) && v.store == [x] && TellsNothing(v, w) && v.silent == w.silent
    ensures v.inputs == w.inputs[i := Noted(Note(x.revision, w.silent, Visible(x)))]
  {
    v := Go(w, Check(i), x.self, true);
    v := Go(v, Describe(i), x.self, true);
  }

  lemma SendAlone(w: World, x: Holder, i: nat) returns (v: World)
    requires Reaches(w, x.self, true) && w.store == [x] && i in w.inputs && w.inputs[i].Noted?
    ensures Reaches(v, x.self, true) && v.store == [x] && v.silent == w.silent
    ensures var note := w.inputs[i].note;
            && v.inputs == w.inputs[i := Sent(note)] && v.told == note.refs && v.toldRevision == note.revision && v.toldSilent == note.silent
            && v.newest == if note.revision > w.newest then note.revision else w.newest
  {
    v := Go(w, Send(i), x.self, true);
  }

  lemma MarkAlone(w: World, x: Holder, i: nat) returns (v: World)
    requires Reaches(w, x.self, true) && w.store == [x] && i in w.inputs && w.inputs[i].Sent? && w.inputs[i].note.revision > Delivered(x)
    ensures Reaches(v, x.self, true) && v.store == [x.(delivered := Some(w.inputs[i].note.revision))]
    ensures v.inputs == w.inputs - {i} && TellsNothing(v, w) && v.silent == w.silent
  {
    assert MarkDeliveredOf([x], x.self, w.inputs[i].note.revision) == [x.(delivered := Some(w.inputs[i].note.revision))];
    v := Go(w, Mark(i), x.self, true);
  }

  lemma SourceAlone(w: World, x: Holder, source: Target) returns (v: World)
    requires Reaches(w, x.self, true) && w.store == [x] && x.revision > 0
    ensures Reaches(v, x.self, true) && v.store == [x.(source := Some(Source(source, false)))] && TellsNothing(v, w) && v.inputs == w.inputs
  {
    assert SetSourceOf([x], x.self, Source(source, false), false) == [x.(source := Some(Source(source, false)))];
    v := Go(w, Change(SetSource(x.self, Source(source, false), false)), x.self, true);
  }

  /** Two inputs whose notes were written one addition apart. */
  lemma TwoNotes(self: Target, a: Target, b: Target) returns (w: World)
    requires a != b
    ensures Reaches(w, self, true) && w.store == [Holder(self, 2, [a, b], None, None)] && w.silent == 0
    ensures w.inputs == map[1 := Noted(Note(1, 0, [Entry(a, Added)])), 2 := Noted(Note(2, 0, [Entry(a, Added), Entry(b, Added)]))]
  {
    Started(self);
    w := AddAlone(Start(), a, Holder(self, 0, [], None, None));
    assert [] + [a] == [a] && [a] + [b] == [a, b];
    w := NoteAlone(w, Holder(self, 1, [a], None, None), 1);
    w := AddAlone(w, b, Holder(self, 1, [a], None, None));
    w := NoteAlone(w, Holder(self, 2, [a, b], None, None), 2);
    assert AddedOf([a]) == [Entry(a, Added)] && AddedOf([a, b]) == [Entry(a, Added), Entry(b, Added)];
  }

  /** The order is needed: a reference is added, an input gets its note, another is added, a second
      input gets its note and is sent first.  The agent ends up with the older list, and nothing is
      pending. */
  lemma OvertakenNote(self: Target, a: Target, b: Target) returns (w: World)
    requires a != b
    ensures Reaches(w, self, true) && w.silent == w.toldSilent && w.inputs.Keys == {1}
    ensures var x := Saved(w.store, self); !Pending(x) && w.told == [Entry(a, Added)] && Visible(x) == [Entry(a, Added), Entry(b, Added)]
  {
    w := TwoNotes(self, a, b);
    var x := Holder(self, 2, [a, b], None, None);
    w := SendAlone(w, x, 2);
    w := MarkAlone(w, x, 2);
    w := SendAlone(w, x.(delivered := Some(2)), 1);
    assert AddedOf([a, b]) == [Entry(a, Added), Entry(b, Added)];
  }

  /** Telling is needed: a grant adopted after the first note leaves the agent without the source in
      its list, and nothing is pending. */
  lemma LateSourceIsSilent(self: Target, a: Target, source: Target) returns (w: World)
    requires a != source
    ensures Reaches(w, self, true) && w.toldRevision == w.newest && w.inputs == map[]
    ensures var x := Saved(w.store, self);
            !Pending(x) && w.told == [Entry(a, Added)] && Visible(x) == [Entry(source, FromSource), Entry(a, Added)]
  {
    Started(self);
    var x := Holder(self, 1, [a], None, None);
    assert [] + [a] == [a];
    w := AddAlone(Start(), a, Holder(self, 0, [], None, None));
    w := NoteAlone(w, x, 1);
    w := SendAlone(w, x, 1);
    w := MarkAlone(w, x, 1);
    assert w.inputs.Keys == {};
    w := SourceAlone(w, x.(delivered := Some(1)), source);
    assert AddedOf([a]) == [Entry(a, Added)] && Filtered([a], source) == [a];
  }

  /** The `k`-th of the other sessions that come to use the store. */
  function Other(self: Target, k: nat): Target {
    Target(self.provider, self.session + 1 + k)
  }

  function Others(self: Target, ref: Target, k: nat): (r: seq<Holder>)
    ensures |r| == k && forall i | 0 <= i < k :: r[i] == Holder(Other(self, i), 1, [ref], None, None)
  {
    if k == 0 then [] else Others(self, ref, k - 1) + [Holder(Other(self, k - 1), 1, [ref], None, None)]
  }

  lemma OneMore(x: Holder, ref: Target, k: nat)
    requires k + 1 < HOLDER_LIMIT
    ensures AddOf([x] + Others(x.self, ref, k), Other(x.self, k), ref).1 == [x] + Others(x.self, ref, k + 1)
  {
    var store, other := [x] + Others(x.self, ref, k), Other(x.self, k);
    FoundIsSelf(store, other);
    assert Find(store, other).None?;
    WithoutOfMissing(store, other);
    assert [] + [ref] == [ref];
  }

  /** Other sessions fill the store up behind the observed one. */
  lemma {:induction false} Crowd(w: World, x: Holder, ref: Target, k: nat) returns (v: World)
    requires Reaches(w, x.self, false) && w.store == [x] && k < HOLDER_LIMIT
    ensures Reaches(v, x.self, false) && v.store == [x] + Others(x.self, ref, k) && v.inputs == w.inputs && v.told == w.told
  {
    if k == 0 {
      v := w;
    } else {
      v := Crowd(w, x, ref, k - 1);
      var other := Other(x.self, k - 1);
      OneMore(x, ref, k - 1);
      v := Go(v, Change(Add(other, ref)), x.self, false);
    }
  }

  /** Staying in the store is needed: two references are added and an input with their note is sent;
      while it is on its way 4096 other sessions push this one out, and it comes back with another
      reference.  Marking the note then makes the store count the agent as told. */
  lemma ForgottenWhileTelling(self: Target, a: Target, b: Target, c: Target) returns (w: World)
    requires a != b
    ensures Reaches(w, self, false) && w.inputs == map[1 := Noted(Note(1, 0, [Entry(a, Added)]))]
    ensures var x := Saved(w.store, self);
            !Pending(x) && w.told == [Entry(a, Added), Entry(b, Added)] && Visible(x) == [Entry(c, Added)] && Delivered(x) == 2 > x.revision
  {
    w := TwoNotes(self, a, b);
    var x := Holder(self, 2, [a, b], None, None);
    w := SendAlone(w, x, 2);
    assert Reaches(w, self, false);
    w := Crowd(w, x, c, HOLDER_LIMIT - 1);
    w := ForgottenAndBack(w, x, c);
    w := Go(w, Mark(2), self, false);
    assert AddedOf([c]) == [Entry(c, Added)];
  }

  lemma ForgottenAndBack(w: World, x: Holder, ref: Target) returns (v: World)
    requires Reaches(w, x.self, false) && w.store == [x] + Others(x.self, ref, HOLDER_LIMIT - 1)
    ensures Reaches(v, x.self, false) && v.inputs == w.inputs && v.told == w.told
    ensures forall n: nat | n > 1 ::
              Saved(MarkDeliveredOf(v.store, x.self, n), x.self) == Holder(x.self, 1, [ref], None, Some(n))
  {
    var other := Other(x.self, HOLDER_LIMIT - 1);
    FoundIsSelf(w.store, other);
    Forgets(w.store, other, ref);
    v := Go(w, Change(Add(other, ref)), x.self, false);
    forall n: nat | n > 1 ensures Saved(MarkDeliveredOf(After(v.store, Add(x.self, ref)), x.self, n), x.self) == Holder(x.self, 1, [ref], None, Some(n)) {
      ComesBack(v.store, x.self, ref, n);
    }
    v := Go(v, Change(Add(x.self, ref)), x.self, false);
  }

  lemma Forgets(store: seq<Holder>, other: Target, ref: Target)
    requires Unique(store) && |store| == HOLDER_LIMIT && Find(store, other).None?
    ensures var forgot := After(store, Add(other, ref));
            Unique(forgot) && |forgot| == HOLDER_LIMIT && (store[0].self != other ==> Find(forgot, store[0].self).None?)
  {
    var first := Holder(other, 1, [ref], None, None);
    WithoutOfMissing(store, other);
    assert Saved(store, other).refs + [ref] == [ref];
    assert After(store, Add(other, ref)) == (store + [first])[1..] == store[1..] + [first];
    NotInRest(store);
    FindAppended(store[1..], first, store[0].self);
    UniqueBack(store, first);
  }

  lemma ComesBack(forgot: seq<Holder>, self: Target, ref: Target, revision: nat)
    requires Unique(forgot) && |forgot| == HOLDER_LIMIT && Find(forgot, self).None? && revision > 1
    ensures var back := After(forgot, Add(self, ref));
            var marked := MarkDeliveredOf(back, self, revision);
            Saved(back, self) == Holder(self, 1, [ref], None, None) && Saved(marked, self) == Holder(self, 1, [ref], None, Some(revision))
  {
    var again := Holder(self, 1, [ref], None, None);
    WithoutOfMissing(forgot, self);
    var back := After(forgot, Add(self, ref));
    assert Saved(forgot, self).refs + [ref] == [ref];
    assert back == (forgot + [again])[1..] == forgot[1..] + [again];
    assert Find(forgot[1..], self).None?;
    FindAppended(forgot[1..], again, self);
    UniqueBack(forgot, again);
    InPlaceSets(back, again.(delivered := Some(revision)));
    InPlaceFind(back, again.(delivered := Some(revision)), self);
  }

  lemma {:induction false} WithoutOfMissing(store: seq<Holder>, h: Target)
    requires Find(store, h).None?
    ensures Without(store, h) == store
  {
    if store != [] { WithoutOfMissing(store[1..], h); }
  }

  lemma NotInRest(store: seq<Holder>)
    requires Unique(store) && store != []
    ensures Find(store[1..], store[0].self).None?
  {
    FoundIsSelf(store[1..], store[0].self);
    assert forall i | 0 <= i < |store[1..]| :: store[1..][i] == store[i + 1];
  }

  lemma UniqueBack(store: seq<Holder>, x: Holder)
    requires Unique(store) && Find(store, x.self).None? && store != []
    ensures Unique(store[1..] + [x])
  {
    FoundIsSelf(store, x.self);
    assert forall i | 0 <= i < |store[1..]| :: store[1..][i] == store[i + 1] && store[i + 1] in store;
  }
}

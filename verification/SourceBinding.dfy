/** Reading the history of the session behind a primary role.  Cursors pin the session that was read
    first, so a reader sees one history although the role moves on through handoffs. */
module SourceBinding {
  import B = Base64Url

  datatype Option<+T> = None | Some(value: T)

  datatype Ref = Ref(controllerId: string, providerId: string, nativeSessionId: string)

  // ---- The stores, as far as source reads depend on them ----

  datatype Commit = Commit(operationId: string, from: Ref, to: Ref)
  datatype Participant = Participant(tpm: bool, after: Ref)

  /** A primary role.  Its revision and current session follow from the committed handoffs. */
  datatype Role = Role(id: string, origin: Ref, commits: seq<Commit>, participants: seq<Participant>) {
    function Revision(): nat { |commits| + 1 }
    function Current(): Ref { if commits == [] then origin else commits[|commits| - 1].to }
    function Lineage(): set<Ref> { {origin} + (set c | c in commits :: c.to) }
  }

  /** The context captured for a successor; `materialized` once native history contains it. */
  datatype Attachment = Attachment(operationId: string, source: Ref, target: Ref, roleId: string, roleRevision: nat, materialized: bool)

  datatype World = World(roles: seq<Role>, pending: set<Ref>, contexts: seq<Attachment>)

  // ---- Which role a reader belongs to ----

  datatype RoleSource = RoleSource(source: Ref, roleId: Option<string>, roleRevision: nat, lineage: set<Ref>)

  function SourceOf(role: Role): RoleSource {
    RoleSource(role.Current(), Some(role.id), role.Revision(), role.Lineage())
  }

  function WithParticipants(readers: map<Ref, RoleSource>, participants: seq<Participant>, source: RoleSource): Option<map<Ref, RoleSource>>
    decreases |participants|
  {
    if participants == [] then Some(readers)
    else if participants[0].tpm then WithParticipants(readers, participants[1..], source)
    else if participants[0].after in readers then None
    else WithParticipants(readers[participants[0].after := source], participants[1..], source)
  }

  /** Every reader with its role; none when a reader belongs to more than one. */
  function WithRoles(readers: map<Ref, RoleSource>, roles: seq<Role>): Option<map<Ref, RoleSource>>
    decreases |roles|
  {
    if roles == [] then Some(readers)
    else if roles[0].commits == [] then WithRoles(readers, roles[1..])
    else
      var next := WithParticipants(readers, roles[0].participants, SourceOf(roles[0]));
      if next.None? then None else WithRoles(next.value, roles[1..])
  }

  function ReadersOf(roles: seq<Role>): Option<map<Ref, RoleSource>> {
    WithRoles(map[], roles)
  }

  function Resolve(w: World, reader: Ref, original: Ref): Option<RoleSource> {
    if reader in w.pending then None
    else
      var readers := ReadersOf(w.roles);
      if readers.None? then None
      else if reader !in readers.value then Some(RoleSource(original, None, 0, {original}))
      else if original !in readers.value[reader].lineage then None
      else Some(readers.value[reader])
  }

  // ---- The cached lookup ----

  class SuccessionStore {
    var roles: seq<Role>
    var pending: set<Ref>
    var generation: nat

    constructor ()
      ensures roles == [] && pending == {} && generation == 0
    {
      roles, pending, generation := [], {}, 0;
    }

    /** Every change of the store gets a new generation. */
    method Change(roles: seq<Role>, pending: set<Ref>)
      modifies this
      ensures this.roles == roles && this.pending == pending && generation == old(generation) + 1
    {
      this.roles, this.pending, generation := roles, pending, generation + 1;
    }
  }

  class SessionSourceBindings {
    const store: SuccessionStore
    var generation: int
    var readers: map<Ref, RoleSource>

    /** The cache is the lookup of the store whenever its generation is the store's. */
    ghost predicate Valid()
      reads this, store
    {
      generation <= store.generation && (generation == store.generation ==> ReadersOf(store.roles) == Some(readers))
    }

    constructor (store: SuccessionStore)
      ensures Valid() && this.store == store
    {
      this.store := store;
      generation, readers := -1, map[];
    }

    method Refresh() returns (ok: bool)
      requires Valid()
      modifies this
      ensures Valid() && ok == ReadersOf(store.roles).Some?
      ensures ok ==> Some(readers) == ReadersOf(store.roles) && generation == store.generation
      ensures !ok || old(generation) == store.generation ==> unchanged(this)
    {
      if generation == store.generation { return true; }
      var found := map[];
      var roles := store.roles;
      for i := 0 to |roles|
        invariant WithRoles(found, roles[i..]) == ReadersOf(roles)
        invariant store.roles == roles && Valid() && unchanged(this)
      {
        assert roles[i..][1..] == roles[i + 1..];
        if roles[i].commits != [] {
          var participants := roles[i].participants;
          ghost var before := found;
          for j := 0 to |participants|
            invariant WithParticipants(found, participants[j..], SourceOf(roles[i])) == WithParticipants(before, participants, SourceOf(roles[i]))
            invariant store.roles == roles && Valid() && unchanged(this)
          {
            assert participants[j..][1..] == participants[j + 1..];
            if !participants[j].tpm {
              if participants[j].after in found { return false; }
              found := found[participants[j].after := SourceOf(roles[i])];
            }
          }
        }
      }
      readers, generation := found, store.generation;
      return true;
    }

    method ResolveSource(reader: Ref, original: Ref) returns (r: Option<RoleSource>)
      requires Valid()
      modifies this
      ensures Valid() && r == Resolve(World(store.roles, store.pending, []), reader, original)
    {
      if reader in store.pending { return None; }
      var ok := Refresh();
      if !ok { return None; }
      if reader !in readers { return Some(RoleSource(original, None, 0, {original})); }
      if original !in readers[reader].lineage { return None; }
      return Some(readers[reader]);
    }
  }

  /** A change of the store cannot make the cache lie. */
  twostate lemma CacheSurvivesChange(b: SessionSourceBindings)
    requires old(b.Valid()) && unchanged(b) && b.store.generation > old(b.store.generation)
    ensures b.Valid()
  {}

  // ---- One read ----

  datatype Cursor = Cursor(
    reader: Ref, originalSource: Ref, page: Option<string>, source: Ref, attachmentId: Option<string>,
    roleId: Option<string>, roleRevision: nat)

  function Authorized(controllerId: string, current: RoleSource, source: Ref, roleId: Option<string>, roleRevision: nat): bool {
    || (current.roleId.None? && current.source == source)
    || (source.controllerId == controllerId && source in current.lineage
        && (roleId.None? || (roleId == current.roleId && roleRevision <= current.roleRevision)))
  }

  function ForTarget(contexts: seq<Attachment>, target: Ref): Option<Attachment> {
    if contexts == [] then None else if contexts[0].target == target then Some(contexts[0]) else ForTarget(contexts[1..], target)
  }

  function ById(contexts: seq<Attachment>, id: string): Option<Attachment> {
    if contexts == [] then None else if contexts[0].operationId == id then Some(contexts[0]) else ById(contexts[1..], id)
  }

  predicate HasProvenance(roles: seq<Role>, a: Attachment) {
    exists i | 0 <= i < |roles| :: roles[i].id == a.roleId && 2 <= a.roleRevision <= roles[i].Revision()
      && roles[i].commits[a.roleRevision - 2] == Commit(a.operationId, a.source, a.target)
  }

  /** The stored context a read takes its entries from; none for a native read. */
  function Chosen(w: World, source: Ref, pinned: Option<Cursor>): Option<Attachment> {
    if pinned.Some? then (if pinned.value.attachmentId.Some? then ById(w.contexts, pinned.value.attachmentId.value) else None)
    else
      var candidate := ForTarget(w.contexts, source);
      if candidate.Some? && !candidate.value.materialized then candidate else None
  }

  predicate Matches(w: World, a: Attachment, source: Ref, roleId: Option<string>, roleRevision: nat) {
    && a.target == source && HasProvenance(w.roles, a)
    && (roleId.Some? ==> roleId.value == a.roleId && roleRevision == a.roleRevision)
  }

  /** What an authorized read returns as its source context: the pinned session, or the current one
      when nothing is pinned.  None when the read is refused. */
  function ReadSource(w: World, controllerId: string, reader: Ref, original: Ref, pinned: Option<Cursor>): Option<Cursor> {
    var resolved := Resolve(w, reader, original);
    if resolved.None? then None
    else
      var selected := if pinned.Some? then RoleSource(pinned.value.source, pinned.value.roleId, pinned.value.roleRevision, {}) else resolved.value;
      var attachment := Chosen(w, selected.source, pinned);
      if !Authorized(controllerId, resolved.value, selected.source, selected.roleId, selected.roleRevision) then None
      else if pinned.Some? && pinned.value.attachmentId.Some? && attachment.None? then None
      else if attachment.None? then
        Some(Cursor(reader, original, None, selected.source, None, selected.roleId, if selected.roleId.Some? then selected.roleRevision else 0))
      else if !Matches(w, attachment.value, selected.source, selected.roleId, selected.roleRevision) then None
      else
        var a := attachment.value;
        Some(Cursor(reader, original, None, selected.source, Some(a.operationId), Some(a.roleId), a.roleRevision))
  }

  // ---- Committed states that follow one another ----

  datatype Event =
    | Enroll(role: Role)                                        // a new role, without handoffs
    | Hand(index: nat, operationId: string, to: Ref)            // a handoff commits
    | SetParticipants(index: nat, participants: seq<Participant>)
    | SetPending(pending: set<Ref>)
    | Attach(attachment: Attachment)
    | Materialize(index: nat)

  predicate Enabled(w: World, ev: Event) {
    match ev
    case Enroll(role) => role.commits == [] && forall r | r in w.roles :: r.id != role.id
    case Hand(i, _, _) => i < |w.roles|
    case SetParticipants(i, _) => i < |w.roles|
    case SetPending(_) => true
    case Attach(a) => forall b | b in w.contexts :: b.operationId != a.operationId
    case Materialize(i) => i < |w.contexts|
  }

  function Apply(w: World, ev: Event): World
    requires Enabled(w, ev)
  {
    match ev
    case Enroll(role) => w.(roles := w.roles + [role])
    case Hand(i, operationId, to) =>
      w.(roles := w.roles[i := w.roles[i].(commits := w.roles[i].commits + [Commit(operationId, w.roles[i].Current(), to)])])
    case SetParticipants(i, participants) => w.(roles := w.roles[i := w.roles[i].(participants := participants)])
    case SetPending(pending) => w.(pending := pending)
    case Attach(a) => w.(contexts := w.contexts + [a])
    case Materialize(i) => w.(contexts := w.contexts[i := w.contexts[i].(materialized := true)])
  }

  ghost predicate IsRun(ws: seq<World>, events: seq<Event>) {
    && |ws| == |events| + 1
    && (forall i :: 0 <= i < |events| ==> Enabled(ws[i], events[i]) && ws[i + 1] == Apply(ws[i], events[i]))
  }

  /** Nothing committed is ever taken back: roles keep their identity and handoffs, contexts stay. */
  predicate Later(v: World, w: World) {
    && |v.roles| <= |w.roles| && |v.contexts| <= |w.contexts|
    && (forall i | 0 <= i < |v.roles| :: w.roles[i].id == v.roles[i].id && w.roles[i].origin == v.roles[i].origin && v.roles[i].commits <= w.roles[i].commits)
    && (forall i | 0 <= i < |v.contexts| :: w.contexts[i].(materialized := v.contexts[i].materialized) == v.contexts[i])
  }

  predicate Distinct(w: World) {
    && (forall i, j | 0 <= i < j < |w.roles| :: w.roles[i].id != w.roles[j].id)
    && (forall i, j | 0 <= i < j < |w.contexts| :: w.contexts[i].operationId != w.contexts[j].operationId)
  }

  lemma StepIsLater(w: World, ev: Event)
    requires Enabled(w, ev)
    ensures Later(w, Apply(w, ev)) && (Distinct(w) ==> Distinct(Apply(w, ev)))
  {}

  lemma LaterIsTransitive(u: World, v: World, w: World)
    requires Later(u, v) && Later(v, w)
    ensures Later(u, w)
  {}

  lemma {:induction false} RunIsLater(ws: seq<World>, events: seq<Event>, i: nat, j: nat)
    requires IsRun(ws, events) && i <= j < |ws| && Distinct(ws[i])
    ensures Later(ws[i], ws[j]) && Distinct(ws[j])
  {
    if i < j {
      RunIsLater(ws, events, i, j - 1);
      StepIsLater(ws[j - 1], events[j - 1]);
      LaterIsTransitive(ws[i], ws[j - 1], ws[j]);
    }
  }

  // ---- The lookup, as a relation between readers and roles ----

  predicate Participates(role: Role, reader: Ref) {
    role.commits != [] && exists p | p in role.participants :: !p.tpm && p.after == reader
  }

  lemma {:induction false} ParticipantsAreReaders(readers: map<Ref, RoleSource>, participants: seq<Participant>, source: RoleSource, r: Ref)
    requires WithParticipants(readers, participants, source).Some?
    ensures var m := WithParticipants(readers, participants, source).value;
            && (r in m <==> r in readers || exists p | p in participants :: !p.tpm && p.after == r)
            && (r in readers ==> m[r] == readers[r] && forall p | p in participants && !p.tpm :: p.after != r)
            && (r in m && r !in readers ==> m[r] == source)
    decreases |participants|
  {
    if participants != [] {
      var p, rest := participants[0], participants[1..];
      assert forall q :: q in participants <==> q == p || q in rest;
      ParticipantsAreReaders(if p.tpm then readers else readers[p.after := source], rest, source, r);
    }
  }

  lemma {:induction false} RolesHaveReaders(readers: map<Ref, RoleSource>, roles: seq<Role>, r: Ref)
    requires WithRoles(readers, roles).Some?
    ensures var m := WithRoles(readers, roles).value;
            && (r in readers ==> r in m && m[r] == readers[r] && forall i | 0 <= i < |roles| :: !Participates(roles[i], r))
            && (r in m && r !in readers ==> exists i | 0 <= i < |roles| :: Participates(roles[i], r) && m[r] == SourceOf(roles[i]))
            && (forall i | 0 <= i < |roles| && Participates(roles[i], r) :: r in m && r !in readers && m[r] == SourceOf(roles[i]))
    decreases |roles|
  {
    if roles != [] {
      var role, rest := roles[0], roles[1..];
      assert forall i | 0 < i < |roles| :: roles[i] == rest[i - 1];
      if role.commits == [] {
        RolesHaveReaders(readers, rest, r);
      } else {
        var next := WithParticipants(readers, role.participants, SourceOf(role)).value;
        ParticipantsAreReaders(readers, role.participants, SourceOf(role), r);
        RolesHaveReaders(next, rest, r);
      }
      var m := WithRoles(readers, roles).value;
      if r in m && r !in readers && !Participates(role, r) {
        var i :| 0 <= i < |rest| && Participates(rest[i], r) && m[r] == SourceOf(rest[i]);
        assert roles[i + 1] == rest[i];
      }
    }
  }

  /** The reader's role is `roleId` (none for a reader outside every role with a handoff). */
  ghost predicate EnrolledIn(w: World, reader: Ref, roleId: Option<string>) {
    var readers := ReadersOf(w.roles);
    readers.Some? && (if roleId.None? then reader !in readers.value else reader in readers.value && readers.value[reader].roleId == roleId)
  }

  /** Enrolled in the same role in two successive states: the later lookup extends the earlier one. */
  lemma LookupExtends(v: World, w: World, reader: Ref, original: Ref, roleId: Option<string>)
    requires Later(v, w) && Distinct(v) && Distinct(w) && EnrolledIn(v, reader, roleId) && EnrolledIn(w, reader, roleId)
    requires Resolve(v, reader, original).Some? && reader !in w.pending
    ensures Resolve(w, reader, original).Some?
    ensures var a, b := Resolve(v, reader, original).value, Resolve(w, reader, original).value;
            a.roleId == b.roleId == roleId && a.lineage <= b.lineage && a.roleRevision <= b.roleRevision && (roleId.None? ==> a == b)
  {
    if roleId.Some? {
      RolesHaveReaders(map[], v.roles, reader);
      RolesHaveReaders(map[], w.roles, reader);
      var a, b := ReadersOf(v.roles).value[reader], ReadersOf(w.roles).value[reader];
      var i :| 0 <= i < |v.roles| && Participates(v.roles[i], reader) && a == SourceOf(v.roles[i]);
      var j :| 0 <= j < |w.roles| && Participates(w.roles[j], reader) && b == SourceOf(w.roles[j]);
      assert w.roles[i].id == v.roles[i].id == w.roles[j].id;
      assert i == j;
      LineageGrows(v.roles[i], w.roles[i]);
    }
  }

  lemma LineageGrows(v: Role, w: Role)
    requires v.origin == w.origin && v.commits <= w.commits
    ensures v.Lineage() <= w.Lineage() && v.Revision() <= w.Revision()
  {
    forall c | c in v.commits ensures c in w.commits {
      var k :| 0 <= k < |v.commits| && v.commits[k] == c;
      assert w.commits[k] == c;
    }
  }

  lemma ProvenanceStays(v: World, w: World, a: Attachment)
    requires Later(v, w) && HasProvenance(v.roles, a)
    ensures HasProvenance(w.roles, a)
  {
    var i :| 0 <= i < |v.roles| && v.roles[i].id == a.roleId && 2 <= a.roleRevision <= v.roles[i].Revision()
      && v.roles[i].commits[a.roleRevision - 2] == Commit(a.operationId, a.source, a.target);
    assert w.roles[i].commits[a.roleRevision - 2] == v.roles[i].commits[a.roleRevision - 2];
  }

  lemma {:induction false} FirstIs(contexts: seq<Attachment>, id: string, k: nat)
    requires k < |contexts| && contexts[k].operationId == id
    requires forall i, j | 0 <= i < j < |contexts| :: contexts[i].operationId != contexts[j].operationId
    ensures ById(contexts, id) == Some(contexts[k])
    decreases k
  {
    if k > 0 {
      FirstIs(contexts[1..], id, k - 1);
    }
  }

  lemma {:induction false} FoundIsIn(contexts: seq<Attachment>, target: Ref, id: string)
    ensures ForTarget(contexts, target).Some? ==> ForTarget(contexts, target).value in contexts
    ensures ById(contexts, id).Some? ==> ById(contexts, id).value in contexts && ById(contexts, id).value.operationId == id
    decreases |contexts|
  {
    if contexts != [] {
      FoundIsIn(contexts[1..], target, id);
    }
  }

  /** A context used by an earlier read is found again by its identity, with the same content. */
  lemma ContextStays(v: World, w: World, a: Attachment)
    requires Later(v, w) && Distinct(w) && a in v.contexts
    ensures ById(w.contexts, a.operationId).Some? && ById(w.contexts, a.operationId).value.(materialized := a.materialized) == a
  {
    var k :| 0 <= k < |v.contexts| && v.contexts[k] == a;
    FirstIs(w.contexts, a.operationId, k);
  }

  // ---- The main results ----

  /** Pinned reads.  A source context, or a page cursor made from it, that was issued in one committed
      state is accepted, and reads the same session through the same representation, in every later committed state where the reader is
      still enrolled in that role with no association pending, however many handoffs lie between. */
  lemma PinnedReadSurvives(ws: seq<World>, events: seq<Event>, i: nat, j: nat, controllerId: string,
                           reader: Ref, original: Ref, pinned: Option<Cursor>, c: Cursor, roleId: Option<string>, page: Option<string>)
    requires IsRun(ws, events) && i <= j < |ws| && Distinct(ws[i])
    requires pinned.Some? && pinned.value.attachmentId.Some? ==> pinned.value.roleId.Some?
    requires ReadSource(ws[i], controllerId, reader, original, pinned) == Some(c)
    requires EnrolledIn(ws[i], reader, roleId) && EnrolledIn(ws[j], reader, roleId) && reader !in ws[j].pending
    ensures ReadSource(ws[j], controllerId, reader, original, Some(c.(page := page))) == Some(c)
  {
    RunIsLater(ws, events, i, j);
    PinnedReadLater(ws[i], ws[j], controllerId, reader, original, pinned, c, roleId);
  }

  lemma PinnedReadLater(v: World, w: World, controllerId: string, reader: Ref, original: Ref, pinned: Option<Cursor>, c: Cursor, roleId: Option<string>)
    requires Later(v, w) && Distinct(v) && Distinct(w)
    requires pinned.Some? && pinned.value.attachmentId.Some? ==> pinned.value.roleId.Some?
    requires ReadSource(v, controllerId, reader, original, pinned) == Some(c)
    requires EnrolledIn(v, reader, roleId) && EnrolledIn(w, reader, roleId) && reader !in w.pending
    ensures ReadSource(w, controllerId, reader, original, Some(c)) == Some(c)
  {
    LookupExtends(v, w, reader, original, roleId);
    var a, b := Resolve(v, reader, original).value, Resolve(w, reader, original).value;
    if c.attachmentId.Some? {
      ContextMatches(v, w, c, Chosen(v, c.source, pinned).value, if pinned.Some? then pinned.value.attachmentId.value else "");
    }
  }

  lemma ContextMatches(v: World, w: World, c: Cursor, a: Attachment, id: string)
    requires Later(v, w) && Distinct(w) && (ForTarget(v.contexts, c.source) == Some(a) || ById(v.contexts, id) == Some(a))
    requires a.target == c.source && HasProvenance(v.roles, a)
    requires c.attachmentId == Some(a.operationId) && c.roleId == Some(a.roleId) && c.roleRevision == a.roleRevision
    ensures Chosen(w, c.source, Some(c)).Some?
    ensures var b := Chosen(w, c.source, Some(c)).value;
            && b.operationId == a.operationId && b.roleId == a.roleId && b.roleRevision == a.roleRevision
            && Matches(w, b, c.source, c.roleId, c.roleRevision)
  {
    FoundIsIn(v.contexts, c.source, id);
    ContextStays(v, w, a);
    ProvenanceStays(v, w, a);
    var b := ById(w.contexts, a.operationId).value;
  }

  // ---- The first read ----

  /** The context stored for `target`: the first one, at `i`. */
  predicate StoredFor(w: World, target: Ref, i: nat) {
    i < |w.contexts| && w.contexts[i].target == target && forall j | 0 <= j < i :: w.contexts[j].target != target
  }

  lemma {:induction false} ForTargetIsFirst(contexts: seq<Attachment>, target: Ref, i: nat)
    requires i < |contexts| && contexts[i].target == target && forall j | 0 <= j < i :: contexts[j].target != target
    ensures ForTarget(contexts, target) == Some(contexts[i])
  {
    if i > 0 {
      assert contexts[0].target != target;
      assert forall j | 0 <= j < i - 1 :: contexts[1..][j] == contexts[j + 1];
      ForTargetIsFirst(contexts[1..], target, i - 1);
    }
  }

  lemma {:induction false} ForTargetFinds(contexts: seq<Attachment>, target: Ref) returns (i: nat)
    requires ForTarget(contexts, target).Some?
    ensures i < |contexts| && contexts[i].target == target && ForTarget(contexts, target) == Some(contexts[i])
    ensures forall j | 0 <= j < i :: contexts[j].target != target
  {
    if contexts[0].target == target {
      i := 0;
    } else {
      var k := ForTargetFinds(contexts[1..], target);
      i := k + 1;
      assert forall j | 0 < j < i :: contexts[j] == contexts[1..][j - 1];
    }
  }

  /** Where a reader without a cursor is sent: to the current session of its role once that has a
      handoff, and to the session it was given otherwise. */
  lemma SentToCurrent(w: World, reader: Ref, original: Ref, i: nat)
    requires Resolve(w, reader, original).Some? && i < |w.roles| && Participates(w.roles[i], reader)
    ensures Resolve(w, reader, original).value == RoleSource(w.roles[i].Current(), Some(w.roles[i].id), |w.roles[i].commits| + 1, w.roles[i].Lineage())
    ensures original in w.roles[i].Lineage()
  {
    RolesHaveReaders(map[], w.roles, reader);
  }

  lemma SentToOriginal(w: World, reader: Ref, original: Ref)
    requires Resolve(w, reader, original).Some? && forall i | 0 <= i < |w.roles| :: !Participates(w.roles[i], reader)
    ensures Resolve(w, reader, original).value == RoleSource(original, None, 0, {original})
  {
    RolesHaveReaders(map[], w.roles, reader);
  }

  lemma CurrentIsInLineage(role: Role)
    ensures role.Current() in role.Lineage()
  {}

  lemma {:induction false} SourceIsInLineage(w: World, reader: Ref, original: Ref)
    requires Resolve(w, reader, original).Some?
    ensures Resolve(w, reader, original).value.source in Resolve(w, reader, original).value.lineage
  {
    RolesHaveReaders(map[], w.roles, reader);
    if i :| 0 <= i < |w.roles| && Participates(w.roles[i], reader) { CurrentIsInLineage(w.roles[i]); }
  }

  /** A read without a cursor answers from the session the reader is sent to: from the context stored
      for it if and only if native history does not contain that yet, and from native history else. */
  lemma FirstReadIsCurrent(w: World, controllerId: string, reader: Ref, original: Ref, c: Cursor)
    requires ReadSource(w, controllerId, reader, original, None) == Some(c)
    ensures Resolve(w, reader, original).Some?
    ensures var r := Resolve(w, reader, original).value;
            && c.source == r.source && c.reader == reader && c.originalSource == original && c.page == None
            && (c.attachmentId.Some? <==> exists i: nat :: StoredFor(w, r.source, i) && !w.contexts[i].materialized)
            && (forall i: nat | StoredFor(w, r.source, i) && !w.contexts[i].materialized ::
                  c.attachmentId == Some(w.contexts[i].operationId) && c.roleId == Some(w.contexts[i].roleId) && c.roleRevision == w.contexts[i].roleRevision)
            && (c.attachmentId.None? ==> c.roleId == r.roleId && c.roleRevision == if r.roleId.Some? then r.roleRevision else 0)
  {
    var r := Resolve(w, reader, original).value;
    forall i: nat | StoredFor(w, r.source, i) ensures ForTarget(w.contexts, r.source) == Some(w.contexts[i]) { ForTargetIsFirst(w.contexts, r.source, i); }
    if ForTarget(w.contexts, r.source).Some? {
      var i := ForTargetFinds(w.contexts, r.source);
      assert StoredFor(w, r.source, i);
    }
  }

  /** It is answered if and only if the reader may read at all, the session is one of this Controller
      unless the reader is outside every role, and a context it would come from belongs to a committed
      handoff of the same role and revision. */
  lemma FirstReadExactly(w: World, controllerId: string, reader: Ref, original: Ref)
    requires Resolve(w, reader, original).Some?
    ensures var r := Resolve(w, reader, original).value;
            ReadSource(w, controllerId, reader, original, None).Some? <==>
              && (r.roleId.None? || r.source.controllerId == controllerId)
              && forall i: nat | StoredFor(w, r.source, i) && !w.contexts[i].materialized ::
                   && HasProvenance(w.roles, w.contexts[i])
                   && (r.roleId.Some? ==> r.roleId == Some(w.contexts[i].roleId) && r.roleRevision == w.contexts[i].roleRevision)
  {
    var r := Resolve(w, reader, original).value;
    SourceIsInLineage(w, reader, original);
    RolesHaveReaders(map[], w.roles, reader);
    forall i: nat | StoredFor(w, r.source, i) ensures ForTarget(w.contexts, r.source) == Some(w.contexts[i]) { ForTargetIsFirst(w.contexts, r.source, i); }
    if ForTarget(w.contexts, r.source).Some? {
      var i := ForTargetFinds(w.contexts, r.source);
      assert StoredFor(w, r.source, i);
    }
  }

  /** Once native history contains the context, new reads go there, while a cursor issued before keeps
      reading the context. */
  lemma MaterializedReadsNative(w: World, controllerId: string, reader: Ref, original: Ref, c: Cursor, i: nat)
    requires Distinct(w) && ReadSource(w, controllerId, reader, original, None) == Some(c) && c.attachmentId.Some? && StoredFor(w, c.source, i)
    ensures var v := Apply(w, Materialize(i));
            && ReadSource(v, controllerId, reader, original, Some(c)) == Some(c)
            && ReadSource(v, controllerId, reader, original, None).Some?
            && ReadSource(v, controllerId, reader, original, None).value.attachmentId.None?
            && ReadSource(v, controllerId, reader, original, None).value.source == c.source
  {
    var v := Apply(w, Materialize(i));
    FirstReadIsCurrent(w, controllerId, reader, original, c);
    FirstReadExactly(w, controllerId, reader, original);
    assert Resolve(v, reader, original) == Resolve(w, reader, original);
    assert StoredFor(v, c.source, i) && v.contexts[i].materialized;
    forall j: nat | StoredFor(v, c.source, j) ensures j == i {}
    FirstReadExactly(v, controllerId, reader, original);
    FirstReadIsCurrent(v, controllerId, reader, original, ReadSource(v, controllerId, reader, original, None).value);
    StepIsLater(w, Materialize(i));
    ResolvedIsEnrolled(w, reader, original);
    ResolvedIsEnrolled(v, reader, original);
    PinnedReadLater(w, v, controllerId, reader, original, None, c, Resolve(w, reader, original).value.roleId);
  }

  lemma ResolvedIsEnrolled(w: World, reader: Ref, original: Ref)
    requires Resolve(w, reader, original).Some?
    ensures EnrolledIn(w, reader, Resolve(w, reader, original).value.roleId) && reader !in w.pending
  {
    RolesHaveReaders(map[], w.roles, reader);
  }

  /** A context belongs to a committed handoff: the one that led to its revision, counted from 1 for a
      role without handoffs. */
  lemma ProvenanceIsCommitted(roles: seq<Role>, a: Attachment)
    ensures HasProvenance(roles, a) <==>
            exists i, m | 0 <= i < |roles| && 0 <= m < |roles[i].commits| ::
              roles[i].id == a.roleId && roles[i].commits[m] == Commit(a.operationId, a.source, a.target) && a.roleRevision == m + 2
  {
    if HasProvenance(roles, a) {
      var i :| 0 <= i < |roles| && roles[i].id == a.roleId && 2 <= a.roleRevision <= roles[i].Revision()
        && roles[i].commits[a.roleRevision - 2] == Commit(a.operationId, a.source, a.target);
      assert roles[i].commits[a.roleRevision - 2] == Commit(a.operationId, a.source, a.target);
    }
    if i, m :| 0 <= i < |roles| && 0 <= m < |roles[i].commits| && roles[i].id == a.roleId
               && roles[i].commits[m] == Commit(a.operationId, a.source, a.target) && a.roleRevision == m + 2 {
      assert roles[i].commits[a.roleRevision - 2] == Commit(a.operationId, a.source, a.target);
    }
  }

  /** What a cursor may read: a participant of a role, any session of this Controller the role ever was
      in, at a revision it has reached. */
  lemma PinnedWithinLineage(w: World, controllerId: string, reader: Ref, original: Ref, p: Cursor, i: nat)
    requires Resolve(w, reader, original).Some? && i < |w.roles| && Participates(w.roles[i], reader) && p.attachmentId.None?
    ensures ReadSource(w, controllerId, reader, original, Some(p)).Some? <==>
              && p.source.controllerId == controllerId
              && (p.source == w.roles[i].origin || exists m | 0 <= m < |w.roles[i].commits| :: w.roles[i].commits[m].to == p.source)
              && (p.roleId.None? || (p.roleId == Some(w.roles[i].id) && p.roleRevision <= |w.roles[i].commits| + 1))
  {
    SentToCurrent(w, reader, original, i);
    assert p.source in w.roles[i].Lineage() <==> p.source == w.roles[i].origin || exists m | 0 <= m < |w.roles[i].commits| :: w.roles[i].commits[m].to == p.source;
  }

  /** Any other reader may only read the session it was given. */
  lemma PinnedToOriginal(w: World, controllerId: string, reader: Ref, original: Ref, p: Cursor)
    requires Resolve(w, reader, original).Some? && (forall i | 0 <= i < |w.roles| :: !Participates(w.roles[i], reader)) && p.attachmentId.None?
    ensures ReadSource(w, controllerId, reader, original, Some(p)).Some? <==> p.source == original
  {
    SentToOriginal(w, reader, original);
  }

  /** Whoever is pinned to a context needs it, under its own identity, for the same session and handoff. */
  lemma PinnedToContext(w: World, controllerId: string, reader: Ref, original: Ref, p: Cursor, c: Cursor)
    requires p.attachmentId.Some? && ReadSource(w, controllerId, reader, original, Some(p)) == Some(c)
    ensures c.source == p.source && c.attachmentId == p.attachmentId && c.reader == reader && c.originalSource == original
    ensures exists a | a in w.contexts ::
              && a.operationId == p.attachmentId.value && a.target == p.source && HasProvenance(w.roles, a) && c.roleId == Some(a.roleId) && c.roleRevision == a.roleRevision
              && (p.roleId.Some? ==> p.roleId == c.roleId && p.roleRevision == c.roleRevision)
  {
    FoundIsIn(w.contexts, p.source, p.attachmentId.value);
  }

  // ---- A handoff and its readers, step by step ----

  ghost predicate Follows(v: World, events: seq<Event>, w: World)
    decreases |events|
  {
    if events == [] then v == w else Enabled(v, events[0]) && Follows(Apply(v, events[0]), events[1..], w)
  }

  const FIRST := Ref("c", "p", "a")
  const SECOND := Ref("c", "p", "b")
  const READER := Ref("c", "p", "r")
  const CONTEXT := Attachment("op", FIRST, SECOND, "role", 2, false)

  lemma Handed() returns (w: World)
    ensures w == World([Role("role", FIRST, [Commit("op", FIRST, SECOND)], [Participant(false, READER)])], {}, [CONTEXT])
    ensures Follows(World([], {}, []), [Enroll(Role("role", FIRST, [], [])), Hand(0, "op", SECOND), SetParticipants(0, [Participant(false, READER)]), Attach(CONTEXT)], w)
  {
    var w0 := World([], {}, []);
    var w1 := Apply(w0, Enroll(Role("role", FIRST, [], [])));
    assert w1.roles == [Role("role", FIRST, [], [])];
    var w2 := Apply(w1, Hand(0, "op", SECOND));
    var none: seq<Commit> := [];
    assert none + [Commit("op", FIRST, SECOND)] == [Commit("op", FIRST, SECOND)];
    assert w2.roles == [Role("role", FIRST, [Commit("op", FIRST, SECOND)], [])];
    var w3 := Apply(w2, SetParticipants(0, [Participant(false, READER)]));
    assert w3.roles == [Role("role", FIRST, [Commit("op", FIRST, SECOND)], [Participant(false, READER)])];
    w := Apply(w3, Attach(CONTEXT));
    assert w.contexts == [CONTEXT];
    var events := [Enroll(Role("role", FIRST, [], [])), Hand(0, "op", SECOND), SetParticipants(0, [Participant(false, READER)]), Attach(CONTEXT)];
    assert Follows(w, [], w);
    assert events[3..] == [Attach(CONTEXT)] && Follows(w3, events[3..], w);
    assert events[2..][1..] == events[3..] && Follows(w2, events[2..], w);
    assert events[1..][1..] == events[2..] && Follows(w1, events[1..], w);
  }

  /** A role is enrolled and handed over, and its context attached: its participant reads the context of
      the successor, not at all while an association is pending, and native history once that has it. */
  lemma ParticipantReads(w: World)
    requires w == World([Role("role", FIRST, [Commit("op", FIRST, SECOND)], [Participant(false, READER)])], {}, [CONTEXT])
    ensures ReadSource(w, "c", READER, FIRST, None) == Some(Cursor(READER, FIRST, None, SECOND, Some("op"), Some("role"), 2))
    ensures ReadSource(Apply(w, SetPending({READER})), "c", READER, FIRST, None) == None
    ensures ReadSource(Apply(w, Materialize(0)), "c", READER, FIRST, None) == Some(Cursor(READER, FIRST, None, SECOND, None, Some("role"), 2))
  {
    var role := w.roles[0];
    var source := SourceOf(role);
    assert FIRST in role.Lineage();
    assert role.participants[1..] == [];
    assert WithParticipants(map[], role.participants, source) == Some(map[READER := source]);
    assert w.roles[1..] == [] && WithRoles(map[READER := source], w.roles[1..]) == Some(map[READER := source]);
    assert ReadersOf(w.roles) == Some(map[READER := source]);
    ProvenanceIsCommitted(w.roles, CONTEXT);
    assert role.commits[0] == Commit(CONTEXT.operationId, CONTEXT.source, CONTEXT.target);
    assert HasProvenance(w.roles, CONTEXT);
  }

  // ---- Tokens ----

  /** How cursors are serialized and authenticated.  Parsing reads back what was printed. */
  datatype Codec = Codec(format: Cursor -> seq<B.Byte>, parse: seq<B.Byte> -> Option<Cursor>, mac: string -> seq<B.Byte>)

  ghost predicate Faithful(codec: Codec) {
    forall c: Cursor :: codec.parse(codec.format(c)) == Some(c) && codec.format(c) != []
  }

  const LIMIT := 16384

  function Token(codec: Codec, body: string): string {
    "sr1." + body + "." + B.Encode(codec.mac(body))
  }

  function Encode(codec: Codec, c: Cursor): Option<string> {
    var token := Token(codec, B.Encode(codec.format(c)));
    if |token| > LIMIT then None else Some(token)
  }

  function Split(s: string): (parts: seq<string>)
    ensures |parts| >= 1
  {
    if s == "" then [""]
    else if s[0] == '.' then [""] + Split(s[1..])
    else var rest := Split(s[1..]); [[s[0]] + rest[0]] + rest[1..]
  }

  function Decode(codec: Codec, token: string, reader: Ref, original: Ref, isPage: bool): Option<Cursor> {
    var parts := Split(token);
    if |token| > LIMIT || |parts| != 3 || parts[0] != "sr1" || parts[1] == "" || parts[2] == "" then None
    else if parts[2] != B.Encode(codec.mac(parts[1])) then None
    else
      var c := codec.parse(B.Decode(parts[1]));
      if c.None? || c.value.reader != reader || c.value.originalSource != original || c.value.page.Some? != isPage then None else c
  }

  lemma {:induction false} SplitOne(s: string)
    requires '.' !in s
    ensures Split(s) == [s]
  {
    if s != "" {
      SplitOne(s[1..]);
      assert s[0] != '.' && s == [s[0]] + s[1..];
    }
  }

  lemma {:induction false} SplitFirst(a: string, s: string)
    requires '.' !in a
    ensures Split(a + "." + s) == [a] + Split(s)
  {
    var whole := a + "." + s;
    if a == "" {
      assert whole[1..] == s;
    } else {
      SplitFirst(a[1..], s);
      assert whole[1..] == a[1..] + "." + s;
      assert whole[0] != '.' && a == [a[0]] + a[1..];
    }
  }

  lemma TokenSplits(codec: Codec, body: string)
    requires '.' !in body
    ensures Split(Token(codec, body)) == ["sr1", body, B.Encode(codec.mac(body))]
  {
    var signature := B.Encode(codec.mac(body));
    B.NoDots(codec.mac(body));
    SplitOne(signature);
    SplitFirst(body, signature);
    SplitFirst("sr1", body + "." + signature);
    assert Token(codec, body) == "sr1" + "." + (body + "." + signature);
  }

  /** A context or page cursor that was issued decodes to itself for its reader. */
  lemma IssuedDecodes(codec: Codec, c: Cursor, token: string)
    requires Faithful(codec) && Encode(codec, c) == Some(token) && codec.mac(B.Encode(codec.format(c))) != []
    ensures Decode(codec, token, c.reader, c.originalSource, c.page.Some?) == Some(c)
  {
    var body := B.Encode(codec.format(c));
    B.NoDots(codec.format(c));
    B.NoDots(codec.mac(body));
    TokenSplits(codec, body);
    B.RoundTrip(codec.format(c));
  }

  lemma {:induction false} SplitJoins(s: string)
    ensures |Split(s)| == 3 ==> s == Split(s)[0] + "." + Split(s)[1] + "." + Split(s)[2]
    ensures |Split(s)| == 2 ==> s == Split(s)[0] + "." + Split(s)[1]
    ensures |Split(s)| == 1 ==> s == Split(s)[0]
  {
    if s != "" {
      SplitJoins(s[1..]);
      assert s == [s[0]] + s[1..];
    }
  }

  /** Nothing is accepted but a body under its own authentication code, so what is not forged was issued. */
  lemma AcceptedIsSigned(codec: Codec, token: string, reader: Ref, original: Ref, isPage: bool)
    requires Decode(codec, token, reader, original, isPage).Some?
    ensures exists body :: token == Token(codec, body) && codec.parse(B.Decode(body)) == Decode(codec, token, reader, original, isPage)
  {
    SplitJoins(token);
    assert token == Token(codec, Split(token)[1]);
  }

  lemma {:induction false} PartsHaveNoDots(s: string)
    ensures forall i | 0 <= i < |Split(s)| :: '.' !in Split(s)[i]
  {
    if s != "" {
      var rest := Split(s[1..]);
      PartsHaveNoDots(s[1..]);
      if s[0] == '.' {
        assert forall i | 0 < i < |Split(s)| :: Split(s)[i] == rest[i - 1];
      } else {
        assert forall i | 0 < i < |Split(s)| :: Split(s)[i] == rest[i];
        assert Split(s)[0] == [s[0]] + rest[0];
      }
    }
  }

  /** Which tokens are accepted, and as what: a body of this reader, for this source and of the asked
      kind, with its own code, within the length limit. */
  lemma AcceptsExactly(codec: Codec, token: string, reader: Ref, original: Ref, isPage: bool, c: Cursor)
    ensures Decode(codec, token, reader, original, isPage) == Some(c) <==>
              && |token| <= LIMIT && c.reader == reader && c.originalSource == original && c.page.Some? == isPage
              && exists body :: body != "" && '.' !in body && codec.mac(body) != [] && token == Token(codec, body) && codec.parse(B.Decode(body)) == Some(c)
  {
    if Decode(codec, token, reader, original, isPage) == Some(c) {
      var body := Split(token)[1];
      SplitJoins(token);
      PartsHaveNoDots(token);
      B.NoDots(codec.mac(body));
      assert token == Token(codec, body);
    }
    if body :| body != "" && '.' !in body && codec.mac(body) != [] && token == Token(codec, body) && codec.parse(B.Decode(body)) == Some(c) {
      TokenSplits(codec, body);
      B.NoDots(codec.mac(body));
    }
  }
}

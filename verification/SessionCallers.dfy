/** The credentials by which a session's shell commands name their session. */
module SessionCallers {

  datatype Option<+T> = None | Some(value: T)

  const TOKEN_LIMIT: nat := 4096
  const SHARED_LIMIT: nat := 16384

  /** A session, by provider and native identity. */
  type Ref = nat

  datatype Token = Token(text: nat, length: nat)

  datatype Entry = Entry(ref: Ref, token: Token)

  /** `tokens` and `shared` in the order they were set, the oldest first. */
  datatype State = State(tokens: seq<Entry>, byDigest: map<nat, Ref>, shared: seq<Ref>)

  datatype Saved = Saved(sessions: seq<Entry>, shared: seq<Ref>)

  type Digest = Token -> nat

  ghost predicate Injective(digest: Digest) {
    forall a, b :: digest(a) == digest(b) ==> a == b
  }

  // ---- What the operations do ----

  function Find(tokens: seq<Entry>, ref: Ref): Option<Token> {
    if tokens == [] then None else if tokens[0].ref == ref then Some(tokens[0].token) else Find(tokens[1..], ref)
  }

  function Without(tokens: seq<Entry>, ref: Ref): seq<Entry> {
    if tokens == [] then [] else if tokens[0].ref == ref then tokens[1..] else [tokens[0]] + Without(tokens[1..], ref)
  }

  function WithToken(tokens: seq<Entry>, e: Entry): seq<Entry> {
    if tokens == [] then [e] else if tokens[0].ref == e.ref then [e] + tokens[1..] else [tokens[0]] + WithToken(tokens[1..], e)
  }

  function Forgotten(digest: Digest, s: State, ref: Ref): State {
    match Find(s.tokens, ref)
    case None => s
    case Some(token) => s.(tokens := Without(s.tokens, ref), byDigest := s.byDigest - {digest(token)})
  }

  function Trimmed(digest: Digest, s: State): State
    decreases |s.tokens|
  {
    if |s.tokens| <= TOKEN_LIMIT then s
    else
      WithoutFirst(s.tokens);
      Trimmed(digest, Forgotten(digest, s, s.tokens[0].ref))
  }

  lemma WithoutFirst(tokens: seq<Entry>)
    requires tokens != []
    ensures Without(tokens, tokens[0].ref) == tokens[1..] && Find(tokens, tokens[0].ref) == Some(tokens[0].token)
  {}

  function Remembered(digest: Digest, s: State, ref: Ref, token: Token): State {
    Trimmed(digest, s.(tokens := WithToken(s.tokens, Entry(ref, token)), byDigest := s.byDigest[digest(token) := ref]))
  }

  function IssueOf(digest: Digest, s: State, ref: Ref, made: Token): (Option<Token>, State) {
    if ref in s.shared then (None, s)
    else if Find(s.tokens, ref).Some? then (Find(s.tokens, ref), s)
    else (Some(made), Remembered(digest, s, ref, made))
  }

  function BindOf(digest: Digest, s: State, ref: Ref, token: Token): State {
    if ref in s.shared then s else Remembered(digest, Forgotten(digest, s, ref), ref, token)
  }

  function SharedWithout(shared: seq<Ref>, ref: Ref): seq<Ref> {
    if shared == [] then [] else if shared[0] == ref then shared[1..] else [shared[0]] + SharedWithout(shared[1..], ref)
  }

  function MarkSharedOf(digest: Digest, s: State, ref: Ref): State {
    if ref in s.shared && Find(s.tokens, ref).None? then s
    else
      var all := SharedWithout(s.shared, ref) + [ref];
      Forgotten(digest, s, ref).(shared := if |all| > SHARED_LIMIT then all[|all| - SHARED_LIMIT..] else all)
  }

  function IdentifyOf(digest: Digest, s: State, token: Token): Option<Ref> {
    if token.length < 32 || token.length > 128 || digest(token) !in s.byDigest then None else Some(s.byDigest[digest(token)])
  }

  function SavedOf(s: State): Saved {
    Saved(s.tokens, s.shared)
  }

  /** What of a file is accepted again; `valid` says which addresses are of the right form. */
  type Form = Ref -> bool

  function LoadedShared(valid: Form, shared: seq<Ref>): seq<Ref> {
    if shared == [] then []
    else
      var n := |shared| - 1;
      var before := LoadedShared(valid, shared[..n]);
      if !valid(shared[n]) || shared[n] in before then before else before + [shared[n]]
  }

  function LoadedTokens(digest: Digest, valid: Form, s: State, sessions: seq<Entry>): State {
    if sessions == [] then s
    else
      var n := |sessions| - 1;
      var before := LoadedTokens(digest, valid, s, sessions[..n]);
      if valid(sessions[n].ref) && sessions[n].token.length >= 32 then Remembered(digest, before, sessions[n].ref, sessions[n].token) else before
  }

  function LoadedOf(digest: Digest, valid: Form, saved: Saved): State {
    LoadedTokens(digest, valid, State([], map[], LoadedShared(valid, saved.shared)), saved.sessions)
  }

  // ---- The store ----

  class SessionCallerStore {
    var tokens: seq<Entry>
    var byDigest: map<nat, Ref>
    var shared: seq<Ref>
    const digest: Digest

    constructor (digest: Digest)
      ensures View() == State([], map[], []) && this.digest == digest
    {
      tokens, byDigest, shared := [], map[], [];
      this.digest := digest;
    }

    function View(): State
      reads this
    {
      State(tokens, byDigest, shared)
    }

    method Forget(ref: Ref)
      modifies this
      ensures View() == Forgotten(digest, old(View()), ref)
    {
      var existing := Find(tokens, ref);
      if existing.None? { return; }
      tokens := Without(tokens, ref);
      byDigest := byDigest - {digest(existing.value)};
    }

    method Remember(ref: Ref, token: Token)
      modifies this
      ensures View() == Remembered(digest, old(View()), ref, token)
    {
      tokens := WithToken(tokens, Entry(ref, token));
      byDigest := byDigest[digest(token) := ref];
      while |tokens| > TOKEN_LIMIT
        invariant Trimmed(digest, View()) == Remembered(digest, old(View()), ref, token)
        decreases |tokens|
      {
        WithoutFirst(tokens);
        Forget(tokens[0].ref);
      }
    }

    method Issue(ref: Ref, made: Token) returns (token: Option<Token>)
      modifies this
      ensures (token, View()) == IssueOf(digest, old(View()), ref, made)
    {
      if ref in shared { return None; }
      var existing := Find(tokens, ref);
      if existing.Some? { return existing; }
      Remember(ref, made);
      return Some(made);
    }

    method Bind(ref: Ref, token: Token)
      modifies this
      ensures View() == BindOf(digest, old(View()), ref, token)
    {
      if ref in shared { return; }
      Forget(ref);
      Remember(ref, token);
    }

    method MarkShared(ref: Ref)
      modifies this
      ensures View() == MarkSharedOf(digest, old(View()), ref)
    {
      if ref in shared && Find(tokens, ref).None? { return; }
      Forget(ref);
      shared := SharedWithout(shared, ref) + [ref];
      ghost var all := shared;
      while |shared| > SHARED_LIMIT
        invariant |shared| <= |all| && shared == all[|all| - |shared|..] && (|shared| >= SHARED_LIMIT || shared == all)
        invariant tokens == Forgotten(digest, old(View()), ref).tokens && byDigest == Forgotten(digest, old(View()), ref).byDigest
      {
        assert shared[1..] == all[|all| - |shared| + 1..];
        shared := shared[1..];
      }
    }

    method Load(saved: Saved, valid: Form)
      modifies this
      ensures View() == LoadedOf(digest, valid, saved)
    {
      tokens, byDigest, shared := [], map[], [];
      var i := 0;
      while i < |saved.shared|
        invariant 0 <= i <= |saved.shared| && View() == State([], map[], LoadedShared(valid, saved.shared[..i]))
      {
        assert saved.shared[..i + 1][..i] == saved.shared[..i];
        if valid(saved.shared[i]) && saved.shared[i] !in shared { shared := shared + [saved.shared[i]]; }
        i := i + 1;
      }
      assert saved.shared[..i] == saved.shared;
      i := 0;
      while i < |saved.sessions|
        invariant 0 <= i <= |saved.sessions|
        invariant View() == LoadedTokens(digest, valid, State([], map[], LoadedShared(valid, saved.shared)), saved.sessions[..i])
      {
        assert saved.sessions[..i + 1][..i] == saved.sessions[..i];
        var entry := saved.sessions[i];
        if valid(entry.ref) && entry.token.length >= 32 { Remember(entry.ref, entry.token); }
        i := i + 1;
      }
      assert saved.sessions[..i] == saved.sessions;
    }
  }

  // ---- The three maps agree ----

  function Digests(digest: Digest, tokens: seq<Entry>): map<nat, Ref> {
    if tokens == [] then map[] else Digests(digest, tokens[1..])[digest(tokens[0].token) := tokens[0].ref]
  }

  ghost predicate Distinct(tokens: seq<Entry>) {
    && (forall i, j | 0 <= i < j < |tokens| :: tokens[i].ref != tokens[j].ref)
    && (forall i, j | 0 <= i < j < |tokens| :: tokens[i].token != tokens[j].token)
  }

  ghost predicate DistinctRefs(refs: seq<Ref>) {
    forall i, j | 0 <= i < j < |refs| :: refs[i] != refs[j]
  }

  ghost predicate Agree(digest: Digest, s: State) {
    && Distinct(s.tokens) && s.byDigest == Digests(digest, s.tokens)
    && DistinctRefs(s.shared)
    && (forall e | e in s.tokens :: e.ref !in s.shared && 32 <= e.token.length <= 128)
    && |s.tokens| <= TOKEN_LIMIT && |s.shared| <= SHARED_LIMIT
  }

  lemma {:induction false} DigestsHold(digest: Digest, tokens: seq<Entry>, d: nat)
    requires Injective(digest) && Distinct(tokens)
    ensures d in Digests(digest, tokens) <==> exists e | e in tokens :: digest(e.token) == d
    ensures forall e | e in tokens && digest(e.token) == d :: d in Digests(digest, tokens) && Digests(digest, tokens)[d] == e.ref
  {
    if tokens != [] {
      assert tokens == [tokens[0]] + tokens[1..];
      DigestsHold(digest, tokens[1..], d);
    }
  }

  /** With agreeing maps, a credential identifies exactly the session that stores it. */
  lemma IdentifiesItsSession(digest: Digest, s: State, token: Token, ref: Ref)
    requires Injective(digest) && Agree(digest, s)
    ensures IdentifyOf(digest, s, token) == Some(ref) <==> Entry(ref, token) in s.tokens
    ensures Entry(ref, token) in s.tokens ==> ref !in s.shared
  {
    DigestsHold(digest, s.tokens, digest(token));
    if digest(token) in s.byDigest {
      var e :| e in s.tokens && digest(e.token) == digest(token);
      assert e == Entry(s.byDigest[digest(token)], token);
    }
  }

  lemma {:induction false} WithoutSelects(tokens: seq<Entry>, ref: Ref)
    requires forall i, j | 0 <= i < j < |tokens| :: tokens[i].ref != tokens[j].ref
    ensures forall e :: e in Without(tokens, ref) <==> e in tokens && e.ref != ref
    ensures Find(tokens, ref).Some? ==> Entry(ref, Find(tokens, ref).value) in tokens && |Without(tokens, ref)| == |tokens| - 1
    ensures Find(tokens, ref).None? ==> Without(tokens, ref) == tokens && forall e | e in tokens :: e.ref != ref
  {
    if tokens != [] {
      assert tokens == [tokens[0]] + tokens[1..];
      assert forall i | 0 <= i < |tokens[1..]| :: tokens[1..][i] == tokens[i + 1];
      WithoutSelects(tokens[1..], ref);
    }
  }

  lemma TailIsDistinct(tokens: seq<Entry>)
    requires Distinct(tokens) && tokens != []
    ensures Distinct(tokens[1..]) && forall e | e in tokens[1..] :: e.ref != tokens[0].ref && e.token != tokens[0].token
  {
    var rest := tokens[1..];
    assert forall i | 0 <= i < |rest| :: rest[i] == tokens[i + 1];
  }

  lemma FrontIsDistinct(e: Entry, rest: seq<Entry>)
    requires Distinct(rest) && forall x | x in rest :: x.ref != e.ref && x.token != e.token
    ensures Distinct([e] + rest)
  {
    var all := [e] + rest;
    assert forall i | 1 <= i < |all| :: all[i] == rest[i - 1] && all[i] in rest;
  }

  lemma {:induction false} WithoutIsDistinct(tokens: seq<Entry>, ref: Ref)
    requires Distinct(tokens)
    ensures Distinct(Without(tokens, ref))
  {
    if tokens != [] {
      TailIsDistinct(tokens);
      if tokens[0].ref != ref {
        WithoutIsDistinct(tokens[1..], ref);
        WithoutSelects(tokens[1..], ref);
        FrontIsDistinct(tokens[0], Without(tokens[1..], ref));
      }
    }
  }

  lemma WithoutKeeps(tokens: seq<Entry>, ref: Ref)
    requires Distinct(tokens)
    ensures Distinct(Without(tokens, ref)) && forall e :: e in Without(tokens, ref) <==> e in tokens && e.ref != ref
    ensures Find(tokens, ref).Some? ==> Entry(ref, Find(tokens, ref).value) in tokens && |Without(tokens, ref)| == |tokens| - 1
    ensures Find(tokens, ref).None? ==> Without(tokens, ref) == tokens && forall e | e in tokens :: e.ref != ref
  {
    WithoutSelects(tokens, ref);
    WithoutIsDistinct(tokens, ref);
  }

  lemma {:induction false} DigestsWithout(digest: Digest, tokens: seq<Entry>, ref: Ref)
    requires Injective(digest) && Distinct(tokens) && Find(tokens, ref).Some?
    ensures Digests(digest, Without(tokens, ref)) == Digests(digest, tokens) - {digest(Find(tokens, ref).value)}
  {
    var token := Find(tokens, ref).value;
    WithoutKeeps(tokens, ref);
    forall d ensures d in Digests(digest, Without(tokens, ref)) <==> d in Digests(digest, tokens) && d != digest(token) {
      DigestsHold(digest, tokens, d);
      DigestsHold(digest, Without(tokens, ref), d);
      forall e | e in Without(tokens, ref) ensures e.token != token {
        if e.token == token { SameToken(tokens, e, Entry(ref, token)); }
      }
      if d in Digests(digest, tokens) && d != digest(token) {
        var e :| e in tokens && digest(e.token) == d;
        if e.ref == ref { SameRef(tokens, e, Entry(ref, token)); }
      }
    }
    forall d | d in Digests(digest, Without(tokens, ref)) ensures Digests(digest, Without(tokens, ref))[d] == Digests(digest, tokens)[d] {
      DigestsHold(digest, tokens, d);
      DigestsHold(digest, Without(tokens, ref), d);
    }
  }

  lemma SameToken(tokens: seq<Entry>, a: Entry, b: Entry)
    requires Distinct(tokens) && a in tokens && b in tokens && a.token == b.token
    ensures a == b
  {
    var i :| 0 <= i < |tokens| && tokens[i] == a;
    var j :| 0 <= j < |tokens| && tokens[j] == b;
    assert i == j;
  }

  lemma SameRef(tokens: seq<Entry>, a: Entry, b: Entry)
    requires Distinct(tokens) && a in tokens && b in tokens && a.ref == b.ref
    ensures a == b
  {
    var i :| 0 <= i < |tokens| && tokens[i] == a;
    var j :| 0 <= j < |tokens| && tokens[j] == b;
    assert i == j;
  }

  lemma BackIsDistinct(tokens: seq<Entry>, e: Entry)
    requires Distinct(tokens) && forall x | x in tokens :: x.ref != e.ref && x.token != e.token
    ensures Distinct(tokens + [e])
  {}

  lemma {:induction false} AppendsNew(digest: Digest, tokens: seq<Entry>, e: Entry)
    requires (forall x | x in tokens :: x.ref != e.ref && x.token != e.token) && Injective(digest)
    ensures WithToken(tokens, e) == tokens + [e]
    ensures Digests(digest, tokens + [e]) == Digests(digest, tokens)[digest(e.token) := e.ref]
  {
    if tokens != [] {
      assert tokens[0] in tokens;
      assert (tokens + [e])[1..] == tokens[1..] + [e];
      AppendsNew(digest, tokens[1..], e);
    } else {
      assert [e][1..] == [];
    }
  }

  lemma ForgetKeeps(digest: Digest, s: State, ref: Ref)
    requires Injective(digest) && Agree(digest, s)
    ensures Agree(digest, Forgotten(digest, s, ref)) && Forgotten(digest, s, ref).tokens == Without(s.tokens, ref)
    ensures Forgotten(digest, s, ref).shared == s.shared
  {
    WithoutKeeps(s.tokens, ref);
    if Find(s.tokens, ref).Some? { DigestsWithout(digest, s.tokens, ref); }
  }

  lemma AppendedAgrees(digest: Digest, s: State, ref: Ref, token: Token)
    requires Injective(digest) && Agree(digest, s) && ref !in s.shared && 32 <= token.length <= 128
    requires forall e | e in s.tokens :: e.ref != ref && e.token != token
    ensures WithToken(s.tokens, Entry(ref, token)) == s.tokens + [Entry(ref, token)]
    ensures |s.tokens| < TOKEN_LIMIT ==> Agree(digest, s.(tokens := s.tokens + [Entry(ref, token)], byDigest := s.byDigest[digest(token) := ref]))
    ensures Distinct(s.tokens + [Entry(ref, token)])
    ensures s.byDigest[digest(token) := ref] == Digests(digest, s.tokens + [Entry(ref, token)])
  {
    AppendsNew(digest, s.tokens, Entry(ref, token));
    BackIsDistinct(s.tokens, Entry(ref, token));
  }

  lemma OldestGoes(digest: Digest, t: State)
    requires Injective(digest) && Distinct(t.tokens) && t.byDigest == Digests(digest, t.tokens) && |t.tokens| == TOKEN_LIMIT + 1
    ensures Trimmed(digest, t) == t.(tokens := t.tokens[1..], byDigest := Digests(digest, t.tokens[1..]))
  {
    WithoutFirst(t.tokens);
    DigestsWithout(digest, t.tokens, t.tokens[0].ref);
    var u := Forgotten(digest, t, t.tokens[0].ref);
    assert Trimmed(digest, t) == Trimmed(digest, u) == u;
  }

  /** Remembering a new credential of a new session: the oldest one goes when there are too many. */
  lemma RememberKeeps(digest: Digest, s: State, ref: Ref, token: Token)
    requires Injective(digest) && Agree(digest, s) && ref !in s.shared && 32 <= token.length <= 128
    requires forall e | e in s.tokens :: e.ref != ref && e.token != token
    ensures Agree(digest, Remembered(digest, s, ref, token)) && Remembered(digest, s, ref, token).shared == s.shared
    ensures Remembered(digest, s, ref, token).tokens == (if |s.tokens| < TOKEN_LIMIT then s.tokens else s.tokens[1..]) + [Entry(ref, token)]
  {
    AppendedAgrees(digest, s, ref, token);
    if |s.tokens| == TOKEN_LIMIT {
      var all := s.tokens + [Entry(ref, token)];
      OldestGoes(digest, s.(tokens := all, byDigest := s.byDigest[digest(token) := ref]));
      assert all[1..] == s.tokens[1..] + [Entry(ref, token)];
      assert forall i | 0 <= i < |all[1..]| :: all[1..][i] == all[i + 1];
    }
  }

  lemma {:induction false} SharedWithoutKeeps(shared: seq<Ref>, ref: Ref)
    requires DistinctRefs(shared)
    ensures DistinctRefs(SharedWithout(shared, ref)) && forall x :: x in SharedWithout(shared, ref) <==> x in shared && x != ref
  {
    if shared != [] {
      RefsAfterFirst(shared);
      if shared[0] != ref {
        SharedWithoutKeeps(shared[1..], ref);
        RefPrepended(shared[0], SharedWithout(shared[1..], ref));
      }
    }
  }

  lemma RefsAfterFirst(refs: seq<Ref>)
    requires DistinctRefs(refs) && refs != []
    ensures DistinctRefs(refs[1..]) && refs[0] !in refs[1..] && forall x :: x in refs <==> x == refs[0] || x in refs[1..]
  {
    var rest := refs[1..];
    assert forall i | 0 <= i < |rest| :: rest[i] == refs[i + 1];
    assert refs == [refs[0]] + rest;
  }

  lemma RefPrepended(x: Ref, refs: seq<Ref>)
    requires DistinctRefs(refs) && x !in refs
    ensures DistinctRefs([x] + refs)
  {
    var all := [x] + refs;
    assert forall i | 1 <= i < |all| :: all[i] == refs[i - 1] && all[i] in refs;
  }

  lemma RefAppended(refs: seq<Ref>, x: Ref)
    requires DistinctRefs(refs) && x !in refs
    ensures DistinctRefs(refs + [x])
  {}

  lemma NewestStays(all: seq<Ref>, kept: seq<Ref>)
    requires all != [] && kept == (if |all| > SHARED_LIMIT then all[|all| - SHARED_LIMIT..] else all) && DistinctRefs(all)
    ensures all[|all| - 1] in kept && |kept| <= SHARED_LIMIT && (forall x | x in kept :: x in all) && DistinctRefs(kept)
  {
    assert kept[|kept| - 1] == all[|all| - 1];
  }

  lemma MarkSharedKeeps(digest: Digest, s: State, ref: Ref)
    requires Injective(digest) && Agree(digest, s)
    ensures Agree(digest, MarkSharedOf(digest, s, ref)) && ref in MarkSharedOf(digest, s, ref).shared
    ensures forall e :: e in MarkSharedOf(digest, s, ref).tokens <==> e in s.tokens && e.ref != ref
  {
    WithoutKeeps(s.tokens, ref);
    if !(ref in s.shared && Find(s.tokens, ref).None?) {
      ForgetKeeps(digest, s, ref);
      SharedWithoutKeeps(s.shared, ref);
      RefAppended(SharedWithout(s.shared, ref), ref);
      NewestStays(SharedWithout(s.shared, ref) + [ref], MarkSharedOf(digest, s, ref).shared);
    }
  }

  // ---- A file of its own ----

  /** The entries of valid addresses, in their order. */
  function Proper(valid: Form, tokens: seq<Entry>): seq<Entry> {
    if tokens == [] then [] else Proper(valid, tokens[..|tokens| - 1]) + (if valid(tokens[|tokens| - 1].ref) then [tokens[|tokens| - 1]] else [])
  }

  function ProperRefs(valid: Form, shared: seq<Ref>): seq<Ref> {
    if shared == [] then [] else ProperRefs(valid, shared[..|shared| - 1]) + (if valid(shared[|shared| - 1]) then [shared[|shared| - 1]] else [])
  }

  lemma {:induction false} ProperAre(valid: Form, tokens: seq<Entry>)
    ensures |Proper(valid, tokens)| <= |tokens| && forall e :: e in Proper(valid, tokens) <==> e in tokens && valid(e.ref)
    ensures (forall e | e in tokens :: valid(e.ref)) <==> Proper(valid, tokens) == tokens
  {
    if tokens != [] {
      var n := |tokens| - 1;
      ProperAre(valid, tokens[..n]);
      assert tokens == tokens[..n] + [tokens[n]];
    }
  }

  lemma {:induction false} ProperRefsAre(valid: Form, shared: seq<Ref>)
    ensures |ProperRefs(valid, shared)| <= |shared| && forall x :: x in ProperRefs(valid, shared) <==> x in shared && valid(x)
    ensures (forall x | x in shared :: valid(x)) <==> ProperRefs(valid, shared) == shared
  {
    if shared != [] {
      var n := |shared| - 1;
      ProperRefsAre(valid, shared[..n]);
      assert shared == shared[..n] + [shared[n]];
    }
  }

  lemma {:induction false} SharedLoads(valid: Form, shared: seq<Ref>)
    requires DistinctRefs(shared)
    ensures LoadedShared(valid, shared) == ProperRefs(valid, shared) && DistinctRefs(ProperRefs(valid, shared))
  {
    if shared != [] {
      var before, last := shared[..|shared| - 1], shared[|shared| - 1];
      assert last !in before;
      SharedLoads(valid, before);
      ProperRefsAre(valid, before);
      RefAppended(ProperRefs(valid, before), last);
    }
  }

  lemma LastLoads(digest: Digest, valid: Form, s: State, before: seq<Entry>, last: Entry)
    ensures LoadedTokens(digest, valid, s, before + [last]) ==
            var t := LoadedTokens(digest, valid, s, before);
            if valid(last.ref) && last.token.length >= 32 then Remembered(digest, t, last.ref, last.token) else t
    ensures Proper(valid, before + [last]) == Proper(valid, before) + if valid(last.ref) then [last] else []
  {
    assert (before + [last])[..|before|] == before;
  }

  /** What loading the first entries leaves. */
  function Loaded(digest: Digest, valid: Form, tokens: seq<Entry>, shared: seq<Ref>): State {
    State(Proper(valid, tokens), Digests(digest, Proper(valid, tokens)), shared)
  }

  lemma OneMoreLoads(digest: Digest, valid: Form, s: State, shared: seq<Ref>, before: seq<Entry>, last: Entry)
    requires Injective(digest) && Agree(digest, s) && before + [last] <= s.tokens && (forall x | x in shared :: x in s.shared)
    requires Agree(digest, Loaded(digest, valid, before, shared)) && valid(last.ref)
    ensures last.token.length >= 32 && Agree(digest, Loaded(digest, valid, before + [last], shared))
    ensures Remembered(digest, Loaded(digest, valid, before, shared), last.ref, last.token) == Loaded(digest, valid, before + [last], shared)
  {
    assert s.tokens[|before|] == (before + [last])[|before|] == last;
    assert forall i | 0 <= i < |before| :: s.tokens[i] == (before + [last])[i] == before[i];
    ProperAre(valid, before);
    RememberKeeps(digest, Loaded(digest, valid, before, shared), last.ref, last.token);
    LastLoads(digest, valid, State([], map[], shared), before, last);
    assert |before| < TOKEN_LIMIT;
  }

  lemma {:induction false} TokensLoad(digest: Digest, valid: Form, s: State, shared: seq<Ref>, first: seq<Entry>)
    requires Injective(digest) && Agree(digest, s) && Agree(digest, State([], map[], shared)) && first <= s.tokens
    requires forall x | x in shared :: x in s.shared
    ensures LoadedTokens(digest, valid, State([], map[], shared), first) == Loaded(digest, valid, first, shared)
    ensures Agree(digest, Loaded(digest, valid, first, shared))
  {
    if first != [] {
      var before, last := first[..|first| - 1], first[|first| - 1];
      TokensLoad(digest, valid, s, shared, before);
      assert before + [last] == first;
      LastLoads(digest, valid, State([], map[], shared), before, last);
      if valid(last.ref) { OneMoreLoads(digest, valid, s, shared, before, last); }
    }
  }

  /** Loading what was saved gives back the store without the sessions whose address is of no valid
      form, its order of forgetting included; so it is the very same store exactly when all are. */
  lemma LoadsWhatWasSaved(digest: Digest, valid: Form, s: State)
    requires Injective(digest) && Agree(digest, s)
    ensures var t := LoadedOf(digest, valid, SavedOf(s));
            && t.tokens == Proper(valid, s.tokens) && t.shared == ProperRefs(valid, s.shared) && Agree(digest, t)
            && (t == s <==> (forall e | e in s.tokens :: valid(e.ref)) && forall x | x in s.shared :: valid(x))
  {
    SharedLoads(valid, s.shared);
    ProperRefsAre(valid, s.shared);
    TokensLoad(digest, valid, s, ProperRefs(valid, s.shared), s.tokens);
    ProperAre(valid, s.tokens);
  }

  // ---- Whole runs, with restarts ----

  datatype Event =
    | Issue(ref: Ref, made: Token, written: bool)
    | Prepare(made: Token)
    | Bind(ref: Ref, token: Token, written: bool)
    | MarkShared(ref: Ref, written: bool)
    | Restart

  /** `written` says whether the file was replaced in time; `used` are all credentials ever made and
      `prepared` those not bound yet. */
  datatype World = World(s: State, disk: Saved, prepared: set<Token>, used: set<Token>)

  const START := World(State([], map[], []), Saved([], []), {}, {})

  predicate IsNew(w: World, t: Token) {
    t !in w.used && t.length == 43
  }

  predicate Enabled(w: World, ev: Event) {
    match ev
    case Issue(_, made, _) => IsNew(w, made)
    case Prepare(made) => IsNew(w, made)
    case Bind(_, token, _) => token in w.prepared
    case _ => true
  }

  function Kept(w: World, s: State, written: bool): World {
    w.(s := s, disk := if written then SavedOf(s) else w.disk)
  }

  function Next(digest: Digest, valid: Form, w: World, ev: Event): World {
    match ev
    case Issue(ref, made, written) => Kept(w, IssueOf(digest, w.s, ref, made).1, written).(used := w.used + {made})
    case Prepare(made) => w.(prepared := w.prepared + {made}, used := w.used + {made})
    case Bind(ref, token, written) => Kept(w, BindOf(digest, w.s, ref, token), written).(prepared := w.prepared - {token})
    case MarkShared(ref, written) => Kept(w, MarkSharedOf(digest, w.s, ref), written)
    case Restart => w.(s := LoadedOf(digest, valid, w.disk), prepared := {})
  }

  ghost predicate IsRun(digest: Digest, valid: Form, ws: seq<World>, events: seq<Event>) {
    && |ws| == |events| + 1 && ws[0] == START
    && (forall i | 0 <= i < |events| :: Enabled(ws[i], events[i]) && ws[i + 1] == Next(digest, valid, ws[i], events[i]))
  }

  ghost predicate Fits(digest: Digest, s: State, prepared: set<Token>, used: set<Token>) {
    Agree(digest, s) && forall e | e in s.tokens :: e.token in used && e.token !in prepared
  }

  /** What is on disk is a store that agreed when it was saved. */
  ghost predicate DiskFits(digest: Digest, disk: Saved, prepared: set<Token>, used: set<Token>) {
    exists s :: SavedOf(s) == disk && Fits(digest, s, prepared, used)
  }

  ghost predicate Inv(digest: Digest, w: World) {
    && Fits(digest, w.s, w.prepared, w.used) && DiskFits(digest, w.disk, w.prepared, w.used)
    && w.prepared <= w.used && forall t | t in w.prepared :: t.length == 43
  }

  lemma IssueKeeps(digest: Digest, w: World, ref: Ref, made: Token)
    requires Injective(digest) && Inv(digest, w) && IsNew(w, made)
    ensures Fits(digest, IssueOf(digest, w.s, ref, made).1, w.prepared, w.used + {made})
  {
    WithoutKeeps(w.s.tokens, ref);
    if ref !in w.s.shared && Find(w.s.tokens, ref).None? { RememberKeeps(digest, w.s, ref, made); }
  }

  lemma BindKeeps(digest: Digest, w: World, ref: Ref, token: Token)
    requires Injective(digest) && Inv(digest, w) && token in w.prepared
    ensures Fits(digest, BindOf(digest, w.s, ref, token), w.prepared - {token}, w.used)
  {
    if ref !in w.s.shared {
      ForgetKeeps(digest, w.s, ref);
      WithoutKeeps(w.s.tokens, ref);
      RememberKeeps(digest, Forgotten(digest, w.s, ref), ref, token);
    }
  }

  lemma Step(digest: Digest, valid: Form, w: World, ev: Event)
    requires Injective(digest) && Inv(digest, w) && Enabled(w, ev)
    ensures Inv(digest, Next(digest, valid, w, ev))
  {
    var onDisk :| SavedOf(onDisk) == w.disk && Fits(digest, onDisk, w.prepared, w.used);
    var u := Next(digest, valid, w, ev);
    match ev {
      case Issue(ref, made, written) => IssueKeeps(digest, w, ref, made);
      case Prepare(made) =>
      case Bind(ref, token, written) => BindKeeps(digest, w, ref, token);
      case MarkShared(ref, written) => MarkSharedKeeps(digest, w.s, ref);
      case Restart => LoadsWhatWasSaved(digest, valid, onDisk); ProperAre(valid, onDisk.tokens);
    }
    if u.disk == w.disk {
      assert SavedOf(onDisk) == u.disk && Fits(digest, onDisk, u.prepared, u.used);
    } else {
      assert SavedOf(u.s) == u.disk && Fits(digest, u.s, u.prepared, u.used);
    }
  }

  lemma {:induction false} RunKeeps(digest: Digest, valid: Form, ws: seq<World>, events: seq<Event>, i: nat)
    requires Injective(digest) && IsRun(digest, valid, ws, events) && i < |ws|
    ensures Inv(digest, ws[i])
  {
    if i == 0 {
      assert SavedOf(State([], map[], [])) == START.disk && Fits(digest, State([], map[], []), {}, {});
    } else {
      RunKeeps(digest, valid, ws, events, i - 1);
      Step(digest, valid, ws[i - 1], events[i - 1]);
    }
  }

  // ---- The main results ----

  /** Over every run of issuing, binding, sharing, forgetting and restarting, a credential identifies a
      session exactly when it is the one stored for it, no session marked shared has one, and both
      limits hold. */
  lemma CredentialsAgree(digest: Digest, valid: Form, ws: seq<World>, events: seq<Event>, i: nat, token: Token, ref: Ref)
    requires Injective(digest) && IsRun(digest, valid, ws, events) && i < |ws|
    ensures var s := ws[i].s;
            && (IdentifyOf(digest, s, token) == Some(ref) <==> Find(s.tokens, ref) == Some(token))
            && (ref in s.shared ==> Find(s.tokens, ref).None?)
            && |s.tokens| <= TOKEN_LIMIT && |s.shared| <= SHARED_LIMIT
  {
    RunKeeps(digest, valid, ws, events, i);
    var s := ws[i].s;
    IdentifiesItsSession(digest, s, token, ref);
    WithoutKeeps(s.tokens, ref);
    if Find(s.tokens, ref).Some? && Entry(ref, token) in s.tokens { SameRef(s.tokens, Entry(ref, token), Entry(ref, Find(s.tokens, ref).value)); }
  }

  /** Marking a session shared takes its credential away: nothing identifies it any more. */
  lemma SharingRevokes(digest: Digest, valid: Form, ws: seq<World>, events: seq<Event>, i: nat, token: Token)
    requires Injective(digest) && IsRun(digest, valid, ws, events) && i < |events| && events[i].MarkShared?
    ensures IdentifyOf(digest, ws[i + 1].s, token) != Some(events[i].ref)
  {
    RunKeeps(digest, valid, ws, events, i);
    MarkSharedKeeps(digest, ws[i].s, events[i].ref);
    assert ws[i + 1] == Next(digest, valid, ws[i], events[i]);
    IdentifiesItsSession(digest, ws[i + 1].s, token, events[i].ref);
  }

  lemma StoredIdentifies(digest: Digest, s: State, ref: Ref, token: Token)
    requires Injective(digest) && Agree(digest, s)
    ensures Find(s.tokens, ref) == Some(token) <==> IdentifyOf(digest, s, token) == Some(ref)
  {
    IdentifiesItsSession(digest, s, token, ref);
    WithoutKeeps(s.tokens, ref);
    if Find(s.tokens, ref).Some? && Entry(ref, token) in s.tokens { SameRef(s.tokens, Entry(ref, token), Entry(ref, Find(s.tokens, ref).value)); }
  }

  /** Whoever asks for the credential of a session that is not shared gets one that identifies it from
      then on, and the one it had when there was one; nobody gets one of a shared session. */
  lemma IssuedIdentifies(digest: Digest, valid: Form, ws: seq<World>, events: seq<Event>, i: nat)
    requires Injective(digest) && IsRun(digest, valid, ws, events) && i < |events| && events[i].Issue?
    ensures var token := IssueOf(digest, ws[i].s, events[i].ref, events[i].made).0;
            && (token.None? <==> events[i].ref in ws[i].s.shared)
            && (token.Some? ==> IdentifyOf(digest, ws[i + 1].s, token.value) == Some(events[i].ref))
            && (forall t :: IdentifyOf(digest, ws[i].s, t) == Some(events[i].ref) ==> token == Some(t))
  {
    var w, ref, made := ws[i], events[i].ref, events[i].made;
    RunKeeps(digest, valid, ws, events, i);
    RunKeeps(digest, valid, ws, events, i + 1);
    assert ws[i + 1] == Next(digest, valid, w, events[i]);
    var token := IssueOf(digest, w.s, ref, made).0;
    forall t | IdentifyOf(digest, w.s, t) == Some(ref) ensures token == Some(t) {
      StoredIdentifies(digest, w.s, ref, t);
      IdentifiesItsSession(digest, w.s, t, ref);
    }
    if ref !in w.s.shared {
      if Find(w.s.tokens, ref).None? {
        WithoutKeeps(w.s.tokens, ref);
        RememberKeeps(digest, w.s, ref, made);
        assert ws[i + 1].s.tokens[|ws[i + 1].s.tokens| - 1] == Entry(ref, made);
        IdentifiesItsSession(digest, ws[i + 1].s, made, ref);
      } else {
        StoredIdentifies(digest, w.s, ref, token.value);
      }
    }
  }

  /** Binding a prepared credential makes it the one of its session, and the only one; a shared session
      keeps none. */
  lemma BoundIdentifies(digest: Digest, valid: Form, ws: seq<World>, events: seq<Event>, i: nat, t: Token)
    requires Injective(digest) && IsRun(digest, valid, ws, events) && i < |events| && events[i].Bind?
    ensures IdentifyOf(digest, ws[i + 1].s, t) == Some(events[i].ref) <==> t == events[i].token && events[i].ref !in ws[i].s.shared
  {
    var w, ref, token := ws[i], events[i].ref, events[i].token;
    RunKeeps(digest, valid, ws, events, i);
    RunKeeps(digest, valid, ws, events, i + 1);
    assert ws[i + 1] == Next(digest, valid, w, events[i]);
    StoredIdentifies(digest, ws[i + 1].s, ref, t);
    StoredIdentifies(digest, ws[i + 1].s, ref, token);
    IdentifiesItsSession(digest, ws[i + 1].s, t, ref);
    if ref !in w.s.shared {
      ForgetKeeps(digest, w.s, ref);
      WithoutKeeps(w.s.tokens, ref);
      RememberKeeps(digest, Forgotten(digest, w.s, ref), ref, token);
      assert ws[i + 1].s.tokens[|ws[i + 1].s.tokens| - 1] == Entry(ref, token);
      IdentifiesItsSession(digest, ws[i + 1].s, token, ref);
    }
  }

  /** A credential made for a session to come identifies nobody and can be bound to it. */
  lemma PreparedCanBeBound(digest: Digest, valid: Form, ws: seq<World>, events: seq<Event>, i: nat, ref: Ref)
    requires Injective(digest) && IsRun(digest, valid, ws, events) && i < |events| && events[i].Prepare?
    ensures Enabled(ws[i + 1], Bind(ref, events[i].made, true)) && IdentifyOf(digest, ws[i + 1].s, events[i].made) == None
  {
    RunKeeps(digest, valid, ws, events, i);
    assert ws[i + 1] == Next(digest, valid, ws[i], events[i]);
    if digest(events[i].made) in ws[i].s.byDigest { DigestsHold(digest, ws[i].s.tokens, digest(events[i].made)); }
  }

  predicate Written(ev: Event) {
    match ev
    case Issue(_, _, written) => written
    case Bind(_, _, written) => written
    case MarkShared(_, written) => written
    case _ => false
  }

  lemma {:induction false} OnDisk(digest: Digest, valid: Form, ws: seq<World>, events: seq<Event>, i: nat, j: nat)
    requires IsRun(digest, valid, ws, events) && i < j < |ws| && Written(events[i]) && forall m | i < m < j :: events[m].Prepare?
    ensures ws[j].disk == SavedOf(ws[j].s) && ws[j].s == ws[i + 1].s
  {
    assert ws[j] == Next(digest, valid, ws[j - 1], events[j - 1]);
    if j > i + 1 { OnDisk(digest, valid, ws, events, i, j - 1); }
  }

  /** What was written survives a restart: credentials and hidden sessions of valid addresses are as
      they were, and those not bound by then are lost. */
  lemma WrittenSurvives(digest: Digest, valid: Form, ws: seq<World>, events: seq<Event>, i: nat, j: nat, token: Token, ref: Ref)
    requires Injective(digest) && IsRun(digest, valid, ws, events) && i < j < |events| && Written(events[i]) && events[j].Restart?
    requires forall m | i < m < j :: events[m].Prepare?
    ensures IdentifyOf(digest, ws[j + 1].s, token) == Some(ref) <==> IdentifyOf(digest, ws[i + 1].s, token) == Some(ref) && valid(ref)
    ensures ref in ws[j + 1].s.shared <==> ref in ws[i + 1].s.shared && valid(ref)
    ensures ws[j + 1].prepared == {}
  {
    OnDisk(digest, valid, ws, events, i, j);
    RunKeeps(digest, valid, ws, events, j);
    assert ws[j + 1] == Next(digest, valid, ws[j], events[j]);
    LoadedIdentifies(digest, valid, ws[j].s, token, ref);
  }

  lemma LoadedIdentifies(digest: Digest, valid: Form, s: State, token: Token, ref: Ref)
    requires Injective(digest) && Agree(digest, s)
    ensures var t := LoadedOf(digest, valid, SavedOf(s));
            && (IdentifyOf(digest, t, token) == Some(ref) <==> IdentifyOf(digest, s, token) == Some(ref) && valid(ref))
            && (ref in t.shared <==> ref in s.shared && valid(ref))
  {
    LoadsWhatWasSaved(digest, valid, s);
    ProperAre(valid, s.tokens);
    ProperRefsAre(valid, s.shared);
    IdentifiesItsSession(digest, s, token, ref);
    IdentifiesItsSession(digest, LoadedOf(digest, valid, SavedOf(s)), token, ref);
  }

  /** A write that did not happen changes nothing on disk. */
  lemma UnwrittenIsLost(digest: Digest, valid: Form, w: World, ev: Event)
    requires !Written(ev)
    ensures Next(digest, valid, w, ev).disk == w.disk
  {}

  /** Whatever list of hidden sessions a file holds, each of a valid address is taken over once. */
  lemma {:induction false} AnySharedLoads(valid: Form, shared: seq<Ref>)
    ensures DistinctRefs(LoadedShared(valid, shared)) && forall x :: x in LoadedShared(valid, shared) <==> x in shared && valid(x)
  {
    if shared != [] {
      var before, last := shared[..|shared| - 1], shared[|shared| - 1];
      AnySharedLoads(valid, before);
      assert shared == before + [last];
      if last !in LoadedShared(valid, before) { RefAppended(LoadedShared(valid, before), last); }
    }
  }

  /** A prepared credential must be bound once: bound to a second session, the maps part, and the first
      session's credential no longer identifies it. */
  lemma BoundTwice(digest: Digest, token: Token, a: Ref, b: Ref)
    requires a != b && 32 <= token.length <= 128
    ensures var s := BindOf(digest, BindOf(digest, State([], map[], []), a, token), b, token);
            Find(s.tokens, a) == Some(token) && IdentifyOf(digest, s, token) == Some(b)
  {
    var none: seq<Entry> := [];
    var first, second := Entry(a, token), Entry(b, token);
    var s1 := State([first], map[digest(token) := a], []);
    assert WithToken(none, first) == [first] && WithToken([first], second) == [first] + WithToken([first][1..], second) == [first, second];
    assert [first][1..] == none;
    assert BindOf(digest, State([], map[], []), a, token) == s1;
    assert Find([first], b) == Find([first][1..], b) == None;
    assert Forgotten(digest, s1, b) == s1;
    assert s1.byDigest[digest(token) := b] == map[digest(token) := b];
    assert BindOf(digest, s1, b, token) == State([first, second], map[digest(token) := b], []);
  }
}

/** The Controller's managed Codex home: a credentials file and a settings file that native Codex
    appends to, rewritten with three atomic writes that may be interrupted after any of them. */
module GatewaySettings {
  import opened JsonQuote

  datatype Option<+T> = None | Some(value: T)

  datatype Credentials = Credentials(apiKey: Text, keyId: Text, baseUrl: Text, model: Text)

  /** The credentials file; `previous` is the settings block it replaced, during an update only. */
  datatype Saved = Saved(issued: Credentials, hostId: Text, server: Text, previous: Option<Text>)

  datatype Files = Files(saved: Option<Saved>, config: Option<Text>)

  /** The fixed texts of a managed block, around the quoted model and base URL. */
  datatype Template = Template(head: Text, middle: Text, tail: Text)

  const MANAGED := Template(
    Units("# Managed by Agent Remote Controller.\nmodel_provider = \"agent_gateway\"\nmodel = "),
    Units("\n\n[model_providers.agent_gateway]\nname = \"Account Gateway\"\nbase_url = "),
    Units("\nwire_api = \"responses\"\nenv_key = \"CODEX_GATEWAY_API_KEY\"\n"))

  /** Which Host and Relay a run works for, the block it writes, and which credentials validate. */
  datatype Setup = Setup(template: Template, hostId: Text, server: Text, accepts: Credentials -> bool)

  datatype Outcome =
    | InvalidCredentials      // the saved credentials do not validate
    | Unmanaged               // a settings file nobody wrote credentials for
    | Modified                // the settings file does not begin with a managed block
    | OtherOwner              // the files belong to another Host or Relay
    | RequestFailed           // no credentials were issued
    | Interrupted             // the process stopped before its third write
    | Configured

  function ManagedConfig(t: Template, c: Credentials): Text {
    t.head + (Quote(c.model) + (t.middle + (Quote(c.baseUrl) + t.tail)))
  }

  /** The managed block the settings file begins with, tried in the order the code tries them. */
  function Block(t: Template, saved: Saved, config: Text): Option<Text> {
    var current := ManagedConfig(t, saved.issued);
    if current != [] && current <= config then Some(current)
    else if saved.previous.Some? && saved.previous.value != [] && saved.previous.value <= config then saved.previous
    else None
  }

  function Refusal(f: Files, setup: Setup): Option<Outcome> {
    if f.saved.Some? && !setup.accepts(f.saved.value.issued) then Some(InvalidCredentials)
    else if f.config.Some? && f.saved.None? then Some(Unmanaged)
    else if f.config.Some? && Block(setup.template, f.saved.value, f.config.value).None? then Some(Modified)
    else if f.saved.Some? && (f.saved.value.server != setup.server || f.saved.value.hostId != setup.hostId) then Some(OtherOwner)
    else None
  }

  function Replaced(f: Files, setup: Setup): Option<Text> {
    if f.saved.Some? && f.config.Some? then Block(setup.template, f.saved.value, f.config.value) else None
  }

  /** What native Codex appended after the managed block. */
  function NativeText(f: Files, setup: Setup): Text {
    if Replaced(f, setup).Some? && Replaced(f, setup).value <= f.config.value then f.config.value[|Replaced(f, setup).value|..] else []
  }

  /** The files once the first `writes` of the three writes have happened. */
  function Written(f: Files, setup: Setup, issued: Credentials, writes: nat): Files {
    Files(
      if writes == 0 then f.saved
      else Some(Saved(issued, setup.hostId, setup.server, if writes < 3 then Replaced(f, setup) else None)),
      if writes < 2 then f.config else Some(ManagedConfig(setup.template, issued) + NativeText(f, setup)))
  }

  /** One call; it is interrupted after `writes` of its writes unless that is three or more. */
  function Outcomes(f: Files, setup: Setup, issued: Option<Credentials>, writes: nat): (Outcome, Files) {
    if Refusal(f, setup).Some? then (Refusal(f, setup).value, f)
    else if issued.None? then (RequestFailed, f)
    else (if writes < 3 then Interrupted else Configured, Written(f, setup, issued.value, writes))
  }

  class CodexHome {
    const setup: Setup
    var saved: Option<Saved>
    var config: Option<Text>

    constructor (hostId: Text, server: Text, accepts: Credentials -> bool)
      ensures setup == Setup(MANAGED, hostId, server, accepts) && Contents() == Files(None, None)
    {
      setup := Setup(MANAGED, hostId, server, accepts);
      saved, config := None, None;
    }

    function Contents(): Files
      reads this
    {
      Files(saved, config)
    }

    method Configure(issued: Option<Credentials>, writes: nat) returns (outcome: Outcome)
      modifies this
      ensures (outcome, Contents()) == Outcomes(old(Contents()), setup, issued, writes)
    {
      if saved.Some? && !setup.accepts(saved.value.issued) { return InvalidCredentials; }
      if config.Some? && saved.None? { return Unmanaged; }
      var prefix := None;
      if saved.Some? && config.Some? {
        var current := ManagedConfig(setup.template, saved.value.issued);
        if |current| > 0 && current <= config.value {
          prefix := Some(current);
        } else if saved.value.previous.Some? && |saved.value.previous.value| > 0 && saved.value.previous.value <= config.value {
          prefix := saved.value.previous;
        }
        if prefix.None? { return Modified; }
      }
      var nativeSettings := if prefix.Some? then config.value[|prefix.value|..] else [];
      if saved.Some? && (saved.value.server != setup.server || saved.value.hostId != setup.hostId) { return OtherOwner; }
      if issued.None? { return RequestFailed; }
      var toml := ManagedConfig(setup.template, issued.value) + nativeSettings;
      if writes < 1 { return Interrupted; }
      saved := Some(Saved(issued.value, setup.hostId, setup.server, prefix));
      if writes < 2 { return Interrupted; }
      config := Some(toml);
      if writes < 3 { return Interrupted; }
      saved := Some(Saved(issued.value, setup.hostId, setup.server, None));
      return Configured;
    }
  }

  /** No managed block is the beginning of another one followed by anything. */
  lemma ManagedConfigIsPrefixFree(t: Template, c: Credentials, d: Credentials, x: Text, y: Text)
    requires ManagedConfig(t, c) + x == ManagedConfig(t, d) + y
    ensures c.model == d.model && c.baseUrl == d.baseUrl && x == y
  {
    Spliced(t.head, c.model, t.middle + (Quote(c.baseUrl) + t.tail), d.model, t.middle + (Quote(d.baseUrl) + t.tail), x, y);
    Spliced(t.middle, c.baseUrl, t.tail, d.baseUrl, t.tail, x, y);
    CancelLeft(t.tail, x, y);
  }

  lemma CancelLeft(p: Text, x: Text, y: Text)
    requires p + x == p + y
    ensures x == y
  {
    assert x == (p + x)[|p|..];
    assert y == (p + y)[|p|..];
  }

  lemma Spliced(p: Text, m: Text, r: Text, n: Text, q: Text, x: Text, y: Text)
    requires p + (Quote(m) + r) + x == p + (Quote(n) + q) + y
    ensures m == n && r + x == q + y
  {
    assert p + (Quote(m) + r) + x == p + (Quote(m) + (r + x));
    assert p + (Quote(n) + q) + y == p + (Quote(n) + (q + y));
    CancelLeft(p, Quote(m) + (r + x), Quote(n) + (q + y));
    QuoteIsPrefixFree(m, n, r + x, q + y);
  }

  // ---- Runs ----

  datatype Event =
    | Configure(issued: Option<Credentials>, writes: nat)
    | Append(text: Text)   // native Codex adds to its settings file

  /** The files and everything native Codex appended so far. */
  datatype State = State(files: Files, native: Text)

  function Step(s: State, setup: Setup, ev: Event): State {
    match ev
    case Configure(issued, writes) => s.(files := Outcomes(s.files, setup, issued, writes).1)
    case Append(text) =>
      if s.files.config.None? then s
      else State(s.files.(config := Some(s.files.config.value + text)), s.native + text)
  }

  function After(s: State, setup: Setup, events: seq<Event>): State
    decreases |events|
  {
    if events == [] then s else After(Step(s, setup, events[0]), setup, events[1..])
  }

  /** Only credentials the validation accepts are ever issued. */
  predicate Issues(setup: Setup, events: seq<Event>) {
    forall ev | ev in events :: ev.Configure? && ev.issued.Some? ==> setup.accepts(ev.issued.value)
  }

  /** The settings file is a managed block that the credentials file still knows, then native text. */
  ghost predicate Recoverable(s: State, setup: Setup) {
    var f := s.files;
    && (f.saved.Some? ==> setup.accepts(f.saved.value.issued) && f.saved.value.hostId == setup.hostId && f.saved.value.server == setup.server)
    && (f.config.None? ==> s.native == [])
    && (f.config.Some? ==> f.saved.Some? && exists c: Credentials :: WrittenBy(f, setup, c, s.native))
  }

  ghost predicate WrittenBy(f: Files, setup: Setup, c: Credentials, native: Text)
    requires f.config.Some? && f.saved.Some?
  {
    && f.config.value == ManagedConfig(setup.template, c) + native
    && (ManagedConfig(setup.template, c) == ManagedConfig(setup.template, f.saved.value.issued)
        || f.saved.value.previous == Some(ManagedConfig(setup.template, c)))
  }

  /** The block that is found is the block that was written, however the last run ended. */
  lemma BlockIsFound(s: State, setup: Setup)
    requires Recoverable(s, setup)
    ensures Refusal(s.files, setup) == None && NativeText(s.files, setup) == s.native
    ensures s.files.config.Some? ==>
              exists c: Credentials ::
                && Replaced(s.files, setup) == Some(ManagedConfig(setup.template, c))
                && s.files.config.value == ManagedConfig(setup.template, c) + s.native
  {
    var f := s.files;
    if f.config.Some? {
      var c: Credentials :| WrittenBy(f, setup, c, s.native);
      var current := ManagedConfig(setup.template, f.saved.value.issued);
      assert ManagedConfig(setup.template, c) != [];
      if current <= f.config.value {
        ManagedConfigIsPrefixFree(setup.template, f.saved.value.issued, c, f.config.value[|current|..], s.native);
      }
      assert Block(setup.template, f.saved.value, f.config.value) == Some(ManagedConfig(setup.template, c));
      assert s.native == f.config.value[|ManagedConfig(setup.template, c)|..];
    }
  }

  lemma StepKeeps(s: State, setup: Setup, ev: Event)
    requires Recoverable(s, setup) && Issues(setup, [ev])
    ensures Recoverable(Step(s, setup, ev), setup)
  {
    assert ev in [ev];
    match ev
    case Append(text) => AppendKeeps(s, setup, text, Step(s, setup, ev));
    case Configure(issued, writes) => ConfigureKeeps(s, setup, issued, writes, Step(s, setup, ev));
  }

  lemma AppendKeeps(s: State, setup: Setup, text: Text, v: State)
    requires Recoverable(s, setup) && v == Step(s, setup, Append(text))
    ensures Recoverable(v, setup)
  {
    if s.files.config.Some? {
      var c: Credentials :| WrittenBy(s.files, setup, c, s.native);
      assert (ManagedConfig(setup.template, c) + s.native) + text == ManagedConfig(setup.template, c) + (s.native + text);
      assert WrittenBy(v.files, setup, c, v.native);
    }
  }

  lemma ConfigureKeeps(s: State, setup: Setup, issued: Option<Credentials>, writes: nat, v: State)
    requires Recoverable(s, setup) && (issued.Some? ==> setup.accepts(issued.value)) && v == Step(s, setup, Configure(issued, writes))
    ensures Recoverable(v, setup)
  {
    BlockIsFound(s, setup);
    if issued.Some? && writes > 0 {
      if writes >= 2 {
        assert WrittenBy(v.files, setup, issued.value, s.native);
      } else if s.files.config.Some? {
        var c: Credentials :| Replaced(s.files, setup) == Some(ManagedConfig(setup.template, c))
          && s.files.config.value == ManagedConfig(setup.template, c) + s.native;
        assert WrittenBy(v.files, setup, c, s.native);
      }
    }
  }

  lemma {:induction false} RunKeeps(s: State, setup: Setup, events: seq<Event>)
    requires Recoverable(s, setup) && Issues(setup, events)
    ensures Recoverable(After(s, setup, events), setup)
    decreases |events|
  {
    if events != [] {
      assert events[0] in events;
      StepKeeps(s, setup, events[0]);
      RunKeeps(Step(s, setup, events[0]), setup, events[1..]);
    }
  }

  const EMPTY := State(Files(None, None), [])

  /** Crash safety.  After any runs for one Host and Relay, each interrupted anywhere or not, with
      native text appended in between, the next run is not refused, and if it completes it leaves
      exactly the managed block of the new credentials followed by all the native text. */
  lemma InterruptionsAreRecovered(setup: Setup, events: seq<Event>, issued: Credentials)
    requires Issues(setup, events)
    ensures var s := After(EMPTY, setup, events);
            && Outcomes(s.files, setup, Some(issued), 3).0 == Configured
            && Outcomes(s.files, setup, Some(issued), 3).1
               == Files(Some(Saved(issued, setup.hostId, setup.server, None)), Some(ManagedConfig(setup.template, issued) + s.native))
  {
    RunKeeps(EMPTY, setup, events);
    BlockIsFound(After(EMPTY, setup, events), setup);
  }

  /** Without the remembered previous block, an interrupted update could not be recovered: whenever
      the credentials really changed, the old settings file is refused. */
  lemma PreviousBlockIsNeeded(setup: Setup, before: Credentials, next: Credentials, native: Text)
    requires setup.accepts(next)
    ensures var f := Files(Some(Saved(next, setup.hostId, setup.server, None)), Some(ManagedConfig(setup.template, before) + native));
            Refusal(f, setup) == Some(Modified) <==> (before.model != next.model || before.baseUrl != next.baseUrl)
  {
    var config := ManagedConfig(setup.template, before) + native;
    if ManagedConfig(setup.template, next) <= config {
      ManagedConfigIsPrefixFree(setup.template, next, before, config[|ManagedConfig(setup.template, next)|..], native);
    }
  }

  /** The settings file begins with the block of the saved credentials or with the remembered one. */
  predicate BeginsManaged(f: Files, setup: Setup)
    requires f.saved.Some? && f.config.Some?
  {
    || ManagedConfig(setup.template, f.saved.value.issued) <= f.config.value
    || (f.saved.value.previous.Some? && f.saved.value.previous.value != [] && f.saved.value.previous.value <= f.config.value)
  }

  /** Whatever files are found, a run writes if and only if the saved credentials validate and belong
      to this Host and Relay and the settings file, if any, begins with a managed block; any other run
      leaves both files as they are. */
  lemma WritesExactly(f: Files, setup: Setup, issued: Credentials, writes: nat)
    ensures var (outcome, g) := Outcomes(f, setup, Some(issued), writes);
            var accepted := (f.saved.Some? ==> setup.accepts(f.saved.value.issued) && f.saved.value.server == setup.server && f.saved.value.hostId == setup.hostId)
                            && (f.config.Some? ==> f.saved.Some? && BeginsManaged(f, setup));
            && (outcome == Interrupted || outcome == Configured <==> accepted) && (!accepted ==> g == f)
            && (outcome == Configured <==> accepted && writes >= 3)
            && (outcome == Unmanaged ==> f.config.Some? && f.saved.None?)
            && (outcome == Modified ==> f.config.Some? && f.saved.Some? && !BeginsManaged(f, setup))
  {
    ManagedIsNotEmpty(setup.template, issued);
    if f.saved.Some? { ManagedIsNotEmpty(setup.template, f.saved.value.issued); }
  }

  lemma ManagedIsNotEmpty(t: Template, c: Credentials)
    ensures ManagedConfig(t, c) != []
  {
    assert |Quote(c.model)| >= 2;
  }

  /** And it replaces nothing but that block: every text after it is kept. */
  lemma OnlyTheBlockIsReplaced(f: Files, setup: Setup, issued: Credentials, writes: nat)
    requires f.config.Some? && Outcomes(f, setup, Some(issued), writes).1 != f
    ensures f.saved.Some? && exists block: Text, native: Text ::
              && f.config.value == block + native && block != []
              && (block == ManagedConfig(setup.template, f.saved.value.issued) || f.saved.value.previous == Some(block))
              && var g := Outcomes(f, setup, Some(issued), writes).1;
                 g.config == f.config || g.config == Some(ManagedConfig(setup.template, issued) + native)
  {
    var block := Replaced(f, setup).value;
    assert f.config.value == block + NativeText(f, setup);
  }
}

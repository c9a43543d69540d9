/**
 The agent framework the two orchestrators are built on, as far as they rely on it:
 the shared session state, LLM work units that write one output key, the sequential and
 loop composites, the event stream, and the caller-side rule that picks the final response.

 The framework's own code is not part of this model; what is stated here is the behaviour the
 orchestrators assume of it.
 */
module Workflow {

  /** Session state: string keys to string values. A missing key means "not produced yet". */
  type State = map<string, string>

  datatype Option<T> = None | Some(value: T)

  function Get(st: State, key: string): Option<string>
  {
    if key in st then Some(st[key]) else None
  }

  /** The orchestrators' gate `key in state and state[key]`: present and non-empty. */
  predicate HasContent(st: State, key: string)
  {
    key in st && st[key] != ""
  }

  /** An event: who produced it, the text of its first content part (if it has content), and
      whether it is a final response. */
  datatype Event = Event(author: string, text: Option<string>, isFinal: bool)

  /** `event.is_final_response() and event.content and event.content.parts` */
  predicate IsFinalResponse(e: Event)
  {
    e.isFinal && e.text.Some?
  }

  /** An LLM agent: its name and the one state key (`output_key`) it writes. */
  datatype Unit = Unit(name: string, outputKey: string)

  /** The events that the n-th work-unit invocation in a session produces. This stands for the
      external generation service, whose answers the model does not know. */
  type Oracle = nat -> seq<Event>

  /** An event by which a unit saves its output: authored by the unit, final, with content. */
  predicate SavesOutput(u: Unit, e: Event)
  {
    e.author == u.name && IsFinalResponse(e)
  }

  /** What an invocation producing `evs` writes under `u.outputKey`: the text of its last saving
      event, or nothing when no event saves output (see WrittenIsLastSave). */
  function Written(u: Unit, evs: seq<Event>): Option<string>
    decreases |evs|
  {
    if evs == [] then None
    else if SavesOutput(u, evs[|evs| - 1]) then Some(evs[|evs| - 1].text.value)
    else Written(u, evs[..|evs| - 1])
  }

  /** A unit writes nothing exactly when none of its events saves output, and otherwise the
      text of the last event that does. */
  lemma {:induction false} WrittenIsLastSave(u: Unit, evs: seq<Event>)
    ensures Written(u, evs).None? <==> forall i :: 0 <= i < |evs| ==> !SavesOutput(u, evs[i])
    ensures Written(u, evs).Some? ==>
      exists i :: 0 <= i < |evs| && SavesOutput(u, evs[i]) && Written(u, evs).value == evs[i].text.value
                  && forall j :: i < j < |evs| ==> !SavesOutput(u, evs[j])
    decreases |evs|
  {
    if evs == [] {
      return;
    }
    var n := |evs| - 1;
    if SavesOutput(u, evs[n]) {
      assert Written(u, evs).value == evs[n].text.value;
      return;
    }
    var prefix := evs[..n];
    WrittenIsLastSave(u, prefix);
    assert Written(u, evs) == Written(u, prefix);
    assert forall i :: 0 <= i < n ==> prefix[i] == evs[i];
    if Written(u, evs).Some? {
      var i :| 0 <= i < n && SavesOutput(u, prefix[i]) && Written(u, prefix).value == prefix[i].text.value
               && forall j :: i < j < n ==> !SavesOutput(u, prefix[j]);
      assert forall j :: i < j < |evs| ==> !SavesOutput(u, evs[j]);
    }
  }

  /** What the session holds: its state, the names of the units invoked so far (in order) and
      the events emitted so far (in order). */
  datatype Snapshot = Snapshot(state: State, trace: seq<string>, events: seq<Event>)

  /** One invocation of `u`: its events are appended unchanged, and its output (if any) is
      stored under its output key. */
  function Invoke(s: Snapshot, u: Unit, o: Oracle): Snapshot
  {
    var evs := o(|s.trace|);
    var st := match Written(u, evs)
      case Some(v) => s.state[u.outputKey := v]
      case None => s.state;
    Snapshot(st, s.trace + [u.name], s.events + evs)
  }

  /** Invoking the units of `us` one after another, first to last. */
  function RunAll(s: Snapshot, us: seq<Unit>, o: Oracle): (r: Snapshot)
    ensures |r.trace| == |s.trace| + |us| && |s.events| <= |r.events|
    decreases |us|
  {
    if us == [] then s else Invoke(RunAll(s, us[..|us| - 1], o), us[|us| - 1], o)
  }

  function Names(us: seq<Unit>): (r: seq<string>)
  {
    seq(|us|, i requires 0 <= i < |us| => us[i].name)
  }

  /** The events of `n` consecutive invocations starting with invocation number `from`,
      concatenated in invocation order. */
  function Emitted(o: Oracle, from: nat, n: nat): seq<Event>
  {
    if n == 0 then [] else Emitted(o, from, n - 1) + o(from + n - 1)
  }

  /** SequentialAgent and LoopAgent: a sequence runs its sub-agents once, in order; a loop runs
      its whole list of sub-agents `maxIterations` times (no sub-agent here ever escalates). */
  datatype Composite =
    | Sequential(name: string, subAgents: seq<Unit>)
    | Loop(name: string, subAgents: seq<Unit>, maxIterations: nat)

  function Repeat(us: seq<Unit>, n: nat): seq<Unit>
  {
    if n == 0 then [] else Repeat(us, n - 1) + us
  }

  /** The units a composite invokes, in order. */
  function Schedule(c: Composite): seq<Unit>
  {
    match c
    case Sequential(_, us) => us
    case Loop(_, us, n) => Repeat(us, n)
  }

  lemma NamesAppend(a: seq<Unit>, b: seq<Unit>)
    ensures Names(a + b) == Names(a) + Names(b)
  {
  }

  /** The trace grows by exactly the names of the units run, in order. */
  lemma {:induction false} RunTrace(s: Snapshot, us: seq<Unit>, o: Oracle)
    ensures RunAll(s, us, o).trace == s.trace + Names(us)
    decreases |us|
  {
    if us != [] {
      var n := |us| - 1;
      RunTrace(s, us[..n], o);
      assert us == us[..n] + [us[n]];
      NamesAppend(us[..n], [us[n]]);
    }
  }

  /** The event stream grows by exactly the events of each invocation, in invocation order and
      unchanged. */
  lemma {:induction false} RunEvents(s: Snapshot, us: seq<Unit>, o: Oracle)
    ensures RunAll(s, us, o).events == s.events + Emitted(o, |s.trace|, |us|)
    decreases |us|
  {
    if us != [] {
      var n := |us| - 1;
      RunEvents(s, us[..n], o);
      RunTrace(s, us[..n], o);
    }
  }

  /** Running `a` and then `b` is running `a + b`. */
  lemma {:induction false} RunAppend(s: Snapshot, a: seq<Unit>, b: seq<Unit>, o: Oracle)
    ensures RunAll(s, a + b, o) == RunAll(RunAll(s, a, o), b, o)
    decreases |b|
  {
    if b == [] {
      assert a + b == a;
    } else {
      var n := |b| - 1;
      assert (a + b)[..|a + b| - 1] == a + b[..n];
      RunAppend(s, a, b[..n], o);
    }
  }

  /** Frame: no key is ever removed, and a key that is no unit's output key keeps its value. */
  lemma {:induction false} RunFrame(s: Snapshot, us: seq<Unit>, o: Oracle, k: string)
    ensures s.state.Keys <= RunAll(s, us, o).state.Keys
    ensures (forall u :: u in us ==> u.outputKey != k) ==> Get(RunAll(s, us, o).state, k) == Get(s.state, k)
    decreases |us|
  {
    if us != [] {
      var n := |us| - 1;
      assert forall u :: u in us[..n] ==> u in us;
      RunFrame(s, us[..n], o, k);
    }
  }

  /** The value a key holds after a run is the one written by the last invocation that wrote it. */
  lemma {:induction false} LastWriterWins(s: Snapshot, us: seq<Unit>, o: Oracle, i: nat, v: string)
    requires i < |us|
    requires Written(us[i], o(|s.trace| + i)) == Some(v)
    requires forall j :: i < j < |us| && us[j].outputKey == us[i].outputKey ==> Written(us[j], o(|s.trace| + j)).None?
    ensures Get(RunAll(s, us, o).state, us[i].outputKey) == Some(v)
    decreases |us|
  {
    var n := |us| - 1;
    RunTrace(s, us[..n], o);
    if i < n {
      LastWriterWins(s, us[..n], o, i, v);
    }
  }

  /** A loop of `n` passes invokes each sub-agent `n` times per occurrence in its list. */
  lemma {:induction false} RepeatCount(us: seq<Unit>, n: nat, x: string)
    ensures |Repeat(us, n)| == n * |us|
    ensures multiset(Names(Repeat(us, n)))[x] == n * multiset(Names(us))[x]
  {
    if n > 0 {
      RepeatCount(us, n - 1, x);
      NamesAppend(Repeat(us, n - 1), us);
      var c := multiset(Names(us))[x];
      assert multiset(Names(Repeat(us, n)))[x] == (n - 1) * c + c;
      assert (n - 1) * c + c == n * c;
      assert (n - 1) * |us| + |us| == n * |us|;
    }
  }

  /** The caller's event-selection rule: the index of the first event that is a final response
      with content, if any. */
  function FirstFinal(evs: seq<Event>): (r: Option<nat>)
    ensures r.Some? ==> r.value < |evs| && IsFinalResponse(evs[r.value])
                        && forall j :: 0 <= j < r.value ==> !IsFinalResponse(evs[j])
    ensures r.None? ==> forall j :: 0 <= j < |evs| ==> !IsFinalResponse(evs[j])
  {
    if evs == [] then None
    else if IsFinalResponse(evs[0]) then Some(0)
    else match FirstFinal(evs[1..])
      case Some(i) => Some(i + 1)
      case None => None
  }

  /** A final response in the first part of a stream is found before anything in the rest. */
  lemma {:induction false} FirstFinalAppend(a: seq<Event>, b: seq<Event>)
    ensures FirstFinal(a + b) == match FirstFinal(a)
      case Some(i) => Some(i)
      case None => match FirstFinal(b) case Some(j) => Some(|a| + j) case None => None
    decreases |a|
  {
    if a == [] {
      assert a + b == b;
    } else {
      assert (a + b)[1..] == a[1..] + b;
      FirstFinalAppend(a[1..], b);
    }
  }

  lemma {:induction false} EmittedFirst(o: Oracle, from: nat, n: nat)
    requires n > 0
    ensures Emitted(o, from, n) == o(from) + Emitted(o, from + 1, n - 1)
  {
    if n > 1 {
      EmittedFirst(o, from, n - 1);
    }
  }

  /** The caller stops at the first final response of the whole stream, so when the first
      invocation of a run emits one, that is the one it replies with, whatever later units
      produce: the reply is not the run's end result. */
  lemma FirstInvocationAnswers(s: Snapshot, us: seq<Unit>, o: Oracle)
    requires us != [] && FirstFinal(o(|s.trace|)).Some?
    ensures FirstFinal(RunAll(s, us, o).events[|s.events|..]) == FirstFinal(o(|s.trace|))
  {
    RunEvents(s, us, o);
    assert RunAll(s, us, o).events[|s.events|..] == Emitted(o, |s.trace|, |us|);
    EmittedFirst(o, |s.trace|, |us|);
    FirstFinalAppend(o(|s.trace|), Emitted(o, |s.trace| + 1, |us| - 1));
  }

  /** What a caller shows while reading the stream: an "Intermediate response" line for each
      event that has content. */
  const IntermediatePrefix := "Intermediate response: "

  function Intermediates(evs: seq<Event>): seq<string>
  {
    if evs == [] then []
    else Intermediates(evs[..|evs| - 1])
         + (if evs[|evs| - 1].text.Some? then [IntermediatePrefix + evs[|evs| - 1].text.value] else [])
  }

  /** The session shared by all units of one run; the units update it in place. */
  class Session {
    var state: State
    var trace: seq<string>
    var events: seq<Event>

    function Snap(): Snapshot
      reads this
    {
      Snapshot(state, trace, events)
    }

    constructor (seed: State)
      ensures Snap() == Snapshot(seed, [], [])
    {
      state, trace, events := seed, [], [];
    }

    /** Runs one unit: each of its events is appended, and an event by which it saves its
        output overwrites its output key. */
    method RunUnit(u: Unit, o: Oracle)
      modifies this
      ensures Snap() == Invoke(old(Snap()), u, o)
    {
      var evs := o(|trace|);
      trace := trace + [u.name];
      for i := 0 to |evs|
        invariant trace == old(trace) + [u.name]
        invariant events == old(events) + evs[..i]
        invariant state == match Written(u, evs[..i])
                             case Some(v) => old(state)[u.outputKey := v]
                             case None => old(state)
      {
        assert evs[..i + 1][..i] == evs[..i];
        events := events + [evs[i]];
        if SavesOutput(u, evs[i]) {
          state := state[u.outputKey := evs[i].text.value];
        }
      }
      assert evs[..|evs|] == evs;
    }

    /** Runs the units of `us` in order. */
    method RunUnits(us: seq<Unit>, o: Oracle)
      modifies this
      ensures Snap() == RunAll(old(Snap()), us, o)
    {
      for j := 0 to |us|
        invariant Snap() == RunAll(old(Snap()), us[..j], o)
      {
        assert us[..j + 1][..j] == us[..j];
        RunUnit(us[j], o);
      }
      assert us[..|us|] == us;
    }

    /** Runs a sequential or loop composite. */
    method RunAgent(c: Composite, o: Oracle)
      modifies this
      ensures Snap() == RunAll(old(Snap()), Schedule(c), o)
    {
      match c
      case Sequential(_, us) =>
        RunUnits(us, o);
      case Loop(_, us, n) =>
        for i := 0 to n
          invariant Snap() == RunAll(old(Snap()), Repeat(us, i), o)
        {
          RunUnits(us, o);
          RunAppend(old(Snap()), Repeat(us, i), us, o);
        }
    }
  }
}

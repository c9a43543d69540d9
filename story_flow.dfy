/**
 The story orchestrator: generate a story, stop if none was produced, run a critique-and-revise
 loop twice, check grammar and tone, and generate the story once more if the tone check said
 exactly "negative".
 */
module StoryFlow {
  import opened Workflow

  /** The five LLM agents of the root agent, with their output keys. */
  const StoryGenerator := Unit("story_generator", "current_story")
  const Critic := Unit("critic", "critique")
  const Reviser := Unit("reviser", "current_story")
  const GrammarChecker := Unit("grammar_checker", "grammar_check_result")
  const ToneChecker := Unit("tone_checker", "tone_check_result")

  class StoryFlowAgent {
    const name: string
    const storyGenerator: Unit
    const critic: Unit
    const reviser: Unit
    const grammarChecker: Unit
    const toneChecker: Unit
    const loopAgent: Composite
    const sequentialAgent: Composite

    /** The two composite stages, built from the agents as the constructor builds them. */
    predicate Wired()
    {
      && loopAgent == Loop("Critique_and_revise_Loop", [critic, reviser], 2)
      && sequentialAgent == Sequential("Story_revise", [grammarChecker, toneChecker])
    }

    predicate DistinctNames()
    {
      var g, c, r, gc, tc := storyGenerator.name, critic.name, reviser.name,
                             grammarChecker.name, toneChecker.name;
      && g != c && g != r && g != gc && g != tc
      && c != r && c != gc && c != tc
      && r != gc && r != tc
      && gc != tc
    }

    /** A key that none of the five agents writes. */
    predicate Foreign(k: string)
    {
      && k != storyGenerator.outputKey && k != critic.outputKey && k != reviser.outputKey
      && k != grammarChecker.outputKey && k != toneChecker.outputKey
    }

    constructor (name: string, storyGenerator: Unit, critic: Unit, reviser: Unit,
                 grammarChecker: Unit, toneChecker: Unit)
      ensures this.name == name && this.storyGenerator == storyGenerator
      ensures this.critic == critic && this.reviser == reviser
      ensures this.grammarChecker == grammarChecker && this.toneChecker == toneChecker
      ensures Wired()
    {
      this.name, this.storyGenerator := name, storyGenerator;
      this.critic, this.reviser := critic, reviser;
      this.grammarChecker, this.toneChecker := grammarChecker, toneChecker;
      loopAgent := Loop("Critique_and_revise_Loop", [critic, reviser], 2);
      sequentialAgent := Sequential("Story_revise", [grammarChecker, toneChecker]);
    }

    /** The effect of one run on the session. */
    function Flow(s: Snapshot, o: Oracle): Snapshot
    {
      var s1 := Invoke(s, storyGenerator, o);
      if !HasContent(s1.state, "current_story") then s1
      else
        var s2 := RunAll(RunAll(s1, Schedule(loopAgent), o), Schedule(sequentialAgent), o);
        if Get(s2.state, "tone_check_result") == Some("negative") then Invoke(s2, storyGenerator, o)
        else s2
    }

    method RunAsync(ctx: Session, o: Oracle)
      modifies ctx
      ensures ctx.Snap() == Flow(old(ctx.Snap()), o)
    {
      ctx.RunUnit(storyGenerator, o);
      if "current_story" !in ctx.state || ctx.state["current_story"] == "" {
        return;
      }
      ctx.RunAgent(loopAgent, o);
      ctx.RunAgent(sequentialAgent, o);
      var tone := Get(ctx.state, "tone_check_result");
      if tone == Some("negative") {
        ctx.RunUnit(storyGenerator, o);
      }
    }

    /** Reference order: the story, two critique-and-revise passes, the grammar and tone
        checks, and the story once more when `retry` holds. */
    function FullSchedule(retry: bool): seq<Unit>
    {
      [storyGenerator, critic, reviser, critic, reviser, grammarChecker, toneChecker]
      + (if retry then [storyGenerator] else [])
    }

    /** Reference definition of the units a run invokes: only the first story when it is
        missing or empty; otherwise the seven units, and the story generator again exactly
        when the tone check wrote "negative". */
    function Invoked(s: Snapshot, o: Oracle): seq<Unit>
    {
      var main := FullSchedule(false);
      if !HasContent(RunAll(s, main[..1], o).state, "current_story") then main[..1]
      else FullSchedule(Get(RunAll(s, main, o).state, "tone_check_result") == Some("negative"))
    }
  }

  /** The two composite stages' schedules are consecutive slices of the reference order. */
  lemma StagesAreSlices(a: StoryFlowAgent)
    requires a.Wired()
    ensures a.FullSchedule(false)[..1] == [a.storyGenerator]
    ensures Schedule(a.loopAgent) == a.FullSchedule(false)[1..5]
    ensures Schedule(a.sequentialAgent) == a.FullSchedule(false)[5..]
    ensures a.FullSchedule(true) == a.FullSchedule(false) + [a.storyGenerator]
  {
    var loop := [a.critic, a.reviser];
    assert Repeat(loop, 2) == loop + loop by {
      assert Repeat(loop, 1) == loop;
    }
  }

  /** The first story's snapshot, and the one after the loop and the checks. */
  lemma StoryStages(a: StoryFlowAgent, s: Snapshot, o: Oracle)
    requires a.Wired()
    ensures RunAll(s, a.FullSchedule(false)[..1], o) == Invoke(s, a.storyGenerator, o)
    ensures RunAll(s, a.FullSchedule(false), o)
         == RunAll(RunAll(Invoke(s, a.storyGenerator, o), Schedule(a.loopAgent), o), Schedule(a.sequentialAgent), o)
  {
    var main := a.FullSchedule(false);
    StagesAreSlices(a);
    assert [a.storyGenerator][..0] == [];
    assert main[..5] == main[..1] + main[1..5];
    assert main == main[..5] + main[5..];
    RunAppend(s, main[..1], main[1..5], o);
    RunAppend(s, main[..5], main[5..], o);
  }

  /** The run invokes exactly the reference units, in that order. */
  lemma StoryOrder(a: StoryFlowAgent, s: Snapshot, o: Oracle)
    requires a.Wired()
    ensures a.Flow(s, o) == RunAll(s, a.Invoked(s, o), o)
    ensures a.Flow(s, o).trace == s.trace + Names(a.Invoked(s, o))
  {
    var main := a.FullSchedule(false);
    StoryStages(a, s, o);
    StagesAreSlices(a);
    var s2 := RunAll(s, main, o);
    if HasContent(RunAll(s, main[..1], o).state, "current_story")
       && Get(s2.state, "tone_check_result") == Some("negative") {
      RunAppend(s, main, [a.storyGenerator], o);
      assert RunAll(s2, [a.storyGenerator], o) == Invoke(s2, a.storyGenerator, o) by {
        assert [a.storyGenerator][..0] == [];
      }
    }
    RunTrace(s, a.Invoked(s, o), o);
  }

  /** Exactly 1, 7 or 8 units run: 1 when `current_story` is missing or empty after the first
      story, 8 when the checks ran and the tone check wrote exactly "negative", 7 otherwise. */
  lemma StoryInvocationCount(a: StoryFlowAgent, s: Snapshot, o: Oracle)
    requires a.Wired()
    ensures var n := |a.Flow(s, o).trace| - |s.trace|;
      var told := HasContent(RunAll(s, a.FullSchedule(false)[..1], o).state, "current_story");
      var negative := Get(RunAll(s, a.FullSchedule(false), o).state, "tone_check_result") == Some("negative");
      && (n == 1 <==> !told)
      && (n == 7 <==> told && !negative)
      && (n == 8 <==> told && negative)
  {
    StoryOrder(a, s, o);
  }

  /** How often each agent occurs in the unit lists a run can invoke. */
  lemma ScheduleCounts(a: StoryFlowAgent, retry: bool)
    requires a.DistinctNames()
    ensures var m := multiset(Names(a.FullSchedule(retry)));
      && m[a.storyGenerator.name] == (if retry then 2 else 1)
      && m[a.critic.name] == 2 && m[a.reviser.name] == 2
      && m[a.grammarChecker.name] == 1 && m[a.toneChecker.name] == 1
    ensures var m := multiset(Names(a.FullSchedule(retry)[..1]));
      && m[a.storyGenerator.name] == 1
      && m[a.critic.name] == 0 && m[a.reviser.name] == 0
      && m[a.grammarChecker.name] == 0 && m[a.toneChecker.name] == 0
  {
    var g, c, r, gc, tc := a.storyGenerator.name, a.critic.name, a.reviser.name,
                           a.grammarChecker.name, a.toneChecker.name;
    assert Names(a.FullSchedule(retry)[..1]) == [g];
    var main := [g, c, r, c, r, gc, tc];
    assert Names(a.FullSchedule(retry)) == main + (if retry then [g] else []);
    assert multiset(main)[g] == 1 && multiset(main)[c] == 2 && multiset(main)[r] == 2;
    assert multiset(main)[gc] == 1 && multiset(main)[tc] == 1;
  }

  /** The story generator runs twice exactly when the first story had content and the tone
      check then wrote exactly "negative", and once otherwise (any other tone, or none); the
      critic and the reviser run twice and the two checkers once whenever the first story had
      content, and none of them runs otherwise. */
  lemma StoryCounts(a: StoryFlowAgent, s: Snapshot, o: Oracle)
    requires a.Wired() && a.DistinctNames()
    ensures var ran := a.Flow(s, o).trace[|s.trace|..];
      var told := HasContent(RunAll(s, a.FullSchedule(false)[..1], o).state, "current_story");
      var negative := Get(RunAll(s, a.FullSchedule(false), o).state, "tone_check_result") == Some("negative");
      && multiset(ran)[a.storyGenerator.name] == (if told && negative then 2 else 1)
      && multiset(ran)[a.critic.name] == (if told then 2 else 0)
      && multiset(ran)[a.reviser.name] == (if told then 2 else 0)
      && multiset(ran)[a.grammarChecker.name] == (if told then 1 else 0)
      && multiset(ran)[a.toneChecker.name] == (if told then 1 else 0)
  {
    StoryOrder(a, s, o);
    ScheduleCounts(a, false);
    ScheduleCounts(a, true);
    assert a.Flow(s, o).trace[|s.trace|..] == Names(a.Invoked(s, o));
  }

  /** When `current_story` is missing or empty after the first story, that was the only unit
      run, and every key except the story generator's keeps its value. */
  lemma StoryHalt(a: StoryFlowAgent, s: Snapshot, o: Oracle, k: string)
    requires a.Wired()
    requires !HasContent(RunAll(s, a.FullSchedule(false)[..1], o).state, "current_story")
    ensures a.Flow(s, o).trace == s.trace + [a.storyGenerator.name]
    ensures k != a.storyGenerator.outputKey ==> Get(a.Flow(s, o).state, k) == Get(s.state, k)
  {
    StoryOrder(a, s, o);
    var us := a.FullSchedule(false)[..1];
    assert us == [a.storyGenerator];
    RunFrame(s, us, o, k);
  }

  /** Once the first story has content, the loop and the checks always run; the retry is one
      further story generation after them, and nothing else. */
  lemma StoryRetry(a: StoryFlowAgent, s: Snapshot, o: Oracle)
    requires a.Wired()
    requires HasContent(RunAll(s, a.FullSchedule(false)[..1], o).state, "current_story")
    ensures var checked := RunAll(s, a.FullSchedule(false), o);
      a.Flow(s, o) == if Get(checked.state, "tone_check_result") == Some("negative")
                      then Invoke(checked, a.storyGenerator, o) else checked
  {
    StoryOrder(a, s, o);
    StoryStages(a, s, o);
  }

  /** Every unit a run invokes is one of the five agents. */
  lemma InvokedUnits(a: StoryFlowAgent, s: Snapshot, o: Oracle)
    ensures forall u :: u in a.Invoked(s, o) ==>
      u in [a.storyGenerator, a.critic, a.reviser, a.grammarChecker, a.toneChecker]
  {
    assert a.FullSchedule(false)[..1] == [a.storyGenerator];
  }

  /** Each agent changes only its own output key: no key is removed, and a key none of the
      five agents writes (the seeded `topic`, say) keeps its value. */
  lemma StoryStateFrame(a: StoryFlowAgent, s: Snapshot, o: Oracle, k: string)
    requires a.Wired()
    ensures s.state.Keys <= a.Flow(s, o).state.Keys
    ensures a.Foreign(k) ==> Get(a.Flow(s, o).state, k) == Get(s.state, k)
  {
    StoryOrder(a, s, o);
    InvokedUnits(a, s, o);
    RunFrame(s, a.Invoked(s, o), o, k);
  }

  /** The run's event stream is the events of its invocations, concatenated in invocation order
      and unchanged. */
  lemma StoryEventStream(a: StoryFlowAgent, s: Snapshot, o: Oracle)
    requires a.Wired()
    ensures a.Flow(s, o).events == s.events + Emitted(o, |s.trace|, |a.Flow(s, o).trace| - |s.trace|)
  {
    StoryOrder(a, s, o);
    RunEvents(s, a.Invoked(s, o), o);
  }

  /** `current_story` is written by the story generator and the reviser only, so when they share
      that key and no other agent writes it, its final value is the one written by the last
      invocation of either of them that wrote anything. */
  lemma StoryFinalStory(a: StoryFlowAgent, s: Snapshot, o: Oracle, i: nat, v: string)
    requires a.Wired()
    requires a.reviser.outputKey == a.storyGenerator.outputKey
    requires a.critic.outputKey != a.storyGenerator.outputKey
    requires a.grammarChecker.outputKey != a.storyGenerator.outputKey
    requires a.toneChecker.outputKey != a.storyGenerator.outputKey
    requires i < |a.Invoked(s, o)|
    requires a.Invoked(s, o)[i] == a.storyGenerator || a.Invoked(s, o)[i] == a.reviser
    requires Written(a.Invoked(s, o)[i], o(|s.trace| + i)) == Some(v)
    requires forall j :: i < j < |a.Invoked(s, o)| && (a.Invoked(s, o)[j] == a.storyGenerator || a.Invoked(s, o)[j] == a.reviser)
               ==> Written(a.Invoked(s, o)[j], o(|s.trace| + j)).None?
    ensures Get(a.Flow(s, o).state, a.storyGenerator.outputKey) == Some(v)
  {
    StoryOrder(a, s, o);
    var us := a.Invoked(s, o);
    InvokedUnits(a, s, o);
    forall j | i < j < |us| && us[j].outputKey == us[i].outputKey
      ensures Written(us[j], o(|s.trace| + j)).None?
    {
      assert us[j] in us;
    }
    LastWriterWins(s, us, o, i, v);
  }

  /** When the first story generation emits a final response, the reply `call_agent` selects
      is that one: the revised or regenerated story never becomes the reply. */
  lemma StoryReplyIsFirstStory(a: StoryFlowAgent, s: Snapshot, o: Oracle)
    requires a.Wired()
    requires FirstFinal(o(|s.trace|)).Some?
    ensures FirstFinal(a.Flow(s, o).events[|s.events|..]) == FirstFinal(o(|s.trace|))
  {
    StoryOrder(a, s, o);
    FirstInvocationAnswers(s, a.Invoked(s, o), o);
  }

  /** The five agents of the root agent have distinct names, and `current_story` is the
      output key of exactly the story generator and the reviser. */
  lemma RootAgentDistinct(a: StoryFlowAgent)
    requires a.storyGenerator == StoryGenerator && a.critic == Critic && a.reviser == Reviser
    requires a.grammarChecker == GrammarChecker && a.toneChecker == ToneChecker
    ensures a.DistinctNames()
    ensures a.reviser.outputKey == a.storyGenerator.outputKey == "current_story"
    ensures a.critic.outputKey != "current_story" && a.grammarChecker.outputKey != "current_story"
    ensures a.toneChecker.outputKey != "current_story"
    ensures a.Foreign("topic")
  {
  }

  const NoFinalResponse := "No final response received."

  /** The loop of `call_agent`: it prints an intermediate line per event with content and stops
      at the first final response, whose text is the reply; without one the reply is the
      default message. */
  method SelectFinalResponse(events: seq<Event>) returns (reply: string, printed: seq<string>, consumed: nat)
    ensures consumed <= |events|
    ensures consumed == match FirstFinal(events) case Some(i) => i + 1 case None => |events|
    ensures printed == Intermediates(events[..consumed])
    ensures reply == match FirstFinal(events) case Some(i) => events[i].text.value case None => NoFinalResponse
  {
    reply, printed, consumed := NoFinalResponse, [], 0;
    while consumed < |events|
      invariant consumed <= |events|
      invariant forall j :: 0 <= j < consumed ==> !IsFinalResponse(events[j])
      invariant printed == Intermediates(events[..consumed])
    {
      var e := events[consumed];
      assert events[..consumed + 1][..consumed] == events[..consumed];
      if e.text.Some? {
        printed := printed + [IntermediatePrefix + e.text.value];
      }
      consumed := consumed + 1;
      if IsFinalResponse(e) {
        reply := e.text.value;
        break;
      }
    }
    assert consumed == |events| ==> events[..consumed] == events;
  }

  /** `call_agent`: with no session, nothing; otherwise it seeds `topic`, runs the agent on the
      session and selects the reply from the events of this run. */
  method CallAgent(agent: StoryFlowAgent, session: Session?, storyTopic: string, o: Oracle)
    returns (reply: Option<string>, printed: seq<string>)
    requires agent.Wired()
    modifies session
    ensures session == null ==> reply == None && printed == []
    ensures session != null ==>
      && session.Snap() == agent.Flow(old(session.Snap()).(state := old(session.state)["topic" := storyTopic]), o)
      && |old(session.events)| <= |session.events|
    ensures session != null ==>
      var run := session.events[|old(session.events)|..];
      && printed == Intermediates(run[..match FirstFinal(run) case Some(i) => i + 1 case None => |run|])
      && reply == Some(match FirstFinal(run) case Some(i) => run[i].text.value case None => NoFinalResponse)
  {
    if session == null {
      return None, [];
    }
    session.state := session.state["topic" := storyTopic];
    ghost var seeded := session.Snap();
    var start := |session.events|;
    agent.RunAsync(session, o);
    StoryEventStream(agent, seeded, o);
    var text, consumed;
    text, printed, consumed := SelectFinalResponse(session.events[start..]);
    reply := Some(text);
  }
}

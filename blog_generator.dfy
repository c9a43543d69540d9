/**
 The blog-generation orchestrator: a title-and-structure sequence, a content-and-SEO loop and an
 HTML-and-review loop, run in that order over one shared session, with a "present and non-empty"
 check on a state key after each stage; a failed check ends the run early.
 */
module BlogGenerator {
  import opened Workflow

  /** The six LLM agents of the root agent, with their output keys. */
  const TitleGenerator := Unit("Title_Generator", "blog_title")
  const StructureGenerator := Unit("Structure_Generator", "blog_structure")
  const BlogWriter := Unit("Blog_Generator", "blog_content")
  const SeoOptimizer := Unit("SEO_Optimizer", "optimized_blog_content")
  const HtmlGenerator := Unit("HTML_Generator", "html_code")
  const ReviewAgent := Unit("Review_Agent", "review_result")

  class BlogGeneratorAgent {
    const name: string
    const titleGenerator: Unit
    const structureGenerator: Unit
    const blogGenerator: Unit
    const seoOptimizer: Unit
    const htmlGenerator: Unit
    const reviewAgent: Unit
    const sequentialAgent: Composite
    const loopAgent: Composite
    const secondLoopAgent: Composite

    /** The three stages, built from the six agents as the constructor builds them. */
    predicate Wired()
    {
      && sequentialAgent == Sequential("Blog_Title_and_Structure_Generation", [titleGenerator, structureGenerator])
      && loopAgent == Loop("Blog_Generation_and_SEO_Optimization", [blogGenerator, seoOptimizer], 3)
      && secondLoopAgent == Loop("Blog_HTML_Generation_and_Review", [htmlGenerator, reviewAgent], 3)
    }

    predicate DistinctNames()
    {
      var t, st, b, seo, h, rv := titleGenerator.name, structureGenerator.name, blogGenerator.name,
                                  seoOptimizer.name, htmlGenerator.name, reviewAgent.name;
      && t != st && t != b && t != seo && t != h && t != rv
      && st != b && st != seo && st != h && st != rv
      && b != seo && b != h && b != rv
      && seo != h && seo != rv
      && h != rv
    }

    /** A key that none of the six agents writes. */
    predicate Foreign(k: string)
    {
      && k != titleGenerator.outputKey && k != structureGenerator.outputKey
      && k != blogGenerator.outputKey && k != seoOptimizer.outputKey
      && k != htmlGenerator.outputKey && k != reviewAgent.outputKey
    }

    constructor (name: string, titleGenerator: Unit, structureGenerator: Unit, blogGenerator: Unit,
                 seoOptimizer: Unit, htmlGenerator: Unit, reviewAgent: Unit)
      ensures this.name == name
      ensures this.titleGenerator == titleGenerator && this.structureGenerator == structureGenerator
      ensures this.blogGenerator == blogGenerator && this.seoOptimizer == seoOptimizer
      ensures this.htmlGenerator == htmlGenerator && this.reviewAgent == reviewAgent
      ensures Wired()
    {
      this.name := name;
      this.titleGenerator, this.structureGenerator := titleGenerator, structureGenerator;
      this.blogGenerator, this.seoOptimizer := blogGenerator, seoOptimizer;
      this.htmlGenerator, this.reviewAgent := htmlGenerator, reviewAgent;
      sequentialAgent := Sequential("Blog_Title_and_Structure_Generation", [titleGenerator, structureGenerator]);
      loopAgent := Loop("Blog_Generation_and_SEO_Optimization", [blogGenerator, seoOptimizer], 3);
      secondLoopAgent := Loop("Blog_HTML_Generation_and_Review", [htmlGenerator, reviewAgent], 3);
    }

    /** The effect of one run on the session: stage by stage, stopping after a stage whose
        check fails. The check on `html_code` comes last and so changes nothing. */
    function Flow(s: Snapshot, o: Oracle): Snapshot
    {
      var s1 := RunAll(s, Schedule(sequentialAgent), o);
      if !HasContent(s1.state, "blog_structure") then s1
      else
        var s2 := RunAll(s1, Schedule(loopAgent), o);
        if !HasContent(s2.state, "blog_content") then s2
        else RunAll(s2, Schedule(secondLoopAgent), o)
    }

    method RunAsync(ctx: Session, o: Oracle)
      modifies ctx
      ensures ctx.Snap() == Flow(old(ctx.Snap()), o)
    {
      ctx.RunAgent(sequentialAgent, o);
      if "blog_structure" !in ctx.state || ctx.state["blog_structure"] == "" {
        return;
      }
      ctx.RunAgent(loopAgent, o);
      if "blog_content" !in ctx.state || ctx.state["blog_content"] == "" {
        return;
      }
      ctx.RunAgent(secondLoopAgent, o);
      if "html_code" !in ctx.state || ctx.state["html_code"] == "" {
        return;
      }
    }

    /** Reference order: title, structure, three passes of content and SEO, three passes of
        HTML and review. */
    function FullSchedule(): seq<Unit>
    {
      [titleGenerator, structureGenerator]
      + [blogGenerator, seoOptimizer, blogGenerator, seoOptimizer, blogGenerator, seoOptimizer]
      + [htmlGenerator, reviewAgent, htmlGenerator, reviewAgent, htmlGenerator, reviewAgent]
    }

    /** Reference definition of how many units a run invokes: the full order is cut after the
        first stage whose key is missing or empty. */
    function Cut(s: Snapshot, o: Oracle): nat
    {
      var full := FullSchedule();
      if !HasContent(RunAll(s, full[..2], o).state, "blog_structure") then 2
      else if !HasContent(RunAll(s, full[..8], o).state, "blog_content") then 8
      else 14
    }

    function Invoked(s: Snapshot, o: Oracle): seq<Unit>
    {
      FullSchedule()[..Cut(s, o)]
    }
  }

  /** The three stages' schedules are consecutive slices of the full order. */
  lemma StagesAreSlices(a: BlogGeneratorAgent)
    requires a.Wired()
    ensures Schedule(a.sequentialAgent) == a.FullSchedule()[..2]
    ensures Schedule(a.loopAgent) == a.FullSchedule()[2..8]
    ensures Schedule(a.secondLoopAgent) == a.FullSchedule()[8..]
  {
    var st2 := [a.blogGenerator, a.seoOptimizer];
    var st3 := [a.htmlGenerator, a.reviewAgent];
    assert Repeat(st2, 2) == st2 + st2 by { assert Repeat(st2, 1) == st2; }
    assert Repeat(st3, 2) == st3 + st3 by { assert Repeat(st3, 1) == st3; }
    assert a.FullSchedule()[2..8] == st2 + st2 + st2;
    assert a.FullSchedule()[8..] == st3 + st3 + st3;
  }

  /** The run invokes exactly the reference prefix of the full order, in that order. */
  lemma {:induction false} BlogOrder(a: BlogGeneratorAgent, s: Snapshot, o: Oracle)
    requires a.Wired()
    ensures a.Flow(s, o) == RunAll(s, a.Invoked(s, o), o)
    ensures a.Flow(s, o).trace == s.trace + Names(a.Invoked(s, o))
  {
    var full := a.FullSchedule();
    StagesAreSlices(a);
    var s1 := RunAll(s, full[..2], o);
    var s2 := RunAll(s1, full[2..8], o);
    var s3 := RunAll(s2, full[8..], o);
    assert full[..8] == full[..2] + full[2..8];
    RunAppend(s, full[..2], full[2..8], o);
    assert s2 == RunAll(s, full[..8], o);
    assert full == full[..8] + full[8..];
    RunAppend(s, full[..8], full[8..], o);
    assert s3 == RunAll(s, full, o);
    if !HasContent(s1.state, "blog_structure") {
      assert a.Flow(s, o) == s1;
      assert a.Invoked(s, o) == full[..2];
      assert a.Flow(s, o) == RunAll(s, a.Invoked(s, o), o);
    } else if !HasContent(s2.state, "blog_content") {
      assert a.Flow(s, o) == s2;
      assert a.Invoked(s, o) == full[..8];
      assert a.Flow(s, o) == RunAll(s, a.Invoked(s, o), o);
    } else {
      assert a.Flow(s, o) == s3;
      assert a.Invoked(s, o) == full[..14] == full;
      assert a.Flow(s, o) == RunAll(s, a.Invoked(s, o), o);
    }
    RunTrace(s, a.Invoked(s, o), o);
  }

  /** Exactly 2, 8 or 14 units run: 2 when `blog_structure` is missing or empty after the first
      stage, 8 when `blog_content` is after the second, 14 otherwise, whatever `html_code` holds. */
  lemma BlogInvocationCount(a: BlogGeneratorAgent, s: Snapshot, o: Oracle)
    requires a.Wired()
    ensures var n := |a.Flow(s, o).trace| - |s.trace|;
      var structured := HasContent(RunAll(s, a.FullSchedule()[..2], o).state, "blog_structure");
      var written := HasContent(RunAll(s, a.FullSchedule()[..8], o).state, "blog_content");
      && (n == 2 <==> !structured)
      && (n == 8 <==> structured && !written)
      && (n == 14 <==> structured && written)
  {
    BlogOrder(a, s, o);
  }

  /** The names along the full order, cut where the gates can cut it. */
  lemma FullScheduleNames(a: BlogGeneratorAgent)
    ensures var t, st, b, seo, h, rv := a.titleGenerator.name, a.structureGenerator.name,
      a.blogGenerator.name, a.seoOptimizer.name, a.htmlGenerator.name, a.reviewAgent.name;
      && Names(a.FullSchedule()[..2]) == [t, st]
      && Names(a.FullSchedule()[..8]) == [t, st] + [b, seo, b, seo, b, seo]
      && Names(a.FullSchedule()) == [t, st] + [b, seo, b, seo, b, seo] + [h, rv, h, rv, h, rv]
  {
    var full := a.FullSchedule();
    assert full[..8] == full[..2] + full[2..8];
    assert full == full[..8] + full[8..];
    NamesAppend(full[..2], full[2..8]);
    NamesAppend(full[..8], full[8..]);
  }

  /** How often each agent occurs in each prefix of the full order that a run can invoke. */
  lemma PrefixCounts(a: BlogGeneratorAgent, n: nat)
    requires a.DistinctNames()
    requires n == 2 || n == 8 || n == 14
    ensures var m := multiset(Names(a.FullSchedule()[..n]));
      && m[a.titleGenerator.name] == 1 && m[a.structureGenerator.name] == 1
      && m[a.blogGenerator.name] == (if n >= 8 then 3 else 0)
      && m[a.seoOptimizer.name] == (if n >= 8 then 3 else 0)
      && m[a.htmlGenerator.name] == (if n == 14 then 3 else 0)
      && m[a.reviewAgent.name] == (if n == 14 then 3 else 0)
  {
    FullScheduleNames(a);
    assert a.FullSchedule()[..14] == a.FullSchedule();
    var t, st, b, seo, h, rv := a.titleGenerator.name, a.structureGenerator.name,
      a.blogGenerator.name, a.seoOptimizer.name, a.htmlGenerator.name, a.reviewAgent.name;
    var m1, m2, m3 := multiset([t, st]), multiset([b, seo, b, seo, b, seo]), multiset([h, rv, h, rv, h, rv]);
    assert m1[t] == 1 && m1[st] == 1 && m1[b] == 0 && m1[seo] == 0 && m1[h] == 0 && m1[rv] == 0;
    assert m2[t] == 0 && m2[st] == 0 && m2[b] == 3 && m2[seo] == 3 && m2[h] == 0 && m2[rv] == 0;
    assert m3[t] == 0 && m3[st] == 0 && m3[b] == 0 && m3[seo] == 0 && m3[h] == 3 && m3[rv] == 3;
  }

  /** A key that the first two stages' agents do not write keeps its value through them. */
  lemma FirstTwoStagesFrame(a: BlogGeneratorAgent, s: Snapshot, o: Oracle, k: string)
    requires k != a.titleGenerator.outputKey && k != a.structureGenerator.outputKey
    requires k != a.blogGenerator.outputKey && k != a.seoOptimizer.outputKey
    ensures Get(RunAll(s, a.FullSchedule()[..8], o).state, k) == Get(s.state, k)
  {
    var us := a.FullSchedule()[..8];
    assert us == [a.titleGenerator, a.structureGenerator, a.blogGenerator, a.seoOptimizer,
                  a.blogGenerator, a.seoOptimizer, a.blogGenerator, a.seoOptimizer];
    RunFrame(s, us, o, k);
  }

  /** Each loop stage that runs invokes each of its two agents exactly three times; the
      structure gate decides whether the first loop runs and the content gate the second. */
  lemma BlogLoopCounts(a: BlogGeneratorAgent, s: Snapshot, o: Oracle)
    requires a.Wired() && a.DistinctNames()
    ensures var ran := a.Flow(s, o).trace[|s.trace|..];
      var structured := HasContent(RunAll(s, a.FullSchedule()[..2], o).state, "blog_structure");
      var written := HasContent(RunAll(s, a.FullSchedule()[..8], o).state, "blog_content");
      && multiset(ran)[a.titleGenerator.name] == 1
      && multiset(ran)[a.structureGenerator.name] == 1
      && multiset(ran)[a.blogGenerator.name] == (if structured then 3 else 0)
      && multiset(ran)[a.seoOptimizer.name] == (if structured then 3 else 0)
      && multiset(ran)[a.htmlGenerator.name] == (if structured && written then 3 else 0)
      && multiset(ran)[a.reviewAgent.name] == (if structured && written then 3 else 0)
  {
    BlogOrder(a, s, o);
    PrefixCounts(a, a.Cut(s, o));
    assert a.Flow(s, o).trace[|s.trace|..] == Names(a.FullSchedule()[..a.Cut(s, o)]);
  }

  /** When `blog_structure` is missing or empty after the first stage, only the first two
      agents ran and every key they do not write keeps its value: nothing later is written. */
  lemma BlogHaltAfterStructure(a: BlogGeneratorAgent, s: Snapshot, o: Oracle, k: string)
    requires a.Wired()
    requires !HasContent(RunAll(s, a.FullSchedule()[..2], o).state, "blog_structure")
    ensures a.Flow(s, o).trace == s.trace + [a.titleGenerator.name, a.structureGenerator.name]
    ensures k != a.titleGenerator.outputKey && k != a.structureGenerator.outputKey ==>
              Get(a.Flow(s, o).state, k) == Get(s.state, k)
  {
    BlogOrder(a, s, o);
    FullScheduleNames(a);
    RunFrame(s, a.FullSchedule()[..2], o, k);
  }

  /** When `blog_content` is missing or empty after the second stage, exactly the first eight
      units ran: the HTML and review agents never run (their count is 0 by BlogLoopCounts). */
  lemma BlogHaltAfterContent(a: BlogGeneratorAgent, s: Snapshot, o: Oracle)
    requires a.Wired()
    requires HasContent(RunAll(s, a.FullSchedule()[..2], o).state, "blog_structure")
    requires !HasContent(RunAll(s, a.FullSchedule()[..8], o).state, "blog_content")
    ensures a.Flow(s, o).trace == s.trace + Names(a.FullSchedule()[..8])
  {
    BlogOrder(a, s, o);
    assert a.Invoked(s, o) == a.FullSchedule()[..8];
  }

  /** ... and the keys that only the HTML and review agents write keep their values. */
  lemma BlogHaltAfterContentFrame(a: BlogGeneratorAgent, s: Snapshot, o: Oracle, k: string)
    requires a.Wired()
    requires HasContent(RunAll(s, a.FullSchedule()[..2], o).state, "blog_structure")
    requires !HasContent(RunAll(s, a.FullSchedule()[..8], o).state, "blog_content")
    requires k != a.titleGenerator.outputKey && k != a.structureGenerator.outputKey
    requires k != a.blogGenerator.outputKey && k != a.seoOptimizer.outputKey
    ensures Get(a.Flow(s, o).state, k) == Get(s.state, k)
  {
    BlogOrder(a, s, o);
    assert a.Invoked(s, o) == a.FullSchedule()[..8];
    FirstTwoStagesFrame(a, s, o, k);
  }

  /** Along any prefix of the full order, no key is removed and a key none of the six agents
      writes keeps its value. */
  lemma PrefixFrame(a: BlogGeneratorAgent, s: Snapshot, o: Oracle, n: nat, k: string)
    requires n <= 14
    ensures s.state.Keys <= RunAll(s, a.FullSchedule()[..n], o).state.Keys
    ensures a.Foreign(k) ==> Get(RunAll(s, a.FullSchedule()[..n], o).state, k) == Get(s.state, k)
  {
    var full := a.FullSchedule();
    var six := [a.titleGenerator, a.structureGenerator, a.blogGenerator, a.seoOptimizer, a.htmlGenerator, a.reviewAgent];
    assert forall u :: u in full ==> u in six;
    assert forall u :: u in full[..n] ==> u in full;
    RunFrame(s, full[..n], o, k);
  }

  /** Each agent changes only its own output key: no key is removed, and a key none of the six
      agents writes (the seeded `blog_topic`, say) keeps its value. */
  lemma BlogStateFrame(a: BlogGeneratorAgent, s: Snapshot, o: Oracle, k: string)
    requires a.Wired()
    ensures s.state.Keys <= a.Flow(s, o).state.Keys
    ensures a.Foreign(k) ==> Get(a.Flow(s, o).state, k) == Get(s.state, k)
  {
    BlogOrder(a, s, o);
    PrefixFrame(a, s, o, a.Cut(s, o), k);
  }

  /** The run's event stream is the events of its invocations, concatenated in invocation order
      and unchanged. */
  lemma BlogEventStream(a: BlogGeneratorAgent, s: Snapshot, o: Oracle)
    requires a.Wired()
    ensures a.Flow(s, o).events == s.events + Emitted(o, |s.trace|, |a.Flow(s, o).trace| - |s.trace|)
  {
    BlogOrder(a, s, o);
    RunEvents(s, a.Invoked(s, o), o);
  }

  /** When the title generation emits a final response, the "Final response" line of
      `call_agent` is that one, and reading stops there. */
  lemma BlogReplyIsTitle(a: BlogGeneratorAgent, s: Snapshot, o: Oracle)
    requires a.Wired()
    requires FirstFinal(o(|s.trace|)).Some?
    ensures FirstFinal(a.Flow(s, o).events[|s.events|..]) == FirstFinal(o(|s.trace|))
  {
    BlogOrder(a, s, o);
    FirstInvocationAnswers(s, a.Invoked(s, o), o);
  }

  /** The six agents of the root agent have distinct names and distinct output keys. */
  lemma RootAgentDistinct(a: BlogGeneratorAgent)
    requires a.titleGenerator == TitleGenerator && a.structureGenerator == StructureGenerator
    requires a.blogGenerator == BlogWriter && a.seoOptimizer == SeoOptimizer
    requires a.htmlGenerator == HtmlGenerator && a.reviewAgent == ReviewAgent
    ensures a.DistinctNames()
    ensures !a.Foreign("blog_content") && a.Foreign("blog_topic")
  {
  }

  const FinalPrefix := "Final response: "

  /** The lines `call_agent` yields for an event stream: an intermediate line per event with
      content, up to and including the first final response, then a "Final response" line for
      that event, after which no further event is read. */
  method StreamResponses(events: seq<Event>) returns (lines: seq<string>, consumed: nat)
    ensures consumed <= |events|
    ensures consumed == match FirstFinal(events) case Some(i) => i + 1 case None => |events|
    ensures lines == Intermediates(events[..consumed])
                     + match FirstFinal(events) case Some(i) => [FinalPrefix + events[i].text.value] case None => []
  {
    lines, consumed := [], 0;
    while consumed < |events|
      invariant consumed <= |events|
      invariant forall j :: 0 <= j < consumed ==> !IsFinalResponse(events[j])
      invariant lines == Intermediates(events[..consumed])
    {
      var e := events[consumed];
      assert events[..consumed + 1][..consumed] == events[..consumed];
      if e.text.Some? {
        lines := lines + [IntermediatePrefix + e.text.value];
      }
      consumed := consumed + 1;
      if IsFinalResponse(e) {
        lines := lines + [FinalPrefix + e.text.value];
        return;
      }
    }
    assert events[..consumed] == events;
  }

  /** `call_agent`: with no session, nothing; otherwise it seeds `blog_topic`, runs the agent on
      the session and yields the lines for the events of this run. */
  method CallAgent(agent: BlogGeneratorAgent, session: Session?, blogTopic: string, o: Oracle)
    returns (lines: seq<string>)
    requires agent.Wired()
    modifies session
    ensures session == null ==> lines == []
    ensures session != null ==>
      && session.Snap() == agent.Flow(old(session.Snap()).(state := old(session.state)["blog_topic" := blogTopic]), o)
      && |old(session.events)| <= |session.events|
    ensures session != null ==>
      var run := session.events[|old(session.events)|..];
      lines == Intermediates(run[..match FirstFinal(run) case Some(i) => i + 1 case None => |run|])
               + match FirstFinal(run) case Some(i) => [FinalPrefix + run[i].text.value] case None => []
  {
    if session == null {
      return [];
    }
    session.state := session.state["blog_topic" := blogTopic];
    ghost var seeded := session.Snap();
    var start := |session.events|;
    agent.RunAsync(session, o);
    BlogEventStream(agent, seeded, o);
    var consumed;
    lines, consumed := StreamResponses(session.events[start..]);
  }
}

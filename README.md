# Agents Playground orchestrators — a Dafny model

The repository builds two multi-agent workflows on Google's Agent Development Kit (ADK).
Each one is a custom orchestrator agent whose `_run_async_impl` sequences LLM work units,
directly or through ADK `SequentialAgent` and `LoopAgent` composites, and gates its later
stages on keys the earlier units left in the shared session state:

- `BlogGeneratorAgent` (`app/Blog_Generator_Custom_Agent/agent.py`) has three stages.
  Stage one, "title and structure", is a sequence. Stage two, "content and SEO", is a loop of
  3. Stage three, "HTML and review", is a loop of 3. It stops after stage one when
  `blog_structure` is missing or empty, and after stage two when `blog_content` is.
- `StoryFlowAgent` (`app/Custom_Agent/agent.py`) generates a story and stops if
  `current_story` is missing or empty. Otherwise it runs a critique/revise loop of 2, then a
  grammar/tone sequence, and regenerates the story once more when `tone_check_result` is
  `"negative"`.

Each file's `call_agent` seeds a topic key in the session and runs the root agent. It then
reads the event stream, printing (or yielding) an "Intermediate response" line for every event
with content. It stops at the first final response.

## How the model is built

- `workflow.dfy` (module `Workflow`) holds the framework behaviour the orchestrators rely on.
  - Session state is a `map<string, string>`.
  - An LLM work unit is a `Unit` with a name and an `output_key`.
  - What an LLM says is not modelled. An `Oracle` gives, for the n-th unit invocation of a
    session, the events that invocation emits. Every property is proved for all oracles.
  - An invocation appends its name to the session's invocation trace and its events to the
    event log.
  - If one of its events is a final response with text that it authored, the invocation writes
    its output key with the text of the last such event. Otherwise the key is not written,
    which is how a key can be absent at a gate.
  - `SequentialAgent` runs its children once, in order. `LoopAgent` runs all its children
    exactly `max_iterations` times.
  - The mutable session is the class `Session`. Its methods `RunUnit`, `RunUnits` and
    `RunAgent` are proved against the pure functions `Invoke`, `RunAll` and `Schedule`.
- `blog_generator.dfy` and `story_flow.dfy` model the orchestrators as classes.
  - The composites are wired by the constructor, as in `__init__`.
  - `RunAsync` is proved equal to a pure function `Flow` of the session snapshot.
  - `Flow` is tied to an independent reference: the full, ungated schedule of units cut at the
    first failing gate (`Invoked`).
  - Lemmas about that reference state:
    - the invocation counts and order;
    - the halting behaviour at each gate and the keys left untouched;
    - the single conditional retry;
    - which value `current_story` ends with;
    - which event `call_agent` replies with.

## Model

| member | source | states |
|---|---|---|
| Workflow.WrittenIsLastSave | app/Custom_Agent/agent.py:138-147 | A unit with an `output_key` leaves its key unwritten iff none of its events is a final response with text authored by it. Otherwise the value is the text of the last such event. |
| Workflow.RunTrace | app/Custom_Agent/agent.py:100-101 | Running a list of units in order appends exactly their names, in that order, to the invocation trace. |
| Workflow.RunEvents | app/Custom_Agent/agent.py:110-111 | Every event of every invoked unit is passed up unchanged and in order: the event log grows by the concatenation of the invocations' events. |
| Workflow.RunAppend | app/Blog_Generator_Custom_Agent/agent.py:113-143 | Running two unit lists one after the other is the same as running their concatenation, which is how the stages of an orchestrator compose. |
| Workflow.RunFrame | app/Custom_Agent/agent.py:138-196 | Running units never removes a state key, and leaves the value of every key that none of the units has as its `output_key` unchanged. |
| Workflow.LastWriterWins | app/Custom_Agent/agent.py:162-172 | When unit i writes v and no later unit with the same `output_key` writes, that key ends as v. This covers the reviser overwriting `current_story`. |
| Workflow.RepeatCount | app/Blog_Generator_Custom_Agent/agent.py:73-78 | A loop of n iterations schedules n·\|children\| invocations and runs each child name n times as often as one pass does. |
| Workflow.FirstFinal | app/Custom_Agent/agent.py:246-253 | The index it returns is a final response with content and no earlier event is one. With no index, no event is a final response. |
| Workflow.FirstFinalAppend | app/Custom_Agent/agent.py:250-253 | The first final response of a concatenated stream lies in the first part when the first part has one, and is otherwise shifted from the second part. |
| Workflow.EmittedFirst | app/Custom_Agent/agent.py:238-242 | The events of n consecutive invocations are those of the first invocation followed by those of the remaining n-1. |
| Workflow.FirstInvocationAnswers | app/Custom_Agent/agent.py:246-253 | When the first unit of a run emits a final response, the first final response of the whole run is that one, whatever later units emit. |
| Workflow.Session.constructor | app/Custom_Agent/agent.py:208-214 | A new session holds the given initial state and has no invocations and no events. |
| Workflow.Session.RunUnit | app/Custom_Agent/agent.py:100-101 | Running one unit on the session changes its snapshot exactly as `Invoke` says: the name is appended, the events are appended, and the output key is saved. |
| Workflow.Session.RunUnits | app/Custom_Agent/agent.py:72-76 | Running a child list one after another changes the snapshot exactly as `RunAll`. |
| Workflow.Session.RunAgent | app/Blog_Generator_Custom_Agent/agent.py:67-84 | Running a `SequentialAgent` or a `LoopAgent` changes the snapshot exactly as `RunAll` over its schedule: the children once, or `max_iterations` full passes. |
| BlogGenerator.BlogGeneratorAgent.constructor | app/Blog_Generator_Custom_Agent/agent.py:67-99 | Stores the six agents and wires the sequence over title and structure and the two loops of 3, over content and SEO and over HTML and review. |
| BlogGenerator.BlogGeneratorAgent.RunAsync | app/Blog_Generator_Custom_Agent/agent.py:102-148 | Running the workflow on a session changes it exactly as `Flow`: three stages, a stop when `blog_structure` is absent or empty after stage one, and a stop when `blog_content` is after stage two. |
| BlogGenerator.StagesAreSlices | app/Blog_Generator_Custom_Agent/agent.py:67-85 | The three composites' schedules are the consecutive slices [0,2), [2,8) and [8,14) of the 14-invocation full schedule. |
| BlogGenerator.BlogOrder | app/Blog_Generator_Custom_Agent/agent.py:113-148 | The orchestrator is equivalent to running the full schedule cut after the first failing gate. Its invocation trace is exactly the names of that prefix. |
| BlogGenerator.BlogInvocationCount | app/Blog_Generator_Custom_Agent/agent.py:118-143 | 2 invocations iff the structure gate fails, 8 iff it passes and the content gate fails, 14 iff both pass. |
| BlogGenerator.FullScheduleNames | app/Blog_Generator_Custom_Agent/agent.py:67-85 | The full order of invocations is Title_Generator, Structure_Generator, then (Blog_Generator, SEO_Optimizer) three times, then (HTML_Generator, Review_Agent) three times. Its prefixes of 2 and 8 are the first stage and the first two stages. |
| BlogGenerator.RootAgentDistinct | app/Blog_Generator_Custom_Agent/agent.py:153-239 | For the six agents of `root_agent` the names are pairwise distinct, `blog_content` is one of their output keys, and `blog_topic` is none of them, so a run keeps the seeded topic. |
| BlogGenerator.PrefixCounts | app/Blog_Generator_Custom_Agent/agent.py:67-85 | In the 2-, 8- and 14-invocation prefixes, each of the six agents runs 1, 1, 3, 3, 3 and 3 times or not at all, as the prefix allows. |
| BlogGenerator.BlogLoopCounts | app/Blog_Generator_Custom_Agent/agent.py:113-143 | Title and structure run once each. Content and SEO run 3 times each iff `blog_structure` has content, and never otherwise. HTML and review run 3 times each iff `blog_content` also has content. |
| BlogGenerator.BlogHaltAfterStructure | app/Blog_Generator_Custom_Agent/agent.py:118-120 | With no usable `blog_structure` after stage one, only the title and structure agents ran, and every other key is as before the run. |
| BlogGenerator.BlogHaltAfterContent | app/Blog_Generator_Custom_Agent/agent.py:133-135 | With no usable `blog_content` after stage two, exactly the first 8 invocations ran and the HTML loop did not. |
| BlogGenerator.BlogHaltAfterContentFrame | app/Blog_Generator_Custom_Agent/agent.py:133-135 | In that case the HTML and review keys, and every other key the first two stages do not write, are as before the run. |
| BlogGenerator.FirstTwoStagesFrame | app/Blog_Generator_Custom_Agent/agent.py:113-129 | The first two stages leave every key other than the four they write unchanged. |
| BlogGenerator.PrefixFrame | app/Blog_Generator_Custom_Agent/agent.py:153-230 | No prefix of the full schedule removes a key or changes a key that none of the six agents writes. |
| BlogGenerator.BlogStateFrame | app/Blog_Generator_Custom_Agent/agent.py:102-148 | The workflow never removes a key, and leaves every key that is none of the six output keys (such as `blog_topic`) unchanged. |
| BlogGenerator.BlogEventStream | app/Blog_Generator_Custom_Agent/agent.py:114-143 | The events the workflow yields are exactly the invoked agents' events, in invocation order. |
| BlogGenerator.BlogReplyIsTitle | app/Blog_Generator_Custom_Agent/agent.py:280-288 | When the title generator emits a final response, that is the one `call_agent` reports as final, and it stops reading there. |
| BlogGenerator.StreamResponses | app/Blog_Generator_Custom_Agent/agent.py:280-288 | Yields an intermediate line for each event with content up to and including the first final response, then one final line with its text. All events are read when there is no final response. |
| BlogGenerator.CallAgent | app/Blog_Generator_Custom_Agent/agent.py:255-288 | No session: yields nothing. Otherwise the session ends as `Flow` of the state seeded with `blog_topic`, and the lines are those of `StreamResponses` over this run's events. |
| StoryFlow.StoryFlowAgent.constructor | app/Custom_Agent/agent.py:65-88 | Stores the five agents and wires the critique/revise loop of 2 and the grammar/tone sequence. |
| StoryFlow.StoryFlowAgent.RunAsync | app/Custom_Agent/agent.py:91-132 | Running the workflow on a session changes it exactly as `Flow`: generate, stop if `current_story` is absent or empty, loop, check, and regenerate once if the tone is `"negative"`. |
| StoryFlow.StagesAreSlices | app/Custom_Agent/agent.py:65-77 | The generator and the two composites' schedules are the slices [0,1), [1,5) and [5,7) of the full schedule. The retry schedule appends one more generation. |
| StoryFlow.StoryStages | app/Custom_Agent/agent.py:99-117 | The first stage is one generator invocation, and the three stages together are the 7-invocation schedule. |
| StoryFlow.StoryOrder | app/Custom_Agent/agent.py:99-130 | The orchestrator is equivalent to running its reference schedule: the generator alone when the story gate fails, else the 7 invocations, plus one generation iff the tone is `"negative"`. |
| StoryFlow.StoryInvocationCount | app/Custom_Agent/agent.py:103-125 | 1 invocation iff no usable story, 7 iff a story and a tone other than `"negative"`, 8 iff a story and a `"negative"` tone. |
| StoryFlow.ScheduleCounts | app/Custom_Agent/agent.py:65-77 | The full schedule runs the generator once, plus once more with the retry. It runs critic and reviser twice each and each checker once. |
| StoryFlow.StoryCounts | app/Custom_Agent/agent.py:99-130 | The generator runs twice iff the story gate passes and the tone is `"negative"`, else once. Critic and reviser run 2 times each, and the checkers once each, iff the gate passes, else never. |
| StoryFlow.StoryHalt | app/Custom_Agent/agent.py:103-105 | With no usable `current_story` after generation, nothing else ran and every other key is as before the run. |
| StoryFlow.StoryRetry | app/Custom_Agent/agent.py:120-130 | After the checks, the result is one more generator invocation iff `tone_check_result` is exactly `"negative"`. Otherwise it is the checked state unchanged. |
| StoryFlow.InvokedUnits | app/Custom_Agent/agent.py:77 | Every invoked unit is one of the five agents. |
| StoryFlow.StoryStateFrame | app/Custom_Agent/agent.py:91-132 | The workflow never removes a key, and leaves every key that is none of the output keys (such as `topic`) unchanged. |
| StoryFlow.StoryEventStream | app/Custom_Agent/agent.py:100-125 | The events the workflow yields are exactly the invoked agents' events, in invocation order. |
| StoryFlow.StoryFinalStory | app/Custom_Agent/agent.py:146-171 | `current_story` ends as the story written by the last generator or reviser invocation that wrote one. |
| StoryFlow.StoryReplyIsFirstStory | app/Custom_Agent/agent.py:246-253 | When the first generation emits a final response, that is the reply `call_agent` selects. The revised or regenerated story never replaces it. |
| StoryFlow.RootAgentDistinct | app/Custom_Agent/agent.py:138-206 | For the five agents of `root_agent` the names are pairwise distinct, and `current_story` is the output key of `story_generator` and `reviser` and of no other agent. `topic` is no agent's output key, so a run keeps the seeded topic. |
| StoryFlow.SelectFinalResponse | app/Custom_Agent/agent.py:244-253 | Prints an intermediate line for each event with content up to and including the first final response. The reply is that response's text, or "No final response received." when there is none. |
| StoryFlow.CallAgent | app/Custom_Agent/agent.py:221-253 | No session: nothing. Otherwise the session ends as `Flow` of the state seeded with `topic`, and the reply and lines are those of `SelectFinalResponse` over this run's events. |

## Left out

- Workflow.Invoke: every invocation is modelled as completing. A unit whose model call or `google_search`
  call raises would end the whole run in the middle of a stage, because nothing in either
  `_run_async_impl` catches errors (app/Blog_Generator_Custom_Agent/agent.py:114-143,
  app/Custom_Agent/agent.py:100-125). In the model a failed unit can only appear as one that writes
  nothing. The invocation counts (2, 8 or 14; 1, 7 or 8) and the order, halt, event-stream and reply
  lemmas therefore describe runs in which no unit raises.

- What the LLM agents say is not modelled: their instructions, the model name, the `google_search` tool and
  output schemas. The oracle of events stands for them, and every result holds for every oracle.
- The ADK library is not part of this model. The behaviour of `Runner`, `InMemorySessionService`,
  `SequentialAgent`, `LoopAgent` and `output_key` saving is modelled as described above, from how the
  repository uses them.
  - State is modelled as applied when an invocation ends rather than through each event's state delta.
  - Only string state values are modelled.
  - An event's content is modelled as the text of its first part.
- `SequentialAgent` is modelled with no check between its children. A child that writes nothing does not
  stop the others; only the orchestrators' own `if` checks halt anything. Nothing in either agent file
  checks keys inside a sequence.
- `LoopAgent` escalation (a child asking the loop to exit early) is not modelled. No agent here escalates,
  so every loop runs exactly `max_iterations` passes.
- Streaming, asynchrony and cancellation are not modelled. A run is modelled to completion, and then its
  events are scanned. Stopping at the first final response therefore only limits which events are read,
  not which agents run.
- `StoryFlow.CallAgent`: Python's `call_agent` in the story file computes `finally_response_content` but
  neither returns nor prints it. The model returns it as `reply` to state which event it selects.
- The story file builds its `Runner` with the session object in place of the session service
  (app/Custom_Agent/agent.py:215-219), and not with `session_service`. The model assumes the runner
  works on the session that `call_agent` seeds.
- The `__main__` block of the blog file calls the `call_agent` generator without iterating it, so as
  written it runs nothing. The model describes one full iteration of the generator.
- Logging, the final `json.dumps` of the session state, `input()`, session creation with fixed
  app, user and session ids, and loading the environment are I/O and are not modelled.
- The other examples in the repository (the basic LLM agent and the plain sequential workflow) are not
  part of this model.

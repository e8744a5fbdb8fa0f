/** The deep-think engine of prisma/hooks/useDeepThink.ts: the state the hook
    publishes, the lifecycle of one expert, the whole run (plan, experts,
    synthesis) and the stop and reset commands.

    The run is modelled as one sequential execution of its asynchronous
    steps: the primary expert's lifecycle first, then the planning call, then
    the supplementary experts one after another, then the synthesis. A stop
    pressed during the run is seen through the run's controller (see
    `Abort.AbortController.stopAt`). */
module DeepThink {
  import opened Types
  import opened Js
  import opened Prompts
  import opened Abort
  import opened Chunks
  import opened Manager
  import opened Expert
  import opened Synthesis

  // ---------------------------------------------------------------------
  // The conversation context

  function SpeakerLabel(role: Speaker): string {
    match role
    case User => "User"
    case Model => "Model"
  }

  /** One line of the context: the speaker, a colon, the message. */
  function HistoryLine(m: ChatMessage): string {
    SpeakerLabel(m.role) + ": " + m.content
  }

  /** `history.slice(-5)`: the last five messages, or all of them. */
  function Recent(history: seq<ChatMessage>): (r: seq<ChatMessage>)
    ensures |r| == if |history| < 5 then |history| else 5
    ensures r == history[|history| - |r|..]
  {
    if |history| <= 5 then history else history[|history| - 5..]
  }

  function HistoryLines(history: seq<ChatMessage>): (r: seq<string>)
    ensures |r| == |Recent(history)|
    ensures forall i :: 0 <= i < |r| ==> r[i] == HistoryLine(Recent(history)[i])
  {
    var recent := Recent(history);
    seq(|recent|, i requires 0 <= i < |recent| => HistoryLine(recent[i]))
  }

  /** `recentHistory`: the lines of the recent messages joined by newlines. */
  function HistoryContext(history: seq<ChatMessage>): string {
    Join(HistoryLines(history), "\n")
  }

  /** Messages older than the last five do not reach the context. */
  lemma OlderMessagesIgnored(older: seq<ChatMessage>, history: seq<ChatMessage>)
    requires |history| >= 5
    ensures HistoryContext(older + history) == HistoryContext(history)
  {
    var all := older + history;
    assert all[|all| - 5..] == history[|history| - 5..];
    assert Recent(all) == Recent(history);
  }

  /** The context holds the line of each of the recent messages, in the
      order of the conversation, one per line. */
  lemma HistoryLineInContext(history: seq<ChatMessage>, i: nat)
    requires i < |Recent(history)|
    ensures Recent(history)[i] == history[|history| - |Recent(history)| + i]
    ensures HistoryLines(history)[i] == HistoryLine(Recent(history)[i])
    ensures var o := Offset(HistoryLines(history), "\n", i);
      var line := HistoryLines(history)[i];
      o + |line| <= |HistoryContext(history)| &&
      HistoryContext(history)[o..o + |line|] == line
  {
    JoinAt(HistoryLines(history), "\n", i);
  }

  // ---------------------------------------------------------------------
  // The expert panel

  /** `expert-${n}`. */
  function ExpertId(n: nat): string {
    "expert-" + NatText(n)
  }

  /** Distinct positions get distinct ids. */
  lemma ExpertIdInjective(m: nat, n: nat)
    requires ExpertId(m) == ExpertId(n)
    ensures m == n
  {
    assert NatText(m) == ExpertId(m)[7..];
    assert NatText(n) == ExpertId(n)[7..];
    NatTextInjective(m, n);
  }

  const PrimaryRole := "Primary Responder"
  const PrimaryDescription := "Directly addresses the user's original query."

  /** The primary expert, who answers the query itself at temperature 1. */
  function PrimaryExpert(query: string): (e: ExpertResult)
    ensures e.id == ExpertId(0) && e.status == Pending
    ensures e.role == Some(JStr("Primary Responder")) && e.prompt == Some(JStr(query))
    ensures e.temperature == Some(JNum(Number("1")))
  {
    ExpertResult(
      "expert-0", Some(JStr(PrimaryRole)), Some(JStr(PrimaryDescription)), Some(JNum(Number("1"))),
      Some(JStr(query)), Pending, None, None, None, None)
  }

  /** A property read of a parsed element: `undefined` unless the element is
      an object with that key. */
  function Field(item: Json, key: string): JsValue {
    if item.JObj? && key in item.fields then Some(item.fields[key]) else None
  }

  /** `{...exp, id: `expert-${idx + 1}`, status: 'pending'}`: the element's
      fields, with the id and status overridden. */
  function GeneratedExpert(item: Json, idx: nat): (e: ExpertResult)
    ensures e.id == ExpertId(idx + 1) && e.status == Pending
    ensures e.role == Field(item, "role") && e.description == Field(item, "description")
    ensures e.temperature == Field(item, "temperature") && e.prompt == Field(item, "prompt")
  {
    ExpertResult(
      ExpertId(idx + 1), Field(item, "role"), Field(item, "description"), Field(item, "temperature"),
      Field(item, "prompt"), Pending, Field(item, "content"), Field(item, "thoughts"), None, None)
  }

  /** The supplementary experts of a plan, one per element, in order. */
  function GeneratedExperts(items: seq<Json>): (r: seq<ExpertResult>)
    ensures |r| == |items|
    ensures forall i :: 0 <= i < |items| ==> r[i] == GeneratedExpert(items[i], i)
  {
    seq(|items|, i requires 0 <= i < |items| => GeneratedExpert(items[i], i))
  }

  /** Every expert of a panel that the run builds carries its position in
      its id, so no two experts share an id. */
  lemma PanelIdsDistinct(panel: seq<ExpertResult>, i: nat, j: nat)
    requires forall k :: 0 <= k < |panel| ==> panel[k].id == ExpertId(k)
    requires i < |panel| && j < |panel| && i != j
    ensures panel[i].id != panel[j].id
  {
    if panel[i].id == panel[j].id {
      ExpertIdInjective(i, j);
    }
  }

  // ---------------------------------------------------------------------
  // One expert's lifecycle, as a specification

  const FailureText := "Failed to generate response."

  /** How a lifecycle that got past its first abort check ends. */
  datatype Settlement =
    | Abandoned   // the signal was seen aborted after the expert started
    | Finished    // the stream ended normally: completed
    | Errored     // the call or the stream threw: error

  /** `{...expert, status: 'thinking', startTime}`. */
  function Started(e: ExpertResult, t: int): ExpertResult {
    e.(status := Thinking, startTime := Some(t))
  }

  /** The slot after the callbacks: once at least one callback ran, content
      and thoughts are everything received so far. */
  function Streamed(e: ExpertResult, ds: seq<Delta>): ExpertResult {
    if ds == [] then e else e.(content := Some(JStr(Texts(ds))), thoughts := Some(JStr(Thoughts(ds))))
  }

  /** The last write of a lifecycle: completed or failed, with the end time;
      an abandoned slot is left as it is. */
  function Settle(s: ExpertResult, how: Settlement, t1: int): ExpertResult {
    match how
    case Abandoned => s
    case Finished => s.(status := ExpertStatus.Completed, endTime := Some(t1))
    case Errored => s.(status := ExpertStatus.Error, content := Some(JStr(FailureText)), endTime := Some(t1))
  }

  /** The slot a lifecycle leaves behind, started at `t0`, settled at `t1`:
      the expert's configuration is kept, the slot is terminal unless it was
      abandoned, and it holds what was streamed unless the call failed. */
  function Settled(e: ExpertResult, t0: int, ds: seq<Delta>, how: Settlement, t1: int): (r: ExpertResult)
    ensures r.Config() == e.Config() && r.startTime == Some(t0)
    ensures r.status.Terminal() <==> how != Abandoned
    ensures how == Abandoned ==> r.status == Thinking && r.endTime == e.endTime
    ensures how == Finished ==> r.status == ExpertStatus.Completed && r.endTime == Some(t1)
    ensures how == Errored ==> r.status == ExpertStatus.Error && r.endTime == Some(t1)
    ensures how == Errored ==> r.content == Some(JStr(FailureText))
    ensures how != Errored && ds != [] ==> r.content == Some(JStr(Texts(ds)))
    ensures ds != [] ==> r.thoughts == Some(JStr(Thoughts(ds)))
  {
    Settle(Streamed(Started(e, t0), ds), how, t1)
  }

  /** The slot a lifecycle leaves when no abort interrupts it, started at
      `t` and settled at `t + 1`, given what its request returned: failed,
      with the failure text, when the call or the stream threw; completed
      otherwise; in both cases holding the thoughts of the whole stream, and
      when completed its answer text, once a callback has run. */
  function SettledSlot(e: ExpertResult, start: Result<ChunkStream>, t: int): (r: ExpertResult)
    ensures r.Config() == e.Config() && r.startTime == Some(t) && r.endTime == Some(t + 1)
    ensures r.status == ExpertStatus.Completed <==> start.Ok? && start.value.failure.None?
    ensures r.status == ExpertStatus.Error <==> !(start.Ok? && start.value.failure.None?)
    ensures r.status == ExpertStatus.Error ==> r.content == Some(JStr(FailureText))
    ensures start.Ok? && ChunkDeltas(start.value.chunks) != [] ==>
      r.thoughts == Some(JStr(ThoughtText(StreamParts(start.value.chunks)))) &&
      (r.status == ExpertStatus.Completed ==>
        r.content == Some(JStr(AnswerText(StreamParts(start.value.chunks)))))
    ensures start.Ok? && ChunkDeltas(start.value.chunks) == [] ==>
      r.thoughts == e.thoughts && (r.status == ExpertStatus.Completed ==> r.content == e.content)
  {
    match start
    case Thrown(_) => Settled(e, t, [], Errored, t + 1)
    case Ok(s) =>
      DeltasConcatenate(s.chunks);
      Settled(e, t, ChunkDeltas(s.chunks), if s.failure.None? then Finished else Errored, t + 1)
  }

  /** `slot` is what the lifecycle of `e` leaves when no abort interrupts
      it, whenever it started. */
  ghost predicate SettledFrom(slot: ExpertResult, e: ExpertResult, start: Result<ChunkStream>) {
    slot.startTime.Some? && slot == SettledSlot(e, start, slot.startTime.value)
  }

  // ---------------------------------------------------------------------
  // The order of the published run states

  /** The state that may follow `s` within one run: the next stage, or idle
      after a failure. Idle and completed end a run. */
  predicate NextState(s: AppState, t: AppState) {
    match s
    case Analyzing => t == ExpertsWorking || t == Idle
    case ExpertsWorking => t == Synthesizing
    case Synthesizing => t == AppState.Completed || t == Idle
    case _ => false
  }

  predicate Steps(t: seq<AppState>)
    decreases |t|
  {
    |t| <= 1 || (NextState(t[0], t[1]) && Steps(t[1..]))
  }

  /** The states one run publishes: it starts with analyzing and moves only
      forward, to idle only on a failure. */
  predicate RunTrace(t: seq<AppState>) {
    t != [] && t[0] == Analyzing && Steps(t)
  }

  /** The state sequences a run can publish. */
  lemma RunTraces()
    ensures RunTrace([Analyzing]) && RunTrace([Analyzing, Idle])
    ensures RunTrace([Analyzing, ExpertsWorking]) && RunTrace([Analyzing, ExpertsWorking, Synthesizing])
    ensures RunTrace([Analyzing, ExpertsWorking, Synthesizing, AppState.Completed])
    ensures RunTrace([Analyzing, ExpertsWorking, Synthesizing, Idle])
  {
    assert [Analyzing, ExpertsWorking, Synthesizing, Idle][1..] == [ExpertsWorking, Synthesizing, Idle];
    assert [ExpertsWorking, Synthesizing, Idle][1..] == [Synthesizing, Idle];
    assert [Analyzing, ExpertsWorking, Synthesizing, AppState.Completed][1..] == [ExpertsWorking, Synthesizing, AppState.Completed];
    assert [ExpertsWorking, Synthesizing, AppState.Completed][1..] == [Synthesizing, AppState.Completed];
    assert [Analyzing, ExpertsWorking, Synthesizing][1..] == [ExpertsWorking, Synthesizing];
  }

  /** Consecutive states of a run follow one another. */
  lemma {:induction false} StepAt(t: seq<AppState>, i: nat)
    requires Steps(t) && i + 1 < |t|
    ensures NextState(t[i], t[i + 1])
    decreases i
  {
    if i > 0 {
      assert t[1..][i - 1] == t[i] && t[1..][i] == t[i + 1];
      StepAt(t[1..], i - 1);
    }
  }

  /** The six sequences of `RunTraces` are the only ones a run can publish. */
  lemma EveryRunTraceListed(t: seq<AppState>)
    requires RunTrace(t)
    ensures t == [Analyzing] || t == [Analyzing, Idle] || t == [Analyzing, ExpertsWorking] ||
      t == [Analyzing, ExpertsWorking, Synthesizing] ||
      t == [Analyzing, ExpertsWorking, Synthesizing, AppState.Completed] ||
      t == [Analyzing, ExpertsWorking, Synthesizing, Idle]
  {
    if |t| > 1 {
      StepAt(t, 0);
      if |t| > 2 {
        StepAt(t, 1);
        if |t| > 3 {
          StepAt(t, 2);
          if |t| > 4 {
            StepAt(t, 3);
          }
        }
      }
    }
  }

  /** A run publishes completed only after every earlier stage, in order. */
  lemma {:induction false} CompletedRunVisitsAllStages(t: seq<AppState>)
    requires RunTrace(t) && t[|t| - 1] == AppState.Completed
    ensures t == [Analyzing, ExpertsWorking, Synthesizing, AppState.Completed]
  {
    assert |t| >= 2;
    assert Steps(t[1..]);
    assert t[1] == ExpertsWorking;
    assert Steps(t[2..]) by { assert t[1..][1..] == t[2..]; }
    assert |t| >= 3 && t[2] == Synthesizing;
    assert Steps(t[3..]) by { assert t[2..][1..] == t[3..]; }
    assert |t| >= 4 && t[3] == AppState.Completed;
  }

  /** A run publishes idle at most once, as its last state. */
  lemma {:induction false} IdleEndsRun(t: seq<AppState>, i: nat)
    requires Steps(t) && i < |t| && t[i] == Idle
    ensures i == |t| - 1
    decreases i
  {
    if i > 0 {
      assert t[1..][i - 1] == t[i];
      IdleEndsRun(t[1..], i - 1);
    }
  }

  /** Where the two checks of the signal in a run whose planning call
      returned leave it. The signal read `a0` after `p0` polls; the check
      when the plan arrives is poll `atPlan` and the check before synthesis
      is poll `atSynthesis`. A stop seen at the first ends the run with
      analyzing alone, one seen at the second with analyzing and
      experts_working, and in either case nothing is polled afterwards, so
      nothing more runs. */
  ghost predicate StopChecks(
    signal: AbortController, a0: bool, p0: nat, plan: Result<Json>, published: seq<AppState>,
    atPlan: nat, atSynthesis: nat)
    reads signal
  {
    plan.Ok? ==>
      p0 <= atPlan < signal.polls &&
      (published == [Analyzing] <==> a0 || signal.StopLanded(atPlan)) &&
      (published == [Analyzing] ==> signal.polls == atPlan + 1) &&
      (published != [Analyzing] ==>
        atPlan < atSynthesis < signal.polls &&
        (published == [Analyzing, ExpertsWorking] <==> signal.StopLanded(atSynthesis)) &&
        (published == [Analyzing, ExpertsWorking] ==> signal.polls == atSynthesis + 1))
  }

  /** The checks of a run, seen from before polls that began with the
      signal reading `a0` after `p0` polls and ended with it reading `a1`
      after `p1`. */
  lemma StopChecksCompose(
    signal: AbortController, a0: bool, p0: nat, a1: bool, p1: nat, plan: Result<Json>, published: seq<AppState>,
    atPlan: nat, atSynthesis: nat)
    requires p0 <= p1 && a1 == (a0 || signal.StopSeen(p0, p1))
    requires StopChecks(signal, a1, p1, plan, published, atPlan, atSynthesis)
    ensures StopChecks(signal, a0, p0, plan, published, atPlan, atSynthesis)
  {
  }

  // ---------------------------------------------------------------------
  // The hook's state

  class DeepThinkEngine {
    var appState: AppState
    var managerAnalysis: Option<Json>
    /** The `experts` state and `expertsDataRef`: every write to the ref is
        published at once, so the two always hold the same list. */
    var experts: seq<ExpertResult>
    var finalOutput: string
    var synthesisThoughts: string
    var processStartTime: Option<int>
    var processEndTime: Option<int>
    /** `abortControllerRef.current`. */
    var controller: AbortController?
    /** The next value `Date.now()` returns; every reading advances it. */
    var clock: int
    /** Every value passed to `setAppState`, in order. */
    ghost var stateTrace: seq<AppState>

    constructor (clock: int)
      ensures appState == Idle && managerAnalysis == None && experts == []
      ensures finalOutput == "" && synthesisThoughts == ""
      ensures processStartTime == None && processEndTime == None
      ensures controller == null && this.clock == clock && stateTrace == []
    {
      appState := Idle;
      managerAnalysis := None;
      experts := [];
      finalOutput := "";
      synthesisThoughts := "";
      processStartTime := None;
      processEndTime := None;
      controller := null;
      this.clock := clock;
      stateTrace := [];
    }

    /** `Date.now()`. */
    method Now() returns (t: int)
      modifies this`clock
      ensures t == old(clock) && clock == old(clock) + 1
    {
      t := clock;
      clock := clock + 1;
    }

    /** `setAppState(s)`. */
    method SetAppState(s: AppState)
      modifies this`appState, this`stateTrace
      ensures appState == s && stateTrace == old(stateTrace) + [s]
    {
      appState := s;
      stateTrace := stateTrace + [s];
    }

    /** `stopDeepThink`: abort the current run, if any, and forget its
        controller; publish idle and the end time. */
    method StopDeepThink()
      modifies this`controller, this`appState, this`stateTrace, this`processEndTime, this`clock, controller
      ensures old(controller) != null ==> old(controller).aborted
      ensures controller == null
      ensures appState == Idle && stateTrace == old(stateTrace) + [Idle]
      ensures processEndTime == Some(old(clock)) && clock == old(clock) + 1
    {
      if controller != null {
        controller.Abort();
        controller := null;
      }
      SetAppState(Idle);
      var t := Now();
      processEndTime := Some(t);
    }

    /** `resetDeepThink`: back to the initial state. The current controller,
        if any, is forgotten without being aborted. */
    method ResetDeepThink()
      modifies this`appState, this`stateTrace, this`managerAnalysis, this`experts, this`finalOutput,
        this`synthesisThoughts, this`processStartTime, this`processEndTime, this`controller
      ensures appState == Idle && stateTrace == old(stateTrace) + [Idle]
      ensures managerAnalysis == None && experts == [] && finalOutput == "" && synthesisThoughts == ""
      ensures processStartTime == None && processEndTime == None && controller == null
    {
      SetAppState(Idle);
      managerAnalysis := None;
      experts := [];
      finalOutput := "";
      synthesisThoughts := "";
      processStartTime := None;
      processEndTime := None;
      controller := null;
    }

    /** The panel a run with this query and these plan elements shows: the
        primary expert first, then one expert per element, in order, each
        keeping its configuration. */
    ghost predicate PanelOf(query: string, items: seq<Json>)
      reads this`experts
    {
      |experts| == 1 + |items| && experts[0].Config() == PrimaryExpert(query).Config() &&
      forall j :: 0 <= j < |items| ==> experts[j + 1].Config() == GeneratedExpert(items[j], j).Config()
    }

    /** Slot 0 holds what the primary expert's lifecycle left, unless an
        abort interrupted it. */
    ghost predicate PrimarySettled(
      query: string, model: string, context: string, budget: int, generate: ExpertRequest -> Result<ChunkStream>)
      reads this`experts
    {
      |experts| >= 1 &&
      SettledFrom(experts[0], PrimaryExpert(query), generate(ExpertRequestFor(model, PrimaryExpert(query), context, budget)))
    }

    /** Slot `j + 1` holds what the lifecycle of the expert built from plan
        element `j` left, for every element. */
    ghost predicate GeneratedSettled(
      items: seq<Json>, model: string, context: string, budget: int, generate: ExpertRequest -> Result<ChunkStream>)
      reads this`experts
    {
      |experts| == 1 + |items| &&
      forall j :: 0 <= j < |items| ==>
        SettledFrom(experts[j + 1], GeneratedExpert(items[j], j),
          generate(ExpertRequestFor(model, GeneratedExpert(items[j], j), context, budget)))
    }

    /** In the panel of a run, the id of every expert is its position. */
    lemma PanelIdsFollowPositions(query: string, items: seq<Json>)
      requires PanelOf(query, items)
      ensures forall j :: 0 <= j < |experts| ==> experts[j].id == ExpertId(j)
    {
      forall j | 0 <= j < |experts|
        ensures experts[j].id == ExpertId(j)
      {
        if j > 0 {
          assert experts[j].Config() == GeneratedExpert(items[j - 1], j - 1).Config();
        }
      }
    }

    /** `runDynamicDeepThink`. A query that is only whitespace changes
        nothing. Otherwise the previous run is aborted and a new one starts;
        it publishes analyzing, experts_working, synthesizing and completed
        in that order, stopping early and quietly when its signal is seen
        aborted, or publishing idle when a step throws. In every case the
        run ends by forgetting its controller. `published` is what the run
        passes to `setAppState`.
        `getThinkingBudget` is given as the three budgets, `getAI` and the
        SDK as the functions `planning`, `generate` and `initiate`, and the
        moment of an outside stop as `stopAt`. */
    method RunDynamicDeepThink(
      query: string, history: seq<ChatMessage>, model: string,
      planningBudget: int, expertBudget: int, synthesisBudget: int, stopAt: Option<nat>,
      planning: ManagerRequest -> PlanningReply, clean: string -> string, parse: string -> Option<Json>,
      generate: ExpertRequest -> Result<ChunkStream>, initiate: SynthesisRequest -> Result<ChunkStream>)
      returns (ghost signal: AbortController?, ghost published: seq<AppState>, ghost atPlan: nat, ghost atSynthesis: nat)
      modifies this, controller
      ensures stateTrace == old(stateTrace) + published
      ensures IsBlank(query) ==>
        signal == null && published == [] && unchanged(this) &&
        (old(controller) != null ==> unchanged(old(controller)))
      ensures !IsBlank(query) ==>
        signal != null && fresh(signal) && signal.stopAt == stopAt && controller == null &&
        (old(controller) != null ==> old(controller).aborted) &&
        processStartTime == Some(old(clock)) &&
        var context := HistoryContext(history);
        RunOutcome(query, model, context,
          ExecuteManagerAnalysis(model, query, context, planningBudget, planning, clean, parse),
          expertBudget, synthesisBudget, generate, initiate, signal, published) &&
        signal.PolledFrom(false, 0) && (stopAt.None? ==> !signal.aborted) &&
        StopChecks(signal, false, 0,
          ExecuteManagerAnalysis(model, query, context, planningBudget, planning, clean, parse),
          published, atPlan, atSynthesis)
    {
      var blank := TrimsToEmpty(query);
      if blank {
        signal, published, atPlan, atSynthesis := null, [], 0, 0;
        return;
      }
      var s;
      s, published, atPlan, atSynthesis := StartRun(
        query, HistoryContext(history), model, planningBudget, expertBudget, synthesisBudget, stopAt,
        planning, clean, parse, generate, initiate);
      signal := s;
    }

    /** A run past the blank check, given the recent history as text (its
        computation cannot throw, so where it happens does not matter):
        abort the previous controller and install a new one, run the steps,
        and finally release the controller. */
    method StartRun(
      query: string, context: string, model: string,
      planningBudget: int, expertBudget: int, synthesisBudget: int, stopAt: Option<nat>,
      planning: ManagerRequest -> PlanningReply, clean: string -> string, parse: string -> Option<Json>,
      generate: ExpertRequest -> Result<ChunkStream>, initiate: SynthesisRequest -> Result<ChunkStream>)
      returns (signal: AbortController, ghost published: seq<AppState>, ghost atPlan: nat, ghost atSynthesis: nat)
      modifies this, controller
      ensures stateTrace == old(stateTrace) + published
      ensures fresh(signal) && signal.stopAt == stopAt && controller == null
      ensures old(controller) != null ==> old(controller).aborted
      ensures processStartTime == Some(old(clock))
      ensures RunOutcome(query, model, context,
          ExecuteManagerAnalysis(model, query, context, planningBudget, planning, clean, parse),
          expertBudget, synthesisBudget, generate, initiate, signal, published)
      ensures signal.PolledFrom(false, 0) && (stopAt.None? ==> !signal.aborted)
      ensures StopChecks(signal, false, 0,
        ExecuteManagerAnalysis(model, query, context, planningBudget, planning, clean, parse),
        published, atPlan, atSynthesis)
    {
      ghost var trace0 := stateTrace;
      signal := BeginRun(stopAt);
      assert stateTrace[..|stateTrace| - 1] == trace0;
      published, atPlan, atSynthesis := RunSteps(
        query, context, model, planningBudget, expertBudget, synthesisBudget,
        planning, clean, parse, generate, initiate, signal);
      ReleaseControllerAsWritten();
    }

    /** What a run that got past the blank check has published when it ends:
        - its states in run order, the last one current;
        - an end time, and the state completed or idle, exactly when its
          signal is still clear;
        - the primary expert first, every expert's id naming its position;
          while the signal is clear, every slot holds what its lifecycle
          left;
        - a failed planning call leaves the primary expert alone;
        - a plan is published exactly when experts_working is, and it is the
          accepted answer of the planning call, with the panel built from it;
          an accepted plan is published unless the run was stopped;
        - no synthesis output before synthesizing;
        - once synthesis ran with the signal clear, completed exactly when
          the synthesis stream ended without error;
        - completed means the output and thoughts of the whole synthesis
          stream. */
    ghost predicate RunOutcome(
      query: string, model: string, context: string, plan: Result<Json>, expertBudget: int, synthesisBudget: int,
      generate: ExpertRequest -> Result<ChunkStream>, initiate: SynthesisRequest -> Result<ChunkStream>,
      signal: AbortController, published: seq<AppState>)
      reads this`appState, this`processEndTime, this`experts, this`managerAnalysis, this`finalOutput,
        this`synthesisThoughts, signal`aborted
    {
      RunTrace(published) && appState == published[|published| - 1] &&
      (!signal.aborted <==> processEndTime.Some?) &&
      (!signal.aborted <==> appState == AppState.Completed || appState == Idle) &&
      |experts| >= 1 && experts[0].Config() == PrimaryExpert(query).Config() &&
      (forall j :: 0 <= j < |experts| ==> experts[j].id == ExpertId(j)) &&
      (!signal.aborted ==> PrimarySettled(query, model, context, expertBudget, generate)) &&
      (plan.Thrown? ==> managerAnalysis == None && (signal.aborted || appState == Idle)) &&
      (managerAnalysis.None? ==> |experts| == 1) &&
      (managerAnalysis.Some? <==> |published| >= 2 && published[1] == ExpertsWorking) &&
      (managerAnalysis.Some? ==>
        plan.Ok? && ValidPayload(plan.value) && managerAnalysis == Some(plan.value) &&
        PanelOf(query, PayloadExperts(plan.value)) &&
        (!signal.aborted ==> GeneratedSettled(PayloadExperts(plan.value), model, context, expertBudget, generate))) &&
      (plan.Ok? && !signal.aborted ==> managerAnalysis.Some?) &&
      (|published| < 3 ==> finalOutput == "" && synthesisThoughts == "") &&
      (managerAnalysis.Some? && !signal.aborted ==>
        var start := initiate(SynthesisRequest(model, query, context, experts, synthesisBudget));
        (appState == AppState.Completed <==> start.Ok? && start.value.failure.None?)) &&
      (appState == AppState.Completed ==>
        var start := initiate(SynthesisRequest(model, query, context, experts, synthesisBudget));
        start.Ok? &&
        finalOutput == Texts(ChunkDeltas(start.value.chunks)) &&
        synthesisThoughts == Thoughts(ChunkDeltas(start.value.chunks)))
    }

    /** Where a stopped run ends. A stop seen when the plan arrives ends the
        run there, with analyzing alone, the primary expert alone, no plan
        and no output; a stop first seen after the experts ends it before
        synthesizing, with the plan and no output; and the converse: a run
        that ends in either of these ways was stopped. A stopped run never
        ends idle or completed. */
    lemma StoppedRunOutcomes(
      query: string, model: string, context: string, plan: Result<Json>, expertBudget: int, synthesisBudget: int,
      generate: ExpertRequest -> Result<ChunkStream>, initiate: SynthesisRequest -> Result<ChunkStream>,
      signal: AbortController, published: seq<AppState>, atPlan: nat, atSynthesis: nat)
      requires RunOutcome(query, model, context, plan, expertBudget, synthesisBudget, generate, initiate, signal, published)
      requires StopChecks(signal, false, 0, plan, published, atPlan, atSynthesis)
      ensures plan.Ok? && signal.StopLanded(atPlan) ==>
        published == [Analyzing] && signal.aborted && signal.polls == atPlan + 1 &&
        managerAnalysis == None && |experts| == 1 && finalOutput == "" && synthesisThoughts == ""
      ensures plan.Ok? && !signal.StopLanded(atPlan) && signal.StopLanded(atSynthesis) ==>
        published == [Analyzing, ExpertsWorking] && signal.aborted && signal.polls == atSynthesis + 1 &&
        managerAnalysis.Some? && finalOutput == "" && synthesisThoughts == ""
      ensures published == [Analyzing] ==> signal.aborted && managerAnalysis == None && |experts| == 1
      ensures published == [Analyzing, ExpertsWorking] ==>
        signal.aborted && managerAnalysis.Some? && finalOutput == "" && synthesisThoughts == ""
      ensures signal.aborted <==> appState != Idle && appState != AppState.Completed
    {
    }

    /** A run that no stop reached, whose planning call was accepted and
        whose synthesis stream ended without error, completes after every
        stage with the whole synthesised answer as its output. */
    lemma UnstoppedRunCompletes(
      query: string, model: string, context: string, plan: Result<Json>, expertBudget: int, synthesisBudget: int,
      generate: ExpertRequest -> Result<ChunkStream>, initiate: SynthesisRequest -> Result<ChunkStream>,
      signal: AbortController, published: seq<AppState>)
      requires RunOutcome(query, model, context, plan, expertBudget, synthesisBudget, generate, initiate, signal, published)
      requires !signal.aborted && plan.Ok?
      requires var start := initiate(SynthesisRequest(model, query, context, experts, synthesisBudget));
        start.Ok? && start.value.failure.None?
      ensures appState == AppState.Completed
      ensures published == [Analyzing, ExpertsWorking, Synthesizing, AppState.Completed]
      ensures var start := initiate(SynthesisRequest(model, query, context, experts, synthesisBudget));
        finalOutput == AnswerText(StreamParts(start.value.chunks)) &&
        synthesisThoughts == ThoughtText(StreamParts(start.value.chunks))
    {
      CompletedRunVisitsAllStages(published);
      DeltasConcatenate(initiate(SynthesisRequest(model, query, context, experts, synthesisBudget)).value.chunks);
    }

    /** The `try` and `catch` of a run: the primary expert, the planning
        call, the supplementary experts and the synthesis. */
    method RunSteps(
      query: string, context: string, model: string,
      planningBudget: int, expertBudget: int, synthesisBudget: int,
      planning: ManagerRequest -> PlanningReply, clean: string -> string, parse: string -> Option<Json>,
      generate: ExpertRequest -> Result<ChunkStream>, initiate: SynthesisRequest -> Result<ChunkStream>,
      signal: AbortController)
      returns (ghost published: seq<AppState>, ghost atPlan: nat, ghost atSynthesis: nat)
      requires appState == Analyzing && stateTrace != [] && stateTrace[|stateTrace| - 1] == Analyzing
      requires managerAnalysis == None && experts == [] && finalOutput == "" && synthesisThoughts == ""
      requires processEndTime == None
      modifies this`managerAnalysis, this`experts, this`appState, this`stateTrace, this`finalOutput,
        this`synthesisThoughts, this`processEndTime, this`clock, signal
      ensures stateTrace == old(stateTrace[..|stateTrace| - 1]) + published
      ensures RunOutcome(query, model, context,
        ExecuteManagerAnalysis(model, query, context, planningBudget, planning, clean, parse),
        expertBudget, synthesisBudget, generate, initiate, signal, published)
      ensures signal.PolledFrom(old(signal.aborted), old(signal.polls))
      ensures StopChecks(signal, old(signal.aborted), old(signal.polls),
        ExecuteManagerAnalysis(model, query, context, planningBudget, planning, clean, parse),
        published, atPlan, atSynthesis)
    {
      var primaryResult := RunPrimaryExpert(query, model, context, expertBudget, generate, signal);
      ghost var a, p := signal.aborted, signal.polls;
      atPlan := p;
      var plan := ExecuteManagerAnalysis(model, query, context, planningBudget, planning, clean, parse);
      if plan.Thrown? {
        HandleFailure(signal);
        PolledFromCompose(signal, old(signal.aborted), old(signal.polls), a, p);
        published, atSynthesis := if signal.aborted then [Analyzing] else [Analyzing, Idle], 0;
        ThrownPlanOutcome(query, model, context, plan, expertBudget, synthesisBudget, generate, initiate, signal, published);
      } else {
        published, atSynthesis := RunPlannedExperts(
          query, plan.value, primaryResult, model, context, expertBudget, synthesisBudget, generate, initiate, signal);
        PolledFromCompose(signal, old(signal.aborted), old(signal.polls), a, p);
        StopChecksCompose(signal, old(signal.aborted), old(signal.polls), a, p, plan, published, atPlan, atSynthesis);
      }
    }

    /** The end of a run whose planning call threw: the primary expert
        alone, no plan and no output, and idle unless the signal is set. */
    lemma ThrownPlanOutcome(
      query: string, model: string, context: string, plan: Result<Json>, expertBudget: int, synthesisBudget: int,
      generate: ExpertRequest -> Result<ChunkStream>, initiate: SynthesisRequest -> Result<ChunkStream>,
      signal: AbortController, published: seq<AppState>)
      requires plan.Thrown?
      requires |experts| == 1 && experts[0].Config() == PrimaryExpert(query).Config()
      requires managerAnalysis == None && finalOutput == "" && synthesisThoughts == ""
      requires !signal.aborted ==> PrimarySettled(query, model, context, expertBudget, generate)
      requires published == if signal.aborted then [Analyzing] else [Analyzing, Idle]
      requires appState == published[|published| - 1]
      requires !signal.aborted <==> processEndTime.Some?
      ensures RunOutcome(query, model, context, plan, expertBudget, synthesisBudget, generate, initiate, signal, published)
    {
      assert published[1..] == [] || published[1..] == [Idle];
    }

    /** The end of a run stopped when its plan arrived: analyzing, the
        primary expert alone, no plan and no output. */
    lemma StoppedAfterPlanning(
      query: string, model: string, context: string, plan: Result<Json>, expertBudget: int, synthesisBudget: int,
      generate: ExpertRequest -> Result<ChunkStream>, initiate: SynthesisRequest -> Result<ChunkStream>,
      signal: AbortController)
      requires signal.aborted && appState == Analyzing && processEndTime == None
      requires |experts| == 1 && experts[0].Config() == PrimaryExpert(query).Config()
      requires managerAnalysis == None && finalOutput == "" && synthesisThoughts == ""
      ensures RunOutcome(query, model, context, plan, expertBudget, synthesisBudget, generate, initiate, signal, [Analyzing])
    {
    }

    /** Publish the primary expert alone and run its lifecycle in slot 0. */
    method RunPrimaryExpert(
      query: string, model: string, context: string, budget: int,
      generate: ExpertRequest -> Result<ChunkStream>, signal: AbortController)
      returns (r: ExpertResult)
      modifies this`experts, this`clock, signal
      ensures |experts| == 1 && experts[0].Config() == PrimaryExpert(query).Config()
      ensures signal.PolledFrom(old(signal.aborted), old(signal.polls))
      ensures !signal.aborted ==> r == experts[0] && PrimarySettled(query, model, context, budget, generate)
    {
      var primary := PrimaryExpert(query);
      experts := [primary];
      ghost var how, deltas;
      r, how, deltas := RunExpertLifecycle(primary, 0, model, context, budget, generate, signal);
    }

    /** The run after an accepted plan: check the signal, publish the plan
        and the panel, run the supplementary experts, then finish the run. */
    method RunPlannedExperts(
      query: string, plan: Json, primaryResult: ExpertResult, model: string, context: string,
      expertBudget: int, synthesisBudget: int,
      generate: ExpertRequest -> Result<ChunkStream>, initiate: SynthesisRequest -> Result<ChunkStream>,
      signal: AbortController)
      returns (ghost published: seq<AppState>, ghost atSynthesis: nat)
      requires ValidPayload(plan)
      requires appState == Analyzing && stateTrace != [] && stateTrace[|stateTrace| - 1] == Analyzing
      requires |experts| == 1 && experts[0].Config() == PrimaryExpert(query).Config() && managerAnalysis == None
      requires !signal.aborted ==>
        primaryResult == experts[0] && PrimarySettled(query, model, context, expertBudget, generate)
      requires finalOutput == "" && synthesisThoughts == "" && processEndTime == None
      modifies this`managerAnalysis, this`experts, this`appState, this`stateTrace, this`finalOutput,
        this`synthesisThoughts, this`processEndTime, this`clock, signal
      ensures stateTrace == old(stateTrace[..|stateTrace| - 1]) + published
      ensures RunOutcome(query, model, context, Ok(plan), expertBudget, synthesisBudget, generate, initiate, signal, published)
      ensures signal.PolledFrom(old(signal.aborted), old(signal.polls))
      ensures StopChecks(signal, old(signal.aborted), old(signal.polls), Ok(plan), published, old(signal.polls), atSynthesis)
    {
      ghost var before := stateTrace;
      assert before == before[..|before| - 1] + [Analyzing];
      var stop := signal.IsAborted();
      if stop {
        published, atSynthesis := [Analyzing], 0;
        StoppedAfterPlanning(query, model, context, Ok(plan), expertBudget, synthesisBudget, generate, initiate, signal);
      } else {
        ghost var a1, p1 := signal.aborted, signal.polls;
        published, atSynthesis := RunAcceptedPlan(
          query, plan, primaryResult, model, context, expertBudget, synthesisBudget, generate, initiate, signal);
        PolledFromCompose(signal, old(signal.aborted), old(signal.polls), a1, p1);
      }
    }

    /** An accepted plan that the signal did not stop: publish and run the
        panel, then finish the run. */
    method RunAcceptedPlan(
      query: string, plan: Json, primaryResult: ExpertResult, model: string, context: string,
      expertBudget: int, synthesisBudget: int,
      generate: ExpertRequest -> Result<ChunkStream>, initiate: SynthesisRequest -> Result<ChunkStream>,
      signal: AbortController)
      returns (ghost published: seq<AppState>, ghost atSynthesis: nat)
      requires ValidPayload(plan)
      requires |experts| == 1 && experts[0].Config() == PrimaryExpert(query).Config()
      requires !signal.aborted ==>
        primaryResult == experts[0] && PrimarySettled(query, model, context, expertBudget, generate)
      requires finalOutput == "" && synthesisThoughts == "" && processEndTime == None
      modifies this`managerAnalysis, this`experts, this`appState, this`stateTrace, this`finalOutput,
        this`synthesisThoughts, this`processEndTime, this`clock, signal
      ensures |published| >= 2 && published[..2] == [Analyzing, ExpertsWorking]
      ensures stateTrace == old(stateTrace) + published[1..]
      ensures RunOutcome(query, model, context, Ok(plan), expertBudget, synthesisBudget, generate, initiate, signal, published)
      ensures signal.PolledFrom(old(signal.aborted), old(signal.polls))
      ensures old(signal.polls) <= atSynthesis < signal.polls
      ensures published == [Analyzing, ExpertsWorking] <==> old(signal.aborted) || signal.StopLanded(atSynthesis)
      ensures published == [Analyzing, ExpertsWorking] ==> signal.polls == atSynthesis + 1
    {
      var results := RunPanel(query, plan, primaryResult, model, context, expertBudget, generate, signal);
      ghost var a, p := signal.aborted, signal.polls;
      atSynthesis := p;
      published := FinishRun(
        query, plan, [primaryResult] + results, model, context, expertBudget, synthesisBudget, generate, initiate, signal);
      PolledFromCompose(signal, old(signal.aborted), old(signal.polls), a, p);
      CheckAfterPolls(signal, old(signal.aborted), old(signal.polls), a, p);
      assert published[1..] == [ExpertsWorking] + published[2..];
    }

    /** Publish the plan and the panel, then run the supplementary experts.
        While the signal stays clear, every slot holds what its lifecycle
        left and the results are the panel. */
    method RunPanel(
      query: string, plan: Json, primaryResult: ExpertResult, model: string, context: string, budget: int,
      generate: ExpertRequest -> Result<ChunkStream>, signal: AbortController)
      returns (results: seq<ExpertResult>)
      requires ValidPayload(plan)
      requires |experts| == 1 && experts[0].Config() == PrimaryExpert(query).Config()
      requires !signal.aborted ==> primaryResult == experts[0] && PrimarySettled(query, model, context, budget, generate)
      modifies this`managerAnalysis, this`experts, this`appState, this`stateTrace, this`clock, signal
      ensures managerAnalysis == Some(plan) && PanelOf(query, PayloadExperts(plan))
      ensures forall j :: 0 <= j < |experts| ==> experts[j].id == ExpertId(j)
      ensures appState == ExpertsWorking && stateTrace == old(stateTrace) + [ExpertsWorking]
      ensures signal.PolledFrom(old(signal.aborted), old(signal.polls))
      ensures !signal.aborted ==>
        [primaryResult] + results == experts && PrimarySettled(query, model, context, budget, generate) &&
        GeneratedSettled(PayloadExperts(plan), model, context, budget, generate)
    {
      var generated := PublishPlan(plan);
      results := RunGeneratedExperts(generated, model, context, budget, generate, signal);
      PanelIdsFollowPositions(query, PayloadExperts(plan));
      if !signal.aborted {
        assert [primaryResult] + results == experts;
      }
    }

    /** The end of a run whose panel has run: check the signal again, then
        synthesise from the panel's results. `published` is what the whole
        run publishes; this step adds what follows experts_working. */
    method FinishRun(
      query: string, plan: Json, results: seq<ExpertResult>, model: string, context: string,
      expertBudget: int, synthesisBudget: int,
      generate: ExpertRequest -> Result<ChunkStream>, initiate: SynthesisRequest -> Result<ChunkStream>,
      signal: AbortController)
      returns (ghost published: seq<AppState>)
      requires ValidPayload(plan) && managerAnalysis == Some(plan) && PanelOf(query, PayloadExperts(plan))
      requires forall j :: 0 <= j < |experts| ==> experts[j].id == ExpertId(j)
      requires appState == ExpertsWorking && stateTrace != [] && stateTrace[|stateTrace| - 1] == ExpertsWorking
      requires !signal.aborted ==>
        results == experts && PrimarySettled(query, model, context, expertBudget, generate) &&
        GeneratedSettled(PayloadExperts(plan), model, context, expertBudget, generate)
      requires finalOutput == "" && synthesisThoughts == "" && processEndTime == None
      modifies this`finalOutput, this`synthesisThoughts, this`appState, this`stateTrace, this`processEndTime,
        this`clock, signal
      ensures |published| >= 2 && published[..2] == [Analyzing, ExpertsWorking]
      ensures stateTrace == old(stateTrace) + published[2..]
      ensures RunOutcome(query, model, context, Ok(plan), expertBudget, synthesisBudget, generate, initiate, signal, published)
      ensures signal.PolledFrom(old(signal.aborted), old(signal.polls)) && old(signal.polls) < signal.polls
      ensures published == [Analyzing, ExpertsWorking] <==> old(signal.aborted) || signal.StopLanded(old(signal.polls))
      ensures published == [Analyzing, ExpertsWorking] ==> signal.polls == old(signal.polls) + 1
    {
      RunTraces();
      var stop := signal.IsAborted();
      if stop {
        published := [Analyzing, ExpertsWorking];
        return;
      }
      ghost var a, p := signal.aborted, signal.polls;
      ghost var deltas := Synthesize(model, query, context, results, synthesisBudget, initiate, signal);
      PolledFromCompose(signal, old(signal.aborted), old(signal.polls), a, p);
      published := if signal.aborted then [Analyzing, ExpertsWorking, Synthesizing]
        else [Analyzing, ExpertsWorking, Synthesizing, appState];
    }

    /** Lines before the first step of a run: abort the previous controller,
        install a fresh one, clear the published results and record the
        start time. */
    method BeginRun(stopAt: Option<nat>) returns (signal: AbortController)
      modifies this`controller, this`appState, this`stateTrace, this`managerAnalysis, this`experts,
        this`finalOutput, this`synthesisThoughts, this`processStartTime, this`processEndTime, this`clock,
        controller
      ensures fresh(signal) && signal.stopAt == stopAt && !signal.aborted && signal.polls == 0
      ensures controller == signal
      ensures old(controller) != null ==> old(controller).aborted
      ensures appState == Analyzing && stateTrace == old(stateTrace) + [Analyzing]
      ensures managerAnalysis == None && experts == [] && finalOutput == "" && synthesisThoughts == ""
      ensures processStartTime == Some(old(clock)) && processEndTime == None && clock == old(clock) + 1
    {
      if controller != null {
        controller.Abort();
      }
      signal := new AbortController(stopAt);
      controller := signal;
      SetAppState(Analyzing);
      managerAnalysis := None;
      experts := [];
      finalOutput := "";
      synthesisThoughts := "";
      var t := Now();
      processStartTime := Some(t);
      processEndTime := None;
    }

    /** The `catch` of a run: unless the signal is aborted, publish idle and
        the end time. */
    method HandleFailure(signal: AbortController)
      modifies this`appState, this`stateTrace, this`processEndTime, this`clock, signal
      ensures signal.PolledFrom(old(signal.aborted), old(signal.polls))
      ensures !signal.aborted ==>
        appState == Idle && stateTrace == old(stateTrace) + [Idle] &&
        processEndTime == Some(old(clock)) && clock == old(clock) + 1
      ensures signal.aborted ==>
        appState == old(appState) && stateTrace == old(stateTrace) &&
        processEndTime == old(processEndTime) && clock == old(clock)
    {
      var aborted := signal.IsAborted();
      if !aborted {
        SetAppState(Idle);
        var t := Now();
        processEndTime := Some(t);
      }
    }

    /** The `finally` of a run, as it should be: forget the controller only
        if it is still this run's own. */
    method ReleaseController(signal: AbortController)
      modifies this`controller
      ensures controller == if old(controller) == signal then null else old(controller)
    {
      if controller == signal {
        controller := null;
      }
    }

    /** The `finally` of a run as written: forget whatever controller is
        current, even one a newer run installed. */
    method ReleaseControllerAsWritten()
      modifies this`controller
      ensures controller == null
    {
      controller := null;
    }

    /** Two runs and a stop, with the `finally` as written: run `a` starts,
        run `b` starts and aborts it, run `a` then reaches its `finally`
        (its pending step resolves after `b` began), and the user presses
        stop. The stop finds no controller, so run `b` is not aborted and
        goes on publishing its states after the published idle. */
    method OverlappingRunsAsWritten() returns (a: AbortController, b: AbortController)
      modifies this, controller
      ensures a.aborted && !b.aborted
      ensures controller == null && appState == Idle
    {
      a := BeginRun(None);
      b := BeginRun(None);
      ReleaseControllerAsWritten();
      StopDeepThink();
    }

    /** The same interleaving with the `finally` that releases only its own
        controller: the stop reaches run `b`. */
    method OverlappingRuns() returns (a: AbortController, b: AbortController)
      modifies this, controller
      ensures a.aborted && b.aborted
      ensures controller == null && appState == Idle
    {
      a := BeginRun(None);
      b := BeginRun(None);
      ReleaseController(a);
      StopDeepThink();
    }

    /** Publish an accepted plan: the primary expert as it is now, then one
        pending expert per element of the plan; then publish
        experts_working. */
    method PublishPlan(plan: Json) returns (generated: seq<ExpertResult>)
      requires ValidPayload(plan) && |experts| >= 1
      modifies this`managerAnalysis, this`experts, this`appState, this`stateTrace
      ensures managerAnalysis == Some(plan) && generated == GeneratedExperts(PayloadExperts(plan))
      ensures experts == [old(experts[0])] + generated
      ensures appState == ExpertsWorking && stateTrace == old(stateTrace) + [ExpertsWorking]
    {
      managerAnalysis := Some(plan);
      generated := GeneratedExperts(PayloadExperts(plan));
      var currentPrimary := experts[0];
      experts := [currentPrimary] + generated;
      SetAppState(ExpertsWorking);
    }

    /** The lifecycles of the supplementary experts, expert `i` in slot
        `i + 1`. When the signal is still clear afterwards, every one of them
        has settled and the results are the published slots. */
    method RunGeneratedExperts(
      generated: seq<ExpertResult>, model: string, context: string, budget: int,
      generate: ExpertRequest -> Result<ChunkStream>, signal: AbortController)
      returns (results: seq<ExpertResult>)
      requires |experts| == 1 + |generated| && experts[1..] == generated
      modifies this`experts, this`clock, signal
      ensures |experts| == 1 + |generated| && experts[0] == old(experts[0]) && |results| == |generated|
      ensures forall j :: 0 <= j < |generated| ==> experts[j + 1].Config() == generated[j].Config()
      ensures signal.PolledFrom(old(signal.aborted), old(signal.polls))
      ensures !signal.aborted ==>
        results == experts[1..] &&
        forall j :: 0 <= j < |generated| ==>
          SettledFrom(experts[j + 1], generated[j], generate(ExpertRequestFor(model, generated[j], context, budget)))
    {
      results := [];
      assert forall j :: 0 <= j < |generated| ==> experts[j + 1] == experts[1..][j];
      for i := 0 to |generated|
        invariant |experts| == 1 + |generated| && experts[0] == old(experts[0]) && |results| == i
        invariant forall j :: 0 <= j < |generated| ==> experts[j + 1].Config() == generated[j].Config()
        invariant forall j :: i <= j < |generated| ==> experts[j + 1] == generated[j]
        invariant signal.PolledFrom(old(signal.aborted), old(signal.polls))
        invariant !signal.aborted ==>
          results == experts[1..i + 1] &&
          forall j :: 0 <= j < i ==>
            SettledFrom(experts[j + 1], generated[j], generate(ExpertRequestFor(model, generated[j], context, budget)))
      {
        ghost var a, p, before := signal.aborted, signal.polls, experts;
        var r, how, ds := RunExpertLifecycle(generated[i], i + 1, model, context, budget, generate, signal);
        results := results + [r];
        PolledFromCompose(signal, old(signal.aborted), old(signal.polls), a, p);
        if !signal.aborted {
          assert experts[1..i + 2] == before[1..i + 1] + [r];
          forall j | 0 <= j < i + 1
            ensures SettledFrom(experts[j + 1], generated[j], generate(ExpertRequestFor(model, generated[j], context, budget)))
          {
            if j < i {
              assert experts[j + 1] == before[j + 1];
            }
          }
        }
      }
    }

    /** The synthesis step: publish synthesizing, stream the final answer
        into the output, then, unless the signal is aborted, publish
        completed when the stream ended and idle when it threw. */
    method Synthesize(
      model: string, query: string, context: string, results: seq<ExpertResult>, budget: int,
      initiate: SynthesisRequest -> Result<ChunkStream>, signal: AbortController)
      returns (ghost deltas: seq<Delta>)
      requires finalOutput == "" && synthesisThoughts == ""
      modifies this`finalOutput, this`synthesisThoughts, this`appState, this`stateTrace,
        this`processEndTime, this`clock, signal
      ensures signal.PolledFrom(old(signal.aborted), old(signal.polls))
      ensures finalOutput == Texts(deltas) && synthesisThoughts == Thoughts(deltas)
      ensures var start := initiate(SynthesisRequest(model, query, context, results, budget));
        (start.Thrown? ==> deltas == []) &&
        (start.Ok? ==> deltas <= ChunkDeltas(start.value.chunks)) &&
        (!signal.aborted ==>
          processEndTime.Some? && stateTrace == old(stateTrace) + [Synthesizing, appState] &&
          (appState == AppState.Completed <==> start.Ok? && start.value.failure.None?) &&
          (appState == AppState.Completed || appState == Idle)) &&
        (appState == AppState.Completed ==>
          start.Ok? && deltas == ChunkDeltas(start.value.chunks))
      ensures signal.aborted ==>
        appState == Synthesizing && stateTrace == old(stateTrace) + [Synthesizing] &&
        processEndTime == old(processEndTime)
    {
      SetAppState(Synthesizing);
      var ds, exit := StreamSynthesisResponse(model, query, context, results, budget, initiate, signal);
      StreamOutcome(initiate(SynthesisRequest(model, query, context, results, budget)), ds, exit, signal.aborted);
      ReplaySynthesisCallbacks(ds);
      deltas := ds;
      ghost var a, p := signal.aborted, signal.polls;
      PolledFromCompose(signal, old(signal.aborted), old(signal.polls), a, p);
      if exit.Done? {
        var aborted := signal.IsAborted();
        if !aborted {
          SetAppState(AppState.Completed);
          var t := Now();
          processEndTime := Some(t);
        }
      } else {
        HandleFailure(signal);
      }
    }

    /** The `onChunk` callbacks of the synthesis, one per delta, in order:
        each publishes the text and thoughts received so far. */
    method ReplaySynthesisCallbacks(ds: seq<Delta>)
      modifies this`finalOutput, this`synthesisThoughts
      ensures ds == [] ==> finalOutput == old(finalOutput) && synthesisThoughts == old(synthesisThoughts)
      ensures ds != [] ==> finalOutput == Texts(ds) && synthesisThoughts == Thoughts(ds)
    {
      var fullFinalText := "";
      var fullFinalThoughts := "";
      for k := 0 to |ds|
        invariant fullFinalText == Texts(ds[..k]) && fullFinalThoughts == Thoughts(ds[..k])
        invariant k == 0 ==> finalOutput == old(finalOutput) && synthesisThoughts == old(synthesisThoughts)
        invariant k > 0 ==> finalOutput == fullFinalText && synthesisThoughts == fullFinalThoughts
      {
        assert ds[..k + 1] == ds[..k] + [ds[k]];
        TextsAppend(ds[..k], [ds[k]]);
        assert [ds[k]][1..] == [];
        fullFinalText := fullFinalText + ds[k].text;
        fullFinalThoughts := fullFinalThoughts + ds[k].thought;
        finalOutput := fullFinalText;
        synthesisThoughts := fullFinalThoughts;
      }
      assert ds[..|ds|] == ds;
    }

    /** `runExpertLifecycle`: mark the expert thinking, stream its answer
        into its slot, then mark it completed, or on a throw mark it failed
        with the failure text. Only slot `index` changes. Every abort check
        that sees the signal set stops the lifecycle where it is: before
        anything at all (`how == None`), or leaving the slot thinking. */
    method RunExpertLifecycle(
      expert: ExpertResult, index: nat, model: string, context: string, budget: int,
      generate: ExpertRequest -> Result<ChunkStream>, signal: AbortController)
      returns (r: ExpertResult, ghost how: Option<Settlement>, ghost deltas: seq<Delta>)
      requires index < |experts|
      modifies this`experts, this`clock, signal
      ensures |experts| == old(|experts|)
      ensures forall j :: 0 <= j < |experts| && j != index ==> experts[j] == old(experts[j])
      ensures signal.PolledFrom(old(signal.aborted), old(signal.polls))
      ensures how.None? <==> old(signal.aborted || signal.StopLanded(signal.polls))
      ensures how.None? ==> r == expert && experts == old(experts) && clock == old(clock)
      ensures how.Some? ==>
        r == experts[index] &&
        experts[index] == Settled(expert, old(clock), deltas, how.value, old(clock) + 1) &&
        (how.value == Abandoned <==> signal.aborted) &&
        clock == old(clock) + (if how.value == Abandoned then 1 else 2)
      ensures !signal.aborted ==> r == experts[index] && r.status.Terminal() && r.Config() == expert.Config()
      ensures !signal.aborted ==>
        experts[index] == SettledSlot(expert, generate(ExpertRequestFor(model, expert, context, budget)), old(clock))
      ensures var start := generate(ExpertRequestFor(model, expert, context, budget));
        (how == Some(Finished) ==>
          start.Ok? && start.value.failure.None? && deltas == ChunkDeltas(start.value.chunks)) &&
        (how == Some(Errored) ==>
          (start.Thrown? && deltas == []) ||
          (start.Ok? && start.value.failure.Some? && deltas == ChunkDeltas(start.value.chunks))) &&
        (how == Some(Abandoned) ==>
          deltas == [] || (start.Ok? && deltas <= ChunkDeltas(start.value.chunks)))
    {
      deltas := [];
      ghost var a0, p0 := signal.aborted, signal.polls;
      var skip := signal.IsAborted();
      if skip {
        r, how := expert, None;
        return;
      }
      ghost var p1 := signal.polls;
      var startTime := Now();
      experts := experts[index := Started(expert, startTime)];
      var ds, exit := StreamExpertResponse(model, expert, context, budget, generate, signal);
      StreamOutcome(generate(ExpertRequestFor(model, expert, context, budget)), ds, exit, signal.aborted);
      ReplayCallbacks(index, ds);
      deltas := ds;
      ghost var a2, p2 := signal.aborted, signal.polls;
      var settled := SettleExpert(index, exit, signal);
      how := Some(settled);
      r := experts[index];
      PolledFromCompose(signal, false, p1, a2, p2);
      PolledFromCompose(signal, a0, p0, false, p1);
    }

    /** The `onChunk` callbacks of a lifecycle, one per delta, in order: each
        stores the text and thoughts received so far in the slot. */
    method ReplayCallbacks(index: nat, ds: seq<Delta>)
      requires index < |experts|
      modifies this`experts
      ensures experts == old(experts)[index := Streamed(old(experts[index]), ds)]
    {
      ghost var base := experts[index];
      var fullContent := "";
      var fullThoughts := "";
      for k := 0 to |ds|
        invariant fullContent == Texts(ds[..k]) && fullThoughts == Thoughts(ds[..k])
        invariant experts == old(experts)[index := Streamed(base, ds[..k])]
        modifies this`experts
      {
        assert ds[..k + 1] == ds[..k] + [ds[k]];
        TextsAppend(ds[..k], [ds[k]]);
        assert [ds[k]][1..] == [];
        fullContent := fullContent + ds[k].text;
        fullThoughts := fullThoughts + ds[k].thought;
        experts := experts[index := experts[index].(thoughts := Some(JStr(fullThoughts)), content := Some(JStr(fullContent)))];
      }
      assert ds[..|ds|] == ds;
    }

    /** The end of a lifecycle after its stream: check the signal once; if it
        is not aborted, mark the slot completed when the stream ended and
        failed when it threw. */
    method SettleExpert(index: nat, exit: LoopExit, signal: AbortController) returns (ghost how: Settlement)
      requires index < |experts|
      modifies this`experts, this`clock, signal
      ensures signal.PolledFrom(old(signal.aborted), old(signal.polls))
      ensures how == Abandoned <==> signal.aborted
      ensures how != Abandoned ==> (how == Finished <==> exit.Done?)
      ensures experts == old(experts)[index := Settle(old(experts[index]), how, old(clock))]
      ensures clock == old(clock) + (if how == Abandoned then 0 else 1)
    {
      var stop := signal.IsAborted();
      if stop {
        how := Abandoned;
        return;
      }
      var endTime := Now();
      if exit.Done? {
        experts := experts[index := experts[index].(status := ExpertStatus.Completed, endTime := Some(endTime))];
        how := Finished;
      } else {
        experts := experts[index := experts[index].(
          status := ExpertStatus.Error, content := Some(JStr(FailureText)), endTime := Some(endTime))];
        how := Errored;
      }
    }
  }

  /** What a stream call delivered, seen from its caller: nothing when the
      call threw; a prefix of the stream's deltas otherwise, all of them when
      the signal is still clear; and a clear signal with a normal exit means
      the stream ended without error. */
  lemma StreamOutcome(start: Result<ChunkStream>, deltas: seq<Delta>, exit: LoopExit, aborted: bool)
    requires start.Thrown? ==> deltas == [] && exit == Failed(start.error)
    requires start.Ok? ==>
      exists cut: nat :: cut <= |start.value.chunks| && deltas == ChunkDeltas(start.value.chunks[..cut]) &&
        (cut < |start.value.chunks| ==> exit == Done && aborted) &&
        (cut == |start.value.chunks| ==>
          exit == (if start.value.failure.Some? then Failed(start.value.failure.value) else Done))
    ensures start.Ok? ==> deltas <= ChunkDeltas(start.value.chunks)
    ensures start.Ok? && !aborted ==> deltas == ChunkDeltas(start.value.chunks)
    ensures exit.Done? ==> start.Ok?
    ensures start.Ok? && start.value.failure.None? ==> exit.Done?
    ensures exit.Done? && !aborted ==> start.value.failure.None?
    ensures exit.Failed? && !aborted ==> start.Thrown? || start.value.failure.Some?
  {
    if start.Ok? {
      var cut: nat :| cut <= |start.value.chunks| && deltas == ChunkDeltas(start.value.chunks[..cut]) &&
        (cut < |start.value.chunks| ==> exit == Done && aborted) &&
        (cut == |start.value.chunks| ==>
          exit == (if start.value.failure.Some? then Failed(start.value.failure.value) else Done));
      DeltasOfPrefix(start.value.chunks, cut);
      assert start.value.chunks[..|start.value.chunks|] == start.value.chunks;
    }
  }
}

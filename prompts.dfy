/** The prompt texts of prisma/services/deepThink/prompts.ts. */
module Prompts {
  import opened Types
  import opened Js

  /** `getExpertSystemInstruction(role, description, context)`: the role and
      description are printed as template-literal values. */
  function ExpertSystemInstruction(role: JsValue, description: JsValue, context: string): string
  {
    var opening := "You are a " + TemplateText(role);
    var middle := ". " + TemplateText(description);
    var closing := ". Context: " + context;
    opening + middle + closing
  }

  /** The instruction opens by naming the role and closes with the whole
      context, whatever the role, description and context are. */
  lemma ExpertSystemInstructionLayout(role: JsValue, description: JsValue, context: string)
    ensures var r := ExpertSystemInstruction(role, description, context);
      |r| == 23 + |TemplateText(role)| + |TemplateText(description)| + |context| &&
      r[..10 + |TemplateText(role)|] == "You are a " + TemplateText(role) &&
      r[|r| - |context| - 11..] == ". Context: " + context
  {
    ConcatEnds("You are a " + TemplateText(role), ". " + TemplateText(description), ". Context: " + context);
  }

  /** The text before the history in the synthesis prompt. */
  const SynthesisIntro := "\nYou are the \"Synthesis Engine\". \n\nContext:\n"

  /** The text after the last expert block. */
  const SynthesisTask :=
    "\n\nYour Task:\n" +
    "1. Reflect on the experts' inputs. Identify conflicts and consensus.\n" +
    "2. Synthesize a final, comprehensive, and high-quality answer to the user's original query.\n" +
    "3. Do not simply summarize; integrate the knowledge into a cohesive response.\n"

  /** What an expert contributes when its content is missing or "". */
  const NoOutput := "(No output)"

  /** One expert's block: a header naming the role and the temperature, then
      the content, or "(No output)" when the content is falsy. */
  function ExpertBlock(e: ExpertResult): string
  {
    BlockHeader(e) + OrElse(e.content, NoOutput) + "\n"
  }

  /** "--- Expert: <role> (Temp: <temperature>) ---" and a newline. */
  function BlockHeader(e: ExpertResult): string
  {
    "--- Expert: " + TemplateText(e.role) + (" (Temp: " + TemplateText(e.temperature) + ") ---\n")
  }

  /** `expertResults.map(...)`: one block per expert, in the same order. */
  function ExpertBlocks(es: seq<ExpertResult>): (r: seq<string>)
    ensures |r| == |es|
    ensures forall i :: 0 <= i < |es| ==> r[i] == ExpertBlock(es[i])
  {
    seq(|es|, i requires 0 <= i < |es| => ExpertBlock(es[i]))
  }

  /** The line that quotes the user's query. */
  function QuotedQuery(query: string): string {
    "Original User Query: \"" + query + "\""
  }

  /** The panel heading that precedes the expert blocks. */
  const PanelHeading := "Here are the analyses from your expert panel:\n"

  /** The text between the history and the expert blocks. */
  function QuerySection(query: string): string {
    "\n\n" + QuotedQuery(query) + ("\n\n" + PanelHeading)
  }

  /** Everything of the synthesis prompt before the first expert block. */
  function PanelPrefix(recentHistory: string, query: string): string {
    SynthesisIntro + recentHistory + QuerySection(query)
  }

  /** `expertResults.map(...).join('\n')`: the expert blocks, one newline
      between consecutive ones. */
  function ExpertPanel(es: seq<ExpertResult>): string {
    Join(ExpertBlocks(es), "\n")
  }

  /** `getSynthesisPrompt(recentHistory, query, expertResults)`. */
  function SynthesisPrompt(recentHistory: string, query: string, es: seq<ExpertResult>): string
  {
    PanelPrefix(recentHistory, query) + ExpertPanel(es) + SynthesisTask
  }

  /** The synthesis prompt opens with the intro immediately followed by the
      history, quotes the query two newlines after the history, then holds
      the expert panel, and closes with the task instructions. */
  lemma SynthesisPromptFrame(recentHistory: string, query: string, es: seq<ExpertResult>)
    ensures var r := SynthesisPrompt(recentHistory, query, es);
      var h := |SynthesisIntro| + |recentHistory|;
      var q := |QuotedQuery(query)|;
      var at := |PanelPrefix(recentHistory, query)|;
      h + 2 + q <= at && at + |ExpertPanel(es)| + |SynthesisTask| == |r| &&
      r[..|SynthesisIntro|] == SynthesisIntro &&
      r[|SynthesisIntro|..h] == recentHistory &&
      r[h + 2..h + 2 + q] == QuotedQuery(query) &&
      r[at..at + |ExpertPanel(es)|] == ExpertPanel(es) &&
      r[|r| - |SynthesisTask|..] == SynthesisTask
  {
    var sec := QuerySection(query);
    PromptLayout(SynthesisIntro, recentHistory, sec, ExpertPanel(es), SynthesisTask, |QuotedQuery(query)|);
    assert sec[2..2 + |QuotedQuery(query)|] == QuotedQuery(query);
  }

  /** The layout of `intro + history + section + panel + task`, for any parts. */
  lemma PromptLayout(intro: string, history: string, section: string, panel: string, task: string, q: nat)
    requires 2 + q <= |section|
    ensures var r := intro + history + section + panel + task;
      var at := |intro| + |history| + |section|;
      at + |panel| + |task| == |r| &&
      r[..|intro|] == intro &&
      r[|intro|..|intro| + |history|] == history &&
      r[|intro| + |history| + 2..|intro| + |history| + 2 + q] == section[2..2 + q] &&
      r[at..at + |panel|] == panel &&
      r[|r| - |task|..] == task
  {
    var r := intro + history + section + panel + task;
    assert r[|intro|..|intro| + |history|] == history;
    assert r[|intro| + |history| + 2..|intro| + |history| + 2 + q] == section[2..2 + q];
    assert r[|intro| + |history| + |section|..|intro| + |history| + |section| + |panel|] == panel;
  }

  /** The block of expert `i` stands in the panel at `Offset(.., i)`. */
  lemma BlockInPanel(es: seq<ExpertResult>, i: nat)
    requires i < |es|
    ensures var o := Offset(ExpertBlocks(es), "\n", i);
      o + |ExpertBlock(es[i])| <= |ExpertPanel(es)| &&
      ExpertPanel(es)[o..o + |ExpertBlock(es[i])|] == ExpertBlock(es[i])
  {
    JoinAt(ExpertBlocks(es), "\n", i);
  }

  /** Exactly one newline separates the block of expert `i` from that of
      expert `i + 1`, and the last block ends the panel: the panel is the
      blocks in input order and nothing else. */
  lemma NextBlockFollows(es: seq<ExpertResult>, i: nat)
    requires i < |es|
    ensures var end := Offset(ExpertBlocks(es), "\n", i) + |ExpertBlock(es[i])|;
      (i + 1 < |es| ==>
        Offset(ExpertBlocks(es), "\n", i + 1) == end + 1 &&
        end < |ExpertPanel(es)| && ExpertPanel(es)[end] == '\n') &&
      (i + 1 == |es| ==> end == |ExpertPanel(es)|)
  {
    JoinAt(ExpertBlocks(es), "\n", i);
    if i + 1 < |es| {
      JoinSeparatorAt(ExpertBlocks(es), "\n", i);
      SeparatorAfter(ExpertBlocks(es), "\n", i);
    }
  }

  /** A block is its header, then its body, then a newline; the body is the
      expert's content when that is truthy, and "(No output)" when the
      content is missing or the empty string. */
  lemma BlockShape(e: ExpertResult)
    ensures var b := ExpertBlock(e); var h := BlockHeader(e);
      |h| < |b| && b[..|h|] == h && b[|b| - 1] == '\n' &&
      (Truthy(e.content) ==> b[|h|..|b| - 1] == TemplateText(e.content)) &&
      (e.content.Some? && e.content.value.JStr? && e.content.value.s != "" ==>
        b[|h|..|b| - 1] == e.content.value.s) &&
      (e.content == None || e.content == Some(JStr("")) ==> b[|h|..|b| - 1] == NoOutput)
  {
    var h := BlockHeader(e);
    var body := OrElse(e.content, NoOutput);
    ConcatEnds(h, body, "\n");
    SliceOfMiddle(h, body, "\n", 0, |body|);
    assert (h + body + "\n")[|h| + |body|..] == "\n";
  }

  /** The role label stands right after "--- Expert: " in the block, so
      with `BlockInPanel` every expert's role appears in the panel. */
  lemma RoleInBlock(e: ExpertResult)
    ensures 12 + |TemplateText(e.role)| <= |ExpertBlock(e)|
    ensures ExpertBlock(e)[12..12 + |TemplateText(e.role)|] == TemplateText(e.role)
  {
    var role := TemplateText(e.role);
    var rest := (" (Temp: " + TemplateText(e.temperature) + ") ---\n") + OrElse(e.content, NoOutput) + "\n";
    assert ExpertBlock(e) == "--- Expert: " + role + rest;
    SliceOfMiddle("--- Expert: ", role, rest, 0, |role|);
  }

}

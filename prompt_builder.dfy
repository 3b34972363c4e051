/** Assembling the prompt sent to the language model (service.py:166-180,
    with the template of config.py:21-28). */
module PromptBuilder {
  import opened Records
  import opened Strings
  import opened Config

  const NoContext: string := "暂无相关上下文信息"
  const LineSeparator: string := "\n\n"

  /** `f"[{i}] {text}"` for the passage numbered `i`. */
  function ContextLine(i: nat, doc: Normalized): string {
    "[" + NatToDecimal(i) + "] " + doc.text
  }

  /** The numbered lines, counting from 1 in input order. */
  function ContextLines(docs: seq<Normalized>): (lines: seq<string>)
    ensures |lines| == |docs|
  {
    seq(|docs|, i requires 0 <= i < |docs| => ContextLine(i + 1, docs[i]))
  }

  /** The context block: the lines joined by blank lines, or a fixed
      placeholder when there are none. */
  function ContextBlock(docs: seq<Normalized>): string {
    if docs == [] then NoContext else Join(ContextLines(docs), LineSeparator)
  }

  /** `PROMPT_TEMPLATE.format(question=..., context=...)`: both values are
      inserted verbatim. */
  function Template(question: string, context: string): string {
    PromptPrefix + question + PromptMiddle + context + PromptSuffix
  }

  function Prompt(question: string, docs: seq<Normalized>): string {
    Template(question, ContextBlock(docs))
  }

  /** `build_prompt`: collects the numbered lines in a loop, then joins them. */
  method BuildPrompt(question: string, contextDocs: seq<Normalized>) returns (prompt: string)
    ensures prompt == Prompt(question, contextDocs)
    ensures contextDocs == [] ==> prompt == Template(question, NoContext)
  {
    var contextParts: seq<string> := [];
    for i := 0 to |contextDocs|
      invariant contextParts == ContextLines(contextDocs[..i])
    {
      assert contextDocs[..i + 1][..i] == contextDocs[..i];
      contextParts := contextParts + [ContextLine(i + 1, contextDocs[i])];
    }
    assert contextDocs[..|contextDocs|] == contextDocs;
    var context := if contextParts != [] then Join(contextParts, LineSeparator) else NoContext;
    prompt := Template(question, context);
  }

  /** Adding one passage extends the block by a blank line and the next
      numbered line; the first passage replaces the placeholder. */
  lemma ContextBlockSnoc(docs: seq<Normalized>, doc: Normalized)
    ensures ContextBlock(docs + [doc]) ==
      if docs == [] then ContextLine(1, doc)
      else ContextBlock(docs) + LineSeparator + ContextLine(|docs| + 1, doc)
  {
    var lines := ContextLines(docs + [doc]);
    assert lines == ContextLines(docs) + [ContextLine(|docs| + 1, doc)];
    if docs != [] {
      JoinSnoc(ContextLines(docs), LineSeparator, ContextLine(|docs| + 1, doc));
    }
  }

  /** The `i`-th passage (from 0) appears in the block as line `[i+1]`. */
  lemma ContextBlockContainsLine(docs: seq<Normalized>, i: int)
    requires 0 <= i < |docs|
    ensures IsSubstring(ContextLine(i + 1, docs[i]), ContextBlock(docs))
  {
    JoinContains(ContextLines(docs), LineSeparator, i);
  }

  /** Every passage's text reaches the prompt, whatever its score. */
  lemma PromptContainsText(question: string, docs: seq<Normalized>, i: int)
    requires 0 <= i < |docs|
    ensures IsSubstring(docs[i].text, Prompt(question, docs))
  {
    var line := ContextLine(i + 1, docs[i]);
    OccursInMiddle("[" + NatToDecimal(i + 1) + "] ", docs[i].text, "");
    assert "[" + NatToDecimal(i + 1) + "] " + docs[i].text + "" == line;
    ContextBlockContainsLine(docs, i);
    SubstringTransitive(docs[i].text, line, ContextBlock(docs));
    SubstringOfMiddle(docs[i].text, PromptPrefix + question + PromptMiddle, ContextBlock(docs), PromptSuffix);
  }

  /** The question is also inserted verbatim. */
  lemma PromptContainsQuestion(question: string, docs: seq<Normalized>)
    ensures OccursAt(question, Prompt(question, docs), |PromptPrefix|)
  {
  }

  /** With the block fixed, or the question's length known, the prompt
      determines both slots. */
  lemma TemplateInjective(q1: string, c1: string, q2: string, c2: string)
    requires Template(q1, c1) == Template(q2, c2)
    requires |q1| == |q2| || c1 == c2
    ensures q1 == q2 && c1 == c2
  {
    var p := Template(q1, c1);
    var a := |PromptPrefix|;
    assert |q1| == |q2| by {
      assert |p| == a + |q1| + |PromptMiddle| + |c1| + |PromptSuffix|;
      assert |p| == a + |q2| + |PromptMiddle| + |c2| + |PromptSuffix|;
    }
    assert q1 == p[a..a + |q1|];
    assert q2 == Template(q2, c2)[a..a + |q2|];
    var b := a + |q1| + |PromptMiddle|;
    assert c1 == p[b..b + |c1|];
    assert c2 == Template(q2, c2)[b..b + |c2|];
  }

  /** Without that side condition the slots are ambiguous: a question that
      contains the text between the two slots yields the same prompt as a
      shorter question with that tail moved into the context. */
  lemma TemplateAmbiguous(q: string, tail: string, c: string)
    ensures Template(q + PromptMiddle + tail, c) == Template(q, tail + PromptMiddle + c)
  {
  }

  /** One blank-line-separated line per passage: the block's length is that
      of its lines plus one separator between neighbours. */
  lemma ContextBlockLength(docs: seq<Normalized>)
    requires docs != []
    ensures |ContextBlock(docs)| == SumLengths(ContextLines(docs)) + (|docs| - 1) * |LineSeparator|
  {
    JoinLength(ContextLines(docs), LineSeparator);
  }
}

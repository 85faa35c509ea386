/** The mock response producer `GeminiService.streamChatResponse`: it fills a
    fixed template with the prompt, splits it on single spaces and reports the
    growing text once per word, then once more with sources and metrics. The
    `onUpdate` callback is modelled by returning the sequence of its argument
    triples, in call order; the 30 ms pause between calls is not modelled. */
module AiConnect {
  import opened Types
  import opened JsString

  /** The arguments of one `onUpdate(text, groundingSources?, metrics?)` call. */
  datatype StreamUpdate = StreamUpdate(
    text: string,
    sources: Option<seq<GroundingSource>>,
    metrics: Option<AnalysisMetrics>)

  /** The template text before and after the embedded prompt; the head is
      its first word, a space, and the rest of the sentence. */
  const FirstWord: string := "Based"
  const HeadRest: string := "on my analysis of multiple sources, here's what I found about \""
  const TemplateHead: string := FirstWord + " " + HeadRest
  const TemplateTail: string :=
    "\":\n\n**Key Findings:**\n"
    + "This is a placeholder response. In a real implementation, this would connect to the Gemini API and stream the response in real-time.\n\n"
    + "**Source Analysis:**\n"
    + "- Mainstream sources would be analyzed here\n"
    + "- Alternative sources would provide additional perspectives\n"
    + "- Bias indicators would be identified\n\n"
    + "**Truthline Assessment:**\n"
    + "The analysis would conclude with a confidence score and agreement metrics."

  /** The canned reply, with the prompt embedded verbatim. */
  function MockResponse(prompt: string): (r: string)
    ensures |r| == |TemplateHead| + |prompt| + |TemplateTail|
    ensures r[..|TemplateHead|] == TemplateHead
    ensures r[|TemplateHead|..|TemplateHead| + |prompt|] == prompt
    ensures r[|TemplateHead| + |prompt|..] == TemplateTail
    ensures r[0] == 'B'
  {
    assert TemplateHead[0] == 'B';
    TemplateHead + prompt + TemplateTail
  }

  /** The words the loop walks over: the reply split on single spaces. */
  function Words(prompt: string): seq<string>
  {
    Split(MockResponse(prompt), ' ')
  }

  function FinalSources(): seq<GroundingSource>
  {
    [ GroundingSource("Example Source 1", "https://example.com/1", Some("Sample snippet...")),
      GroundingSource("Example Source 2", "https://example.com/2", Some("Another snippet...")) ]
  }

  function FinalMetrics(): AnalysisMetrics
  {
    AnalysisMetrics(agreementScore := Some(68), confidenceScore := Some(75),
                    sourcesAnalyzed := Some(5), biasIndicators := None)
  }

  /** The updates of the word loop for a list of words: one per word, the
      words so far joined by single spaces, with nothing attached. */
  function Intermediates(ws: seq<string>): (r: seq<StreamUpdate>)
    ensures |r| == |ws|
  {
    if ws == [] then [] else Intermediates(ws[..|ws| - 1]) + [StreamUpdate(Join(ws, ' '), None, None)]
  }

  /** The k-th intermediate update carries the first k + 1 words joined by
      single spaces, and no sources or metrics. */
  lemma {:induction false} IntermediateAt(ws: seq<string>, k: nat)
    requires k < |ws|
    ensures Intermediates(ws)[k] == StreamUpdate(Join(ws[..k + 1], ' '), None, None)
  {
    if k == |ws| - 1 {
      assert ws[..k + 1] == ws;
    } else {
      IntermediateAt(ws[..|ws| - 1], k);
      assert ws[..|ws| - 1][..k + 1] == ws[..k + 1];
    }
  }

  /** The reference sequence of callback arguments for a list of words: the
      intermediate updates, then the whole text with the sources and metrics. */
  function EmissionsOf(ws: seq<string>, sources: seq<GroundingSource>, metrics: AnalysisMetrics): seq<StreamUpdate>
  {
    Intermediates(ws) + [StreamUpdate(Join(ws, ' '), Some(sources), Some(metrics))]
  }

  /** What `streamChatResponse(prompt, onUpdate)` passes to `onUpdate`, in order. */
  function Emissions(prompt: string): seq<StreamUpdate>
  {
    EmissionsOf(Words(prompt), FinalSources(), FinalMetrics())
  }

  /** The first word of a list is a prefix of its join. */
  lemma {:induction false} JoinStartsWithHead(ws: seq<string>)
    requires |ws| >= 1
    ensures ws[0] <= Join(ws, ' ')
  {
    if |ws| > 1 {
      assert Join(ws, ' ') == ws[0] + ([' '] + Join(ws[1..], ' '));
    }
  }

  /** The first word of the reply is "Based", so not empty. */
  lemma FirstWordNonEmpty(prompt: string)
    ensures Words(prompt)[0] != ""
  {
    SplitFirstNonEmpty(MockResponse(prompt), ' ');
  }

  /** The `for (const word of words)` loop of `streamChatResponse`: one
      update per word carrying the text so far, built by
      `currentText += (currentText ? " " : "") + word`. */
  method EmitWords(words: seq<string>) returns (updates: seq<StreamUpdate>, currentText: string)
    requires |words| >= 1 && words[0] != ""
    ensures updates == Intermediates(words)
    ensures forall k :: 0 <= k < |words| ==> updates[k] == StreamUpdate(Join(words[..k + 1], ' '), None, None)
    ensures currentText == Join(words, ' ')
  {
    currentText := "";
    updates := [];
    for i := 0 to |words|
      invariant currentText == Join(words[..i], ' ')
      invariant updates == Intermediates(words[..i])
    {
      if i > 0 {
        JoinStartsWithHead(words[..i]);
        JoinSnoc(words[..i], words[i], ' ');
      }
      assert words[..i + 1] == words[..i] + [words[i]];
      currentText := currentText + (if currentText != "" then " " else "") + words[i];
      updates := updates + [StreamUpdate(currentText, None, None)];
    }
    assert words[..|words|] == words;
    forall k | 0 <= k < |words|
      ensures updates[k] == StreamUpdate(Join(words[..k + 1], ' '), None, None)
    {
      IntermediateAt(words, k);
    }
  }

  /** `streamChatResponse(prompt, onUpdate)`: the word loop, then the final
      update with the two sources and the metrics. */
  method StreamChatResponse(prompt: string) returns (updates: seq<StreamUpdate>)
    ensures updates == Emissions(prompt)
  {
    var words := Words(prompt);
    FirstWordNonEmpty(prompt);
    var currentText;
    updates, currentText := EmitWords(words);
    updates := updates + [StreamUpdate(currentText, Some(FinalSources()), Some(FinalMetrics()))];
  }

  /** `onUpdate` is called once per space-separated word and once more, so
      each space in the prompt adds one call. */
  lemma EmissionCount(prompt: string)
    ensures |Emissions(prompt)| == |Words(prompt)| + 1
    ensures |Words(prompt)| == CountChar(prompt, ' ') + CountChar(TemplateHead, ' ') + CountChar(TemplateTail, ' ') + 1
  {
    FinalOf(Words(prompt), FinalSources(), FinalMetrics());
    SplitCount(MockResponse(prompt), ' ');
    CountCharAppend3(TemplateHead, prompt, TemplateTail, ' ');
  }

  /** The first update is exactly the first word, "Based", with no separator
      in front; no intermediate update carries sources or metrics. */
  lemma FirstUpdate(prompt: string)
    ensures Emissions(prompt)[0] == StreamUpdate("Based", None, None)
  {
    assert " " == [' '];
    Regroup(FirstWord, " ", HeadRest, prompt, TemplateTail);
    SplitCons(FirstWord, HeadRest + prompt + TemplateTail, ' ');
    FirstOf(Words(prompt), FinalSources(), FinalMetrics());
  }

  lemma Regroup(a: string, b: string, c: string, d: string, e: string)
    ensures a + b + c + d + e == a + b + (c + d + e)
  {
  }

  lemma FirstOf(ws: seq<string>, sources: seq<GroundingSource>, metrics: AnalysisMetrics)
    requires |ws| >= 1
    ensures EmissionsOf(ws, sources, metrics)[0] == StreamUpdate(ws[0], None, None)
  {
    IntermediateAt(ws, 0);
    assert ws[..1] == [ws[0]];
  }

  /** Each intermediate text is the previous one followed by a space and the
      next word: a strict prefix extension. */
  lemma {:induction false} PrefixExtension(prompt: string, k: nat)
    requires k + 1 < |Words(prompt)|
    ensures Emissions(prompt)[k + 1].sources == None && Emissions(prompt)[k + 1].metrics == None
    ensures Emissions(prompt)[k + 1].text == Emissions(prompt)[k].text + " " + Words(prompt)[k + 1]
    ensures Emissions(prompt)[k].text < Emissions(prompt)[k + 1].text
  {
    ExtensionOf(Words(prompt), FinalSources(), FinalMetrics(), k);
  }

  lemma {:induction false} ExtensionOf(ws: seq<string>, sources: seq<GroundingSource>, metrics: AnalysisMetrics, k: nat)
    requires k + 1 < |ws|
    ensures var e := EmissionsOf(ws, sources, metrics);
      && e[k + 1].sources == None && e[k + 1].metrics == None
      && e[k + 1].text == e[k].text + " " + ws[k + 1]
      && e[k].text < e[k + 1].text
  {
    IntermediateAt(ws, k);
    IntermediateAt(ws, k + 1);
    JoinSnoc(ws[..k + 1], ws[k + 1], ' ');
    assert ws[..k + 2] == ws[..k + 1] + [ws[k + 1]];
  }

  /** The final update repeats the last intermediate text, which is the whole
      reply (the split round-trips), and carries the two example sources and the
      fixed metrics. */
  lemma FinalUpdate(prompt: string)
    ensures var e := Emissions(prompt);
      && |e| >= 2
      && e[|e| - 1].text == e[|e| - 2].text == MockResponse(prompt)
      && e[|e| - 1].sources == Some(FinalSources()) && |FinalSources()| == 2
      && e[|e| - 1].metrics == Some(FinalMetrics())
  {
    var ws := Words(prompt);
    FinalOf(ws, FinalSources(), FinalMetrics());
    JoinSplit(MockResponse(prompt), ' ');
  }

  lemma FinalOf(ws: seq<string>, sources: seq<GroundingSource>, metrics: AnalysisMetrics)
    requires |ws| >= 1
    ensures var e := EmissionsOf(ws, sources, metrics);
      && |e| == |ws| + 1
      && e[|ws|] == StreamUpdate(Join(ws, ' '), Some(sources), Some(metrics))
      && e[|ws| - 1].text == Join(ws, ' ')
  {
    IntermediateAt(ws, |ws| - 1);
    assert ws[..|ws|] == ws;
  }
}

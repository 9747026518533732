/**
 * `processors/prompt_templates.py`: the `PromptTemplates` selectors. Each
 * template is a format string; it is modelled as a sequence of literal text
 * pieces and named slots (`{chunk_id}`, `{total_chunks}`, `{text}`,
 * `{combined_summaries}`), and `Render` gives back the string the source
 * writes. The ensemble templates are f-strings, so their one slot is filled
 * in when the prompt is built.
 */
module PromptTemplates {
  import opened Wrappers
  import opened Strings

  datatype Piece = Text(s: string) | Slot(name: string)

  type Template = seq<Piece>

  /** How a slot appears in the source text of a template. */
  function Placeholder(name: string): string
  {
    "{" + name + "}"
  }

  function RenderPiece(p: Piece): string
  {
    match p
    case Text(s) => s
    case Slot(n) => Placeholder(n)
  }

  /** The template as the source writes it, slots as `{name}`. */
  function Render(t: Template): string
  {
    if t == [] then [] else RenderPiece(t[0]) + Render(t[1..])
  }

  /** The template with slot `name` filled by `value`, as an f-string does. */
  function Fill(t: Template, name: string, value: string): string
  {
    if t == [] then []
    else
      var head := if t[0] == Slot(name) then value else RenderPiece(t[0]);
      head + Fill(t[1..], name, value)
  }

  lemma {:induction false} RenderAppend(a: Template, b: Template)
    ensures Render(a + b) == Render(a) + Render(b)
  {
    if a != [] {
      RenderAppend(a[1..], b);
      assert (a + b)[0] == a[0];
      assert (a + b)[1..] == a[1..] + b;
    } else {
      assert a + b == b;
    }
  }

  lemma RenderCons(p: Piece, b: Template)
    ensures Render([p] + b) == RenderPiece(p) + Render(b)
  {
    assert ([p] + b)[0] == p && ([p] + b)[1..] == b;
  }

  lemma SplitAt(t: Template, i: nat)
    requires i < |t|
    ensures t == t[..i] + ([t[i]] + t[i + 1..])
  {
    var r := t[..i] + ([t[i]] + t[i + 1..]);
    assert |t| == |r|;
    forall k | 0 <= k < |t|
      ensures t[k] == r[k]
    {
    }
  }

  lemma RenderAround(t: Template, i: nat)
    requires i < |t|
    ensures Render(t) == Render(t[..i]) + RenderPiece(t[i]) + Render(t[i + 1..])
  {
    SplitAt(t, i);
    RenderAppend(t[..i], [t[i]] + t[i + 1..]);
    RenderCons(t[i], t[i + 1..]);
  }

  /** Every slot of a template shows up as `{name}` in its text. */
  lemma RenderedSlot(t: Template, name: string)
    requires Slot(name) in t
    ensures Contains(Render(t), Placeholder(name))
  {
    var i :| 0 <= i < |t| && t[i] == Slot(name);
    RenderAround(t, i);
    ContainsMiddle(Render(t[..i]), Placeholder(name), Render(t[i + 1..]));
  }

  lemma {:induction false} FillAround(t: Template, name: string, value: string, i: nat)
    requires i < |t| && t[i] == Slot(name)
    ensures exists a, b :: Fill(t, name, value) == a + value + b
  {
    if i > 0 {
      FillAround(t[1..], name, value, i - 1);
      var a, b :| Fill(t[1..], name, value) == a + value + b;
      var head := if t[0] == Slot(name) then value else RenderPiece(t[0]);
      assert Fill(t, name, value) == (head + a) + value + b;
    } else {
      assert Fill(t, name, value) == [] + value + Fill(t[1..], name, value);
    }
  }

  /** Filling a slot the template has puts the value into the text. */
  lemma FilledSlot(t: Template, name: string, value: string)
    requires |t| == 3 && t[1] == Slot(name)
    ensures Contains(Fill(t, name, value), value)
  {
    var i := 1;
    FillAround(t, name, value, i);
    var a, b :| Fill(t, name, value) == a + value + b;
    ContainsMiddle(a, value, b);
  }

  /** `if custom_prompt:` on an `Optional[str]`. */
  predicate Given(custom: Option<string>)
  {
    custom.Some? && custom.value != []
  }

  // ---------------------------------------------------------------------
  // The templates

  const MapBrief: Template := [
      Text("\n" +
        "            You're summarizing part "),
      Slot("chunk_id"),
      Text(" of "),
      Slot("total_chunks"),
      Text(" of a podcast transcript.\n" +
        "            \n" +
        "            Write a concise summary of this section, capturing only the essential points.\n" +
        "            \n" +
        "            TRANSCRIPT SECTION:\n" +
        "            "),
      Slot("text"),
      Text("\n" +
        "            \n" +
        "            CONCISE SECTION SUMMARY:\n" +
        "            ")
    ]

  const MapStandard: Template := [
      Text("\n" +
        "            You're summarizing part "),
      Slot("chunk_id"),
      Text(" of "),
      Slot("total_chunks"),
      Text(" of a podcast transcript.\n" +
        "            \n" +
        "            Write a comprehensive summary of this section, capturing the main topics discussed,\n" +
        "            key points, and maintaining the context of the conversation.\n" +
        "            \n" +
        "            TRANSCRIPT SECTION:\n" +
        "            "),
      Slot("text"),
      Text("\n" +
        "            \n" +
        "            COMPREHENSIVE SECTION SUMMARY:\n" +
        "            ")
    ]

  const MapDetailed: Template := [
      Text("\n" +
        "            You're summarizing part "),
      Slot("chunk_id"),
      Text(" of "),
      Slot("total_chunks"),
      Text(" of a podcast transcript.\n" +
        "            \n" +
        "            Write a detailed summary of this section, capturing all significant topics,\n" +
        "            key points, quotes, insights, and maintaining the conversational flow.\n" +
        "            \n" +
        "            TRANSCRIPT SECTION:\n" +
        "            "),
      Slot("text"),
      Text("\n" +
        "            \n" +
        "            DETAILED SECTION SUMMARY:\n" +
        "            ")
    ]

  const CombineBrief: Template := [
      Text("\n" +
        "            Create a concise 3-4 paragraph summary of this podcast by combining these section summaries.\n" +
        "            Focus on the most important points and maintain a cohesive narrative flow.\n" +
        "            Eliminate redundancies between sections.\n" +
        "            \n" +
        "            SECTION SUMMARIES:\n" +
        "            "),
      Slot("text"),
      Text("\n" +
        "            \n" +
        "            FINAL CONCISE SUMMARY:\n" +
        "            ")
    ]

  const CombineStandard: Template := [
      Text("\n" +
        "            Create a comprehensive 4-6 paragraph summary of this podcast by combining these section summaries.\n" +
        "            Capture the main topics discussed, key points, and important conclusions.\n" +
        "            Maintain a cohesive narrative flow and eliminate redundancies.\n" +
        "            \n" +
        "            SECTION SUMMARIES:\n" +
        "            "),
      Slot("text"),
      Text("\n" +
        "            \n" +
        "            FINAL COMPREHENSIVE SUMMARY:\n" +
        "            ")
    ]

  const CombineDetailed: Template := [
      Text("\n" +
        "            Create a detailed 6-8 paragraph summary of this podcast by combining these section summaries.\n" +
        "            Include all significant discussion topics, key insights, and conclusions.\n" +
        "            Eliminate redundancies and ensure a cohesive overall summary with a clear narrative flow.\n" +
        "            \n" +
        "            SECTION SUMMARIES:\n" +
        "            "),
      Slot("text"),
      Text("\n" +
        "            \n" +
        "            FINAL DETAILED SUMMARY:\n" +
        "            ")
    ]

  const KeyPointsMap: Template := [
      Text("\n" +
        "        You're analyzing part "),
      Slot("chunk_id"),
      Text(" of "),
      Slot("total_chunks"),
      Text(" of a podcast transcript.\n" +
        "\n" +
        "        Identify 1\U{2011}2 practical takeaways\U{2014}specific actions, habits, or mindsets\U{2014}that a listener\n" +
        "        could apply in their own life based ONLY on this section.\n" +
        "        \U{2022} Each takeaway MUST be supported by 1\U{2011}2 brief direct quotes from this section.  \n" +
        "        \U{2022} Do NOT invent advice; if no actionable takeaway exists, return: \"NO PRACTICAL TAKEAWAY\".\n" +
        "\n" +
        "        TRANSCRIPT SECTION:\n" +
        "        "),
      Slot("text"),
      Text("\n" +
        "\n" +
        "        PRACTICAL TAKEAWAYS:\n" +
        "        e.g. \"1\": \"**Schedule reflection time** \U{2014} Block a 30\U{2011}minute slot each week to assess goals. \n" +
        "        Quote: \"If you don't make space to think, your calendar will fill itself.\" \n" +
        "        ")
    ]

  const KeyPointsCombine: Template := [
      Text("\n" +
        "        From these chunk\U{2011}level takeaways, create a consolidated list of 3\U{2011}5 distinct, \n" +
        "        practical takeaways grounded in the podcast. \n" +
        "        \U{2022} Merge duplicates and eliminate redundancies.  \n" +
        "        \U{2022} Number each takeaway.  \n" +
        "        \U{2022} After each takeaway include at least one supporting quote from the speaker.  \n" +
        "        \U{2022} Do NOT fabricate advice or quotes.\n" +
        "\n" +
        "        EXTRACTED TAKEAWAYS:\n" +
        "        "),
      Slot("text"),
      Text("\n" +
        "\n" +
        "        FINAL PRACTICAL TAKEAWAYS (numbered list):\n" +
        "        e.g. \"1\": \"**Schedule reflection time** \U{2014} Block a 30\U{2011}minute slot each week to assess goals. \n" +
        "        Quote: \"If you don't make space to think, your calendar will fill itself.\"\n" +
        "        e.g. \"2\": \"**Embrace small experiments** \U{2014} Test new ideas on a small scale before committing. \n" +
        "        Quote: \"Treat every change like a tiny experiment you can learn from.\"\n" +
        "        ")
    ]

  const HighlightsMap: Template := [
      Text("\n" +
        "        You're analyzing part "),
      Slot("chunk_id"),
      Text(" of "),
      Slot("total_chunks"),
      Text(" of a podcast transcript.\n" +
        "\n" +
        "        Extract the 1\U{2011}2 most memorable DIRECT quotes from this section.\n" +
        "        \U{2022} Quotes must be copied verbatim (no paraphrasing or fabrication).  \n" +
        "        \U{2022} Return ONLY a numbered list of quotes, e.g.  \n" +
        "          1. \"First quote.\"  \n" +
        "          2. \"Second quote.\"\n" +
        "\n" +
        "        Do NOT add any other text.\n" +
        "\n" +
        "        TRANSCRIPT SECTION:\n" +
        "        "),
      Slot("text"),
      Text("\n" +
        "\n" +
        "        NUMBERED QUOTES:\n" +
        "        ")
    ]

  const HighlightsCombine: Template := [
      Text("\n" +
        "        From the quotes below, select the 5\U{2011}10 most memorable DIRECT quotes that best\n" +
        "        capture the key insights or moments of the podcast.\n" +
        "        \U{2022} Preserve exact wording (no paraphrasing or fabrication).  \n" +
        "        \U{2022} Return ONLY a numbered list of quotes, one per line, e.g.  \n" +
        "          1. \"Quote one.\"  \n" +
        "          2. \"Quote two.\"\n" +
        "\n" +
        "        Do NOT add any other text.\n" +
        "\n" +
        "        EXTRACTED QUOTES:\n" +
        "        "),
      Slot("text"),
      Text("\n" +
        "\n" +
        "        FINAL NUMBERED QUOTES:\n" +
        "        ")
    ]

  const EnsembleBrief: Template := [
      Text("\n" +
        "            Create a concise 3-4 paragraph summary of this podcast by analyzing multiple summarization methods.\n" +
        "            Incorporate the best insights from each approach and resolve any contradictions.\n" +
        "            Focus on the most important points and maintain a cohesive narrative flow.\n" +
        "            \n" +
        "            "),
      Slot("combined_summaries"),
      Text("\n" +
        "            \n" +
        "            FINAL CONCISE SUMMARY:\n" +
        "            ")
    ]

  const EnsembleStandard: Template := [
      Text("\n" +
        "            Create a comprehensive 4-6 paragraph summary of this podcast by analyzing multiple summarization methods.\n" +
        "            Incorporate the best insights from each approach and resolve any contradictions.\n" +
        "            Capture the main topics discussed, key points, and important conclusions.\n" +
        "            Maintain a cohesive narrative flow.\n" +
        "            \n" +
        "            "),
      Slot("combined_summaries"),
      Text("\n" +
        "            \n" +
        "            FINAL COMPREHENSIVE SUMMARY:\n" +
        "            ")
    ]

  const EnsembleDetailed: Template := [
      Text("\n" +
        "            Create a detailed 6-8 paragraph summary of this podcast by analyzing multiple summarization methods.\n" +
        "            Incorporate the best insights from each approach and resolve any contradictions.\n" +
        "            Include all significant discussion topics, key insights, and conclusions.\n" +
        "            Ensure a cohesive overall summary with a clear narrative flow.\n" +
        "            \n" +
        "            "),
      Slot("combined_summaries"),
      Text("\n" +
        "            \n" +
        "            FINAL DETAILED SUMMARY:\n" +
        "            ")
    ]

  // ---------------------------------------------------------------------
  // The selectors

  /** `templates.get(detail_level, templates["standard"])` over three templates. */
  function ByLevel(level: string, brief: Template, standard: Template, detailed: Template): (t: Template)
    ensures level == "brief" ==> t == brief
    ensures level == "detailed" ==> t == detailed
    ensures level != "brief" && level != "detailed" ==> t == standard
  {
    if level == "brief" then brief
    else if level == "detailed" then detailed
    else standard
  }

  function MapTemplate(level: string): Template
  {
    ByLevel(level, MapBrief, MapStandard, MapDetailed)
  }

  function CombineTemplate(level: string): Template
  {
    ByLevel(level, CombineBrief, CombineStandard, CombineDetailed)
  }

  /** `get_map_prompt`: the custom prompt verbatim when given, else the level's map template. */
  function MapPrompt(methodName: string, level: string, custom: Option<string>): (r: string)
    ensures Given(custom) ==> r == custom.value
  {
    if Given(custom) then custom.value else Render(MapTemplate(level))
  }

  /** `get_combine_prompt`: the custom prompt verbatim when given, else the level's combine template. */
  function CombinePrompt(methodName: string, level: string, custom: Option<string>): (r: string)
    ensures Given(custom) ==> r == custom.value
  {
    if Given(custom) then custom.value else Render(CombineTemplate(level))
  }

  function KeyPointsMapPrompt(methodName: string): string
  {
    Render(KeyPointsMap)
  }

  function KeyPointsCombinePrompt(methodName: string): string
  {
    Render(KeyPointsCombine)
  }

  function HighlightsMapPrompt(methodName: string): string
  {
    Render(HighlightsMap)
  }

  function HighlightsCombinePrompt(methodName: string): string
  {
    Render(HighlightsCombine)
  }

  /**
   * `get_ensemble_prompt`: with a custom prompt, the prompt, a blank line and
   * the combined summaries; otherwise the level's template with the combined
   * summaries written into it.
   */
  function EnsemblePrompt(level: string, combined: string, custom: Option<string>): (r: string)
    ensures Given(custom) ==> r == custom.value + "\n\n" + combined
  {
    if Given(custom) then custom.value + "\n\n" + combined
    else Fill(ByLevel(level, EnsembleBrief, EnsembleStandard, EnsembleDetailed), "combined_summaries", combined)
  }

  // ---------------------------------------------------------------------
  // Properties

  /** A map-shaped template: text, slot `a`, text, slot `b`, text, slot `c`, text. */
  lemma MapShaped(t: Template, a: string, b: string, c: string)
    requires |t| == 7 && t[1] == Slot(a) && t[3] == Slot(b) && t[5] == Slot(c)
    ensures Contains(Render(t), Placeholder(a))
    ensures Contains(Render(t), Placeholder(b))
    ensures Contains(Render(t), Placeholder(c))
  {
    RenderedSlot(t, a);
    RenderedSlot(t, b);
    RenderedSlot(t, c);
  }

  /** A combine-shaped template: text, the slot, text. */
  lemma CombineShaped(t: Template, name: string)
    requires |t| == 3 && t[1] == Slot(name)
    ensures Contains(Render(t), Placeholder(name))
  {
    RenderedSlot(t, name);
  }

  lemma PlaceholderTexts()
    ensures Placeholder("chunk_id") == "{chunk_id}"
    ensures Placeholder("total_chunks") == "{total_chunks}"
    ensures Placeholder("text") == "{text}"
  {
  }

  /** Every map template asks about chunk `{chunk_id}` of `{total_chunks}` and carries `{text}`. */
  lemma MapPromptPlaceholders(methodName: string, level: string, custom: Option<string>)
    requires !Given(custom)
    ensures var r := MapPrompt(methodName, level, custom);
      Contains(r, "{chunk_id}") && Contains(r, "{total_chunks}") && Contains(r, "{text}")
  {
    PlaceholderTexts();
    if level == "brief" {
      MapShaped(MapBrief, "chunk_id", "total_chunks", "text");
    } else if level == "detailed" {
      MapShaped(MapDetailed, "chunk_id", "total_chunks", "text");
    } else {
      MapShaped(MapStandard, "chunk_id", "total_chunks", "text");
    }
  }

  /** Every combine template carries `{text}`. */
  lemma CombinePromptPlaceholder(methodName: string, level: string, custom: Option<string>)
    requires !Given(custom)
    ensures Contains(CombinePrompt(methodName, level, custom), "{text}")
  {
    PlaceholderTexts();
    if level == "brief" {
      CombineShaped(CombineBrief, "text");
    } else if level == "detailed" {
      CombineShaped(CombineDetailed, "text");
    } else {
      CombineShaped(CombineStandard, "text");
    }
  }

  /** The key-point and highlight prompts carry the same slots as the summary ones. */
  lemma ExtractionPromptPlaceholders(methodName: string)
    ensures Contains(KeyPointsMapPrompt(methodName), "{chunk_id}") && Contains(KeyPointsMapPrompt(methodName), "{text}")
    ensures Contains(HighlightsMapPrompt(methodName), "{chunk_id}") && Contains(HighlightsMapPrompt(methodName), "{text}")
    ensures Contains(KeyPointsCombinePrompt(methodName), "{text}")
    ensures Contains(HighlightsCombinePrompt(methodName), "{text}")
  {
    PlaceholderTexts();
    MapShaped(KeyPointsMap, "chunk_id", "total_chunks", "text");
    MapShaped(HighlightsMap, "chunk_id", "total_chunks", "text");
    CombineShaped(KeyPointsCombine, "text");
    CombineShaped(HighlightsCombine, "text");
  }

  /** Without a custom prompt the ensemble prompt embeds the combined summaries. */
  lemma EnsembleEmbedsSummaries(level: string, combined: string, custom: Option<string>)
    ensures Contains(EnsemblePrompt(level, combined, custom), combined)
  {
    if Given(custom) {
      ContainsMiddle(custom.value + "\n\n", combined, []);
      assert custom.value + "\n\n" + combined + [] == custom.value + "\n\n" + combined;
    } else if level == "brief" {
      FilledSlot(EnsembleBrief, "combined_summaries", combined);
    } else if level == "detailed" {
      FilledSlot(EnsembleDetailed, "combined_summaries", combined);
    } else {
      FilledSlot(EnsembleStandard, "combined_summaries", combined);
    }
  }

  /** An unknown detail level gets the standard templates. */
  lemma UnknownLevelIsStandard(methodName: string, level: string, combined: string, custom: Option<string>)
    requires level != "brief" && level != "detailed"
    ensures MapPrompt(methodName, level, custom) == MapPrompt(methodName, "standard", custom)
    ensures CombinePrompt(methodName, level, custom) == CombinePrompt(methodName, "standard", custom)
    ensures EnsemblePrompt(level, combined, custom) == EnsemblePrompt("standard", combined, custom)
  {
  }

  /** The `method` argument never changes the map or the combine prompt. */
  lemma SummaryPromptsIgnoreMethod(m1: string, m2: string, level: string, custom: Option<string>)
    ensures MapPrompt(m1, level, custom) == MapPrompt(m2, level, custom)
    ensures CombinePrompt(m1, level, custom) == CombinePrompt(m2, level, custom)
  {
  }

  /** The `method` argument never changes a key-point or highlight prompt. */
  lemma ListPromptsIgnoreMethod(m1: string, m2: string)
    ensures KeyPointsMapPrompt(m1) == KeyPointsMapPrompt(m2)
    ensures KeyPointsCombinePrompt(m1) == KeyPointsCombinePrompt(m2)
    ensures HighlightsMapPrompt(m1) == HighlightsMapPrompt(m2)
    ensures HighlightsCombinePrompt(m1) == HighlightsCombinePrompt(m2)
  {
  }
}

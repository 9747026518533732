/**
 * The deterministic parts of `summarize_with_langchain`: the metadata loop
 * over the split documents, the choice of the map and combine templates,
 * and the parsing of the key-point and highlight chains' text. The text
 * splitter and the chains themselves call the language model and are inputs.
 */
module LangchainSummarizer {
  import opened Wrappers
  import opened Json
  import opened Strings
  import TextUtils
  import PromptTemplates
  import KeyPoints

  /**
   * Lines 57-139: stamp chunk metadata on the documents (their metadata
   * dicts, updated in place), then pick the map and combine templates: the
   * custom prompt for both when one is given, else the detail level's
   * templates, which are the same texts `PromptTemplates` returns.
   */
  method PrepareMapReduce(metas: array<Dict>, customPrompt: Option<string>, detailLevel: string)
    returns (mapTemplate: string, combineTemplate: string)
    modifies metas
    ensures forall i :: 0 <= i < metas.Length ==> metas[i] == TextUtils.ChunkMeta(old(metas[i]), i, metas.Length)
    ensures PromptTemplates.Given(customPrompt) ==>
      mapTemplate == customPrompt.value && combineTemplate == customPrompt.value
    ensures mapTemplate == PromptTemplates.MapPrompt("langchain", detailLevel, customPrompt)
    ensures combineTemplate == PromptTemplates.CombinePrompt("langchain", detailLevel, customPrompt)
  {
    TextUtils.AnnotateChunks(metas);
    if PromptTemplates.Given(customPrompt) {
      mapTemplate := customPrompt.value;
      combineTemplate := customPrompt.value;
    } else {
      if detailLevel == "brief" {
        mapTemplate := PromptTemplates.Render(PromptTemplates.MapBrief);
      } else if detailLevel == "detailed" {
        mapTemplate := PromptTemplates.Render(PromptTemplates.MapDetailed);
      } else {
        mapTemplate := PromptTemplates.Render(PromptTemplates.MapStandard);
      }
      if detailLevel == "brief" {
        combineTemplate := PromptTemplates.Render(PromptTemplates.CombineBrief);
      } else if detailLevel == "detailed" {
        combineTemplate := PromptTemplates.Render(PromptTemplates.CombineDetailed);
      } else {
        combineTemplate := PromptTemplates.Render(PromptTemplates.CombineStandard);
      }
    }
  }

  /** What the function returns: the summary, `{"points": ...}` and the highlight list. */
  datatype Outputs = Outputs(summary: string, keyPoints: Value, highlights: seq<string>)

  /**
   * Lines 218-236 and 286: the key-point chain's text parsed with the
   * optional-delimiter pattern and wrapped as `{"points": ...}`, the
   * highlight chain's text split into its non-blank lines.
   */
  function Finish(summary: string, keyPointsText: string, highlightsText: string): (r: Outputs)
    ensures r.summary == summary
  {
    Outputs(summary,
            Obj([("points", Obj(KeyPoints.KeyPoints(keyPointsText, false)))]),
            KeyPoints.Highlights(highlightsText))
  }

  /**
   * The returned key points are an object with the single key "points",
   * non-empty iff the chain produced a non-blank line; the highlights are
   * stripped, non-blank and exactly the chain's non-blank lines.
   */
  lemma FinishParsed(summary: string, keyPointsText: string, highlightsText: string)
    ensures var r := Finish(summary, keyPointsText, highlightsText);
      r.keyPoints.Obj? && Keys(r.keyPoints.fields) == ["points"] &&
      Get(r.keyPoints.fields, "points").Some? &&
      Get(r.keyPoints.fields, "points").value.Obj? &&
      (Get(r.keyPoints.fields, "points").value.fields != [] <==>
        exists i :: 0 <= i < |KeyPoints.Lines(keyPointsText)| && Strip(KeyPoints.Lines(keyPointsText)[i]) != [])
    ensures var r := Finish(summary, keyPointsText, highlightsText);
      forall k :: 0 <= k < |r.highlights| ==> r.highlights[k] != [] && Strip(r.highlights[k]) == r.highlights[k]
  {
    KeyPoints.KeyPointsNonEmpty(keyPointsText, false);
  }
}

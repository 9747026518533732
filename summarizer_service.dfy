/**
 * `services/summarizer_service.py`: which backend `generate_episode_summary`
 * calls, and with which chunk settings and detail level. Whether the
 * optional backends imported is an input (`spacyAvailable`,
 * `llamaAvailable`), as is whether the speaker regex matches the transcript.
 */
module SummarizerService {

  datatype Backend = LangChain | LlamaIndex | SpaCy | Ensemble

  /** The backend called and the arguments that differ between the branches. */
  datatype Call = Call(backend: Backend, chunkSize: int, chunkOverlap: int, detailLevel: string)

  const DetailLevels: seq<string> := ["brief", "standard", "detailed"]

  /** Lines 124-126: an unknown detail level becomes "standard". */
  function ValidDetail(detailLevel: string): (r: string)
    ensures r in DetailLevels
    ensures detailLevel in DetailLevels ==> r == detailLevel
    ensures detailLevel !in DetailLevels ==> r == "standard"
  {
    if detailLevel in DetailLevels then detailLevel else "standard"
  }

  /** `auto_select_method`. */
  function AutoSelect(length: nat, hasSpeakers: bool, spacyAvailable: bool, llamaAvailable: bool,
                      chunkSize: int, chunkOverlap: int, detailLevel: string): (c: Call)
    ensures c.backend == SpaCy <==> spacyAvailable && hasSpeakers
    ensures c.backend == LlamaIndex <==> !(spacyAvailable && hasSpeakers) && llamaAvailable && length > 50000
    ensures c.backend != Ensemble
  {
    if spacyAvailable && hasSpeakers then Call(SpaCy, chunkSize, chunkOverlap, detailLevel)
    else if llamaAvailable && length > 50000 then Call(LlamaIndex, chunkSize / 4, chunkOverlap / 4, detailLevel)
    else Call(LangChain, chunkSize, chunkOverlap, detailLevel)
  }

  /** `generate_episode_summary`. */
  function Dispatch(methodName: string, length: nat, hasSpeakers: bool, spacyAvailable: bool, llamaAvailable: bool,
                    chunkSize: int, chunkOverlap: int, detailLevel: string): (c: Call)
    ensures methodName == "ensemble" ==> c.backend == Ensemble
    ensures methodName == "langchain" ==> c.backend == LangChain
  {
    var level := ValidDetail(detailLevel);
    if methodName == "langchain" then Call(LangChain, chunkSize, chunkOverlap, level)
    else if methodName == "llamaindex" then
      if !llamaAvailable then Call(LangChain, chunkSize, chunkOverlap, level)
      else Call(LlamaIndex, chunkSize / 4, chunkOverlap / 4, level)
    else if methodName == "spacy" then
      if !spacyAvailable then Call(LangChain, chunkSize, chunkOverlap, level)
      else Call(SpaCy, chunkSize, chunkOverlap, level)
    else if methodName == "ensemble" then Call(Ensemble, chunkSize, chunkOverlap, level)
    else AutoSelect(length, hasSpeakers, spacyAvailable, llamaAvailable, chunkSize, chunkOverlap, level)
  }

  /**
   * Every call goes to a backend that is available, with a valid detail
   * level; LlamaIndex gets the chunk settings floor-divided by four (tokens
   * for characters), every other backend gets them unchanged.
   */
  lemma DispatchSound(methodName: string, length: nat, hasSpeakers: bool, spacyAvailable: bool, llamaAvailable: bool,
                      chunkSize: int, chunkOverlap: int, detailLevel: string)
    ensures var c := Dispatch(methodName, length, hasSpeakers, spacyAvailable, llamaAvailable, chunkSize, chunkOverlap, detailLevel);
      (c.backend == SpaCy ==> spacyAvailable) && (c.backend == LlamaIndex ==> llamaAvailable) &&
      c.detailLevel == ValidDetail(detailLevel)
    ensures var c := Dispatch(methodName, length, hasSpeakers, spacyAvailable, llamaAvailable, chunkSize, chunkOverlap, detailLevel);
      c.backend == LlamaIndex ==>
        c.chunkSize * 4 <= chunkSize < c.chunkSize * 4 + 4 && c.chunkOverlap * 4 <= chunkOverlap < c.chunkOverlap * 4 + 4
    ensures var c := Dispatch(methodName, length, hasSpeakers, spacyAvailable, llamaAvailable, chunkSize, chunkOverlap, detailLevel);
      c.backend != LlamaIndex ==> c.chunkSize == chunkSize && c.chunkOverlap == chunkOverlap
  {
  }

  /** An explicitly requested backend that is not available falls back to LangChain. */
  lemma UnavailableFallsBack(methodName: string, length: nat, hasSpeakers: bool, spacyAvailable: bool, llamaAvailable: bool,
                             chunkSize: int, chunkOverlap: int, detailLevel: string)
    requires (methodName == "llamaindex" && !llamaAvailable) || (methodName == "spacy" && !spacyAvailable)
    ensures Dispatch(methodName, length, hasSpeakers, spacyAvailable, llamaAvailable, chunkSize, chunkOverlap, detailLevel)
      == Call(LangChain, chunkSize, chunkOverlap, ValidDetail(detailLevel))
  {
  }

  /** "auto" and every unrecognised method name select automatically. */
  lemma UnknownMethodIsAuto(methodName: string, length: nat, hasSpeakers: bool, spacyAvailable: bool, llamaAvailable: bool,
                            chunkSize: int, chunkOverlap: int, detailLevel: string)
    requires methodName !in ["langchain", "llamaindex", "spacy", "ensemble"]
    ensures Dispatch(methodName, length, hasSpeakers, spacyAvailable, llamaAvailable, chunkSize, chunkOverlap, detailLevel)
      == AutoSelect(length, hasSpeakers, spacyAvailable, llamaAvailable, chunkSize, chunkOverlap, ValidDetail(detailLevel))
  {
  }
}

/** Sequences of user actions on a Session, checked against the contracts
    of its handlers alone. */
module Scenarios {
  import opened Types
  import opened JsString
  import Constants
  import History
  import GeminiService
  import opened App

  /** A response whose single part carries the payload `data`. */
  function ImageResponse(data: string): GeminiService.Reply {
    GeminiService.Responded(GeminiService.Response(Some([
      GeminiService.Candidate(Some(GeminiService.Content(Some([
        GeminiService.Part(None, Some(GeminiService.Blob(Some(data), Some("image/png"))))
      ]))))
    ])))
  }

  /** The session the next page load builds from `storage`. */
  method Reload(storage: Storage) returns (history: seq<GeneratedImage>)
    ensures history == LoadedHistory(storage)
  {
    var session := new Session(storage);
    session.Mount();
    history := session.history;
  }

  /** Clearing the history, with or without the write-back effect that
      follows, leaves nothing for the next load. */
  method ClearThenReload(storage: Storage, runEffect: bool) returns (reloaded: seq<GeneratedImage>)
    ensures reloaded == []
  {
    var session := new Session(storage);
    session.Mount();
    session.ClearHistory(true);
    if runEffect {
      session.SaveHistory();
    }
    reloaded := Reload(session.storage);
  }

  /** While a generation runs the sidebar button is disabled, yet the
      regenerate button is still shown and starts a second request. */
  method RegenerateWhileGenerating(data: string) returns (canSubmit: bool, shown: bool, second: Option<Pending>)
    ensures !canSubmit && shown && second.Some?
  {
    var session := new Session(map[]);
    session.SetPrompt("kucing");
    var first := session.BeginGenerate();
    assert "kucing"[0] == 'k';
    session.CompleteGenerate(first.value, Ok(GeminiService.DataUriPrefix + data), "1", 1);
    var running := session.BeginGenerate();
    canSubmit := session.CanSubmit();
    shown := session.RegenerateShown();
    second := session.BeginGenerate();
  }

  /** After a failure the error panel offers "try again", which starts a
      new request with the same prompt. */
  method RetryAfterFailure(message: string) returns (shown: bool, shownMessage: string, retry: Option<Pending>)
    ensures shown && retry.Some? && retry.value.prompt == "kucing"
    ensures message != "" ==> shownMessage == message
    ensures message == "" ==> shownMessage == GenerateFallbackMessage
  {
    var session := new Session(map[]);
    session.SetPrompt("kucing");
    var first := session.BeginGenerate();
    assert "kucing"[0] == 'k';
    session.CompleteGenerate(first.value, Err(ThrownError(message)), "1", 1);
    shown := session.RetryShown();
    shownMessage := session.errorMessage;
    retry := session.BeginGenerate();
  }

  /** An example run: prompt "a red fox in snow", the oil-painting style
      and 16:9. The instruction carries the suffix, the record does not, and
      the history gains one entry in front. */
  method RedFox(data: string) returns (sent: Option<GeminiService.Request>, image: Option<GeneratedImage>, history: seq<GeneratedImage>)
    ensures sent.Some? && sent.value.aspectRatio == Landscape16x9
    ensures sent.value.instruction == "a red fox in snow" + Constants.AiStyles[4].promptSuffix
    ensures image.Some? && image.value.prompt == "a red fox in snow" && image.value.style == "Lukisan Cat Minyak"
    ensures |history| == 1 && history[0] == image.value
  {
    var session := new Session(map[]);
    session.Mount();
    session.SetPrompt("a red fox in snow");
    session.SelectStyle(Constants.AiStyles[4]);
    session.SelectAspectRatio(Landscape16x9);
    assert "a red fox in snow"[0] == 'a';
    var reply := ImageResponse(data);
    assert GeminiService.CandidateParts(reply.response)[0].inlineData.Some?;
    sent := session.HandleGenerate(reply, "1700000000000", 1700000000000);
    image := session.currentImage;
    history := session.history;
  }

  /** Picking an older entry after a success shows it and keeps the state. */
  method SelectAfterSuccess(older: GeneratedImage, url: string) returns (state: AppState, current: Option<GeneratedImage>)
    ensures state == Success && current == Some(older)
  {
    var session := new Session(map[StorageKey := Saved([older])]);
    session.Mount();
    session.SetPrompt("a");
    var pending := session.BeginGenerate();
    assert "a"[0] == 'a';
    session.CompleteGenerate(pending.value, Ok(url), "2", 2);
    assert session.history[1] == older;
    session.SelectHistoryItem(older);
    state := session.appState;
    current := session.currentImage;
  }

  /** A failed generation in a session whose history has been written back
      leaves storage in step with it: a reload now shows the history the
      session shows. */
  method FailureKeepsStorageInStep(s: Session, pending: Pending, error: ThrownError)
    requires s.Valid() && !s.historyDirty
    modifies s
    ensures LoadedHistory(s.storage) == s.history && s.appState == Error
  {
    s.CompleteGenerate(pending, Err(error), "1", 1);
  }
}

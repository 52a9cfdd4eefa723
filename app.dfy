/** The generation session of App.tsx: the state the component keeps, the
    handlers that change it, and the persistence of the history.

    handleGenerate awaits the service once; the model splits it at that
    point into BeginGenerate (up to the await) and CompleteGenerate (after
    it). The values the handler's closure captured at the click travel from
    one to the other in a Pending record. The clock, the confirmation dialog
    and the service's reply are parameters. */
module App {
  import opened Types
  import opened JsString
  import Constants
  import History
  import GeminiService

  /** The single storage key the history lives under. */
  const StorageKey: string := "image_history"

  /** Shown when a failed generation's error has an empty message. */
  const GenerateFallbackMessage: string := "Gagal membuat gambar. Silakan coba lagi."

  /** What the storage slot holds: a history that parses, or text that does
      not. */
  datatype StoredValue = Saved(history: seq<GeneratedImage>) | Malformed

  /** The browser's key-value storage. */
  type Storage = map<string, StoredValue>

  /** What the handler's closure captured when it was invoked: the prompt,
      the aspect ratio and the style at that moment. */
  datatype Pending = Pending(prompt: string, aspectRatio: AspectRatio, style: AIStyle)

  /** The history a load finds in `storage`, or None when the key is missing
      or its value does not parse. */
  function StoredHistory(storage: Storage): (stored: Option<seq<GeneratedImage>>)
    ensures stored.Some? <==> StorageKey in storage && storage[StorageKey] != Malformed
    ensures stored.Some? ==> storage[StorageKey] == Saved(stored.value)
  {
    if StorageKey in storage && storage[StorageKey].Saved? then Some(storage[StorageKey].history)
    else None
  }

  /** The history a fresh start shows: what was stored, or empty. */
  function LoadedHistory(storage: Storage): (loaded: seq<GeneratedImage>)
    ensures StoredHistory(storage).Some? ==> loaded == StoredHistory(storage).value
    ensures StoredHistory(storage).None? ==> loaded == []
  {
    match StoredHistory(storage)
    case Some(h) => h
    case None => []
  }

  /** The record a success creates: the prompt without the suffix and the
      style's display name. */
  function NewImage(pending: Pending, url: string, id: string, timestamp: int): (image: GeneratedImage)
    ensures image.url == url && image.prompt == pending.prompt && image.style == pending.style.name
    ensures image.id == id && image.timestamp == timestamp
  {
    GeneratedImage(id, url, pending.prompt, timestamp, pending.style.name)
  }

  /** The message shown for a failed generation. */
  function FailureMessage(error: ThrownError): (message: string)
    ensures message != ""
    ensures error.message != "" ==> message == error.message
  {
    if error.message != "" then error.message else GenerateFallbackMessage
  }

  /** A record as a success creates it: a non-empty image URI and a prompt
      that is not blank. */
  predicate WellFormedRecord(image: GeneratedImage) {
    image.url != "" && !IsBlank(image.prompt)
  }

  /** Writing a history and loading it back gives the same history. */
  lemma SaveThenLoad(storage: Storage, history: seq<GeneratedImage>)
    ensures LoadedHistory(storage[StorageKey := Saved(history)]) == history
  {
  }

  /** A missing key or a value that does not parse loads as the empty
      history. */
  lemma LoadFailsSoft(storage: Storage)
    requires StorageKey !in storage || storage[StorageKey] == Malformed
    ensures LoadedHistory(storage) == []
  {
  }

  /** With the default style the instruction is the user's prompt itself. */
  lemma DefaultStyleKeepsPrompt(prompt: string)
    ensures GeminiService.ComposePrompt(prompt, Constants.AiStyles[0].promptSuffix) == prompt
  {
    Constants.StyleCatalog();
  }

  /** The default aspect ratio is one the picker offers. */
  lemma DefaultRatioOffered()
    ensures Square in Constants.RatioValues(Constants.AspectRatios)
  {
    Constants.EveryRatioOffered(Square);
  }

  class Session {
    var prompt: string
    var selectedStyle: AIStyle
    var aspectRatio: AspectRatio
    var appState: AppState
    var currentImage: Option<GeneratedImage>
    var history: seq<GeneratedImage>
    var errorMessage: string
    /** The browser's storage, which the session reads and writes. */
    var storage: Storage
    /** True while the effect that writes the history back is still due:
        after the first render and after every change of `history`. */
    var historyDirty: bool

    /** Once the write-back effect has run, the stored history is the
        session's; and the Error state always comes with a message to show,
        since every way into it sets FailureMessage(..). (That the selected style comes from the catalog needs no
        invariant: only SelectStyle writes it, and only with a catalog
        entry.) */
    ghost predicate Valid()
      reads this
    {
      && (!historyDirty ==> StoredHistory(storage) == Some(history))
      && (appState == Error ==> errorMessage != "")
    }

    /** The first render: empty prompt, default style and ratio, nothing
        generated yet; both mount effects are still to run. */
    constructor (storage: Storage)
      ensures Valid()
      ensures prompt == "" && selectedStyle == Constants.AiStyles[0] && aspectRatio == Square
      ensures appState == Idle && currentImage == None && history == [] && errorMessage == ""
      ensures this.storage == storage && historyDirty
    {
      prompt := "";
      selectedStyle := Constants.AiStyles[0];
      aspectRatio := Square;
      appState := Idle;
      currentImage := None;
      history := [];
      errorMessage := "";
      this.storage := storage;
      historyDirty := true;
    }

    /** The textarea and the mobile input. */
    method SetPrompt(text: string)
      requires Valid()
      modifies this`prompt
      ensures Valid() && prompt == text
    {
      prompt := text;
    }

    /** A click on one of the catalog's style buttons. */
    method SelectStyle(style: AIStyle)
      requires Valid() && style in Constants.AiStyles
      modifies this`selectedStyle
      ensures Valid() && selectedStyle == style
    {
      selectedStyle := style;
    }

    /** A click on one of the aspect-ratio buttons. */
    method SelectAspectRatio(ratio: AspectRatio)
      requires Valid()
      modifies this`aspectRatio
      ensures Valid() && aspectRatio == ratio
    {
      aspectRatio := ratio;
    }

    /** Whether the sidebar and mobile generate buttons are enabled: not
        while a generation runs, and not for a blank prompt. */
    predicate CanSubmit()
      reads this
      ensures CanSubmit() <==> appState != Generating && exists i :: 0 <= i < |prompt| && !IsJsWhitespace(prompt[i])
    {
      TrimEmptyIffBlank(prompt);
      !(appState == Generating || Trim(prompt) == [])
    }

    /** Whether the "try again" button of the error panel is shown. */
    predicate RetryShown()
      reads this
      ensures Valid() && RetryShown() ==> errorMessage != ""
    {
      appState == Error
    }

    /** Whether the image panel, with its "regenerate" button, is shown:
        whenever there is a current image, whatever the state. */
    predicate RegenerateShown()
      reads this
      ensures RegenerateShown() <==> currentImage.Some?
    {
      (appState == Success || currentImage.Some?) && currentImage.Some?
    }

    /** handleGenerate up to the await. A blank prompt changes nothing and
        calls nothing. Otherwise the state becomes Generating, the error
        message is cleared, and the request is issued with the values
        captured now. There is no check for a generation already running. */
    method BeginGenerate() returns (pending: Option<Pending>)
      requires Valid()
      modifies this`appState, this`errorMessage
      ensures Valid()
      ensures pending.None? <==> IsBlank(prompt)
      ensures pending.None? ==> appState == old(appState) && errorMessage == old(errorMessage)
      ensures pending.Some? ==>
        pending.value == Pending(prompt, aspectRatio, selectedStyle) && appState == Generating && errorMessage == ""
    {
      TrimEmptyIffBlank(prompt);
      if Trim(prompt) == [] {
        return None;
      }
      appState := Generating;
      errorMessage := "";
      pending := Some(Pending(prompt, aspectRatio, selectedStyle));
    }

    /** handleGenerate after the await. On success the new record becomes
        the current image and is pushed onto the history; on failure only
        the state and the message change. */
    method CompleteGenerate(pending: Pending, outcome: Result<string>, id: string, timestamp: int)
      requires Valid()
      modifies this`appState, this`errorMessage, this`currentImage, this`history, this`historyDirty
      ensures Valid()
      ensures outcome.Ok? ==>
        var image := NewImage(pending, outcome.value, id, timestamp);
        && appState == Success && currentImage == Some(image)
        && history == History.PushRecent(old(history), image) && historyDirty
        && errorMessage == old(errorMessage)
      ensures outcome.Err? ==>
        && appState == Error && errorMessage == FailureMessage(outcome.error)
        && currentImage == old(currentImage) && history == old(history)
        && historyDirty == old(historyDirty)
    {
      match outcome {
        case Ok(imageUrl) =>
          var image := NewImage(pending, imageUrl, id, timestamp);
          currentImage := Some(image);
          history := History.PushRecent(history, image);
          historyDirty := true;
          appState := Success;
        case Err(error) =>
          appState := Error;
          errorMessage := FailureMessage(error);
      }
    }

    /** handleGenerate run through without another event in between: the
        request goes to the service and the session settles with its reply. */
    method HandleGenerate(reply: GeminiService.Reply, id: string, timestamp: int)
      returns (sent: Option<GeminiService.Request>)
      requires Valid()
      modifies this`appState, this`errorMessage, this`currentImage, this`history, this`historyDirty
      ensures Valid()
      ensures sent.None? <==> IsBlank(old(prompt))
      ensures sent.None? ==> unchanged(this)
      ensures sent.Some? ==>
        && sent.value.instruction == GeminiService.ComposePrompt(prompt, selectedStyle.promptSuffix)
        && sent.value.aspectRatio == aspectRatio
      ensures sent.Some? ==>
        match GeminiService.Outcome(reply)
        case Ok(url) =>
          var image := NewImage(Pending(prompt, aspectRatio, selectedStyle), url, id, timestamp);
          && appState == Success && errorMessage == ""
          && currentImage == Some(image) && history == History.PushRecent(old(history), image)
          && WellFormedRecord(image)
        case Err(error) =>
          && appState == Error && errorMessage == FailureMessage(error)
          && currentImage == old(currentImage) && history == old(history)
    {
      var pending := BeginGenerate();
      if pending.None? {
        return None;
      }
      var p := pending.value;
      var request, outcome := GeminiService.GenerateAIImage(p.prompt, p.aspectRatio, p.style.promptSuffix, reply);
      CompleteGenerate(p, outcome, id, timestamp);
      sent := Some(request);
    }

    /** A click on a history thumbnail: it becomes the current image and
        nothing else changes. */
    method SelectHistoryItem(item: GeneratedImage)
      requires Valid() && item in history
      modifies this`currentImage
      ensures Valid() && currentImage == Some(item)
    {
      currentImage := Some(item);
    }

    /** "Clear all": when confirmed, the history is emptied and the key is
        removed from storage; the state and the current image stay. When
        not confirmed nothing changes. */
    method ClearHistory(confirmed: bool)
      requires Valid()
      modifies this`history, this`storage, this`historyDirty
      ensures Valid()
      ensures confirmed ==> history == [] && storage == old(storage) - {StorageKey} && historyDirty
      ensures !confirmed ==> unchanged(this)
    {
      if confirmed {
        history := [];
        historyDirty := true;
        storage := storage - {StorageKey};
      }
    }

    /** The mount effect that loads the history: a missing key or a value
        that does not parse leaves the history as it is. */
    method LoadSaved()
      requires Valid()
      modifies this`history, this`historyDirty
      ensures Valid()
      ensures StoredHistory(storage).Some? ==> history == StoredHistory(storage).value && historyDirty
      ensures StoredHistory(storage).None? ==> history == old(history) && historyDirty == old(historyDirty)
    {
      if StorageKey in storage && storage[StorageKey].Saved? {
        history := storage[StorageKey].history;
        historyDirty := true;
      }
    }

    /** The effect that writes the history back under the key. */
    method SaveHistory()
      requires Valid()
      modifies this`storage, this`historyDirty
      ensures Valid() && !historyDirty
      ensures storage == old(storage)[StorageKey := Saved(history)]
    {
      storage := storage[StorageKey := Saved(history)];
      historyDirty := false;
    }

    /** Both mount effects, load before save: afterwards the history is the
        stored one (or empty) and storage agrees with it. */
    method Mount()
      requires Valid() && history == []
      modifies this`history, this`storage, this`historyDirty
      ensures Valid() && !historyDirty
      ensures history == LoadedHistory(old(storage))
      ensures StoredHistory(storage) == Some(history)
      ensures storage == old(storage)[StorageKey := Saved(history)]
    {
      LoadSaved();
      SaveHistory();
    }
  }
}

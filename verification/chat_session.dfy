/** The turn orchestrator of the chat screen (components/ChatInterface.tsx):
    the state of one conversation and the handlers that change it.

    Each asynchronous handler is split at its await into two steps: a
    `Begin` step that runs up to the call into the model client, and a
    `Complete` (or `Fail`) step that receives the outcome of that call as a
    parameter. What the suspended handler still holds while it waits (the
    history it sent, the text it sent, and the values it read from the
    render it was started in) is kept in `turn` or `storyRequest`. */
module ChatSession {
  import opened Types
  import opened Strings
  import opened ChatText

  const DefaultLoadingStatus := "正在用心感受..."
  const ConnectingStatus := "正在連結深層意識..."
  const ReadingStatus := "正在閱讀你的文字..."
  const InitialStatus := "防備中"
  const InitialProgress := 10

  /** The hidden first message that opens the session. */
  const OpeningProbe := "(諮商開始。來訪者靜靜地走進房間。)"

  /** The description of the synthesised first journey point. */
  const JourneyStart := "踏上旅程"

  // ---------------------------------------------------------------- messages

  function UserMessage(text: string, now: int): ChatMessage
  {
    ChatMessage(User, text, now, false, None, None)
  }

  function ModelMessage(result: AnalysisResult, now: int): ChatMessage
  {
    ChatMessage(Model, result.text, now, false, result.insight, result.practicalStep)
  }

  function ErrorMessage(text: string, now: int): ChatMessage
  {
    ChatMessage(Model, text, now, true, None, None)
  }

  // ---------------------------------------------------------------- journey

  /** No two neighbouring journey points share a description. */
  ghost predicate AdjacentDistinct(js: seq<JourneyPoint>)
  {
    forall i, j :: 0 <= i < j < |js| && j == i + 1 ==> js[i].description != js[j].description
  }

  /** A reply's turning point is recorded: it is present, not empty, and
      differs from the description of the last point. */
  predicate AddsTurningPoint(js: seq<JourneyPoint>, turningPoint: Option<string>)
  {
    turningPoint.Some? && turningPoint.value != "" &&
    (js == [] || js[|js| - 1].description != turningPoint.value)
  }

  /** The journey after a reply: one point more, tagged with the detected
      emotion, exactly when the turning point is recorded. */
  function NextJourney(js: seq<JourneyPoint>, turningPoint: Option<string>, emotion: Emotion, now: int): (r: seq<JourneyPoint>)
    ensures AddsTurningPoint(js, turningPoint) ==> r == js + [JourneyPoint(now, turningPoint.value, emotion)]
    ensures !AddsTurningPoint(js, turningPoint) ==> r == js
    ensures js <= r && |r| <= |js| + 1
    ensures AdjacentDistinct(js) ==> AdjacentDistinct(r)
    ensures turningPoint.Some? && turningPoint.value != "" ==> r != [] && r[|r| - 1].description == turningPoint.value
  {
    if AddsTurningPoint(js, turningPoint) then js + [JourneyPoint(now, turningPoint.value, emotion)] else js
  }

  /** The same turning point reported twice in a row is recorded once. */
  lemma NextJourneyIdempotent(js: seq<JourneyPoint>, turningPoint: Option<string>, e1: Emotion, t1: int, e2: Emotion, t2: int)
    ensures var once := NextJourney(js, turningPoint, e1, t1);
      NextJourney(once, turningPoint, e2, t2) == once
  {
  }

  // ---------------------------------------------------------------- the session

  /** What started a turn. */
  datatype TurnKind = Opening | UserTurn(text: string) {
    /** The text the model client is sent for this turn. */
    function RequestText(): string
    {
      match this
      case Opening => OpeningProbe
      case UserTurn(text) => text
    }
  }

  /** A turn whose model call is in flight: what started it, the history
      it was sent with, and whether the journey map was open in the render
      that started it (the reply handler reads that value, not the
      current one). */
  datatype PendingTurn = PendingTurn(kind: TurnKind, history: seq<ChatMessage>, mapOpen: bool)

  /** The journey opens with the neutral start point and never repeats a
      description twice in a row. */
  ghost predicate JourneyValid(js: seq<JourneyPoint>)
  {
    AdjacentDistinct(js) && js != [] && js[0].description == JourneyStart && js[0].emotion == Neutral
  }

  /** The busy flag is raised exactly while a turn is in flight, and that
      turn was sent with a prefix of the current history, its own user
      message (if any) directly after it. */
  ghost predicate TurnValid(isLoading: bool, turn: Option<PendingTurn>, messages: seq<ChatMessage>)
  {
    (isLoading <==> turn.Some?) &&
    (turn.Some? ==> turn.value.history <= messages) &&
    (turn.Some? && turn.value.kind.UserTurn? ==>
      |messages| > |turn.value.history| &&
      messages[|turn.value.history|].role == User &&
      messages[|turn.value.history|].text == turn.value.kind.text)
  }

  /** Recording a turning point keeps the journey valid. */
  lemma NextJourneyKeepsValid(js: seq<JourneyPoint>, turningPoint: Option<string>, emotion: Emotion, now: int)
    requires JourneyValid(js)
    ensures JourneyValid(NextJourney(js, turningPoint, emotion, now))
  {
    var r := NextJourney(js, turningPoint, emotion, now);
    assert r[0] == js[0];
  }

  /** Appending a message keeps a turn valid. */
  lemma AppendKeepsTurn(isLoading: bool, turn: Option<PendingTurn>, messages: seq<ChatMessage>, m: ChatMessage)
    requires TurnValid(isLoading, turn, messages)
    ensures TurnValid(isLoading, turn, messages + [m])
  {
    if turn.Some? && turn.value.kind.UserTurn? {
      assert (messages + [m])[|turn.value.history|] == messages[|turn.value.history|];
    }
  }

  /** Sending a message starts a turn whose history is everything before it. */
  lemma SendStartsTurn(messages: seq<ChatMessage>, text: string, now: int, mapOpen: bool)
    ensures TurnValid(true, Some(PendingTurn(UserTurn(text), messages, mapOpen)), messages + [UserMessage(text, now)])
  {
    assert (messages + [UserMessage(text, now)])[|messages|] == UserMessage(text, now);
  }

  class Conversation {
    var messages: seq<ChatMessage>
    var isLoading: bool
    var loadingStatus: string
    var isStoryLoading: bool
    var currentProgress: int
    var currentStatus: string
    var currentEmotion: Emotion
    var inputValue: string
    var showEmojiPicker: bool
    var showDisclaimer: bool
    var storyForModal: Option<HealingStory>
    var showStoryModal: bool
    var triggerStoryGeneration: bool
    var journeyPoints: seq<JourneyPoint>
    var showJourneyMap: bool
    var hasUnreadJourney: bool
    var showEmotionSelector: bool
    /** The send or opening turn in flight, if any. */
    var turn: Option<PendingTurn>
    /** The history the story request in flight was sent with, if any. */
    var storyRequest: Option<seq<ChatMessage>>

    ghost predicate Valid()
      reads this
    {
      JourneyValid(journeyPoints) &&
      TurnValid(isLoading, turn, messages) &&
      (isStoryLoading <==> storyRequest.Some?)
    }

    /** Mounting the screen: the initial state, then the opening part of
        the session's first effect, which seeds the journey and sends the
        hidden opening probe with an empty history. */
    constructor Mount(now: int)
      ensures Valid()
      ensures messages == [] && isLoading && loadingStatus == ConnectingStatus && !isStoryLoading
      ensures currentProgress == InitialProgress && currentStatus == InitialStatus && currentEmotion == Neutral
      ensures inputValue == "" && !showEmojiPicker && showDisclaimer && storyForModal.None? && !showStoryModal
      ensures !triggerStoryGeneration && !showJourneyMap && !hasUnreadJourney && !showEmotionSelector
      ensures journeyPoints == [JourneyPoint(now, JourneyStart, Neutral)]
      ensures turn == Some(PendingTurn(Opening, [], false)) && storyRequest.None?
      ensures turn.value.kind.RequestText() == OpeningProbe
    {
      messages := [];
      isStoryLoading := false;
      currentProgress := InitialProgress;
      currentStatus := InitialStatus;
      currentEmotion := Neutral;
      inputValue := "";
      showEmojiPicker := false;
      showDisclaimer := true;
      storyForModal := None;
      showStoryModal := false;
      triggerStoryGeneration := false;
      showJourneyMap := false;
      showEmotionSelector := false;
      storyRequest := None;
      isLoading := true;
      loadingStatus := ConnectingStatus;
      journeyPoints := [JourneyPoint(now, JourneyStart, Neutral)];
      hasUnreadJourney := false;
      turn := Some(PendingTurn(Opening, [], false));
    }

    /** `handleAIResponse`: fold a reply into the session. One model
        message is appended; progress, status and emotion are overwritten;
        the turning point is recorded subject to the de-duplication guard,
        raising the unread mark when the map was closed; the emotion
        picker and the story trigger are raised on request. */
    method HandleAIResponse(result: AnalysisResult, now: int, mapOpen: bool)
      requires JourneyValid(journeyPoints) && TurnValid(isLoading, turn, messages)
      modifies this`messages, this`currentProgress, this`currentStatus, this`currentEmotion,
        this`journeyPoints, this`hasUnreadJourney, this`showEmotionSelector, this`triggerStoryGeneration
      ensures JourneyValid(journeyPoints) && TurnValid(isLoading, turn, messages)
      ensures messages == old(messages) + [ModelMessage(result, now)]
      ensures currentProgress == result.progress && currentStatus == result.status && currentEmotion == result.detectedEmotion
      ensures journeyPoints == NextJourney(old(journeyPoints), result.newTurningPoint, result.detectedEmotion, now)
      ensures hasUnreadJourney == (old(hasUnreadJourney) || (AddsTurningPoint(old(journeyPoints), result.newTurningPoint) && !mapOpen))
      ensures showEmotionSelector == (old(showEmotionSelector) || result.suggestEmotionNaming)
      ensures triggerStoryGeneration == (old(triggerStoryGeneration) || result.suggestStory)
    {
      AppendKeepsTurn(isLoading, turn, messages, ModelMessage(result, now));
      NextJourneyKeepsValid(journeyPoints, result.newTurningPoint, result.detectedEmotion, now);
      messages := messages + [ModelMessage(result, now)];
      currentProgress := result.progress;
      currentStatus := result.status;
      currentEmotion := result.detectedEmotion;
      var before := |journeyPoints|;
      journeyPoints := NextJourney(journeyPoints, result.newTurningPoint, result.detectedEmotion, now);
      if |journeyPoints| > before && !mapOpen {
        hasUnreadJourney := true;
      }
      if result.suggestEmotionNaming {
        showEmotionSelector := true;
      }
      if result.suggestStory {
        triggerStoryGeneration := true;
      }
    }

    /** The opening call answered: fold its reply (no user message is
        appended for the probe), then leave the loading state. */
    method CompleteOpening(result: AnalysisResult, now: int)
      requires Valid() && turn.Some? && turn.value.kind.Opening?
      modifies this`messages, this`currentProgress, this`currentStatus, this`currentEmotion,
        this`journeyPoints, this`hasUnreadJourney, this`showEmotionSelector, this`triggerStoryGeneration,
        this`isLoading, this`loadingStatus, this`turn
      ensures Valid()
      ensures messages == old(messages) + [ModelMessage(result, now)]
      ensures currentProgress == result.progress && currentStatus == result.status && currentEmotion == result.detectedEmotion
      ensures journeyPoints == NextJourney(old(journeyPoints), result.newTurningPoint, result.detectedEmotion, now)
      ensures hasUnreadJourney == (old(hasUnreadJourney) || (AddsTurningPoint(old(journeyPoints), result.newTurningPoint) && !old(turn).value.mapOpen))
      ensures showEmotionSelector == (old(showEmotionSelector) || result.suggestEmotionNaming)
      ensures triggerStoryGeneration == (old(triggerStoryGeneration) || result.suggestStory)
      ensures !isLoading && loadingStatus == DefaultLoadingStatus && turn.None?
    {
      HandleAIResponse(result, now, turn.value.mapOpen);
      isLoading := false;
      loadingStatus := DefaultLoadingStatus;
      turn := None;
    }

    /** The opening call threw: the error is only logged. */
    method FailOpening()
      requires Valid() && turn.Some? && turn.value.kind.Opening?
      modifies this`isLoading, this`loadingStatus, this`turn
      ensures Valid()
      ensures !isLoading && loadingStatus == DefaultLoadingStatus && turn.None?
    {
      isLoading := false;
      loadingStatus := DefaultLoadingStatus;
      turn := None;
    }

    /** The accepted part of a send: append the user message, clear the
        input, close the pickers and the disclaimer, and put the turn in
        flight with the history from before the append. */
    method StartTurn(text: string, now: int) returns (readingDelay: nat)
      requires Valid() && !isLoading
      modifies this`messages, this`isLoading, this`loadingStatus, this`inputValue, this`showDisclaimer,
        this`showEmotionSelector, this`showEmojiPicker, this`turn
      ensures Valid()
      ensures messages == old(messages) + [UserMessage(text, now)] && isLoading && loadingStatus == ReadingStatus
      ensures inputValue == "" && !showDisclaimer && !showEmotionSelector && !showEmojiPicker
      ensures turn == Some(PendingTurn(UserTurn(text), old(messages), showJourneyMap))
      ensures readingDelay == ReadingDelay(Utf16Length(text))
    {
      SendStartsTurn(messages, text, now, showJourneyMap);
      showDisclaimer := false;
      inputValue := "";
      showEmotionSelector := false;
      showEmojiPicker := false;
      turn := Some(PendingTurn(UserTurn(text), messages, showJourneyMap));
      messages := messages + [UserMessage(text, now)];
      isLoading := true;
      loadingStatus := ReadingStatus;
      readingDelay := ReadingDelay(Utf16Length(text));
    }

    /** `handleSendMessage` up to the model call. The text sent is the
        non-empty override, else the trimmed input. While a turn is in
        flight, or when that text is empty, nothing changes. Otherwise the
        user message is appended at once, the input is cleared, both
        pickers and the disclaimer close, and the turn is sent with the
        history as it was before the append; `readingDelay` is the minimum
        time before the reply may be folded. */
    method BeginSend(textOverride: Option<string>, now: int) returns (accepted: bool, readingDelay: nat)
      requires Valid()
      modifies this`messages, this`isLoading, this`loadingStatus, this`inputValue, this`showDisclaimer,
        this`showEmotionSelector, this`showEmojiPicker, this`turn
      ensures Valid()
      ensures accepted == (!old(isLoading) && TextToSend(textOverride, old(inputValue)) != "")
      ensures !accepted ==>
        messages == old(messages) && isLoading == old(isLoading) && loadingStatus == old(loadingStatus) &&
        inputValue == old(inputValue) && showDisclaimer == old(showDisclaimer) &&
        showEmotionSelector == old(showEmotionSelector) && showEmojiPicker == old(showEmojiPicker) &&
        turn == old(turn) && readingDelay == 0
      ensures accepted ==> var text := TextToSend(textOverride, old(inputValue));
        && messages == old(messages) + [UserMessage(text, now)] && isLoading && loadingStatus == ReadingStatus
        && inputValue == "" && !showDisclaimer && !showEmotionSelector && !showEmojiPicker
        && turn == Some(PendingTurn(UserTurn(text), old(messages), showJourneyMap))
        && turn.value.kind.RequestText() == text
        && readingDelay == ReadingDelay(Utf16Length(text))
    {
      var text := TextToSend(textOverride, inputValue);
      if isLoading || text == "" {
        return false, 0;
      }
      readingDelay := StartTurn(text, now);
      accepted := true;
    }

    /** The send's model call answered and the reading delay passed: wait
        `typingDelay`, fold the reply, leave the loading state. */
    method CompleteSend(result: AnalysisResult, now: int) returns (typingDelay: nat)
      requires Valid() && turn.Some? && turn.value.kind.UserTurn?
      modifies this`messages, this`currentProgress, this`currentStatus, this`currentEmotion,
        this`journeyPoints, this`hasUnreadJourney, this`showEmotionSelector, this`triggerStoryGeneration,
        this`isLoading, this`loadingStatus, this`turn
      ensures Valid()
      ensures typingDelay == TypingDelay(Utf16Length(result.text))
      ensures messages == old(messages) + [ModelMessage(result, now)]
      ensures currentProgress == result.progress && currentStatus == result.status && currentEmotion == result.detectedEmotion
      ensures journeyPoints == NextJourney(old(journeyPoints), result.newTurningPoint, result.detectedEmotion, now)
      ensures hasUnreadJourney == (old(hasUnreadJourney) || (AddsTurningPoint(old(journeyPoints), result.newTurningPoint) && !old(turn).value.mapOpen))
      ensures showEmotionSelector == (old(showEmotionSelector) || result.suggestEmotionNaming)
      ensures triggerStoryGeneration == (old(triggerStoryGeneration) || result.suggestStory)
      ensures !isLoading && loadingStatus == DefaultLoadingStatus && turn.None?
    {
      typingDelay := TypingDelay(Utf16Length(result.text));
      HandleAIResponse(result, now, turn.value.mapOpen);
      isLoading := false;
      loadingStatus := DefaultLoadingStatus;
      turn := None;
    }

    /** The send failed: one error message, its text chosen by the
        rate-limit classification of `errorString`; progress, status,
        emotion and the journey are left as they were. */
    method FailSend(errorString: string, now: int)
      requires Valid() && turn.Some? && turn.value.kind.UserTurn?
      modifies this`messages, this`isLoading, this`loadingStatus, this`turn
      ensures Valid()
      ensures messages == old(messages) + [ErrorMessage(ErrorReplyText(errorString), now)]
      ensures !isLoading && loadingStatus == DefaultLoadingStatus && turn.None?
    {
      messages := messages + [ErrorMessage(ErrorReplyText(errorString), now)];
      isLoading := false;
      loadingStatus := DefaultLoadingStatus;
      turn := None;
    }

    /** `handleEmojiClick`: send the composed emoji text, and close the
        emoji picker whether or not the send went ahead. */
    method EmojiClick(emoji: string, feeling: string, now: int) returns (accepted: bool, readingDelay: nat)
      requires Valid()
      modifies this`messages, this`isLoading, this`loadingStatus, this`inputValue, this`showDisclaimer,
        this`showEmotionSelector, this`showEmojiPicker, this`turn
      ensures Valid()
      ensures var text := EmojiText(old(inputValue), emoji, feeling);
        && accepted == !old(isLoading)
        && (!accepted ==>
              messages == old(messages) && isLoading == old(isLoading) && loadingStatus == old(loadingStatus) &&
              inputValue == old(inputValue) && showDisclaimer == old(showDisclaimer) &&
              showEmotionSelector == old(showEmotionSelector) && turn == old(turn) && readingDelay == 0)
        && (accepted ==>
              messages == old(messages) + [UserMessage(text, now)] && isLoading && loadingStatus == ReadingStatus &&
              inputValue == "" && !showDisclaimer && !showEmotionSelector &&
              turn == Some(PendingTurn(UserTurn(text), old(messages), showJourneyMap)) &&
              readingDelay == ReadingDelay(Utf16Length(text)))
      ensures !showEmojiPicker
    {
      var content := EmojiText(inputValue, emoji, feeling);
      accepted, readingDelay := BeginSend(Some(content), now);
      showEmojiPicker := false;
    }

    /** `handleEmotionSelect`: send the composed emotion-card text. */
    method EmotionSelect(cardLabel: string, cardValue: string, now: int) returns (accepted: bool, readingDelay: nat)
      requires Valid()
      modifies this`messages, this`isLoading, this`loadingStatus, this`inputValue, this`showDisclaimer,
        this`showEmotionSelector, this`showEmojiPicker, this`turn
      ensures Valid()
      ensures var text := EmotionCardText(cardLabel, cardValue);
        && accepted == !old(isLoading)
        && (!accepted ==>
              messages == old(messages) && isLoading == old(isLoading) && loadingStatus == old(loadingStatus) &&
              inputValue == old(inputValue) && showDisclaimer == old(showDisclaimer) &&
              showEmotionSelector == old(showEmotionSelector) && showEmojiPicker == old(showEmojiPicker) &&
              turn == old(turn) && readingDelay == 0)
        && (accepted ==>
              messages == old(messages) + [UserMessage(text, now)] && isLoading && loadingStatus == ReadingStatus &&
              inputValue == "" && !showDisclaimer && !showEmotionSelector && !showEmojiPicker &&
              turn == Some(PendingTurn(UserTurn(text), old(messages), showJourneyMap)) &&
              readingDelay == ReadingDelay(Utf16Length(text)))
    {
      accepted, readingDelay := BeginSend(Some(EmotionCardText(cardLabel, cardValue)), now);
    }

    /** `handleRequestStory` up to the story call: ignored while a story is
        being generated; otherwise the story is requested with the current
        history. The handler itself has no minimum-length gate. */
    method RequestStory() returns (started: bool)
      requires Valid()
      modifies this`isStoryLoading, this`storyRequest
      ensures Valid()
      ensures started == !old(isStoryLoading)
      ensures started ==> isStoryLoading && storyRequest == Some(messages)
      ensures !started ==> isStoryLoading == old(isStoryLoading) && storyRequest == old(storyRequest)
    {
      if isStoryLoading {
        return false;
      }
      isStoryLoading := true;
      storyRequest := Some(messages);
      started := true;
    }

    /** The story call returned: a story opens the story view; null appends
        one error message instead. Either way the story is no longer loading. */
    method CompleteStory(story: Option<HealingStory>, now: int)
      requires Valid() && storyRequest.Some?
      modifies this`messages, this`storyForModal, this`showStoryModal, this`isStoryLoading, this`storyRequest
      ensures Valid()
      ensures story.Some? ==>
        messages == old(messages) && storyForModal == story && showStoryModal
      ensures story.None? ==>
        messages == old(messages) + [ErrorMessage(StoryErrorText, now)] &&
        storyForModal == old(storyForModal) && showStoryModal == old(showStoryModal)
      ensures !isStoryLoading && storyRequest.None?
    {
      if story.Some? {
        storyForModal := story;
        showStoryModal := true;
      } else {
        messages := messages + [ErrorMessage(StoryErrorText, now)];
      }
      isStoryLoading := false;
      storyRequest := None;
    }

    /** The story call threw: the error is only logged. */
    method FailStory()
      requires Valid() && storyRequest.Some?
      modifies this`isStoryLoading, this`storyRequest
      ensures Valid()
      ensures !isStoryLoading && storyRequest.None?
    {
      isStoryLoading := false;
      storyRequest := None;
    }

    /** The automatic-story effect: when the model asked for a story, no
        story is loading and the history has at least two messages, request
        a story and clear the request flag; otherwise do nothing. */
    method AutoStory() returns (fired: bool)
      requires Valid()
      modifies this`triggerStoryGeneration, this`isStoryLoading, this`storyRequest
      ensures Valid()
      ensures fired == (old(triggerStoryGeneration) && !old(isStoryLoading) && |messages| >= 2)
      ensures fired ==> !triggerStoryGeneration && isStoryLoading && storyRequest == Some(messages)
      ensures !fired ==> (triggerStoryGeneration == old(triggerStoryGeneration) &&
        isStoryLoading == old(isStoryLoading) && storyRequest == old(storyRequest))
    {
      fired := triggerStoryGeneration && !isStoryLoading && |messages| >= 2;
      if fired {
        var started := RequestStory();
        triggerStoryGeneration := false;
      }
    }

    /** `toggleJourneyMap`: flip the map; opening it clears the unread mark. */
    method ToggleJourneyMap()
      requires Valid()
      modifies this`showJourneyMap, this`hasUnreadJourney
      ensures Valid()
      ensures showJourneyMap == !old(showJourneyMap)
      ensures hasUnreadJourney == (old(hasUnreadJourney) && old(showJourneyMap))
    {
      if !showJourneyMap {
        hasUnreadJourney := false;
      }
      showJourneyMap := !showJourneyMap;
    }

    /** Typing into the input field. */
    method SetInput(value: string)
      requires Valid()
      modifies this`inputValue
      ensures Valid() && inputValue == value
    {
      inputValue := value;
    }

    /** The emoji button flips the emoji picker. */
    method ToggleEmojiPicker()
      requires Valid()
      modifies this`showEmojiPicker
      ensures Valid() && showEmojiPicker == !old(showEmojiPicker)
    {
      showEmojiPicker := !showEmojiPicker;
    }

    /** The emotion picker's close button. */
    method DismissEmotionSelector()
      requires Valid()
      modifies this`showEmotionSelector
      ensures Valid() && !showEmotionSelector
    {
      showEmotionSelector := false;
    }

    /** `closeStoryModal`: hide the story view now; its story is dropped by
        `ClearClosedStory` when the 300 ms timer fires. */
    method CloseStoryModal()
      requires Valid()
      modifies this`showStoryModal
      ensures Valid() && !showStoryModal
    {
      showStoryModal := false;
    }

    method ClearClosedStory()
      requires Valid()
      modifies this`storyForModal
      ensures Valid() && storyForModal.None?
    {
      storyForModal := None;
    }
  }
}

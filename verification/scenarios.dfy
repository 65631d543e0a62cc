/** Sessions driven through the orchestrator step by step, with the
    model client's outcomes written in. Each shows what the contracts of
    the handlers let a caller conclude. */
module Scenarios {
  import opened Types
  import opened ChatText
  import opened ChatSession
  import Gemini

  /** The session opens with a welcome, then the visitor admits sadness:
      three messages, the new emotion and progress, a second journey point. */
  method OpeningThenSadness()
  {
    var c := new Conversation.Mount(0);
    c.CompleteOpening(AnalysisResult("歡迎", 10, "防備中", Neutral, None, false, false, None, None), 100);
    assert |c.messages| == 1 && c.currentProgress == 10 && |c.journeyPoints| == 1;
    var accepted, _ := c.BeginSend(Some("我很難過"), 200);
    var _ := c.CompleteSend(AnalysisResult("我聽到了", 25, "宣洩中", Sadness, Some("承認了難過"), false, false, None, None), 300);
    assert |c.messages| == 3 && c.messages[1] == UserMessage("我很難過", 200);
    assert c.currentEmotion == Sadness && c.currentProgress == 25;
    assert |c.journeyPoints| == 2 && c.hasUnreadJourney && !c.isLoading;
  }

  /** A send while a turn is in flight is dropped. */
  method SendWhileBusyIsDropped()
  {
    var c := new Conversation.Mount(0);
    var accepted, _ := c.BeginSend(Some("還在嗎"), 1);
    assert !accepted && c.messages == [];
  }

  /** A failed send whose error names a rate limit gets the quota apology
      and leaves progress, status and emotion alone. */
  method QuotaFailure()
  {
    var c := new Conversation.Mount(0);
    c.CompleteOpening(AnalysisResult("歡迎", 10, "防備中", Neutral, None, false, false, None, None), 1);
    var accepted, _ := c.BeginSend(Some("hello"), 2);
    assert accepted && |c.messages| == 2;
    QuotaReplyExamples();
    c.FailSend("{\"code\":429}", 3);
    assert |c.messages| == 3 && c.messages[2].isError && c.messages[2].text == QuotaErrorText;
    assert !c.isLoading && c.currentProgress == 10 && c.currentEmotion == Neutral;
  }

  /** A rate-limit rejection of the model call itself never reaches the
      quota apology: the service turns it into its fallback reply, which
      the session folds as an ordinary turn. */
  method RateLimitedCallFoldsFallback()
  {
    var c := new Conversation.Mount(0);
    var result := Gemini.SendUserMessage(Threw("{\"code\":429}"));
    c.CompleteOpening(result, 1);
    assert !c.messages[0].isError && c.messages[0].text == Gemini.FallbackResult.text;
    assert c.currentStatus == "連線中斷" && |c.journeyPoints| == 1;
  }

  /** A suggested story waits until the history has two messages, then
      the automatic rule requests it and clears the request. */
  method SuggestedStory()
  {
    var c := new Conversation.Mount(0);
    c.CompleteOpening(AnalysisResult("嗯", 40, "稍有釋懷", Calm, None, false, true, None, None), 1);
    var early := c.AutoStory();
    assert !early && c.triggerStoryGeneration;
    var accepted, _ := c.BeginSend(Some("hello"), 2);
    var fired := c.AutoStory();
    assert fired && !c.triggerStoryGeneration && c.isStoryLoading;
  }

  /** The story button does nothing while a story is loading; a story call
      that yields nothing leaves one error message. */
  method StoryFailure()
  {
    var c := new Conversation.Mount(0);
    c.FailOpening();
    var started := c.RequestStory();
    var again := c.RequestStory();
    assert started && !again;
    c.CompleteStory(None, 4);
    assert c.messages == [ErrorMessage(StoryErrorText, 4)] && !c.isStoryLoading;
  }
}

/** The value types of the chat companion (types.ts) and the few constants
    the orchestrator starts from. */
module Types {

  datatype Option<+T> = None | Some(value: T)

  /** Who authored a chat message. */
  datatype Role = User | Model

  /** The eight emotions the model may report. */
  datatype Emotion = Neutral | Anxiety | Sadness | Anger | Calm | Joy | Fear | Hope

  /** One entry of the conversation; `isError` marks a synthetic apology. */
  datatype ChatMessage = ChatMessage(
    role: Role,
    text: string,
    timestamp: int,
    isError: bool,
    insight: Option<string>,
    practicalStep: Option<string>)

  /** A turning point shown on the journey timeline. */
  datatype JourneyPoint = JourneyPoint(timestamp: int, description: string, emotion: Emotion)

  /** The structured reply of the conversation model. An absent boolean
      flag is read as false, as `if (result.suggestStory)` does. */
  datatype AnalysisResult = AnalysisResult(
    text: string,
    progress: int,
    status: string,
    detectedEmotion: Emotion,
    newTurningPoint: Option<string>,
    suggestEmotionNaming: bool,
    suggestStory: bool,
    insight: Option<string>,
    practicalStep: Option<string>)

  datatype HealingStory = HealingStory(title: string, content: string)

  /** What a call to the language model produced: it threw, or it answered
      with a response text whose JSON parse either failed (None) or gave a
      value. */
  datatype Reply<T> = Threw(error: string) | Responded(responseText: string, parsed: Option<T>)
}

/** The deterministic part of the conversation-model client
    (services/geminiService.ts): the time-of-day phrase put into the
    counselor's instruction, the transcript of the history sent with both
    calls, and the way each call turns a failed model call into a value
    instead of an exception. The network call and the JSON parse are
    outside the model: their outcome arrives as a `Reply`. */
module Gemini {
  import opened Types
  import opened Strings

  /** The four parts of the day the instruction distinguishes. */
  datatype DayPart = LateNight | Morning | Afternoon | Evening

  /** The part of the day for a clock hour, as the chained conditional picks it. */
  function DayPartOf(hour: int): (p: DayPart)
    ensures p == LateNight <==> hour < 6
    ensures p == Morning <==> 6 <= hour < 12
    ensures p == Afternoon <==> 12 <= hour < 18
    ensures p == Evening <==> 18 <= hour
  {
    if hour < 6 then LateNight
    else if hour < 12 then Morning
    else if hour < 18 then Afternoon
    else Evening
  }

  function DayPartPhrase(p: DayPart): string
  {
    match p
    case LateNight => "凌晨深夜，夜深人靜，適合深層對話"
    case Morning => "早晨，新的一天"
    case Afternoon => "下午，或許有些疲憊"
    case Evening => "晚上，結束了一天的忙碌"
  }

  /** `timeContext`: the phrase for the hour of the local clock. */
  function TimeContext(hour: int): (phrase: string)
    ensures phrase == "凌晨深夜，夜深人靜，適合深層對話" <==> hour < 6
    ensures phrase == "早晨，新的一天" <==> 6 <= hour < 12
    ensures phrase == "下午，或許有些疲憊" <==> 12 <= hour < 18
    ensures phrase == "晚上，結束了一天的忙碌" <==> 18 <= hour
  {
    DayPartPhrase(DayPartOf(hour))
  }

  /** Over the hours of a day, two hours get the same phrase exactly when
      they fall in the same bucket. */
  lemma TimeContextBuckets(hour: int)
    requires 0 <= hour < 24
    ensures forall h :: 0 <= h < 24 ==> (TimeContext(h) == TimeContext(hour) <==> DayPartOf(h) == DayPartOf(hour))
  {
  }

  /** Who a transcript line is attributed to. */
  function Speaker(r: Role): string
  {
    match r
    case User => "來訪者"
    case Model => "諮商師"
  }

  /** One transcript line: the speaker, a colon and a space, then the text. */
  function TranscriptLine(m: ChatMessage): (line: string)
    ensures line == Speaker(m.role) + ": " + m.text
    ensures '\n' !in m.text ==> '\n' !in line
  {
    var prefix := Speaker(m.role) + ": ";
    assert '\n' !in prefix;
    prefix + m.text
  }

  function TranscriptLines(history: seq<ChatMessage>): (lines: seq<string>)
    ensures |lines| == |history|
    ensures forall i :: 0 <= i < |history| ==> lines[i] == TranscriptLine(history[i])
  {
    if history == [] then [] else [TranscriptLine(history[0])] + TranscriptLines(history[1..])
  }

  /** The history as the model reads it: one line per message, joined by
      newlines. The same text is embedded in the counselor's instruction
      and sent as the story request. */
  function Transcript(history: seq<ChatMessage>): (t: string)
    ensures history == [] ==> t == []
    ensures |history| == 1 ==> t == TranscriptLine(history[0])
  {
    Join(TranscriptLines(history), '\n')
  }

  /** The transcript is empty exactly when the history is: every line
      carries at least its speaker. */
  lemma TranscriptEmptyIff(history: seq<ChatMessage>)
    ensures Transcript(history) == [] <==> history == []
  {
    if history != [] {
      var lines := TranscriptLines(history);
      assert lines[0] == TranscriptLine(history[0]);
      assert |lines[0]| >= 2;
      if |lines| > 1 {
        assert Transcript(history) == lines[0] + ['\n'] + Join(lines[1..], '\n');
      }
    }
  }

  /** Adding a message to the history adds one line at the end. */
  lemma {:induction false} TranscriptAppend(history: seq<ChatMessage>, m: ChatMessage)
    ensures Transcript(history + [m]) ==
      if history == [] then TranscriptLine(m) else Transcript(history) + "\n" + TranscriptLine(m)
  {
    JoinSnoc(TranscriptLines(history), TranscriptLine(m), '\n');
    assert TranscriptLines(history + [m]) == TranscriptLines(history) + [TranscriptLine(m)];
  }

  lemma {:induction false} JoinSnoc(parts: seq<string>, last: string, sep: char)
    ensures Join(parts + [last], sep) == if parts == [] then last else Join(parts, sep) + [sep] + last
  {
    if |parts| >= 2 {
      assert (parts + [last])[1..] == parts[1..] + [last];
      JoinSnoc(parts[1..], last, sep);
    } else if |parts| == 1 {
      assert parts + [last] == [parts[0], last];
    }
  }

  /** When no message text holds a newline, splitting the transcript at
      newlines gives back exactly one line per message, in order. */
  lemma TranscriptSplits(history: seq<ChatMessage>)
    requires history != []
    requires forall i :: 0 <= i < |history| ==> '\n' !in history[i].text
    ensures Split(Transcript(history), '\n') == TranscriptLines(history)
  {
    var lines := TranscriptLines(history);
    forall k | 0 <= k < |lines| ensures '\n' !in lines[k] {
      assert '\n' !in history[k].text;
    }
    SplitJoin(lines, '\n');
  }

  /** The reply used whenever the counselor call fails. */
  const FallbackResult := AnalysisResult(
    "（此刻，空氣似乎凝結了一下...）抱歉，我剛剛走神了，能請你再多說一點嗎？",
    10, "連線中斷", Neutral, None, false, false, None, None)

  /** `sendUserMessage`: never fails. An empty response, a parse failure or
      a thrown error all give the fixed fallback; otherwise the parsed reply. */
  function SendUserMessage(reply: Reply<AnalysisResult>): (r: AnalysisResult)
    ensures reply.Threw? ==> r == FallbackResult
    ensures reply.Responded? && (reply.responseText == "" || reply.parsed.None?) ==> r == FallbackResult
    ensures reply.Responded? && reply.responseText != "" && reply.parsed.Some? ==> r == reply.parsed.value
  {
    match reply
    case Threw(_) => FallbackResult
    case Responded(text, parsed) =>
      if text == "" then FallbackResult
      else match parsed
        case None => FallbackResult
        case Some(result) => result
  }

  /** The fallback is a calm, well-formed turn: progress within 0..100 and
      nothing that moves the journey, the emotion picker or the story. */
  lemma FallbackIsQuiet(reply: Reply<AnalysisResult>)
    requires reply.Threw? || reply.responseText == "" || reply.parsed.None?
    ensures var r := SendUserMessage(reply);
      0 <= r.progress <= 100 && r.status == "連線中斷" && r.detectedEmotion == Neutral &&
      r.newTurningPoint.None? && !r.suggestEmotionNaming && !r.suggestStory
  {
  }

  /** `generateHealingStory`: null when the response is empty, the parse
      fails or the call throws; otherwise the parsed story. */
  function GenerateHealingStory(reply: Reply<HealingStory>): (r: Option<HealingStory>)
    ensures r.Some? <==> reply.Responded? && reply.responseText != "" && reply.parsed.Some?
    ensures r.Some? ==> r.value == reply.parsed.value
  {
    match reply
    case Threw(_) => None
    case Responded(text, parsed) => if text == "" then None else parsed
  }
}

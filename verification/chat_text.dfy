/** The pure helpers of the chat screen (components/ChatInterface.tsx):
    paragraph splitting, the two pacing delays, the choice of the text a
    send carries, the error-text classification, and the text the emoji
    picker and the emotion cards compose. */
module ChatText {
  import opened Types
  import opened Strings

  // ---------------------------------------------------------------- paragraphs

  predicate IsBlank(line: string)
  {
    Trim(line) == []
  }

  /** The lines that are not blank, in their original order. */
  function NonBlank(lines: seq<string>): (kept: seq<string>)
    ensures |kept| <= |lines|
    ensures forall p :: p in kept ==> p in lines && !IsBlank(p)
    ensures forall p :: p in lines && !IsBlank(p) ==> p in kept
  {
    if lines == [] then []
    else if IsBlank(lines[0]) then NonBlank(lines[1..])
    else [lines[0]] + NonBlank(lines[1..])
  }

  lemma {:induction false} NonBlankConcat(a: seq<string>, b: seq<string>)
    ensures NonBlank(a + b) == NonBlank(a) + NonBlank(b)
  {
    if a != [] {
      assert (a + b)[1..] == a[1..] + b;
      NonBlankConcat(a[1..], b);
    } else {
      assert a + b == b;
    }
  }

  /** `formatTextToParagraphs`: split at newlines, drop the blank pieces. */
  function Paragraphs(text: string): (ps: seq<string>)
    ensures forall p :: p in ps ==> '\n' !in p && !IsBlank(p)
  {
    NonBlank(Split(text, '\n'))
  }

  /** A text without a newline is one paragraph, or none when it is blank. */
  lemma ParagraphsOfLine(line: string)
    requires '\n' !in line
    ensures Paragraphs(line) == if IsBlank(line) then [] else [line]
  {
    SplitWithout(line, '\n');
  }

  /** Paragraphs are found line by line: a newline separates the
      paragraphs before it from the paragraphs after it. */
  lemma ParagraphsConcat(a: string, b: string)
    ensures Paragraphs(a + "\n" + b) == Paragraphs(a) + Paragraphs(b)
  {
    SplitConcat(a, '\n', b);
    NonBlankConcat(Split(a, '\n'), Split(b, '\n'));
  }

  /** Joining non-blank, newline-free paragraphs with newlines and
      splitting again gives back exactly those paragraphs. */
  lemma ParagraphsOfJoin(ps: seq<string>)
    requires forall p :: p in ps ==> '\n' !in p && !IsBlank(p)
    ensures Paragraphs(Join(ps, '\n')) == ps
  {
    if ps == [] {
      ParagraphsOfLine([]);
    } else {
      SplitJoin(ps, '\n');
      NonBlankAll(ps);
    }
  }

  lemma {:induction false} NonBlankAll(lines: seq<string>)
    requires forall p :: p in lines ==> !IsBlank(p)
    ensures NonBlank(lines) == lines
  {
    if lines != [] {
      assert lines == [lines[0]] + lines[1..];
      NonBlankAll(lines[1..]);
    }
  }

  // ---------------------------------------------------------------- pacing

  function Min(a: int, b: int): int
  {
    if a <= b then a else b
  }

  /** The simulated reading time for a sent text of `len` code units:
      800 ms plus 30 ms per unit, capped at 2500 ms. */
  function ReadingDelay(len: nat): (d: nat)
    ensures 800 <= d <= 2500
    ensures d == 2500 <==> len >= 57
  {
    Min(2500, 800 + len * 30)
  }

  /** The simulated typing time for a reply of `len` code units:
      1000 ms plus 20 ms per unit, capped at 4000 ms. */
  function TypingDelay(len: nat): (d: nat)
    ensures 1000 <= d <= 4000
    ensures d == 4000 <==> len >= 150
  {
    Min(4000, 1000 + len * 20)
  }

  /** Longer texts never get shorter delays. */
  lemma DelaysMonotone(m: nat, n: nat)
    requires m <= n
    ensures ReadingDelay(m) <= ReadingDelay(n)
    ensures TypingDelay(m) <= TypingDelay(n)
  {
  }

  /** How long after the send the reply is revealed: the model call and the
      reading delay run together, the typing delay follows them. */
  function RevealTime(callLatency: nat, sentText: string, replyText: string): (t: nat)
    ensures t >= ReadingDelay(Utf16Length(sentText)) + TypingDelay(Utf16Length(replyText))
    ensures t >= callLatency + TypingDelay(Utf16Length(replyText))
    ensures t <= (if callLatency <= 2500 then 2500 else callLatency) + 4000
    ensures t >= 1800
  {
    var reading := ReadingDelay(Utf16Length(sentText));
    (if callLatency <= reading then reading else callLatency) + TypingDelay(Utf16Length(replyText))
  }

  // ---------------------------------------------------------------- sending

  /** `textOverride || inputValue.trim()`: a non-empty override is sent as
      it is (untrimmed); otherwise the trimmed input. */
  function TextToSend(textOverride: Option<string>, inputValue: string): (text: string)
    ensures textOverride.Some? && textOverride.value != "" ==> text == textOverride.value
    ensures (textOverride.None? || textOverride.value == "") ==> text == Trim(inputValue)
  {
    match textOverride
    case Some(t) => if t != "" then t else Trim(inputValue)
    case None => Trim(inputValue)
  }

  /** Without an override, a send goes ahead exactly when the input has a
      character that is not white space. */
  lemma TextToSendEmptyIff(inputValue: string)
    ensures TextToSend(None, inputValue) == [] <==> forall i :: 0 <= i < |inputValue| ==> IsWhiteSpace(inputValue[i])
  {
    TrimEmptyIff(inputValue);
  }

  /** `handleEmojiClick`: with typed text, the untrimmed text, a space and
      the emoji; with none, the emoji and its feeling in parentheses. */
  function EmojiText(inputValue: string, emoji: string, feeling: string): (content: string)
    ensures content != []
    ensures Trim(inputValue) != [] ==> content == inputValue + " " + emoji
    ensures Trim(inputValue) == [] ==> |content| > |emoji| && content[..|emoji|] == emoji && Contains(content, feeling)
  {
    if Trim(inputValue) != [] then inputValue + " " + emoji
    else
      var content := emoji + " (覺得" + feeling + ")";
      assert content[|emoji| + 4..|emoji| + 4 + |feeling|] == feeling;
      assert OccursAt(content, feeling, |emoji| + 4);
      ContainsIff(content, feeling);
      content
  }

  /** `handleEmotionSelect`: the card's label, framed, then its sentence. */
  function EmotionCardText(cardLabel: string, cardValue: string): (content: string)
    ensures content != []
    ensures Contains(content, cardLabel)
    ensures |content| >= |cardValue| && content[|content| - |cardValue|..] == cardValue
  {
    var content := "(我選擇了「" + cardLabel + "」情緒卡) 我覺得..." + cardValue;
    assert content[6..6 + |cardLabel|] == cardLabel;
    assert OccursAt(content, cardLabel, 6);
    ContainsIff(content, cardLabel);
    content
  }

  // ---------------------------------------------------------------- errors

  const GenericErrorText := "連線似乎有些不穩，請再試一次。"
  const QuotaErrorText := "目前心靈連結過於頻繁（已達 API 額度上限），請深呼吸休息一分鐘後再試。"
  const StoryErrorText := "(微光故事暫時無法顯現...可能是心靈連結過於頻繁，請稍作休息後再試。)"

  /** The error text names a rate limit: it contains "429", "quota" or
      "RESOURCE_EXHAUSTED", matched case-sensitively. */
  predicate IsQuotaError(errorString: string)
  {
    Contains(errorString, "429") || Contains(errorString, "quota") || Contains(errorString, "RESOURCE_EXHAUSTED")
  }

  /** The classification, stated by offsets: one of the three markers
      occurs somewhere in the error text. */
  lemma QuotaErrorIff(errorString: string)
    ensures IsQuotaError(errorString) <==>
      exists i :: OccursAt(errorString, "429", i) || OccursAt(errorString, "quota", i) ||
        OccursAt(errorString, "RESOURCE_EXHAUSTED", i)
  {
    ContainsIff(errorString, "429");
    ContainsIff(errorString, "quota");
    ContainsIff(errorString, "RESOURCE_EXHAUSTED");
  }

  /** The apology shown for a failed turn. */
  function ErrorReplyText(errorString: string): (text: string)
    ensures text == QuotaErrorText <==> IsQuotaError(errorString)
    ensures text == GenericErrorText <==> !IsQuotaError(errorString)
  {
    if IsQuotaError(errorString) then QuotaErrorText else GenericErrorText
  }

  /** A rate-limit marker is still recognised when the error is wrapped in
      more text, as a stringified error object wraps its message. */
  lemma QuotaSurvivesWrapping(prefix: string, errorString: string, suffix: string)
    requires IsQuotaError(errorString)
    ensures IsQuotaError(prefix + errorString + suffix)
  {
    if Contains(errorString, "429") {
      ContainsWithin(prefix, errorString, suffix, "429");
    } else if Contains(errorString, "quota") {
      ContainsWithin(prefix, errorString, suffix, "quota");
    } else {
      ContainsWithin(prefix, errorString, suffix, "RESOURCE_EXHAUSTED");
    }
  }

  /** A quota rejection, as the service's error object prints it, gets the
      quota apology. */
  lemma QuotaReplyExamples()
    ensures ErrorReplyText("{\"status\":\"RESOURCE_EXHAUSTED\"}") == QuotaErrorText
    ensures ErrorReplyText("{\"code\":429}") == QuotaErrorText
  {
    var e := "{\"status\":\"RESOURCE_EXHAUSTED\"}";
    assert OccursAt(e, "RESOURCE_EXHAUSTED", 11);
    ContainsIff(e, "RESOURCE_EXHAUSTED");
    var f := "{\"code\":429}";
    assert OccursAt(f, "429", 8);
    ContainsIff(f, "429");
  }

  /** An unrelated rejection gets the generic apology. */
  lemma GenericReplyExample()
    ensures ErrorReplyText("network down") == GenericErrorText
  {
    NoQuotaMarker("network down");
  }

  /** The match is case-sensitive: "quota" is a quota error, "Quota" is not. */
  lemma CaseSensitiveExample()
    ensures ErrorReplyText("quota") == QuotaErrorText
    ensures ErrorReplyText("Quota") == GenericErrorText
  {
    assert Contains("quota", "quota");
    NoQuotaMarker("Quota");
  }

  /** A string without the characters '4', 'q' and 'R' is not a quota error. */
  lemma NoQuotaMarker(s: string)
    requires '4' !in s && 'q' !in s && 'R' !in s
    ensures !IsQuotaError(s)
  {
    MissingChar(s, "429", '4');
    MissingChar(s, "quota", 'q');
    MissingChar(s, "RESOURCE_EXHAUSTED", 'R');
  }

  /** A string lacking one of the characters of `t` does not contain `t`. */
  lemma MissingChar(s: string, t: string, c: char)
    requires c in t && c !in s
    ensures !Contains(s, t)
  {
    ContainsIff(s, t);
  }
}

/** The main analyser (analyze.py): keyword scoring, the tone and urgency
    decision table, action-item extraction, the summary with its fallback
    and the reply templates.

    Each remote model is a parameter that maps the text it is sent to the
    answer it gives; `None` stands for no usable answer (no token, a
    transport error, an unexpected JSON shape or a caught exception). */
module Analyze {
  import opened Wrappers
  import opened TextUtil
  import opened Sentences

  const AngryKeywords: seq<string> :=
    ["unacceptable", "angry", "frustrat", "disappointed", "terrible", "worst",
     "hate", "cancel", "critical", "emergency", "urgent", "immediately"]
  const UrgentKeywords: seq<string> :=
    ["urgent", "asap", "immediately", "deadline", "critical", "now",
     "emergency", "must", "required", "essential"]
  const PositiveKeywords: seq<string> :=
    ["happy", "great", "excellent", "love", "good", "thanks", "wonderful",
     "best", "thrilled", "nice", "appreciate"]
  const CriticalWords: seq<string> :=
    ["critical", "emergency", "urgent", "immediately", "must", "required", "deadline"]
  const ActionPhrases: seq<string> :=
    ["must", "required to", "need to", "should", "please", "action required"]

  /** Longest text sent to the summariser before "..." is appended. */
  const SummaryInputLimit: nat := 1000
  const ActionItemLength: nat := 100
  const MaxActionItems: nat := 3
  const WordLimit: nat := 2000
  const FallbackSentences: nat := 2

  datatype Tone = Urgent | Negative | Positive | Neutral
  datatype Urgency = Low | Medium | High

  function ToneName(t: Tone): string {
    match t
    case Urgent => "Urgent"
    case Negative => "Negative"
    case Positive => "Positive"
    case Neutral => "Neutral"
  }

  function UrgencyName(u: Urgency): string {
    match u
    case Low => "Low"
    case Medium => "Medium"
    case High => "High"
  }

  /** The top-scoring entry of the sentiment model's answer: its label, and
      whether its score is at least 0.7. */
  datatype SentimentTop = SentimentTop(name: string, confident: bool)

  /** `analyze_text`'s result dictionary. */
  datatype AnalysisResult = AnalysisResult(
    summary: string, tone: Tone, urgency: Urgency,
    suggestedReply: string, actionItems: seq<string>)

  // ---------------------------------------------------------------------
  // Keyword scoring

  /** `sum(1 for k in keys if k in s)`: the number of keys that occur in
      `s` as substrings, each counted at most once. */
  function CountPresent(keys: seq<string>, s: string): (n: nat)
    ensures n <= |keys|
    ensures n == 0 <==> forall i :: 0 <= i < |keys| ==> !Contains(s, keys[i])
    decreases |keys|
  {
    if keys == [] then 0
    else CountPresent(keys[..|keys| - 1], s) + (if Contains(s, keys[|keys| - 1]) then 1 else 0)
  }

  function UrgentCount(text: string): nat { CountPresent(UrgentKeywords, Lower(text)) }
  function CriticalCount(text: string): nat { CountPresent(CriticalWords, Lower(text)) }
  function AngryCount(text: string): nat { CountPresent(AngryKeywords, Lower(text)) }
  function PositiveCount(text: string): nat { CountPresent(PositiveKeywords, Lower(text)) }

  // ---------------------------------------------------------------------
  // Tone and urgency (the decision table)

  /** The urgency level: three or more urgent keywords is High, one or two
      is Medium, none is Low. */
  function UrgencyOf(text: string): Urgency {
    var c := UrgentCount(text);
    if c >= 3 then High else if c >= 1 then Medium else Low
  }

  /** The sentiment model's verdict when it is trusted: a confident
      LABEL_0 is Negative, a confident LABEL_2 is Positive. */
  function ModelTone(top: Option<SentimentTop>): Option<Tone> {
    match top
    case Some(t) =>
      if t.confident && t.name == "LABEL_0" then Some(Negative)
      else if t.confident && t.name == "LABEL_2" then Some(Positive)
      else None
    case None => None
  }

  /** Keyword dominance: more angry than positive keywords is Negative,
      the reverse is Positive, a tie is Neutral. */
  function KeywordTone(text: string): Tone {
    if AngryCount(text) > PositiveCount(text) then Negative
    else if PositiveCount(text) > AngryCount(text) then Positive
    else Neutral
  }

  /** The tone table: two or more critical words is Urgent; otherwise a
      trusted model verdict; otherwise keyword dominance. */
  function ToneOf(text: string, sentiment: string -> Option<SentimentTop>): Tone {
    if CriticalCount(text) >= 2 then Urgent
    else match ModelTone(sentiment(text))
      case Some(t) => t
      case None => KeywordTone(text)
  }

  /** `classify_tone_urgency(text)`, with the sentiment model as a parameter. */
  method ClassifyToneUrgency(text: string, sentiment: string -> Option<SentimentTop>)
    returns (tone: Tone, urgency: Urgency)
    ensures urgency == High <==> UrgentCount(text) >= 3
    ensures urgency == Medium <==> 1 <= UrgentCount(text) <= 2
    ensures urgency == Low <==> UrgentCount(text) == 0
    ensures tone == Urgent <==> CriticalCount(text) >= 2
    ensures tone == ToneOf(text, sentiment) && urgency == UrgencyOf(text)
  {
    var textLower := Lower(text);

    urgency := Low;
    var urgentCount := 0;
    for i := 0 to |UrgentKeywords|
      invariant urgentCount == CountPresent(UrgentKeywords[..i], textLower)
    {
      assert UrgentKeywords[..i + 1][..i] == UrgentKeywords[..i];
      if Contains(textLower, UrgentKeywords[i]) {
        urgentCount := urgentCount + 1;
      }
    }
    assert UrgentKeywords[..|UrgentKeywords|] == UrgentKeywords;
    if urgentCount >= 3 {
      urgency := High;
    } else if urgentCount >= 1 {
      urgency := Medium;
    }

    tone := Neutral;
    var criticalCount := CountPresent(CriticalWords, textLower);
    if criticalCount >= 2 {
      tone := Urgent;
    } else {
      var output := sentiment(text);
      if output.Some? {
        var top := output.value;
        if top.name == "LABEL_0" {
          tone := Negative;
        } else if top.name == "LABEL_2" {
          tone := Positive;
        }
        if !top.confident {
          tone := Neutral;
        }
      }
      if tone == Neutral {
        var angryCount := CountPresent(AngryKeywords, textLower);
        var positiveCount := CountPresent(PositiveKeywords, textLower);
        if angryCount > positiveCount {
          tone := Negative;
        } else if positiveCount > angryCount {
          tone := Positive;
        }
      }
    }
  }

  /** Each keyword list is counted by presence, so every count is bounded
      by the length of its list. */
  lemma CountsBounded(text: string)
    ensures UrgentCount(text) <= |UrgentKeywords| == 10
    ensures CriticalCount(text) <= |CriticalWords| == 7
    ensures AngryCount(text) <= |AngryKeywords| == 12
    ensures PositiveCount(text) <= |PositiveKeywords| == 11
  {
  }

  /** Low urgency means that no urgent keyword occurs at all. */
  lemma LowUrgencyIff(text: string)
    ensures UrgencyOf(text) == Low <==>
      forall i :: 0 <= i < |UrgentKeywords| ==> !Contains(Lower(text), UrgentKeywords[i])
  {
  }

  /** With two or more critical words the tone is Urgent whatever the
      sentiment model would answer: the model is not consulted. */
  lemma CriticalOverridesModel(text: string, s1: string -> Option<SentimentTop>,
                               s2: string -> Option<SentimentTop>)
    requires CriticalCount(text) >= 2
    ensures ToneOf(text, s1) == ToneOf(text, s2) == Urgent
  {
  }

  /** Below two critical words: a confident LABEL_0 gives Negative, a
      confident LABEL_2 gives Positive, and anything else (no answer, low
      confidence, another label) falls back to keyword dominance. */
  lemma ToneTable(text: string, sentiment: string -> Option<SentimentTop>)
    requires CriticalCount(text) < 2
    ensures sentiment(text) == Some(SentimentTop("LABEL_0", true)) ==> ToneOf(text, sentiment) == Negative
    ensures sentiment(text) == Some(SentimentTop("LABEL_2", true)) ==> ToneOf(text, sentiment) == Positive
    ensures (sentiment(text).None? || !sentiment(text).value.confident ||
             sentiment(text).value.name !in {"LABEL_0", "LABEL_2"}) ==>
            ToneOf(text, sentiment) == KeywordTone(text)
    ensures KeywordTone(text) == Negative <==> AngryCount(text) > PositiveCount(text)
    ensures KeywordTone(text) == Positive <==> PositiveCount(text) > AngryCount(text)
    ensures KeywordTone(text) == Neutral <==> AngryCount(text) == PositiveCount(text)
  {
  }

  // ---------------------------------------------------------------------
  // Action items

  predicate HasActionPhrase(sentence: string) {
    ContainsAny(Lower(sentence), ActionPhrases)
  }

  /** The sentences that carry an action phrase, in their original order. */
  function Qualifying(sentences: seq<string>): (r: seq<string>)
    ensures |r| <= |sentences|
    ensures forall i :: 0 <= i < |r| ==> r[i] in sentences && HasActionPhrase(r[i])
    ensures forall s :: s in sentences && HasActionPhrase(s) ==> s in r
    decreases |sentences|
  {
    if sentences == [] then []
    else
      var init := sentences[..|sentences| - 1];
      var last := sentences[|sentences| - 1];
      assert sentences == init + [last];
      Qualifying(init) + (if HasActionPhrase(last) then [last] else [])
  }

  /** Earlier sentences' action items come before later ones'. */
  lemma {:induction false} QualifyingInOrder(sentences: seq<string>, k: nat)
    requires k <= |sentences|
    ensures Qualifying(sentences[..k]) <= Qualifying(sentences)
    decreases |sentences|
  {
    if k < |sentences| {
      var init := sentences[..|sentences| - 1];
      assert init[..k] == sentences[..k];
      QualifyingInOrder(init, k);
    } else {
      assert sentences[..k] == sentences;
    }
  }

  lemma QualifyingStep(sentences: seq<string>, i: nat)
    requires i < |sentences|
    ensures Qualifying(sentences[..i + 1]) ==
            Qualifying(sentences[..i]) + (if HasActionPhrase(sentences[i]) then [sentences[i]] else [])
  {
    assert sentences[..i + 1][..i] == sentences[..i];
  }

  /** `sentence[:100]` for each sentence. */
  function Truncations(sentences: seq<string>): (r: seq<string>)
    ensures |r| == |sentences|
    ensures forall i :: 0 <= i < |r| ==> r[i] == Prefix(sentences[i], ActionItemLength)
    decreases |sentences|
  {
    if sentences == [] then []
    else Truncations(sentences[..|sentences| - 1]) + [Prefix(sentences[|sentences| - 1], ActionItemLength)]
  }

  lemma TruncationsSnoc(sentences: seq<string>, s: string)
    ensures Truncations(sentences + [s]) == Truncations(sentences) + [Prefix(s, ActionItemLength)]
  {
    assert (sentences + [s])[..|sentences|] == sentences;
  }

  /** What `extract_action_items(text)` returns. */
  function ActionItems(text: string): seq<string> {
    Prefix(Truncations(Qualifying(SimpleSentenceSplit(text))), MaxActionItems)
  }

  lemma ActionItemsBounded(text: string)
    ensures |ActionItems(text)| <= MaxActionItems
    ensures forall i :: 0 <= i < |ActionItems(text)| ==> |ActionItems(text)[i]| <= ActionItemLength
  {
  }

  /** `extract_action_items(text)` */
  method ExtractActionItems(text: string) returns (items: seq<string>)
    ensures items == ActionItems(text)
    ensures |items| <= MaxActionItems
    ensures forall i :: 0 <= i < |items| ==> |items[i]| <= ActionItemLength
  {
    var actionItems: seq<string> := [];
    var sentences := SimpleSentenceSplit(text);
    for i := 0 to |sentences|
      invariant actionItems == Truncations(Qualifying(sentences[..i]))
    {
      var sentence := sentences[i];
      QualifyingStep(sentences, i);
      var sentenceLower := Lower(sentence);
      if ContainsAny(sentenceLower, ActionPhrases) {
        TruncationsSnoc(Qualifying(sentences[..i]), sentence);
        actionItems := actionItems + [Prefix(sentence, ActionItemLength)];
      } else {
        assert Qualifying(sentences[..i + 1]) == Qualifying(sentences[..i]);
      }
    }
    assert sentences[..|sentences|] == sentences;
    items := Prefix(actionItems, MaxActionItems);
  }

  /** The action items are the first (at most three) sentences that carry
      an action phrase, in source order, each cut to 100 characters; so
      each is a prefix of a sentence of the text that carries one. */
  lemma ActionItemsShape(text: string)
    ensures var items := ActionItems(text);
            var q := Qualifying(SimpleSentenceSplit(text));
            && |items| == Min(MaxActionItems, |q|)
            && (forall i :: 0 <= i < |items| ==> items[i] == Prefix(q[i], ActionItemLength))
            && (forall i :: 0 <= i < |items| ==>
                  exists s :: s in SimpleSentenceSplit(text) && HasActionPhrase(s) && items[i] <= s)
  {
    var items := ActionItems(text);
    var q := Qualifying(SimpleSentenceSplit(text));
    forall i | 0 <= i < |items|
      ensures exists s :: s in SimpleSentenceSplit(text) && HasActionPhrase(s) && items[i] <= s
    {
      assert items[i] <= q[i];
      assert q[i] in SimpleSentenceSplit(text) && HasActionPhrase(q[i]);
    }
  }

  // ---------------------------------------------------------------------
  // Summary

  /** The text sent to the summariser: the first 1000 characters plus
      "..." when the text is longer, the text itself otherwise. */
  function SummaryRequest(text: string): (r: string)
    ensures |r| <= SummaryInputLimit + 3
    ensures text[..Min(|text|, SummaryInputLimit)] <= r
    ensures |text| <= SummaryInputLimit ==> r == text
    ensures |text| > SummaryInputLimit ==> |r| == SummaryInputLimit + 3 && r[SummaryInputLimit..] == "..."
  {
    if |text| > SummaryInputLimit then text[..SummaryInputLimit] + "..." else text
  }

  /** `summarize_text(text)`: the model's `summary_text` when it gives
      one, else the first two sentences of the untruncated text. */
  function SummarizeText(text: string, summarizer: string -> Option<string>): string {
    match summarizer(SummaryRequest(text))
    case Some(s) => s
    case None => FirstNSentences(text, FallbackSentences)
  }

  /** Without a usable model answer the summary is exactly the first two
      sentences of the text, joined by a space. */
  lemma SummaryFallback(text: string, summarizer: string -> Option<string>)
    requires summarizer(SummaryRequest(text)).None?
    ensures SimpleSentenceSplit(SummarizeText(text, summarizer)) == Prefix(SimpleSentenceSplit(text), 2)
    ensures SummarizeText(text, summarizer) == JoinWithSpaces(Prefix(SimpleSentenceSplit(text), 2))
  {
    FirstNSentencesRoundTrip(text, FallbackSentences);
    FirstNSentencesIsJoin(text, FallbackSentences);
  }

  /** The summariser is consulted only on the truncated request. */
  lemma SummaryDependsOnRequestOnly(text: string, m1: string -> Option<string>,
                                    m2: string -> Option<string>)
    requires m1(SummaryRequest(text)) == m2(SummaryRequest(text))
    ensures SummarizeText(text, m1) == SummarizeText(text, m2)
  {
  }

  // ---------------------------------------------------------------------
  // The pipeline

  /** `' '.join(text.split()[:2000])`: at most 2000 words, joined by
      single spaces. */
  function CleanText(text: string): (r: string)
    ensures Words(r) == Prefix(Words(text), WordLimit)
    ensures |Words(r)| <= WordLimit
  {
    var words := Prefix(Words(text), WordLimit);
    WordsAreWords(text);
    WordsOfJoin(words);
    JoinWithSpaces(words)
  }

  /** The cleaned text has no whitespace at either end and every
      whitespace character in it is a single space between two words. */
  lemma CleanTextSpacing(text: string)
    ensures SingleSpaced(CleanText(text))
    ensures CleanText(text) == [] || Tidy(CleanText(text))
  {
    var words := Prefix(Words(text), WordLimit);
    WordsAreWords(text);
    JoinSingleSpaced(words);
  }

  const SecurityReply: string :=
    "We are addressing this security emergency immediately. Our team is deploying the critical patches and will provide updates every 2 hours. All departments have been notified to comply with the security protocols."

  /** A reply that quotes the summary between a fixed opening and closing. */
  function Quoting(opening: string, summary: string, closing: string): string {
    opening + summary + closing
  }

  lemma QuotingQuotes(opening: string, summary: string, closing: string)
    ensures Contains(Quoting(opening, summary, closing), summary)
  {
    ContainsInfix(opening, summary, closing);
  }

  /** "security" occurs in the lower-cased text. */
  predicate MentionsSecurity(cleanText: string) {
    Contains(Lower(cleanText), "security")
  }

  const ActionOpening: string := "We are taking immediate action on this urgent matter. "
  const ActionClosing: string := " Our team is prioritizing this and will provide regular updates."
  const ThanksOpening: string := "Thank you for the positive feedback! "
  const ThanksClosing: string := " We appreciate your kind words and will continue to provide excellent service."
  const ReceivedOpening: string := "Received and noted. "
  const ReceivedClosing: string := " We will review this and get back to you shortly."

  /** The reply template chosen by tone and by "security" in the text. */
  function SuggestedReply(tone: Tone, cleanText: string, summary: string): string {
    if tone == Urgent || tone == Negative then
      if MentionsSecurity(cleanText) then SecurityReply
      else Quoting(ActionOpening, summary, ActionClosing)
    else if tone == Positive then
      Quoting(ThanksOpening, summary, ThanksClosing)
    else
      Quoting(ReceivedOpening, summary, ReceivedClosing)
  }

  /** An Urgent or Negative message about security gets the fixed security
      reply. */
  lemma SecurityReplyChosen(tone: Tone, cleanText: string, summary: string)
    requires (tone == Urgent || tone == Negative) && MentionsSecurity(cleanText)
    ensures SuggestedReply(tone, cleanText, summary) == SecurityReply
  {
  }

  /** Every other reply quotes the summary verbatim. */
  lemma ReplyQuotesSummary(tone: Tone, cleanText: string, summary: string)
    requires !((tone == Urgent || tone == Negative) && MentionsSecurity(cleanText))
    ensures Contains(SuggestedReply(tone, cleanText, summary), summary)
  {
    if tone == Urgent || tone == Negative {
      QuotingQuotes(ActionOpening, summary, ActionClosing);
    } else if tone == Positive {
      QuotingQuotes(ThanksOpening, summary, ThanksClosing);
    } else {
      QuotingQuotes(ReceivedOpening, summary, ReceivedClosing);
    }
  }

  /** `analyze_text(text)` */
  function AnalyzeText(text: string, summarizer: string -> Option<string>,
                       sentiment: string -> Option<SentimentTop>): AnalysisResult {
    var clean := CleanText(text);
    var summary := SummarizeText(clean, summarizer);
    var tone := ToneOf(clean, sentiment);
    var urgency := UrgencyOf(clean);
    var items := ActionItems(clean);
    AnalysisResult(summary, tone, urgency, SuggestedReply(tone, clean, summary), items)
  }

  /** Urgency comes from the keywords alone and the tone from the tone
      table, both on the cleaned text. */
  lemma AnalyzeTextRatings(text: string, summarizer: string -> Option<string>,
                           sentiment: string -> Option<SentimentTop>)
    ensures AnalyzeText(text, summarizer, sentiment).urgency == UrgencyOf(CleanText(text))
    ensures AnalyzeText(text, summarizer, sentiment).tone == ToneOf(CleanText(text), sentiment)
  {
  }

  /** Every analysis has at most three action items of at most 100
      characters, taken from the cleaned text (`ActionItemsShape` says
      which). */
  lemma AnalyzeTextItems(text: string, summarizer: string -> Option<string>,
                         sentiment: string -> Option<SentimentTop>)
    ensures var items := AnalyzeText(text, summarizer, sentiment).actionItems;
            && items == ActionItems(CleanText(text))
            && |items| <= MaxActionItems
            && (forall i :: 0 <= i < |items| ==> |items[i]| <= ActionItemLength)
  {
    var clean := CleanText(text);
    assert AnalyzeText(text, summarizer, sentiment).actionItems == ActionItems(clean);
    ActionItemsBounded(clean);
  }

  /** Every analysis' reply is the security reply or quotes the summary. */
  lemma AnalyzeTextReply(text: string, summarizer: string -> Option<string>,
                         sentiment: string -> Option<SentimentTop>)
    ensures var r := AnalyzeText(text, summarizer, sentiment);
            r.suggestedReply == SecurityReply || Contains(r.suggestedReply, r.summary)
  {
    var clean := CleanText(text);
    var tone := ToneOf(clean, sentiment);
    if !((tone == Urgent || tone == Negative) && MentionsSecurity(clean)) {
      ReplyQuotesSummary(tone, clean, SummarizeText(clean, summarizer));
    }
  }

  /** The stages are independent: the summariser's answer affects only the
      summary and the reply, the sentiment model's only the tone and the
      reply. */
  lemma StagesIndependent(text: string, m1: string -> Option<string>, m2: string -> Option<string>,
                          s1: string -> Option<SentimentTop>, s2: string -> Option<SentimentTop>)
    ensures AnalyzeText(text, m1, s1).urgency == AnalyzeText(text, m2, s2).urgency
    ensures AnalyzeText(text, m1, s1).actionItems == AnalyzeText(text, m2, s2).actionItems
    ensures AnalyzeText(text, m1, s1).tone == AnalyzeText(text, m2, s1).tone
    ensures AnalyzeText(text, m1, s1).summary == AnalyzeText(text, m1, s2).summary
  {
  }

  /** There is no short-input shortcut: the empty text, with no usable
      summariser answer, gets an empty summary and no action items. */
  lemma EmptyTextEmptySummary(summarizer: string -> Option<string>,
                              sentiment: string -> Option<SentimentTop>)
    requires summarizer("") == None
    ensures AnalyzeText("", summarizer, sentiment).summary == ""
    ensures AnalyzeText("", summarizer, sentiment).actionItems == []
  {
    assert Words("") == [];
    assert CleanText("") == "";
    SplitEmptyIff("");
    FirstNSentencesIsJoin("", FallbackSentences);
  }
}

/** The lighter analyser (ai_service.py): rule-based urgency, remote
    summary and sentiment on a truncated text, and a letter-style reply.
    As in the main analyser, each remote model is a parameter mapping the
    text it is sent to its answer, `None` standing for no usable answer. */
module AiService {
  import opened Wrappers
  import opened TextUtil
  import opened Analyze

  const UrgencyKeywords: seq<string> :=
    ["urgent", "asap", "emergency", "deadline", "immediately", "critical"]

  /** The summary when the summariser gives none. */
  const NoSummary: string := "Could not generate summary."
  /** Characters of the message that are analysed at all. */
  const TextLimit: nat := 1500
  /** Characters of the analysed text that the sentiment model sees. */
  const ToneInputLimit: nat := 500

  /** `analyze_email`'s result dictionary; the tone is the model's label
      as it comes back, capitalised. */
  datatype EmailAnalysis = EmailAnalysis(summary: string, urgency: Urgency, tone: string, reply: string)

  /** `s.capitalize()`: the first character upper-cased, the rest lower-cased. */
  function Capitalize(s: string): (r: string)
    ensures |r| == |s|
  {
    if s == [] then [] else [UpperChar(s[0])] + Lower(s[1..])
  }

  lemma CapitalizeIdempotent(s: string)
    ensures Capitalize(Capitalize(s)) == Capitalize(s)
    ensures s != [] ==> Capitalize(s)[0] == UpperChar(s[0])
    ensures forall i :: 1 <= i < |s| ==> Capitalize(s)[i] == LowerChar(s[i])
  {
    if s != [] {
      var c := Capitalize(s);
      assert c[1..] == Lower(s[1..]);
      assert Lower(c[1..]) == c[1..];
    }
  }

  /** The rule: any urgency keyword in the lower-cased analysed text. */
  predicate IsUrgent(cleanText: string) {
    ContainsAny(Lower(cleanText), UrgencyKeywords)
  }

  const Greeting: string := "Dear Sender,\n\n"
  const Closing: string := "\n\nBest regards,"

  /** A reply letter: the greeting, an opening, a quoted piece of the
      summary, the rest of the body and the sign-off. */
  function Letter(opening: string, quoted: string, rest: string): string {
    Greeting + opening + quoted + rest + Closing
  }

  const UrgentOpening: string := "We have received your urgent message " + "regarding '"
  const ApologyOpening: string := "I apologize for the issues raised " + "regarding '"
  const NotedOpening: string := "Thank you for your email. " + "We have noted the details: "
  const UrgentRest: string := "...'. Our team is prioritizing this and will respond shortly."
  const ApologyRest: string := "...'. We are looking into this immediately to resolve it."
  const NotedRest: string := "...\n\nWe will get back to you soon."

  /** High urgency wins over tone; a Negative tone gets the apology. */
  function Reply(urgency: Urgency, tone: string, summary: string): string {
    if urgency == High then
      Letter(UrgentOpening, Prefix(summary, 30), UrgentRest)
    else if tone == "Negative" then
      Letter(ApologyOpening, Prefix(summary, 30), ApologyRest)
    else
      Letter(NotedOpening, Prefix(summary, 50), NotedRest)
  }

  lemma LetterShape(opening: string, quoted: string, rest: string)
    requires opening != []
    ensures var r := Letter(opening, quoted, rest);
            && Greeting <= r
            && |r| >= |Closing| && r[|r| - |Closing|..] == Closing
            && |r| > |Greeting| && r[|Greeting|] == opening[0]
            && Contains(r, quoted)
            && |r| == |Greeting| + |opening| + |quoted| + |rest| + |Closing|
  {
    var r := Letter(opening, quoted, rest);
    assert r == (Greeting + opening) + quoted + (rest + Closing);
    ContainsInfix(Greeting + opening, quoted, rest + Closing);
    assert r[|Greeting|] == (Greeting + opening)[|Greeting|];
  }

  /** `analyze_email(text)` */
  function AnalyzeEmail(text: string, summarizer: string -> Option<string>,
                        sentiment: string -> Option<string>): EmailAnalysis {
    var cleanText := Prefix(text, TextLimit);
    var urgency := if IsUrgent(cleanText) then High else Low;
    var summary := summarizer(cleanText).GetOr(NoSummary);
    var tone := match sentiment(Prefix(cleanText, ToneInputLimit))
      case Some(name) => Capitalize(name)
      case None => "Neutral";
    EmailAnalysis(summary, urgency, tone, Reply(urgency, tone, summary))
  }

  /** Urgency is two-level here: High exactly when one of the six keywords
      occurs in the lower-cased first 1500 characters, Low otherwise. */
  lemma UrgencyIsTwoLevel(text: string, summarizer: string -> Option<string>,
                          sentiment: string -> Option<string>)
    ensures AnalyzeEmail(text, summarizer, sentiment).urgency != Medium
    ensures AnalyzeEmail(text, summarizer, sentiment).urgency == High <==>
      exists i :: 0 <= i < |UrgencyKeywords| && Contains(Lower(Prefix(text, TextLimit)), UrgencyKeywords[i])
  {
  }

  /** Without model answers the summary is the fixed apology text and the
      tone is Neutral; with one, the summary is the model's text and the
      tone its capitalised label. */
  lemma ModelFallbacks(text: string, summarizer: string -> Option<string>,
                       sentiment: string -> Option<string>)
    ensures var r := AnalyzeEmail(text, summarizer, sentiment);
            && (summarizer(Prefix(text, TextLimit)).None? ==> r.summary == NoSummary)
            && (summarizer(Prefix(text, TextLimit)).Some? ==> r.summary == summarizer(Prefix(text, TextLimit)).value)
            && (sentiment(Prefix(text, ToneInputLimit)).None? ==> r.tone == "Neutral")
            && (sentiment(Prefix(text, ToneInputLimit)).Some? ==>
                  r.tone == Capitalize(sentiment(Prefix(text, ToneInputLimit)).value))
            && (sentiment(Prefix(text, ToneInputLimit)) == Some("negative") ==> r.tone == "Negative")
  {
    assert Prefix(Prefix(text, TextLimit), ToneInputLimit) == Prefix(text, ToneInputLimit);
    CapitalizeNegative();
  }

  lemma CapitalizeNegative()
    ensures Capitalize("negative") == "Negative"
  {
    assert Lower("egative") == "egative";
  }

  /** Only the first 1500 characters matter, the summariser is sent exactly
      those and the sentiment model exactly the first 500. */
  lemma InputsSent(text: string, m1: string -> Option<string>, m2: string -> Option<string>,
                   s1: string -> Option<string>, s2: string -> Option<string>)
    requires m1(Prefix(text, TextLimit)) == m2(Prefix(text, TextLimit))
    requires s1(Prefix(text, ToneInputLimit)) == s2(Prefix(text, ToneInputLimit))
    ensures AnalyzeEmail(text, m1, s1) == AnalyzeEmail(text, m2, s2)
    ensures AnalyzeEmail(Prefix(text, TextLimit), m1, s1) == AnalyzeEmail(text, m1, s1)
  {
    assert Prefix(Prefix(text, TextLimit), ToneInputLimit) == Prefix(text, ToneInputLimit);
    assert Prefix(Prefix(text, TextLimit), TextLimit) == Prefix(text, TextLimit);
  }

  /** Every reply is a letter: it opens with the greeting, closes with the
      sign-off and quotes the start of the summary (30 characters in the
      urgent and apology letters, 50 in the acknowledgement). The first
      character after the greeting tells the three letters apart, so the
      reply shows which branch was taken: High urgency gives the urgent
      letter whatever the tone, the apology goes only to a Low-urgency
      Negative message, and everything else is acknowledged. */
  lemma ReplyShape(urgency: Urgency, tone: string, summary: string)
    ensures |Reply(urgency, tone, summary)| > |Greeting|
    ensures Reply(urgency, tone, summary)[|Greeting|] == 'W' <==> urgency == High
    ensures Reply(urgency, tone, summary)[|Greeting|] == 'I' <==> urgency != High && tone == "Negative"
    ensures Reply(urgency, tone, summary)[|Greeting|] == 'T' <==> urgency != High && tone != "Negative"
    ensures Greeting <= Reply(urgency, tone, summary)
    ensures var r := Reply(urgency, tone, summary);
            |r| >= |Closing| && r[|r| - |Closing|..] == Closing
    ensures Contains(Reply(urgency, tone, summary), Prefix(summary, if urgency == High || tone == "Negative" then 30 else 50))
    ensures urgency == High ==>
              |Reply(urgency, tone, summary)| == |Greeting| + |UrgentOpening| + Min(30, |summary|) + |UrgentRest| + |Closing|
    ensures urgency != High && tone == "Negative" ==>
              |Reply(urgency, tone, summary)| == |Greeting| + |ApologyOpening| + Min(30, |summary|) + |ApologyRest| + |Closing|
    ensures urgency != High && tone != "Negative" ==>
              |Reply(urgency, tone, summary)| == |Greeting| + |NotedOpening| + Min(50, |summary|) + |NotedRest| + |Closing|
  {
    if urgency == High {
      assert UrgentOpening[0] == 'W';
      LetterShape(UrgentOpening, Prefix(summary, 30), UrgentRest);
    } else if tone == "Negative" {
      assert ApologyOpening[0] == 'I';
      LetterShape(ApologyOpening, Prefix(summary, 30), ApologyRest);
    } else {
      assert NotedOpening[0] == 'T';
      LetterShape(NotedOpening, Prefix(summary, 50), NotedRest);
    }
  }
}

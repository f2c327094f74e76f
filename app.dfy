/** The web application's in-memory store (app.py): the lists that stand in
    for the database when it is not configured, the statistics and detail
    views over them, the inbox sync with its duplicate check, the chat
    webhook's text extraction, and the chat bot's button labels. */
module App {
  import opened Wrappers
  import opened TextUtil
  import Analyze

  /** A stored analysis document, reduced to the members the in-memory
      code reads; `None` is an absent member. */
  datatype Payload = Payload(messageId: Option<string>, id: Option<string>,
                             tone: Option<string>, urgency: Option<string>, summary: Option<string>)

  /** An entry of `GLOBAL_STATS`. */
  datatype StatRecord = StatRecord(tone: string, urgency: string, summary: string)

  /** `GLOBAL_STATS` and `GLOBAL_EMAILS`. */
  datatype StoreState = StoreState(stats: seq<StatRecord>, emails: seq<Payload>)

  /** The record kept for the statistics, with the defaults Neutral, Low
      and the empty summary. */
  function Minimal(p: Payload): StatRecord {
    StatRecord(p.tone.GetOr("Neutral"), p.urgency.GetOr("Low"), p.summary.GetOr(""))
  }

  /** `save_analysis_doc(payload)` without the database. */
  function SaveStep(st: StoreState, p: Payload): StoreState {
    StoreState(st.stats + [Minimal(p)], [p] + st.emails)
  }

  /** `any(e.get("messageId") == m for e in GLOBAL_EMAILS)` */
  predicate HasMessageId(emails: seq<Payload>, m: string) {
    exists k :: 0 <= k < |emails| && emails[k].messageId == Some(m)
  }

  /** Saving adds exactly one statistics record at the end and puts the
      payload first in the email list; every existing entry stays, in
      order. A saved message id is then found by the duplicate check. */
  lemma SaveShape(st: StoreState, p: Payload)
    ensures var n := SaveStep(st, p);
            && |n.stats| == |st.stats| + 1 && n.stats[..|st.stats|] == st.stats
            && n.stats[|st.stats|] == Minimal(p)
            && |n.emails| == |st.emails| + 1 && n.emails[0] == p && n.emails[1..] == st.emails
    ensures forall m :: p.messageId == Some(m) ==> HasMessageId(SaveStep(st, p).emails, m)
    ensures forall m :: HasMessageId(st.emails, m) ==> HasMessageId(SaveStep(st, p).emails, m)
  {
    var n := SaveStep(st, p);
    forall m | HasMessageId(st.emails, m)
      ensures HasMessageId(n.emails, m)
    {
      var k :| 0 <= k < |st.emails| && st.emails[k].messageId == Some(m);
      assert n.emails[k + 1] == st.emails[k];
    }
    forall m | p.messageId == Some(m)
      ensures HasMessageId(n.emails, m)
    {
      assert n.emails[0] == p;
    }
  }

  // ---------------------------------------------------------------------
  // Statistics

  predicate IsHigh(r: StatRecord) {
    r.urgency == "High"
  }

  predicate IsAngry(r: StatRecord) {
    Contains(r.tone, "Angry") || Contains(r.tone, "Negative")
  }

  predicate IsPositive(r: StatRecord) {
    Contains(r.tone, "Positive")
  }

  /** `sum(1 for x in xs if p(x))` */
  function Count(xs: seq<StatRecord>, p: StatRecord -> bool): (n: nat)
    ensures n <= |xs|
    decreases |xs|
  {
    if xs == [] then 0 else Count(xs[..|xs| - 1], p) + (if p(xs[|xs| - 1]) then 1 else 0)
  }

  /** Records that satisfy neither of two exclusive tests are what is left
      over after both counts. */
  lemma {:induction false} CountExclusive(xs: seq<StatRecord>, p: StatRecord -> bool, q: StatRecord -> bool)
    requires forall k :: 0 <= k < |xs| ==> !(p(xs[k]) && q(xs[k]))
    ensures Count(xs, p) + Count(xs, q) <= |xs|
    decreases |xs|
  {
    if xs != [] {
      var init := xs[..|xs| - 1];
      assert forall k :: 0 <= k < |init| ==> init[k] == xs[k];
      CountExclusive(init, p, q);
    }
  }

  function Reverse<T>(xs: seq<T>): (r: seq<T>)
    ensures |r| == |xs|
    ensures forall k :: 0 <= k < |xs| ==> r[k] == xs[|xs| - 1 - k]
    decreases |xs|
  {
    if xs == [] then [] else [xs[|xs| - 1]] + Reverse(xs[..|xs| - 1])
  }

  /** `xs[-5:][::-1]` */
  function Recent(xs: seq<StatRecord>): seq<StatRecord> {
    Reverse(xs[|xs| - Min(5, |xs|)..])
  }

  /** The statistics view's response. */
  datatype StatsReport = StatsReport(total: nat, highUrgency: nat, angry: nat, positive: nat,
                                     neutral: int, recent: seq<StatRecord>)

  /** The in-memory branch of the statistics view. */
  function StatsOf(xs: seq<StatRecord>): StatsReport {
    var angry := Count(xs, IsAngry);
    var positive := Count(xs, IsPositive);
    StatsReport(|xs|, Count(xs, IsHigh), angry, positive, |xs| - angry - positive, Recent(xs))
  }

  /** Every count is at most the total, and `recent` is the last
      `min(5, total)` records, newest first. */
  lemma StatsShape(xs: seq<StatRecord>)
    ensures var r := StatsOf(xs);
            && r.total == |xs|
            && r.highUrgency <= r.total && r.angry <= r.total && r.positive <= r.total
            && r.neutral == r.total - r.angry - r.positive
            && |r.recent| == Min(5, |xs|)
            && forall k :: 0 <= k < |r.recent| ==> r.recent[k] == xs[|xs| - 1 - k]
  {
  }

  /** The tones the analyser produces. */
  predicate KnownTone(t: string) {
    t == "Urgent" || t == "Negative" || t == "Positive" || t == "Neutral"
  }

  /** No produced tone is counted both as angry and as positive. */
  lemma KnownToneExclusive(r: StatRecord)
    requires KnownTone(r.tone)
    ensures !(IsAngry(r) && IsPositive(r))
  {
    var t := r.tone;
    if t == "Positive" {
      assert !IsAngry(r) by {
        assert forall i :: 0 <= i < |t| ==> t[i] != 'A' && t[i] != 'N';
        ContainsNeedsFirstChar(t, "Angry");
        ContainsNeedsFirstChar(t, "Negative");
      }
    } else {
      assert !IsPositive(r) by {
        assert forall i :: 0 <= i < |t| ==> t[i] != 'P';
        ContainsNeedsFirstChar(t, "Positive");
      }
    }
  }

  /** `neutral` is reported as `total - angry - positive`; it is never
      negative while every stored tone is one the analyser produces. */
  lemma NeutralNonNegative(xs: seq<StatRecord>)
    requires forall k :: 0 <= k < |xs| ==> KnownTone(xs[k].tone)
    ensures StatsOf(xs).neutral >= 0
  {
    forall k | 0 <= k < |xs|
      ensures !(IsAngry(xs[k]) && IsPositive(xs[k]))
    {
      KnownToneExclusive(xs[k]);
    }
    CountExclusive(xs, IsAngry, IsPositive);
  }

  /** A tone that mentions both "Positive" and "Negative" is counted twice,
      so a store holding just that one record reports `neutral` as -1. */
  lemma MixedToneCountedTwice(a: string, b: string, c: string, urgency: string, summary: string)
    ensures StatsOf([StatRecord(a + "Positive" + b + "Negative" + c, urgency, summary)]).neutral == -1
  {
    var t := a + "Positive" + b + "Negative" + c;
    var x := StatRecord(t, urgency, summary);
    assert IsPositive(x) by {
      assert t == a + "Positive" + (b + "Negative" + c);
      ContainsInfix(a, "Positive", b + "Negative" + c);
    }
    assert IsAngry(x) by {
      assert t == (a + "Positive" + b) + "Negative" + c;
      ContainsInfix(a + "Positive" + b, "Negative", c);
    }
    SingleNeutral(x);
  }

  lemma SingleNeutral(x: StatRecord)
    ensures StatsOf([x]).neutral == 1 - (if IsAngry(x) then 1 else 0) - (if IsPositive(x) then 1 else 0)
  {
    assert [x][..0] == [];
  }

  // ---------------------------------------------------------------------
  // Detail lookup

  predicate DetailMatches(e: Payload, emailId: string) {
    e.messageId == Some(emailId) || e.id == Some(emailId)
  }

  /** The position of the first stored email whose `messageId` or `id` is
      `emailId`, or `|emails|` when there is none (a 404). */
  function DetailIndex(emails: seq<Payload>, emailId: string): (k: nat)
    ensures k <= |emails|
    ensures k < |emails| ==> DetailMatches(emails[k], emailId)
    ensures forall j :: 0 <= j < k ==> !DetailMatches(emails[j], emailId)
    decreases |emails|
  {
    if emails == [] then 0
    else if DetailMatches(emails[0], emailId) then 0
    else 1 + DetailIndex(emails[1..], emailId)
  }

  /** Newest first: of two stored emails with the same message id, the
      detail view shows the one saved last. */
  lemma DetailShowsLatest(st: StoreState, p: Payload, emailId: string)
    requires p.messageId == Some(emailId)
    ensures DetailIndex(SaveStep(st, p).emails, emailId) == 0
  {
  }

  // ---------------------------------------------------------------------
  // Inbox sync

  /** An entry of the inbox listing: something other than an object, or
      an object with `messageId` and `messageIdString` members. */
  datatype InboxEntry = NotADict | Message(messageId: Option<string>, messageIdString: Option<string>)

  /** `str(msg.get("messageId") or msg.get("messageIdString") or "")` */
  function SyncId(m: InboxEntry): string
    requires m.Message?
  {
    if m.messageId.Some? && m.messageId.value != "" then m.messageId.value
    else if m.messageIdString.Some? && m.messageIdString.value != "" then m.messageIdString.value
    else ""
  }

  predicate HasId(m: InboxEntry) {
    m.Message? && SyncId(m) != ""
  }

  /** What the mail API answers for a message's content: its subject and
      body (`get_email_content`, with the token and the URL left out). When
      no token can be had, `get_email_content` returns empty strings, which
      `Remote.content` gives as `Some(MailContent("", ""))`. */
  datatype MailContent = MailContent(subject: string, body: string)

  /** The remote services a sync talks to: the content request (`None` when
      it raises), the HTML-to-text conversion (`None` when it raises), and
      the two models behind `analyze_text`. */
  datatype Remote = Remote(content: string -> Option<MailContent>,
                           htmlText: string -> Option<string>,
                           summarizer: string -> Option<string>,
                           sentiment: string -> Option<Analyze.SentimentTop>)

  /** The content `analyze_zoho_message` works on: a failed request gives
      the subject "Error" and an empty body. */
  function Fetched(id: string, remote: Remote): MailContent {
    match remote.content(id)
    case Some(c) => c
    case None => MailContent("Error", "")
  }

  predicate LooksLikeHtml(body: string) {
    body != "" && (Contains(body, "<html") || Contains(body, "<div") || Contains(body, "<p>"))
  }

  /** The body as text: converted when it looks like HTML and the
      conversion succeeds, the body itself otherwise. */
  function TextContent(body: string, remote: Remote): string {
    if LooksLikeHtml(body) && remote.htmlText(body).Some? then remote.htmlText(body).value else body
  }

  /** The text analysed for a message: subject, a blank line, the text
      content, stripped. */
  function FullText(c: MailContent, remote: Remote): string {
    Strip(c.subject + "\n\n" + TextContent(c.body, remote))
  }

  /** The analysis `analyze_zoho_message` computes for a message. */
  function MessageAnalysis(id: string, remote: Remote): Analyze.AnalysisResult {
    Analyze.AnalyzeText(FullText(Fetched(id, remote), remote), remote.summarizer, remote.sentiment)
  }

  /** A plain-text body is analysed as it is, and a failed content request
      makes the message be analysed as the word "Error" (`MessageAnalysis`
      passes `FullText` to `analyze_text`). */
  lemma MessageAnalysisInput(id: string, remote: Remote)
    ensures var c := Fetched(id, remote);
            !LooksLikeHtml(c.body) ==> FullText(c, remote) == Strip(c.subject + "\n\n" + c.body)
    ensures remote.content(id).None? ==> FullText(Fetched(id, remote), remote) == "Error"
  {
    if remote.content(id).None? {
      var s := "Error" + "\n\n" + "";
      assert TrimLeft(s) == s;
      assert s[..|s| - 1] == "Error\n" && "Error\n"[..5] == "Error";
      assert TrimRight(s) == TrimRight("Error\n") == TrimRight("Error") == "Error";
    }
  }

  /** The document `analyze_zoho_message` saves for a message. */
  function ZohoDoc(messageId: string, a: Analyze.AnalysisResult): Payload {
    Payload(Some(messageId), None, Some(Analyze.ToneName(a.tone)), Some(Analyze.UrgencyName(a.urgency)), Some(a.summary))
  }

  /** The saved document carries the message id and the statistics record
      holds the analysis' tone, urgency and summary. */
  lemma ZohoDocRecordsAnalysis(messageId: string, a: Analyze.AnalysisResult)
    ensures ZohoDoc(messageId, a).messageId == Some(messageId)
    ensures Minimal(ZohoDoc(messageId, a)) == StatRecord(Analyze.ToneName(a.tone), Analyze.UrgencyName(a.urgency), a.summary)
  {
  }

  datatype SyncOut = SyncOut(state: StoreState, processed: nat, skipped: nat)

  /** One entry of the sync loop: entries without an id are passed over,
      a known id is skipped, and otherwise the message is analysed and
      saved; `analysis` gives a message's analysis (`MessageAnalysis` in
      the application). Without the database nothing in
      `analyze_zoho_message` can raise, so the `except` branch of the loop
      is never taken. */
  function SyncOne(r: SyncOut, m: InboxEntry, analysis: string -> Analyze.AnalysisResult): SyncOut {
    if !HasId(m) then r
    else
      var id := SyncId(m);
      if HasMessageId(r.state.emails, id) then r.(skipped := r.skipped + 1)
      else SyncOut(SaveStep(r.state, ZohoDoc(id, analysis(id))), r.processed + 1, r.skipped)
  }

  /** The sync loop of `fetch_zoho_emails` without the database. */
  function Sync(st: StoreState, ms: seq<InboxEntry>, analysis: string -> Analyze.AnalysisResult): SyncOut
    decreases |ms|
  {
    if ms == [] then SyncOut(st, 0, 0)
    else SyncOne(Sync(st, ms[..|ms| - 1], analysis), ms[|ms| - 1], analysis)
  }

  function IdCount(ms: seq<InboxEntry>): (n: nat)
    ensures n <= |ms|
    decreases |ms|
  {
    if ms == [] then 0 else IdCount(ms[..|ms| - 1]) + (if HasId(ms[|ms| - 1]) then 1 else 0)
  }

  /** A known id is skipped without any request and with nothing else
      changed; a new id is analysed and saved; every entry with an id is
      counted once as processed or skipped. */
  lemma SyncOneShape(r: SyncOut, m: InboxEntry, analysis: string -> Analyze.AnalysisResult)
    ensures var o := SyncOne(r, m, analysis);
            && o.processed + o.skipped == r.processed + r.skipped + (if HasId(m) then 1 else 0)
            && (!HasId(m) ==> o == r)
            && (HasId(m) && HasMessageId(r.state.emails, SyncId(m)) ==> o == r.(skipped := r.skipped + 1))
            && (HasId(m) && !HasMessageId(r.state.emails, SyncId(m)) ==>
                  o.state == SaveStep(r.state, ZohoDoc(SyncId(m), analysis(SyncId(m))))
                  && o.processed == r.processed + 1)
  {
  }

  /** One entry keeps the existing lists in order. */
  lemma SyncOneKeeps(r: SyncOut, m: InboxEntry, analysis: string -> Analyze.AnalysisResult)
    ensures var o := SyncOne(r, m, analysis);
            && r.state.stats <= o.state.stats
            && |r.state.emails| <= |o.state.emails|
            && o.state.emails[|o.state.emails| - |r.state.emails|..] == r.state.emails
  {
    if HasId(m) && !HasMessageId(r.state.emails, SyncId(m)) {
      SaveShape(r.state, ZohoDoc(SyncId(m), analysis(SyncId(m))));
    }
  }

  /** After one entry with an id, that id is known. */
  lemma SyncOneSaves(r: SyncOut, m: InboxEntry, analysis: string -> Analyze.AnalysisResult)
    requires HasId(m)
    ensures HasMessageId(SyncOne(r, m, analysis).state.emails, SyncId(m))
  {
    if !HasMessageId(r.state.emails, SyncId(m)) {
      SaveShape(r.state, ZohoDoc(SyncId(m), analysis(SyncId(m))));
    }
  }

  /** Entries without an id are neither processed nor skipped, and every
      entry with an id is one or the other. */
  lemma {:induction false} SyncCounts(st: StoreState, ms: seq<InboxEntry>,
                                   analysis: string -> Analyze.AnalysisResult)
    ensures Sync(st, ms, analysis).processed + Sync(st, ms, analysis).skipped == IdCount(ms)
    decreases |ms|
  {
    if ms != [] {
      SyncCounts(st, ms[..|ms| - 1], analysis);
      SyncOneShape(Sync(st, ms[..|ms| - 1], analysis), ms[|ms| - 1], analysis);
    }
  }

  /** An email list ending in another keeps every message id of it. */
  lemma SuffixKeepsIds(big: seq<Payload>, small: seq<Payload>)
    requires |small| <= |big| && big[|big| - |small|..] == small
    ensures forall id :: HasMessageId(small, id) ==> HasMessageId(big, id)
  {
    forall id | HasMessageId(small, id)
      ensures HasMessageId(big, id)
    {
      var k :| 0 <= k < |small| && small[k].messageId == Some(id);
      assert big[|big| - |small| + k] == small[k];
    }
  }

  lemma SuffixTrans(a: seq<Payload>, b: seq<Payload>, c: seq<Payload>)
    requires |b| <= |a| && a[|a| - |b|..] == b
    requires |c| <= |b| && b[|b| - |c|..] == c
    ensures |c| <= |a| && a[|a| - |c|..] == c
  {
    assert a[|a| - |c|..] == a[|a| - |b|..][|b| - |c|..];
  }

  /** Existing statistics and emails are kept in order, new emails coming
      before them. */
  lemma {:induction false} SyncKeepsOrder(st: StoreState, ms: seq<InboxEntry>,
                                        analysis: string -> Analyze.AnalysisResult)
    ensures var o := Sync(st, ms, analysis);
            && st.stats <= o.state.stats
            && |st.emails| <= |o.state.emails|
            && o.state.emails[|o.state.emails| - |st.emails|..] == st.emails
    decreases |ms|
  {
    if ms != [] {
      SyncKeepsOrder(st, ms[..|ms| - 1], analysis);
      var r := Sync(st, ms[..|ms| - 1], analysis);
      SyncOneKeeps(r, ms[|ms| - 1], analysis);
      SuffixTrans(Sync(st, ms, analysis).state.emails, r.state.emails, st.emails);
    }
  }

  /** Every message id known before a sync is known after it. */
  lemma SyncKeeps(st: StoreState, ms: seq<InboxEntry>, analysis: string -> Analyze.AnalysisResult)
    ensures forall id :: HasMessageId(st.emails, id) ==> HasMessageId(Sync(st, ms, analysis).state.emails, id)
  {
    SyncKeepsOrder(st, ms, analysis);
    SuffixKeepsIds(Sync(st, ms, analysis).state.emails, st.emails);
  }

  /** After a sync, every listed message with an id is found by the
      duplicate check. */
  lemma {:induction false} SyncSaves(st: StoreState, ms: seq<InboxEntry>,
                                   analysis: string -> Analyze.AnalysisResult)
    ensures forall k :: 0 <= k < |ms| && HasId(ms[k]) ==>
              HasMessageId(Sync(st, ms, analysis).state.emails, SyncId(ms[k]))
    decreases |ms|
  {
    if ms != [] {
      var init := ms[..|ms| - 1];
      SyncSaves(st, init, analysis);
      var r := Sync(st, init, analysis);
      SyncOneKeeps(r, ms[|ms| - 1], analysis);
      SuffixKeepsIds(Sync(st, ms, analysis).state.emails, r.state.emails);
      if HasId(ms[|ms| - 1]) {
        SyncOneSaves(r, ms[|ms| - 1], analysis);
      }
      assert forall k :: 0 <= k < |init| ==> init[k] == ms[k];
    }
  }

  /** A sync over messages whose ids are all known changes nothing and
      skips every entry with an id. */
  lemma {:induction false} SyncOfKnown(st: StoreState, ms: seq<InboxEntry>,
                                   analysis: string -> Analyze.AnalysisResult)
    requires forall k :: 0 <= k < |ms| && HasId(ms[k]) ==> HasMessageId(st.emails, SyncId(ms[k]))
    ensures Sync(st, ms, analysis) == SyncOut(st, 0, IdCount(ms))
    decreases |ms|
  {
    if ms != [] {
      var init := ms[..|ms| - 1];
      assert forall k :: 0 <= k < |init| ==> init[k] == ms[k];
      SyncOfKnown(st, init, analysis);
    }
  }

  /** Syncing the same listing twice: the second sync analyses nothing,
      leaves the store as the first left it and skips every entry with an
      id. */
  lemma SyncTwice(st: StoreState, ms: seq<InboxEntry>, analysis: string -> Analyze.AnalysisResult)
    ensures var once := Sync(st, ms, analysis);
            Sync(once.state, ms, analysis) == SyncOut(once.state, 0, IdCount(ms))
  {
    SyncSaves(st, ms, analysis);
    SyncOfKnown(Sync(st, ms, analysis).state, ms, analysis);
  }

  /** Only documents with a produced tone are saved by a sync. */
  lemma SyncKeepsKnownTones(st: StoreState, ms: seq<InboxEntry>, analysis: string -> Analyze.AnalysisResult)
    requires forall k :: 0 <= k < |st.stats| ==> KnownTone(st.stats[k].tone)
    ensures var o := Sync(st, ms, analysis);
            forall k :: 0 <= k < |o.state.stats| ==> KnownTone(o.state.stats[k].tone)
    decreases |ms|
  {
    if ms != [] {
      SyncKeepsKnownTones(st, ms[..|ms| - 1], analysis);
    }
  }

  // ---------------------------------------------------------------------
  // Chat webhook

  /** A JSON value as the webhook handler inspects it; `JOther` is any
      other value, with its truthiness. */
  datatype Json = JStr(s: string) | JNull | JObject(members: map<string, Json>) | JOther(truthy: bool)

  predicate JTruthy(v: Json) {
    match v
    case JStr(s) => s != ""
    case JNull => false
    case JObject(m) => |m| > 0
    case JOther(t) => t
  }

  /** `obj.get(key)` */
  function Get(obj: map<string, Json>, key: string): Json {
    if key in obj then obj[key] else JNull
  }

  /** The text's place in the body: top-level `message`, else the
      `message` or `text` member of a `data` object, else the `message`
      member of a `visitor` object, else the empty string. */
  function WebhookText(data: Json): Json {
    match data
    case JObject(m) =>
      if "message" in m then m["message"]
      else if "data" in m && m["data"].JObject? then
        var inner := Get(m["data"].members, "message");
        if JTruthy(inner) then inner else Get(m["data"].members, "text")
      else if "visitor" in m && m["visitor"].JObject? then Get(m["visitor"].members, "message")
      else JStr("")
    case _ => JStr("")
  }

  /** What the webhook does with a body: greet, analyse a text, or answer
      with the apology (calling `strip` on a non-string raises). */
  datatype WebhookAction = Greet | Analyse(text: string) | Fail

  function WebhookDecision(data: Json): WebhookAction {
    var t := WebhookText(data);
    if !JTruthy(t) then Greet
    else match t
      case JStr(s) => if Strip(s) == "" then Greet else Analyse(s)
      case _ => Fail
  }

  /** A top-level `message` wins over the wrapped forms, and inside `data`
      a usable `message` wins over `text`. */
  lemma WebhookPrecedence(m: map<string, Json>, s: string)
    ensures "message" in m && m["message"] == JStr(s) && Strip(s) != "" ==>
            WebhookDecision(JObject(m)) == Analyse(s)
    ensures "message" in m && m["message"] == JStr(s) ==> WebhookText(JObject(m)) == JStr(s)
    ensures "message" !in m && "data" in m && m["data"].JObject? && Get(m["data"].members, "message") == JStr(s) && s != "" ==>
            WebhookText(JObject(m)) == JStr(s)
    ensures "message" !in m && "data" in m && m["data"].JObject? && !JTruthy(Get(m["data"].members, "message")) ==>
            WebhookText(JObject(m)) == Get(m["data"].members, "text")
    ensures "message" !in m && ("data" !in m || !m["data"].JObject?) && "visitor" in m && m["visitor"].JObject? ==>
            WebhookText(JObject(m)) == Get(m["visitor"].members, "message")
  {
  }

  /** Empty or whitespace-only text, and a body with no text at all, get
      the greeting; any other text is analysed as it is. */
  lemma WebhookGreetsOnBlank(data: Json)
    ensures WebhookText(data).JStr? && Strip(WebhookText(data).s) == "" ==> WebhookDecision(data) == Greet
    ensures WebhookText(data).JStr? && Strip(WebhookText(data).s) != "" ==>
            WebhookDecision(data) == Analyse(WebhookText(data).s) && !AllSpace(WebhookText(data).s)
    ensures !data.JObject? ==> WebhookDecision(data) == Greet
  {
    if WebhookText(data).JStr? {
      StripShape(WebhookText(data).s);
    }
  }

  const GreetingReplies: seq<string> := [
    "\U{1F44B} Hi! I am SmartMail AI.",
    "Paste an email text here, and I will analyze its sentiment, urgency, and draft a reply for you."
  ]

  const SleepingReplies: seq<string> := [
    "\U{26A0}\U{FE0F} My AI brain is sleeping. Please try sending that again in 10 seconds!"
  ]

  const SummaryHeading: string := "\U{1F4CA} **Analysis Report**\n\n**Summary:** "
  const ReplyHeading: string := "\U{1F4A1} **Suggested Reply:**\n\n"

  /** The three report messages sent back after an analysis. */
  function ReportReplies(a: Analyze.AnalysisResult): seq<string> {
    [ SummaryHeading + a.summary,
      "\U{2764}\U{FE0F} **Tone:** " + Analyze.ToneName(a.tone) + "  |  \U{1F525} **Urgency:** " + Analyze.UrgencyName(a.urgency),
      ReplyHeading + a.suggestedReply ]
  }

  /** The report quotes the summary and the suggested reply verbatim. */
  lemma ReportQuotes(a: Analyze.AnalysisResult)
    ensures |ReportReplies(a)| == 3
    ensures Contains(ReportReplies(a)[0], a.summary) && Contains(ReportReplies(a)[2], a.suggestedReply)
  {
    ContainsInfix(SummaryHeading, a.summary, "");
    assert SummaryHeading + a.summary + "" == SummaryHeading + a.summary;
    ContainsInfix(ReplyHeading, a.suggestedReply, "");
    assert ReplyHeading + a.suggestedReply + "" == ReplyHeading + a.suggestedReply;
  }

  /** The document the webhook saves for an analysed text. */
  function BotDoc(a: Analyze.AnalysisResult): Payload {
    Payload(None, None, Some(Analyze.ToneName(a.tone)), Some(Analyze.UrgencyName(a.urgency)), Some(a.summary))
  }

  /** Saving an analysed text appends its tone, urgency and summary. */
  lemma BotSave(st: StoreState, a: Analyze.AnalysisResult)
    ensures SaveStep(st, BotDoc(a)).stats ==
            st.stats + [StatRecord(Analyze.ToneName(a.tone), Analyze.UrgencyName(a.urgency), a.summary)]
  {
  }

  /** A bot document carries one of the analyser's tones. */
  lemma BotSaveKeepsKnownTones(st: StoreState, a: Analyze.AnalysisResult)
    requires forall k :: 0 <= k < |st.stats| ==> KnownTone(st.stats[k].tone)
    ensures var o := SaveStep(st, BotDoc(a));
            forall k :: 0 <= k < |o.stats| ==> KnownTone(o.stats[k].tone)
  {
    BotSave(st, a);
  }

  /** The webhook's new store and replies, with `analysis` standing for
      `analyze_text` (the webhook passes `Analyze.AnalyzeText`). */
  function WebhookStep(st: StoreState, data: Json, analysis: string -> Analyze.AnalysisResult): (StoreState, seq<string>) {
    match WebhookDecision(data)
    case Greet => (st, GreetingReplies)
    case Fail => (st, SleepingReplies)
    case Analyse(text) =>
      var a := analysis(text);
      (SaveStep(st, BotDoc(a)), ReportReplies(a))
  }

  /** The webhook stores only tones the analyser produces. */
  lemma WebhookKeepsKnownTones(st: StoreState, data: Json, analysis: string -> Analyze.AnalysisResult)
    requires forall k :: 0 <= k < |st.stats| ==> KnownTone(st.stats[k].tone)
    ensures var o := WebhookStep(st, data, analysis).0;
            forall k :: 0 <= k < |o.stats| ==> KnownTone(o.stats[k].tone)
  {
    match WebhookDecision(data)
    case Greet =>
    case Fail =>
    case Analyse(text) =>
      BotSaveKeepsKnownTones(st, analysis(text));
  }

  /** Exactly one record is saved when, and only when, a text is analysed,
      and the report quotes that analysis; the greeting and the apology
      leave the store alone. */
  lemma WebhookSavesOnlyAnalyses(st: StoreState, data: Json, analysis: string -> Analyze.AnalysisResult)
    ensures var (n, replies) := WebhookStep(st, data, analysis);
            && (WebhookDecision(data).Analyse? <==> |n.stats| == |st.stats| + 1)
            && (!WebhookDecision(data).Analyse? ==> n == st)
            && (WebhookDecision(data).Analyse? ==>
                  var a := analysis(WebhookDecision(data).text);
                  && |replies| == 3
                  && n.stats[|st.stats|] == StatRecord(Analyze.ToneName(a.tone), Analyze.UrgencyName(a.urgency), a.summary)
                  && Contains(replies[0], a.summary) && Contains(replies[2], a.suggestedReply))
  {
    match WebhookDecision(data)
    case Analyse(text) =>
      var a := analysis(text);
      BotSave(st, a);
      ReportQuotes(a);
    case _ =>
  }

  // ---------------------------------------------------------------------
  // Chat bot buttons

  /** `msg.get("subject", "No Subject")[:40] + "..."` */
  function ButtonLabel(subject: Option<string>): string {
    Prefix(subject.GetOr("No Subject"), 40) + "..."
  }

  /** A label is always the subject's first (at most) 40 characters followed
      by "...", even when nothing was cut. */
  lemma ButtonLabelShape(subject: Option<string>)
    ensures var shown := ButtonLabel(subject);
            && |shown| == Min(40, |subject.GetOr("No Subject")|) + 3 <= 43
            && shown[|shown| - 3..] == "..."
            && shown[..|shown| - 3] <= subject.GetOr("No Subject")
    ensures subject.None? ==> ButtonLabel(subject) == "No Subject..."
  {
    var shown := ButtonLabel(subject);
    assert shown[..|shown| - 3] == Prefix(subject.GetOr("No Subject"), 40);
  }

  // ---------------------------------------------------------------------
  // The store

  /** `GLOBAL_STATS` and `GLOBAL_EMAILS`, and the handlers that use them. */
  class Store {
    var stats: seq<StatRecord>
    var emails: seq<Payload>

    function State(): StoreState
      reads this
    {
      StoreState(stats, emails)
    }

    /** Every stored statistics record has a tone the analyser produces. */
    predicate KnownTones()
      reads this
    {
      forall k :: 0 <= k < |stats| ==> KnownTone(stats[k].tone)
    }

    constructor()
      ensures State() == StoreState([], []) && KnownTones()
    {
      stats := [];
      emails := [];
    }

    method SaveAnalysisDoc(payload: Payload)
      modifies this
      ensures State() == SaveStep(old(State()), payload)
    {
      stats := stats + [Minimal(payload)];
      emails := [payload] + emails;
    }

    /** The in-memory branch of the statistics view. */
    method Stats() returns (report: StatsReport)
      ensures report == StatsOf(stats)
      ensures KnownTones() ==> report.neutral >= 0
    {
      var total := |stats|;
      var highUrgency, angry, positive := 0, 0, 0;
      for i := 0 to |stats|
        invariant highUrgency == Count(stats[..i], IsHigh)
        invariant angry == Count(stats[..i], IsAngry)
        invariant positive == Count(stats[..i], IsPositive)
      {
        assert stats[..i + 1][..i] == stats[..i];
        var x := stats[i];
        if x.urgency == "High" {
          highUrgency := highUrgency + 1;
        }
        if Contains(x.tone, "Angry") || Contains(x.tone, "Negative") {
          angry := angry + 1;
        }
        if Contains(x.tone, "Positive") {
          positive := positive + 1;
        }
      }
      assert stats[..|stats|] == stats;
      report := StatsReport(total, highUrgency, angry, positive, total - angry - positive, Recent(stats));
      if KnownTones() {
        NeutralNonNegative(stats);
      }
    }

    /** The in-memory branch of the detail view; `None` is the 404. */
    method EmailDetail(emailId: string) returns (found: Option<Payload>)
      ensures var k := DetailIndex(emails, emailId);
              found == if k < |emails| then Some(emails[k]) else None
      ensures found.None? <==> forall j :: 0 <= j < |emails| ==> !DetailMatches(emails[j], emailId)
    {
      var i := 0;
      while i < |emails|
        invariant i <= |emails|
        invariant DetailIndex(emails, emailId) == i + DetailIndex(emails[i..], emailId)
      {
        var e := emails[i];
        if e.messageId == Some(emailId) || e.id == Some(emailId) {
          return Some(e);
        }
        assert emails[i..][1..] == emails[i + 1..];
        i := i + 1;
      }
      return None;
    }

    /** `fetch_zoho_emails` without the database: every new message is
        analysed by `MessageAnalysis`. */
    method FetchZohoEmails(messages: seq<InboxEntry>, remote: Remote)
      returns (processed: nat, skipped: nat)
      modifies this
      ensures SyncOut(State(), processed, skipped) == Sync(old(State()), messages, id => MessageAnalysis(id, remote))
    {
      processed, skipped := SyncMessages(messages, id => MessageAnalysis(id, remote));
    }

    /** The sync loop, with `analysis` standing for `analyze_zoho_message`. */
    method SyncMessages(messages: seq<InboxEntry>, analysis: string -> Analyze.AnalysisResult)
      returns (processed: nat, skipped: nat)
      modifies this
      ensures SyncOut(State(), processed, skipped) == Sync(old(State()), messages, analysis)
    {
      processed, skipped := 0, 0;
      for i := 0 to |messages|
        invariant SyncOut(State(), processed, skipped) == Sync(old(State()), messages[..i], analysis)
      {
        assert messages[..i + 1][..i] == messages[..i];
        var msg := messages[i];
        if !msg.Message? {
          continue;
        }
        var messageId := SyncId(msg);
        if messageId == "" {
          continue;
        }
        if HasMessageId(emails, messageId) {
          skipped := skipped + 1;
          continue;
        }
        SaveAnalysisDoc(ZohoDoc(messageId, analysis(messageId)));
        processed := processed + 1;
      }
      assert messages[..|messages|] == messages;
    }

    /** The chat webhook without the database. */
    method HandleWebhook(data: Json, summarizer: string -> Option<string>,
                         sentiment: string -> Option<Analyze.SentimentTop>) returns (replies: seq<string>)
      modifies this
      ensures (State(), replies) == WebhookStep(old(State()), data, t => Analyze.AnalyzeText(t, summarizer, sentiment))
    {
      replies := Answer(data, t => Analyze.AnalyzeText(t, summarizer, sentiment));
    }

    /** The webhook's branches, with `analysis` standing for `analyze_text`. */
    method Answer(data: Json, analysis: string -> Analyze.AnalysisResult) returns (replies: seq<string>)
      modifies this
      ensures (State(), replies) == WebhookStep(old(State()), data, analysis)
    {
      var userText := WebhookText(data);
      if !JTruthy(userText) {
        return GreetingReplies;
      }
      if !userText.JStr? {
        return SleepingReplies;
      }
      if Strip(userText.s) == "" {
        return GreetingReplies;
      }
      var result := analysis(userText.s);
      SaveAnalysisDoc(BotDoc(result));
      return ReportReplies(result);
    }
  }
}

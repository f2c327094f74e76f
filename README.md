# SmartMail core in Dafny

SmartMail reads e-mail, rates each message for tone and urgency, summarises it, picks out action items and drafts a reply. This project models the parts of SmartMail that decide those things. They are:

- the sentence splitter (`utils.py`);
- the main analyser (`analyze.py`): keyword scoring, the tone and urgency table, action items, the summary with its fallback, the reply templates and the `analyze_text` pipeline;
- the lighter analyser (`ai_service.py`): rule-based urgency, remote summary and sentiment, and a letter-style reply;
- the Zoho Mail client (`zoho_service.py`): the access-token cache, the account-id cache, the cached message list and the subject lookup;
- the in-memory parts of the web application (`app.py`): the two fallback lists, the statistics and detail views, the inbox sync with its duplicate check, the chat webhook and the bot's button labels.

Modules follow the source files:

| file | module | source |
|---|---|---|
| `wrappers.dfy` | `Wrappers` | `Option`, and `Field`, a JSON member that may be absent, `null` or present |
| `text.dfy` | `TextUtil` | the Python string built-ins the core uses (`lower`, `strip`, `rstrip`, `in`, `join`, `split`, slicing) |
| `utils.dfy` | `Sentences` | `utils.py` |
| `analyze.dfy` | `Analyze` | `analyze.py` |
| `ai_service.dfy` | `AiService` | `ai_service.py` |
| `zoho_service.dfy` | `ZohoService` | `zoho_service.py` |
| `app.dfy` | `App` | `app.py`, the in-memory branches |

How the model is built:

- **Remote calls are parameters.** Each remote model or endpoint is a parameter that maps the request to the answer it would give. For example, `summarizer: string -> Option<string>` maps the text sent to the summariser to its `summary_text`. `None` stands for no usable answer: no token, a transport error, an unexpected JSON shape or a caught exception. Because a model sees only its request, "what is sent" can be proved as an independence lemma (`SummaryDependsOnRequestOnly`, `InputsSent`, `StagesIndependent`).
- **Sentiment scores are not floats.** The top sentiment entry is `SentimentTop(name, confident)`, where `confident` means a score of at least 0.7.
- **Loops are methods.** Code that loops in the source is a method with a loop, proved against a specification function: `ClassifyToneUrgency`, `ExtractActionItems`, `FetchLatestEmails`, the cache scan, the statistics sums, the detail lookup and the inbox sync.
- **Module-level state is a class.** The caches of `zoho_service.py` are the fields of `ZohoService.ZohoSession`, and `GLOBAL_STATS`/`GLOBAL_EMAILS` are the fields of `App.Store`. Each method's `ensures` gives its new state and result as a pure step function of the old state (`TokenStep`, `AccountStep`, `FetchStep`, `FindStep`, `ContentStep`, `SaveStep`, `Sync`, `WebhookStep`). The properties are lemmas about those functions.
- **ASCII text.** Strings are `seq<char>`. Whitespace, lower case and upper case follow Python on the ASCII range. Substring tests are Python's `in` (`Contains`), so the empty string occurs in every string.

The model follows the code, including where it behaves differently from what the system's design calls for:

- Keywords are matched as plain substrings, not on word boundaries. Each keyword counts once and has no weight.
- There is no short-input shortcut and no fixed "no content" result. The empty text gets an empty summary (`EmptyTextEmptySummary`).
- The summary is not guaranteed to be non-empty.
- High urgency does not promote a Neutral tone to Urgent.
- A trusted sentiment verdict wins over the keyword counts; the keywords decide only when the model is silent or unsure.
- Remote calls are not retried.
- An account-listing entry without `accountId` caches the string "None" (`MissingAccountIdCachesNone`).
- The statistics view's `neutral` can be negative (`MixedToneCountedTwice`).

## Model

| member | source | states |
|---|---|---|
| TextUtil.Lower | analyze.py:47 | `lower()`: same length, every character lower-cased and nothing else changed |
| TextUtil.StripShape | utils.py:5-6 | `strip()` gives "" exactly on all-whitespace input, otherwise a string with no whitespace at either end, and leaves such a string alone |
| TextUtil.WordsOfJoin | analyze.py:116 | `split()` of words joined by single spaces gives the same words back |
| TextUtil.JoinSingleSpaced | analyze.py:116 | `' '.join` of words puts exactly one space between neighbours and none at the ends |
| Sentences.RegexSplit | utils.py:5 | `re.split` on a `.`, `!` or `?` followed by whitespace: the text is cut after the mark and the whitespace run is dropped; its properties are `RegexSplitWellFormed` and `RegexSplitOfJoin` |
| Sentences.SimpleSentenceSplit | utils.py:4-6 | `simple_sentence_split`: strip, split, strip each piece and drop the empty ones; its properties are `SentencesWellFormed` and `SplitEmptyIff` |
| Sentences.FirstNSentences | utils.py:8-10 | `first_n_sentences`: the first `n` sentences joined by spaces and stripped; its properties are `FirstNSentencesIsJoin` and `FirstNSentencesRoundTrip` |
| Sentences.FindBreak | utils.py:5 | the lookbehind split point found is the leftmost `.`/`!`/`?` followed by whitespace at or after the start |
| Sentences.RegexSplitWellFormed | utils.py:5 | splitting a stripped non-empty text gives non-empty pieces, each without surrounding whitespace or inner split point, all but the last ending in punctuation |
| Sentences.RegexSplitOfJoin | utils.py:5 | `re.split` of well-formed sentences joined by single spaces gives them back |
| Sentences.SplitIsRegexSplit | utils.py:5-6 | on a text that is not all whitespace the strip-and-filter pass removes nothing and at least one sentence results |
| Sentences.SentencesWellFormed | utils.py:4-6 | every sentence returned is non-empty, trimmed and free of inner split points; all but the last end in `.`, `!` or `?` |
| Sentences.SplitEmptyIff | utils.py:4-6 | no sentences exactly when the text is empty or all whitespace |
| Sentences.FirstNSentencesIsJoin | utils.py:8-10 | `first_n_sentences` is the first `min(n, count)` sentences joined by single spaces; the final strip changes nothing |
| Sentences.SplitOfJoin | utils.py:4-10 | splitting the join of well-formed sentences gives them back |
| Sentences.FirstNSentencesRoundTrip | utils.py:8-10 | splitting `first_n_sentences(text, n)` gives exactly the first `n` sentences of `text` |
| Analyze.UrgencyOf | analyze.py:50-59 | High for 3+ urgent keywords present, Medium for 1-2, Low for none; it is the urgency of `ClassifyToneUrgency`, and `LowUrgencyIff` states the Low case |
| Analyze.ToneOf | analyze.py:61-98 | Urgent for 2+ critical words, otherwise a confident model label, otherwise keyword dominance; stated by `CriticalOverridesModel` and `ToneTable` |
| Analyze.SummarizeText | analyze.py:26-44 | the summariser's answer to `SummaryRequest`, or else the first two sentences; stated by `SummaryFallback` and `SummaryDependsOnRequestOnly` |
| Analyze.ActionItems | analyze.py:102-112 | the first three sentences with an action phrase, each cut to 100 characters; stated by `ActionItemsShape` and met by `ExtractActionItems` |
| Analyze.SuggestedReply | analyze.py:122-133 | the four reply templates, chosen by the tone and by "security" in the text; stated by `SecurityReplyChosen` and `ReplyQuotesSummary` |
| Analyze.AnalyzeText | analyze.py:114-141 | `analyze_text`: every stage runs on the cleaned text; stated by `AnalyzeTextRatings`, `AnalyzeTextItems`, `AnalyzeTextReply` and `StagesIndependent` |
| Analyze.CountPresent | analyze.py:51-54 | the number of keywords present is at most the list length, and 0 exactly when none occurs |
| Analyze.ClassifyToneUrgency | analyze.py:46-100 | the urgency is High for 3+ urgent keywords, Medium for 1-2 and Low for none; the tone is Urgent exactly for 2+ critical words; both agree with the tone table `ToneOf` and `UrgencyOf` |
| Analyze.CountsBounded | analyze.py:12-14 | each keyword count is bounded by its list length (10, 7, 12 and 11) |
| Analyze.LowUrgencyIff | analyze.py:50-59 | the urgency is Low exactly when no urgent keyword occurs in the lower-cased text |
| Analyze.CriticalOverridesModel | analyze.py:64-70 | with 2+ critical words the tone is Urgent whatever the sentiment model answers |
| Analyze.ToneTable | analyze.py:71-98 | below 2 critical words a confident LABEL_0 is Negative and a confident LABEL_2 is Positive; otherwise keyword dominance decides (angry > positive is Negative, the reverse Positive, a tie Neutral) |
| Analyze.Qualifying | analyze.py:107-110 | the kept sentences are exactly those of the input with an action phrase (in lower case) |
| Analyze.QualifyingInOrder | analyze.py:107-110 | the items of earlier sentences come before those of later ones |
| Analyze.Truncations | analyze.py:110 | one item per sentence, each its first 100 characters |
| Analyze.ExtractActionItems | analyze.py:102-112 | the loop returns the first three action sentences cut to 100 characters (`ActionItems`): at most 3 items of at most 100 characters |
| Analyze.ActionItemsShape | analyze.py:102-112 | the items are the first `min(3, count)` action sentences, in order, each cut to 100 characters, so each is a prefix of a sentence of the text with an action phrase |
| Analyze.SummaryRequest | analyze.py:30-33 | the request is the text itself when it has at most 1000 characters; a longer text is cut to its first 1000 characters followed by "...", 1003 in all |
| Analyze.SummaryFallback | analyze.py:37-44 | without a model answer the summary is the first two sentences joined by a space, and splitting it gives back those two |
| Analyze.SummaryDependsOnRequestOnly | analyze.py:29-38 | the summary depends on the summariser only through its answer to the truncated request |
| Analyze.CleanText | analyze.py:116 | the cleaned text splits into exactly the first 2000 words of the input |
| Analyze.CleanTextSpacing | analyze.py:116 | the cleaned text has no whitespace at either end, and each whitespace character in it is a single space with a non-space character on both sides |
| Analyze.SecurityReplyChosen | analyze.py:123-125 | an Urgent or Negative message mentioning "security" gets the fixed security reply |
| Analyze.ReplyQuotesSummary | analyze.py:126-133 | every other reply contains the summary verbatim |
| Analyze.AnalyzeTextRatings | analyze.py:114-119 | the urgency and the tone are the table's, on the cleaned text |
| Analyze.AnalyzeTextItems | analyze.py:120 | the action items are those of the cleaned text: at most 3, each at most 100 characters |
| Analyze.AnalyzeTextReply | analyze.py:122-133 | the reply is the security reply or quotes the summary |
| Analyze.StagesIndependent | analyze.py:118-120 | urgency and action items do not depend on either model; the tone does not depend on the summariser, nor the summary on the sentiment model |
| Analyze.EmptyTextEmptySummary | analyze.py:114-120 | the empty text, with no summariser answer, gets an empty summary and no action items |
| AiService.Capitalize | ai_service.py:46 | `capitalize()` keeps the length; `CapitalizeIdempotent` states the rest |
| AiService.AnalyzeEmail | ai_service.py:15-62 | `analyze_email`: urgency, summary, tone and reply for the first 1500 characters; stated by `UrgencyIsTwoLevel`, `ModelFallbacks` and `InputsSent` |
| AiService.Reply | ai_service.py:48-55 | the three letter templates; stated by `ReplyShape` |
| AiService.CapitalizeIdempotent | ai_service.py:46 | `capitalize()` upper-cases the first character and lower-cases the rest, and applying it twice changes nothing |
| AiService.UrgencyIsTwoLevel | ai_service.py:20-27 | urgency is never Medium; it is High exactly when one of the six keywords occurs in the lower-cased first 1500 characters |
| AiService.ModelFallbacks | ai_service.py:29-46 | no summary answer gives "Could not generate summary.", an answer gives its text; no sentiment answer gives Neutral, and any label the sentiment model answers for the first 500 characters becomes the tone capitalised ("negative" becomes "Negative") |
| AiService.InputsSent | ai_service.py:20-39 | only the first 1500 characters matter; the summariser sees exactly those and the sentiment model the first 500 |
| AiService.ReplyShape | ai_service.py:48-55 | every reply opens with "Dear Sender," and closes with "Best regards,"; the opening shows the branch (urgent iff High, apology iff Low with a Negative tone, otherwise the acknowledgement), and it quotes the first 30 (or in the acknowledgement 50) characters of the summary; its length is exactly greeting + opening + quoted part (`min(30, len)` or `min(50, len)`) + rest + sign-off for the branch taken |
| ZohoService.TokenStep | zoho_service.py:14-35 | getting a token changes only the token cache |
| ZohoService.CachedTokenIff | zoho_service.py:16-17 | the cached token is returned with nothing changed, whatever the endpoint says, exactly when it is non-empty and `now` is before its expiry minus 300 seconds |
| ZohoService.TokenRefresh | zoho_service.py:19-35 | a refresh with no answer or no `access_token` changes nothing and gives nothing; one with a token stores it, expiring at `now + expires_in` (3600 when absent) |
| ZohoService.RefreshedTokenReused | zoho_service.py:16-32 | a refreshed non-empty token is reused without a request until five minutes before it expires |
| ZohoService.AccountStep | zoho_service.py:37-62 | getting the account id never touches the message list |
| ZohoService.CachedAccountIdStable | zoho_service.py:40 | a cached account id is returned with no state change whatever the environment says |
| ZohoService.EnvAccountIdCached | zoho_service.py:42-46 | a non-empty stripped `ZOHO_ACCOUNT_ID` is cached and returned without a request |
| ZohoService.AccountIdSticks | zoho_service.py:37-62 | a returned id is what the cache holds, so every later call returns it unchanged |
| ZohoService.MissingAccountIdCachesNone | zoho_service.py:55-60 | a first account entry without `accountId` caches and returns the string "None" |
| ZohoService.ShortSubject | zoho_service.py:85 | the display subject has at most 27 characters |
| ZohoService.ShortSubjectShape | zoho_service.py:85 | a subject of at most 25 characters is kept; a longer one keeps its first 25 followed by ".." |
| ZohoService.CleanList | zoho_service.py:81-88 | one entry per message, in order, exactly when no subject is `null` |
| ZohoService.FetchStep | zoho_service.py:64-93 | token, account id, listing request, then the cleaned list; stated by `FetchReplacesList` and met by `ZohoSession.FetchLatestEmails` |
| ZohoService.FetchReplacesList | zoho_service.py:76-93 | with a token, an account id, a 200 answer and no `null` subject, the result and the new cached list are exactly the cleaned list, one entry per message in order; in every other case the result is `[]` and the list is left alone; a changed list means a 200 answer with one entry per message, keeping its id, its subject (or "No Subject") and the shortened subject |
| ZohoService.CleanQuery | zoho_service.py:107 | the query stripped, lower-cased and without trailing dots; stated by `DotsCleanToEmpty` and `EmptyQueryMatchesFirst` |
| ZohoService.Matches | zoho_service.py:110-114 | the query equals the lower-cased short subject without trailing dots, or occurs in the lower-cased full subject; `FirstMatch` finds the first entry that matches |
| ZohoService.FindStep | zoho_service.py:95-129 | a refetch when the cached list is empty, the cache scan, then the search request; stated by `CacheHitMakesNoRequest`, `RefetchOnlyWhenEmpty` and `EmptyCacheRefetched` and met by `ZohoSession.FindMessageIdBySubject` |
| ZohoService.FirstMatch | zoho_service.py:109-115 | the position of the first entry matching the cleaned query, none before it matching |
| ZohoService.CacheHitMakesNoRequest | zoho_service.py:103-115 | with a cached match the first matching entry's id is returned and nothing else happens |
| ZohoService.RefetchOnlyWhenEmpty | zoho_service.py:102-105 | the lookup leaves a non-empty cached list unchanged |
| ZohoService.EmptyCacheRefetched | zoho_service.py:96-115 | an empty cached list is replaced by the fetch's list, and a match in it gives that entry's `messageId` |
| ZohoService.EmptyQueryMatchesFirst | zoho_service.py:107-114 | an input that cleans to "" resolves to the first cached entry |
| ZohoService.DotsCleanToEmpty | zoho_service.py:107 | "..." cleans to "" |
| ZohoService.ContentStep | zoho_service.py:131-150 | token, account id, then the content request; stated by `ContentOutcome` and met by `ZohoSession.GetFullEmailContent` |
| ZohoService.ContentOutcome | zoho_service.py:131-150 | a non-200 answer clears the cached account id; a 200 answer gives the first non-empty of content and body (never empty), and "Analyzed Email" for a missing subject |
| ZohoService.ZohoSession.constructor | zoho_service.py:6-8 | the caches start empty |
| ZohoService.ZohoSession.GetAccessToken | zoho_service.py:14-35 | new caches and result are `TokenStep`'s |
| ZohoService.ZohoSession.GetAccountId | zoho_service.py:37-62 | new caches and result are `AccountStep`'s |
| ZohoService.ZohoSession.FetchLatestEmails | zoho_service.py:64-93 | the loop builds `CleanList`, and new caches and result are `FetchStep`'s |
| ZohoService.ZohoSession.FindInCache | zoho_service.py:109-115 | the scan stops at `FirstMatch` |
| ZohoService.ZohoSession.FindMessageIdBySubject | zoho_service.py:95-129 | new caches and result are `FindStep`'s |
| ZohoService.ZohoSession.GetFullEmailContent | zoho_service.py:131-150 | new caches and result are `ContentStep`'s |
| App.SaveStep | app.py:71-79 | `save_analysis_doc` without the database; stated by `SaveShape` and met by `Store.SaveAnalysisDoc` |
| App.SaveShape | app.py:71-79 | saving appends one record (with the defaults Neutral, Low, "") and puts the payload first; every existing entry stays in order and a saved message id is then found by the duplicate check |
| App.StatsOf | app.py:249-256 | the in-memory statistics; stated by `StatsShape`, `NeutralNonNegative` and `MixedToneCountedTwice` and met by `Store.Stats` |
| App.Count | app.py:251-253 | a count is at most the number of records |
| App.CountExclusive | app.py:252-256 | two tests no record passes both add up to at most the total |
| App.Reverse | app.py:254 | `[::-1]`: same length, element `k` is element `n-1-k` |
| App.StatsShape | app.py:250-256 | every count is at most the total, `neutral` is `total - angry - positive`, and `recent` is the last `min(5, total)` records, newest first |
| App.KnownToneExclusive | app.py:252-253 | no tone the analyser produces counts as both angry and positive |
| App.NeutralNonNegative | app.py:256 | `neutral` is at least 0 while every stored tone is one the analyser produces |
| App.MixedToneCountedTwice | app.py:252-256 | a tone mentioning both "Positive" and "Negative" is counted twice, so one such record gives `neutral = -1` |
| App.DetailIndex | app.py:284-286 | the detail view returns the first stored email whose `messageId` or `id` matches; none before it matches |
| App.DetailShowsLatest | app.py:284-286 | the email saved last is the one shown for its message id |
| App.Fetched | app.py:163-188 | the content answer for a message, or the subject "Error" with an empty body when the request fails; used by `MessageAnalysisInput` |
| App.TextContent | app.py:193-200 | an HTML-looking body is converted to text unless the conversion fails; a plain body is kept; used by `MessageAnalysisInput` |
| App.FullText | app.py:202 | subject, blank line and text content, stripped; used by `MessageAnalysisInput` |
| App.MessageAnalysis | app.py:190-203 | the analysis `analyze_zoho_message` computes: `analyze_text` on the full text; stated by `MessageAnalysisInput` |
| App.MessageAnalysisInput | app.py:186-203 | a plain-text body is analysed as `subject + "\n\n" + body`, stripped; a failed content request makes the message be analysed as "Error" |
| App.ZohoDocRecordsAnalysis | app.py:205-218 | the saved document carries the message id, and its statistics record holds the analysis' tone, urgency and summary |
| App.SyncOne | app.py:381-405 | one pass of the sync loop; stated by `SyncOneShape`, `SyncOneKeeps` and `SyncOneSaves` |
| App.Sync | app.py:378-407 | the sync loop over the listing; stated by `SyncCounts`, `SyncKeepsOrder`, `SyncKeeps`, `SyncSaves`, `SyncOfKnown` and `SyncTwice` and met by `Store.SyncMessages` |
| App.SyncOneShape | app.py:381-405 | an entry that is not a dictionary or has no id changes nothing; an entry with an already-known id is skipped with nothing else changed and no analysis; a new id is analysed and saved and counted as processed; each entry with an id is counted exactly once |
| App.SyncOneKeeps | app.py:381-405 | one entry keeps the existing records and emails in order, new emails first |
| App.SyncOneSaves | app.py:390-402 | after one entry with an id, that id is found by the duplicate check |
| App.SyncCounts | app.py:378-405 | `processed + skipped` is exactly the number of entries with an id |
| App.SyncKeepsOrder | app.py:381-405 | a sync keeps the existing records and emails in order, new emails coming before them |
| App.SyncKeeps | app.py:381-405 | every message id known before a sync is known after it |
| App.SyncSaves | app.py:394-402 | after a sync, every entry with an id is found by the duplicate check |
| App.SyncOfKnown | app.py:366-397 | a sync over entries whose ids are all known changes nothing, processes nothing and skips every entry with an id |
| App.SyncTwice | app.py:366-397 | a second sync over the same listing analyses nothing, leaves the store as the first sync left it and skips every entry with an id |
| App.SyncKeepsKnownTones | app.py:205-218 | a sync stores only tones the analyser produces |
| App.BotSaveKeepsKnownTones | app.py:329-338 | saving a bot document adds only a tone the analyser produces |
| App.WebhookKeepsKnownTones | app.py:324-338 | the webhook stores only tones the analyser produces |
| App.WebhookText | app.py:301-313 | where the webhook finds the text; stated by `WebhookPrecedence` |
| App.WebhookDecision | app.py:315-325 | greet on missing or blank text, analyse any other string, fail on a non-string; stated by `WebhookGreetsOnBlank` and `WebhookPrecedence` |
| App.WebhookStep | app.py:291-361 | the webhook without the database, for any analysis of the text; stated by `WebhookSavesOnlyAnalyses` and `WebhookKeepsKnownTones` and met by `Store.Answer` |
| App.WebhookPrecedence | app.py:301-313 | the top-level `message` wins over `data`, and inside `data` a usable `message` wins over `text`; `visitor` is the last resort |
| App.WebhookGreetsOnBlank | app.py:315-322 | blank text and a body that is not an object get the greeting; any other text is analysed as it is |
| App.ReportQuotes | app.py:343-355 | the report has three messages, quoting the summary and the suggested reply |
| App.WebhookSavesOnlyAnalyses | app.py:324-355 | exactly one record is saved, with the analysis' tone, urgency and summary, only when a text is analysed; the report quotes it; greetings and apologies leave the store alone |
| App.ButtonLabel | app.py:429 | the bot's button label; stated by `ButtonLabelShape` |
| App.ButtonLabelShape | app.py:429 | a label is the subject's first (at most) 40 characters followed by "...", "No Subject..." when there is none |
| App.Store.constructor | app.py:65-66 | both lists start empty |
| App.Store.SaveAnalysisDoc | app.py:71-79 | the new lists are `SaveStep`'s |
| App.Store.Stats | app.py:249-256 | the three sums computed by the loop give `StatsOf`; `neutral` is at least 0 while the stored tones are the analyser's |
| App.Store.EmailDetail | app.py:283-286 | finds the `DetailIndex` entry; the 404 happens exactly when no entry matches |
| App.Store.SyncMessages | app.py:378-407 | the loop's new lists and counters are `Sync`'s for the given per-message analysis |
| App.Store.FetchZohoEmails | app.py:363-407 | the new lists and counters are `Sync`'s, with each new message analysed by `MessageAnalysis` |
| App.Store.HandleWebhook | app.py:296-361 | the new lists and replies are `WebhookStep`'s with `AnalyzeText` as the analysis |
| App.Store.Answer | app.py:296-361 | the webhook's branches: the new lists and replies are `WebhookStep`'s for the given analysis |

## Left out

- The database (`firebase_service.py` and every `if db:` branch of `app.py`): it is storage outside the program, so only the in-memory fallback is modelled.
- HTTP, Flask routing, JSON encoding of responses, templates and logging: these are I/O.
- The HTML-to-text conversion itself (BeautifulSoup) and the content request: both are parameters of `App.Remote`. The test for an HTML-looking body, the "Error" content of a failed request, the full text and the call of `analyze_text` are modelled (`App.MessageAnalysis`).
- The `except` branch of the sync loop (app.py:403-404): without the database, `analyze_zoho_message` catches every failure of the content request and of the conversion, so the model's sync always analyses and saves a new message.
- `list_inbox_emails`, the `limit` parameter, and the ids and keys placed in request URLs: these only shape requests, whose answers are parameters.
- The clock: every operation gets one `now`. The second `time.time()` call of a token refresh is taken to read the same value.
- Within one operation, every token request sees the same token-endpoint answer (`Env.tokenResponse`).
- ISO timestamps (`createdAt`) and payload members that nothing in the core reads (`from`, `body`, `source`, `original_text`, `action_items`, `suggested_reply`).
- Floating-point sentiment scores: only the comparison with 0.7 of the top entry is kept (`SentimentTop.confident`). `max` over the scores is not modelled.
- Exceptions that escape `ai_service.analyze_email`, for an empty score list or a non-dictionary `summary_res[0]`: the model's answers are always well-formed.
- Non-string JSON values where the source calls string methods, other than the webhook's text and the list subjects: for example a non-string `subject` in the bot button label, or a `null` subject in a content answer.
- App.Store.Stats: computes the three sums in one loop rather than three generator passes; the result is the same.
- Unicode beyond ASCII in `lower`, `capitalize` and `isspace`.

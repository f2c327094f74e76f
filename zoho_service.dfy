/** The Zoho Mail client (zoho_service.py): an OAuth access-token cache, an
    account-id cache, and a list of recent messages used to resolve a
    subject typed by a user into a message id.

    The module-level caches become the fields of `ZohoSession`; every
    method's new state and result are given by a pure step function on a
    `Session` value, and the properties are proved about those functions.
    HTTP answers, the clock and the environment are parameters. */
module ZohoService {
  import opened Wrappers
  import opened TextUtil

  /** Seconds before expiry from which a cached token is refreshed. */
  const ExpiryMargin: int := 300
  /** Lifetime assumed when the token answer carries no `expires_in`. */
  const DefaultExpiresIn: int := 3600
  /** Longest subject shown as it is in the cached list. */
  const SubjectLimit: nat := 25

  /** Python truthiness of an optional string. */
  predicate Truthy(o: Option<string>) {
    o.Some? && o.value != ""
  }

  /** `str(x)` of an optional string: `None` prints as "None". */
  function PyStr(o: Option<string>): string {
    o.GetOr("None")
  }

  datatype TokenCache = TokenCache(accessToken: Option<string>, expiresAt: int)

  /** The JSON body of the token endpoint's answer. */
  datatype TokenResponse = TokenResponse(accessToken: Field<string>, expiresIn: Field<int>)

  /** The accounts listing: the status code and the `accountId` of each
      entry of `data` (an absent `data` is an empty one). */
  datatype AccountsResponse = AccountsResponse(status: int, accountIds: seq<Option<string>>)

  /** One message of the listing: its `subject` and `messageId` members. */
  datatype RawMessage = RawMessage(subject: Field<string>, messageId: Option<string>)

  /** The message listing: the status code and the entries of `data`. */
  datatype ListResponse = ListResponse(status: int, messages: seq<RawMessage>)

  /** An entry of the cached list: the display subject, the original one
      and the message id. */
  datatype CachedEmail = CachedEmail(subject: string, fullSubject: string, messageId: Option<string>)

  /** The content endpoint's answer: the status code and the `subject`,
      `content` and `body` members of its `data`. */
  datatype ContentResponse = ContentResponse(status: int, subject: Field<string>,
                                             content: Option<string>, body: Option<string>)

  datatype EmailContent = EmailContent(subject: Option<string>, content: string)

  /** What the calls inside one operation see: the clock, the
      `ZOHO_ACCOUNT_ID` setting, and the answers of the token and accounts
      endpoints (`None` when the request or its decoding fails). Every
      token request within one operation gets the same answer. */
  datatype Env = Env(now: int, envAccountId: string,
                     tokenResponse: Option<TokenResponse>, accountsResponse: Option<AccountsResponse>)

  /** The three caches. */
  datatype Session = Session(token: TokenCache, accountId: Option<string>, emails: seq<CachedEmail>)

  /** The session after an operation, and the operation's result. */
  datatype Out<T> = Out(session: Session, value: T)

  /** The caches when the module is loaded. */
  const Initial: Session := Session(TokenCache(None, 0), None, [])

  // ---------------------------------------------------------------------
  // Access token

  /** The cached token may be used: it is present and more than five
      minutes from expiry. */
  predicate Fresh(c: TokenCache, now: int) {
    Truthy(c.accessToken) && now < c.expiresAt - ExpiryMargin
  }

  /** `get_access_token()` */
  function TokenStep(s: Session, env: Env): (r: Out<Option<string>>)
    ensures r.session == s.(token := r.session.token)
  {
    if Fresh(s.token, env.now) then Out(s, s.token.accessToken)
    else match env.tokenResponse
      case None => Out(s, None)
      case Some(resp) =>
        if resp.accessToken.Missing? then Out(s, None)
        else
          var token := if resp.accessToken.Present? then Some(resp.accessToken.value) else None;
          match resp.expiresIn
          // adding a null lifetime to the clock raises after the token is stored
          case Null => Out(s.(token := s.token.(accessToken := token)), None)
          case Missing => Out(s.(token := TokenCache(token, env.now + DefaultExpiresIn)), token)
          case Present(e) => Out(s.(token := TokenCache(token, env.now + e)), token)
  }

  /** The cached token is returned, with nothing changed, whatever the
      endpoint would answer, exactly when it is present and `now` is
      before its expiry minus 300 seconds. */
  lemma CachedTokenIff(s: Session, env: Env)
    ensures Fresh(s.token, env.now) <==>
      forall r :: TokenStep(s, env.(tokenResponse := r)) == Out(s, s.token.accessToken)
  {
    if !Fresh(s.token, env.now) {
      var r := Some(TokenResponse(Present("t"), Present(s.token.expiresAt - env.now + 1)));
      assert TokenStep(s, env.(tokenResponse := r)).session.token.expiresAt == s.token.expiresAt + 1;
    }
  }

  /** A refresh without `access_token` in the answer (or with no answer)
      changes nothing and gives no token; one with a token stores it with
      expiry `now + expires_in`, 3600 seconds when absent. The account id
      and the message list are never touched. */
  lemma TokenRefresh(s: Session, env: Env)
    requires !Fresh(s.token, env.now)
    ensures TokenStep(s, env).session.accountId == s.accountId
    ensures TokenStep(s, env).session.emails == s.emails
    ensures (env.tokenResponse.None? || env.tokenResponse.value.accessToken.Missing?) ==>
            TokenStep(s, env) == Out(s, None)
    ensures forall t, e :: env.tokenResponse == Some(TokenResponse(Present(t), e)) && !e.Null? ==>
            TokenStep(s, env).value == Some(t) &&
            TokenStep(s, env).session.token == TokenCache(Some(t), env.now + e.GetOr(DefaultExpiresIn).value)
  {
  }

  /** A non-empty token refreshed with a lifetime of more than five
      minutes is reused, without another request, by every later call
      until five minutes before it expires. */
  lemma RefreshedTokenReused(s: Session, env: Env, later: Env)
    requires !Fresh(s.token, env.now)
    requires env.tokenResponse.Some? && env.tokenResponse.value.accessToken.Present?
    requires env.tokenResponse.value.accessToken.value != ""
    requires !env.tokenResponse.value.expiresIn.Null?
    requires env.now <= later.now < env.now + env.tokenResponse.value.expiresIn.GetOr(DefaultExpiresIn).value - ExpiryMargin
    ensures var first := TokenStep(s, env);
            TokenStep(first.session, later) == Out(first.session, first.value)
    ensures TokenStep(s, env).value == Some(env.tokenResponse.value.accessToken.value)
  {
  }

  // ---------------------------------------------------------------------
  // Account id

  /** `get_account_id()` */
  function AccountStep(s: Session, env: Env): (r: Out<Option<string>>)
    ensures r.session.emails == s.emails
  {
    if Truthy(s.accountId) then Out(s, s.accountId)
    else
      var envId := Strip(env.envAccountId);
      if envId != "" then Out(s.(accountId := Some(envId)), Some(envId))
      else
        var t := TokenStep(s, env);
        if !Truthy(t.value) then Out(t.session, None)
        else match env.accountsResponse
          case Some(r) =>
            if r.status == 200 && |r.accountIds| > 0 then
              var realId := PyStr(r.accountIds[0]);
              Out(t.session.(accountId := Some(realId)), Some(realId))
            else Out(t.session, None)
          case None => Out(t.session, None)
  }

  /** Once the account id is cached it is returned unchanged, with no
      state change, whatever the environment and the endpoints say. */
  lemma CachedAccountIdStable(s: Session, env: Env)
    requires Truthy(s.accountId)
    ensures AccountStep(s, env) == Out(s, s.accountId)
  {
  }

  /** A non-empty (stripped) `ZOHO_ACCOUNT_ID` is cached and returned
      without any request. */
  lemma EnvAccountIdCached(s: Session, env: Env)
    requires !Truthy(s.accountId) && Strip(env.envAccountId) != ""
    ensures AccountStep(s, env).value == Some(Strip(env.envAccountId))
    ensures AccountStep(s, env).session == s.(accountId := Some(Strip(env.envAccountId)))
  {
  }

  /** A usable account id, once returned, is what the cache holds, so
      every later call returns the same id with no state change. */
  lemma AccountIdSticks(s: Session, env: Env, later: Env)
    requires Truthy(AccountStep(s, env).value)
    ensures AccountStep(s, env).session.accountId == AccountStep(s, env).value
    ensures var first := AccountStep(s, env);
            AccountStep(first.session, later) == Out(first.session, first.value)
    ensures AccountStep(s, env).session.emails == s.emails
  {
  }

  /** Detection caches `str(...)` of the first account's id, so an entry
      without `accountId` caches the string "None". */
  lemma MissingAccountIdCachesNone(s: Session, env: Env)
    requires !Truthy(s.accountId) && Strip(env.envAccountId) == ""
    requires Truthy(TokenStep(s, env).value)
    requires env.accountsResponse.Some? && env.accountsResponse.value.status == 200
    requires |env.accountsResponse.value.accountIds| > 0 && env.accountsResponse.value.accountIds[0].None?
    ensures AccountStep(s, env).value == Some("None")
    ensures AccountStep(s, env).session.accountId == Some("None")
  {
  }

  // ---------------------------------------------------------------------
  // The cached message list

  /** The display subject: at most 25 characters kept, ".." appended when
      something was cut. */
  function ShortSubject(subject: string): (r: string)
    ensures |r| <= SubjectLimit + 2
  {
    if |subject| > SubjectLimit then subject[..SubjectLimit] + ".." else subject
  }

  /** A subject of at most 25 characters is kept; a longer one keeps its
      first 25 characters and is marked with "..". */
  lemma ShortSubjectShape(subject: string)
    ensures |subject| <= SubjectLimit ==> ShortSubject(subject) == subject
    ensures Prefix(subject, SubjectLimit) <= ShortSubject(subject)
    ensures |subject| > SubjectLimit ==>
            |ShortSubject(subject)| == SubjectLimit + 2 && ShortSubject(subject)[SubjectLimit..] == ".."
  {
  }

  function Entry(fullSubject: string, messageId: Option<string>): CachedEmail {
    CachedEmail(ShortSubject(fullSubject), fullSubject, messageId)
  }

  /** The cached entry for one listed message; `None` when its subject is
      `null`, where `len` raises and the whole listing is abandoned. */
  function CleanEntry(m: RawMessage): Option<CachedEmail> {
    match m.subject
    case Null => None
    case Missing => Some(Entry("No Subject", m.messageId))
    case Present(subject) => Some(Entry(subject, m.messageId))
  }

  /** The list `fetch_latest_emails` builds: one entry per message, in
      order, or `None` when a subject is `null`. */
  function CleanList(ms: seq<RawMessage>): (r: Option<seq<CachedEmail>>)
    ensures r.Some? <==> forall i :: 0 <= i < |ms| ==> CleanEntry(ms[i]).Some?
    ensures r.Some? ==>
      |r.value| == |ms| && forall i :: 0 <= i < |ms| ==> CleanEntry(ms[i]) == Some(r.value[i])
    decreases |ms|
  {
    if ms == [] then Some([])
    else
      var init := CleanList(ms[..|ms| - 1]);
      var last := CleanEntry(ms[|ms| - 1]);
      assert forall i :: 0 <= i < |ms| - 1 ==> ms[..|ms| - 1][i] == ms[i];
      if init.Some? && last.Some? then Some(init.value + [last.value]) else None
  }

  /** `fetch_latest_emails()` */
  function FetchStep(s: Session, env: Env, list: Option<ListResponse>): (r: Out<seq<CachedEmail>>)
    ensures r.session.emails == s.emails || r.session.emails == r.value
  {
    var t := TokenStep(s, env);
    var a := AccountStep(t.session, env);
    if !Truthy(t.value) || !Truthy(a.value) then Out(a.session, [])
    else match list
      case Some(l) =>
        if l.status != 200 then Out(a.session, [])
        else (match CleanList(l.messages)
          case Some(c) => Out(a.session.(emails := c), c)
          case None => Out(a.session, []))
      case None => Out(a.session, [])
  }

  /** A successful fetch replaces the cached list by exactly one entry per
      listed message, in order, each keeping the original subject (or "No
      Subject") beside its shortened form; anything else returns `[]` and
      leaves the list as it was. */
  lemma FetchReplacesList(s: Session, env: Env, list: Option<ListResponse>)
    ensures var o := FetchStep(s, env, list);
            o.session.emails == s.emails || o.session.emails == o.value
    ensures var o := FetchStep(s, env, list);
            o.value != [] ==> o.session.emails == o.value
    ensures var o := FetchStep(s, env, list);
            (o.session.emails != s.emails || o.value != []) ==>
            && list.Some? && list.value.status == 200
            && |o.value| == |list.value.messages|
            && forall i :: 0 <= i < |o.value| ==>
                 var m := list.value.messages[i];
                 && o.value[i].messageId == m.messageId
                 && Some(o.value[i].fullSubject) == m.subject.GetOr("No Subject")
                 && o.value[i].subject == ShortSubject(o.value[i].fullSubject)
    ensures var o := FetchStep(s, env, list);
            Truthy(TokenStep(s, env).value) && Truthy(AccountStep(TokenStep(s, env).session, env).value)
            && list.Some? && list.value.status == 200 && CleanList(list.value.messages).Some? ==>
              o.value == CleanList(list.value.messages).value && o.session.emails == o.value
  {
    var o := FetchStep(s, env, list);
    if o.session.emails != s.emails || o.value != [] {
      var c := CleanList(list.value.messages).value;
      forall i | 0 <= i < |o.value|
        ensures o.value[i].messageId == list.value.messages[i].messageId
        ensures Some(o.value[i].fullSubject) == list.value.messages[i].subject.GetOr("No Subject")
      {
        assert CleanEntry(list.value.messages[i]) == Some(c[i]);
      }
    }
  }

  // ---------------------------------------------------------------------
  // Subject lookup

  /** `user_text.strip().lower().rstrip(".")` */
  function CleanQuery(userText: string): string {
    RStrip(Lower(Strip(userText)), '.')
  }

  /** A cached entry matches the cleaned input when its lower-cased display
      subject without trailing dots equals it, or its lower-cased full
      subject contains it. */
  predicate Matches(query: string, e: CachedEmail) {
    query == RStrip(Lower(e.subject), '.') || Contains(Lower(e.fullSubject), query)
  }

  /** The position of the first matching entry, or `|es|`. */
  function FirstMatch(query: string, es: seq<CachedEmail>): (k: nat)
    ensures k <= |es|
    ensures k < |es| ==> Matches(query, es[k])
    ensures forall j :: 0 <= j < k ==> !Matches(query, es[j])
    decreases |es|
  {
    if es == [] then 0 else if Matches(query, es[0]) then 0 else 1 + FirstMatch(query, es[1..])
  }

  /** `find_message_id_by_subject(user_text)`; `search` is what the search
      endpoint lists, the `messageId` of each entry of its `data`. */
  function FindStep(s: Session, env: Env, userText: string, list: Option<ListResponse>,
                    search: Option<seq<Option<string>>>): Out<Option<string>> {
    var s1 := if s.emails == [] then FetchStep(s, env, list).session else s;
    var k := FirstMatch(CleanQuery(userText), s1.emails);
    if k < |s1.emails| then Out(s1, s1.emails[k].messageId)
    else
      var t := TokenStep(s1, env);
      var a := AccountStep(t.session, env);
      Out(a.session, if search.Some? && search.value != [] then search.value[0] else None)
  }

  /** With a non-empty cache that has a matching entry, the id of the
      first such entry is returned and no request is made at all. */
  lemma CacheHitMakesNoRequest(s: Session, env: Env, userText: string, list: Option<ListResponse>,
                               search: Option<seq<Option<string>>>)
    requires s.emails != []
    requires FirstMatch(CleanQuery(userText), s.emails) < |s.emails|
    ensures FindStep(s, env, userText, list, search) ==
            Out(s, s.emails[FirstMatch(CleanQuery(userText), s.emails)].messageId)
  {
  }

  /** The cached list is refetched only when it is empty. */
  lemma RefetchOnlyWhenEmpty(s: Session, env: Env, userText: string, list: Option<ListResponse>,
                             search: Option<seq<Option<string>>>)
    requires s.emails != []
    ensures FindStep(s, env, userText, list, search).session.emails == s.emails
  {
  }

  /** An empty cached list is refetched first, and a match in the
      refetched list gives that entry's message id. */
  lemma EmptyCacheRefetched(s: Session, env: Env, userText: string, list: Option<ListResponse>,
                            search: Option<seq<Option<string>>>)
    requires s.emails == []
    ensures FindStep(s, env, userText, list, search).session.emails == FetchStep(s, env, list).session.emails
    ensures var es := FetchStep(s, env, list).session.emails;
            FirstMatch(CleanQuery(userText), es) < |es| ==>
              FindStep(s, env, userText, list, search).value == es[FirstMatch(CleanQuery(userText), es)].messageId
  {
  }

  /** An input that cleans to the empty string (such as "...") matches
      every entry, because the empty string occurs in every string: it
      resolves to the first cached entry. */
  lemma EmptyQueryMatchesFirst(userText: string, es: seq<CachedEmail>)
    requires CleanQuery(userText) == ""
    ensures es != [] ==> FirstMatch(CleanQuery(userText), es) == 0
  {
    if es != [] {
      assert "" <= Lower(es[0].fullSubject);
    }
  }

  /** "..." is such an input. */
  lemma DotsCleanToEmpty()
    ensures CleanQuery("...") == ""
  {
    var dots := "...";
    assert TrimLeft(dots) == dots by { assert !IsSpace(dots[0]); }
    assert TrimRight(dots) == dots by { assert !IsSpace(dots[2]); }
    var lowered := Lower(dots);
    assert forall i :: 0 <= i < |lowered| ==> lowered[i] == '.';
    assert RStrip(lowered, '.') == [];
  }

  // ---------------------------------------------------------------------
  // Message content

  /** Python's `a or b or default` over optional strings. */
  function FirstText(a: Option<string>, b: Option<string>, default: string): string {
    if Truthy(a) then a.value else if Truthy(b) then b.value else default
  }

  /** `get_full_email_content(message_id)`; the message id only shapes the
      request, so the model takes the answer to it. */
  function ContentStep(s: Session, env: Env, resp: Option<ContentResponse>): Out<Option<EmailContent>> {
    var t := TokenStep(s, env);
    var a := AccountStep(t.session, env);
    match resp
    case None => Out(a.session, None)
    case Some(r) =>
      if r.status == 200 then
        Out(a.session, Some(EmailContent(r.subject.GetOr("Analyzed Email"),
                                         FirstText(r.content, r.body, "No text content."))))
      else Out(a.session.(accountId := None), None)
  }

  /** A non-200 answer clears the cached account id, so the next call
      detects it again; a 200 answer gives the first non-empty of
      `content` and `body`, never an empty text. */
  lemma ContentOutcome(s: Session, env: Env, resp: Option<ContentResponse>)
    ensures resp.Some? && resp.value.status != 200 ==>
            ContentStep(s, env, resp) ==
            Out(AccountStep(TokenStep(s, env).session, env).session.(accountId := None), None)
    ensures resp.Some? && resp.value.status == 200 ==>
            var c := ContentStep(s, env, resp).value;
            && c.Some? && c.value.content != ""
            && (Truthy(resp.value.content) ==> c.value.content == resp.value.content.value)
            && (!Truthy(resp.value.content) && Truthy(resp.value.body) ==> c.value.content == resp.value.body.value)
            && (resp.value.subject.Missing? ==> c.value.subject == Some("Analyzed Email"))
    ensures ContentStep(s, env, resp).session.emails == s.emails
  {
  }

  /** The module's caches and the operations on them. */
  class ZohoSession {
    var tokenCache: TokenCache
    var accountIdCache: Option<string>
    var emailListCache: seq<CachedEmail>

    function State(): Session
      reads this
    {
      Session(tokenCache, accountIdCache, emailListCache)
    }

    constructor()
      ensures State() == Initial
    {
      tokenCache := TokenCache(None, 0);
      accountIdCache := None;
      emailListCache := [];
    }

    method GetAccessToken(env: Env) returns (token: Option<string>)
      modifies this
      ensures State() == TokenStep(old(State()), env).session
      ensures token == TokenStep(old(State()), env).value
    {
      if Truthy(tokenCache.accessToken) && env.now < tokenCache.expiresAt - ExpiryMargin {
        return tokenCache.accessToken;
      }
      match env.tokenResponse {
        case None =>
          return None;
        case Some(data) =>
          if data.accessToken.Missing? {
            return None;
          }
          tokenCache := tokenCache.(accessToken := if data.accessToken.Present? then Some(data.accessToken.value) else None);
          match data.expiresIn {
            case Null =>
              return None;
            case Missing =>
              tokenCache := tokenCache.(expiresAt := env.now + DefaultExpiresIn);
            case Present(e) =>
              tokenCache := tokenCache.(expiresAt := env.now + e);
          }
          return tokenCache.accessToken;
      }
    }

    method GetAccountId(env: Env) returns (accountId: Option<string>)
      modifies this
      ensures State() == AccountStep(old(State()), env).session
      ensures accountId == AccountStep(old(State()), env).value
    {
      if Truthy(accountIdCache) {
        return accountIdCache;
      }
      var envId := Strip(env.envAccountId);
      if envId != "" {
        accountIdCache := Some(envId);
        return Some(envId);
      }
      var token := GetAccessToken(env);
      if !Truthy(token) {
        return None;
      }
      match env.accountsResponse {
        case None =>
          return None;
        case Some(resp) =>
          if resp.status == 200 && |resp.accountIds| > 0 {
            var realId := PyStr(resp.accountIds[0]);
            accountIdCache := Some(realId);
            return Some(realId);
          }
          return None;
      }
    }

    method FetchLatestEmails(env: Env, list: Option<ListResponse>) returns (emails: seq<CachedEmail>)
      modifies this
      ensures State() == FetchStep(old(State()), env, list).session
      ensures emails == FetchStep(old(State()), env, list).value
    {
      var token := GetAccessToken(env);
      var accountId := GetAccountId(env);
      if !Truthy(token) || !Truthy(accountId) {
        return [];
      }
      if list.None? || list.value.status != 200 {
        return [];
      }
      var messages := list.value.messages;
      var cleanList: seq<CachedEmail> := [];
      for i := 0 to |messages|
        invariant CleanList(messages[..i]) == Some(cleanList)
      {
        assert messages[..i + 1][..i] == messages[..i];
        var msg := messages[i];
        if msg.subject.Null? {
          // `len(None)` raises; the handler returns an empty list
          assert !CleanEntry(messages[i]).Some?;
          return [];
        }
        var subject := if msg.subject.Present? then msg.subject.value else "No Subject";
        cleanList := cleanList + [Entry(subject, msg.messageId)];
      }
      assert messages[..|messages|] == messages;
      emailListCache := cleanList;
      return cleanList;
    }

    /** The scan over the cached list for the first matching entry. */
    method FindInCache(query: string) returns (k: nat)
      ensures k == FirstMatch(query, emailListCache)
    {
      k := 0;
      while k < |emailListCache|
        invariant k <= |emailListCache|
        invariant FirstMatch(query, emailListCache) == k + FirstMatch(query, emailListCache[k..])
      {
        var email := emailListCache[k];
        if query == RStrip(Lower(email.subject), '.') || Contains(Lower(email.fullSubject), query) {
          return;
        }
        assert emailListCache[k..][1..] == emailListCache[k + 1..];
        k := k + 1;
      }
    }

    method FindMessageIdBySubject(env: Env, userText: string, list: Option<ListResponse>,
                                  search: Option<seq<Option<string>>>) returns (messageId: Option<string>)
      modifies this
      ensures State() == FindStep(old(State()), env, userText, list, search).session
      ensures messageId == FindStep(old(State()), env, userText, list, search).value
    {
      if emailListCache == [] {
        var _ := FetchLatestEmails(env, list);
      }
      var k := FindInCache(CleanQuery(userText));
      if k < |emailListCache| {
        return emailListCache[k].messageId;
      }
      var token := GetAccessToken(env);
      var accountId := GetAccountId(env);
      if search.Some? && search.value != [] {
        return search.value[0];
      }
      return None;
    }

    method GetFullEmailContent(env: Env, resp: Option<ContentResponse>) returns (content: Option<EmailContent>)
      modifies this
      ensures State() == ContentStep(old(State()), env, resp).session
      ensures content == ContentStep(old(State()), env, resp).value
    {
      var token := GetAccessToken(env);
      var accountId := GetAccountId(env);
      match resp {
        case None =>
          return None;
        case Some(r) =>
          if r.status == 200 {
            return Some(EmailContent(r.subject.GetOr("Analyzed Email"),
                                     FirstText(r.content, r.body, "No text content.")));
          }
          // a rejected request clears the account id so that it is detected again
          accountIdCache := None;
          return None;
      }
    }
  }
}

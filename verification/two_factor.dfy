/**
 * The Telegram two-factor flow and the identifier admin commands
 * (automation-service/telegram_2fa.py), without the aiogram transport: each
 * handler takes the sender's id, the message text and the current time, updates
 * the per-user FSM state and the in-memory verification sessions of the `Bot`
 * and the `Database` it shares, and returns the kind of reply it would send.
 * Randomness (`secrets`) arrives as parameters.
 */
module TwoFactor {
  import opened Common
  import opened Store
  import opened CorporateIds

  /** The states of `AuthStates` and `AdminStates`; a user with no entry has a cleared state. */
  datatype FsmState =
    | WaitingForCorporateId
    | WaitingForVerificationCode
    | Authenticated
    | WaitingForOwner
    | WaitingForRevokeId
    | WaitingForSearch
    | WaitingForValidateId
  {
    /** The states only the admin commands enter. */
    predicate AdminOnly() {
      WaitingForOwner? || WaitingForRevokeId? || WaitingForSearch?
    }
  }

  /** An entry of `verification_codes`. */
  datatype Session = Session(corporateId: string, code: string, expiresAt: int)

  /** What the handler answers, in place of the text it sends. */
  datatype Reply =
    | AlreadyAuthenticated(corporateId: string)
    | AskCorporateId
    | InvalidCorporateId
    | CodeSent
    | CodeExpired
    | WrongCode
    | AuthSucceeded
    | AccessDenied
    | AskOwner
    | IdIssued(id: string, owner: string)
    | DrawsExhausted
    | AskIdToRevoke
    | InvalidIdFormat
    | IdNotFound
    | IdRevoked
    | AskSearchQuery
    | NothingFound
    | SearchResults(rows: seq<IdRecord>)
    | AskIdToValidate
    | IdIsValid(status: string, owner: string)

  /** `timedelta(minutes=5)` in seconds. */
  const SessionSeconds: int := 300

  /** `search_ids` called with its default limit. */
  const SearchLimit: int := 20

  /** `str(message.from_user.id)`. */
  function TelegramId(userId: int): string {
    IntToString(userId)
  }

  /** `set(x.strip() for x in ADMIN_TELEGRAM_IDS.split(',') if x.strip())`. */
  function ParseAdminIds(config: string): (ids: set<string>)
    ensures forall t :: t in ids ==> t != [] && ',' !in t && Unpadded(t)
  {
    set p | p in Split(config, ',') && Strip(p) != [] :: Strip(p)
  }

  /** A comma-separated list of clean ids parses back to exactly those ids. */
  lemma ParseAdminIdsOfList(ids: seq<string>)
    requires |ids| >= 1
    requires forall i :: 0 <= i < |ids| ==> ids[i] != [] && ',' !in ids[i] && Unpadded(ids[i])
    ensures ParseAdminIds(Join(ids, ',')) == set i | 0 <= i < |ids| :: ids[i]
  {
    SplitJoin(ids, ',');
    var parts := Split(Join(ids, ','), ',');
    assert parts == ids;
    forall t | t in ids ensures Strip(t) == t {
      StripPadded([], t, []);
      assert [] + t + [] == t;
    }
    forall t | t in ParseAdminIds(Join(ids, ',')) ensures t in ids {
      var p :| p in parts && Strip(p) != [] && Strip(p) == t;
    }
    forall i | 0 <= i < |ids| ensures ids[i] in ParseAdminIds(Join(ids, ',')) {
      assert ids[i] in parts && Strip(ids[i]) == ids[i];
    }
  }

  /** `is_admin`: the sender's id, as a string, is one of the configured ids. */
  predicate IsAdmin(adminIds: set<string>, userId: int) {
    TelegramId(userId) in adminIds
  }

  /** A user sits in an admin-only state only if that user is an admin. */
  ghost predicate AdminStatesHeldByAdmins(states: map<int, FsmState>, adminIds: set<string>) {
    forall u :: u in states && states[u].AdminOnly() ==> IsAdmin(adminIds, u)
  }

  /** Six upper-case hexadecimal characters: what `token_hex(3).upper()` yields. */
  predicate IsCodeFormat(code: string) {
    |code| == 6 && forall i :: 0 <= i < 6 ==> IsUpperHexChar(code[i])
  }

  ghost predicate SessionsWellFormed(sessions: map<int, Session>) {
    forall u :: u in sessions ==> IsCodeFormat(sessions[u].code) && |sessions[u].corporateId| >= 3
  }

  /** What `handle_corporate_id` stores: the stripped id, the code and an expiry five minutes out. */
  function NewSession(corporateId: string, rnd: seq<byte>, now: int): (s: Session)
    requires |rnd| == 3
    ensures IsCodeFormat(s.code) && Upper(s.code) == s.code
    ensures ParseHex(s.code) == rnd
  {
    HexUpperIsUpper(rnd);
    HexRoundTrip(rnd);
    Session(corporateId, HexUpper(rnd), now + SessionSeconds)
  }

  /** A session is still usable at `now`: the code expires only strictly after `expires_at`. */
  predicate SessionLive(s: Session, now: int) {
    !(now > s.expiresAt)
  }

  /** A code typed exactly, in any letter case and with surrounding whitespace, is accepted. */
  lemma TypedCodeMatches(s: Session, pre: string, typed: string, post: string)
    requires IsCodeFormat(s.code)
    requires AllSpace(pre) && AllSpace(post)
    requires |typed| == 6 && forall i :: 0 <= i < 6 ==> UpperChar(typed[i]) == s.code[i]
    ensures Upper(Strip(pre + typed + post)) == s.code
  {
    assert !IsSpace(typed[0]) && !IsSpace(typed[5]) by {
      assert IsUpperHexChar(UpperChar(typed[0])) && IsUpperHexChar(UpperChar(typed[5]));
    }
    StripPadded(pre, typed, post);
  }

  /** The code, sent back exactly as issued, is accepted. */
  lemma CodeTypedBack(s: Session)
    requires IsCodeFormat(s.code)
    ensures Upper(Strip(s.code)) == s.code
  {
    assert !IsSpace(s.code[0]) && !IsSpace(s.code[5]) by {
      assert IsUpperHexChar(s.code[0]) && IsUpperHexChar(s.code[5]);
    }
    StripPadded([], s.code, []);
    assert [] + s.code + [] == s.code;
    assert NoLowerAscii(s.code) by {
      forall i | 0 <= i < 6 ensures IsUpperHexChar(s.code[i]) {}
    }
    UpperFixed(s.code);
  }

  /** The reply `zzzzzz` reads as `ZZZZZZ`, whose first character is not hexadecimal. */
  lemma ReplyZIsNotHex()
    ensures |Upper(Strip("zzzzzz"))| > 0 && !IsUpperHexChar(Upper(Strip("zzzzzz"))[0])
  {
    assert Strip("zzzzzz")[0] in "zzzzzz";
  }

  /** A reply that, stripped and upper-cased, holds any character outside the hexadecimal alphabet never matches a code. */
  lemma NonHexRejected(s: Session, text: string, i: nat)
    requires IsCodeFormat(s.code)
    requires i < |Upper(Strip(text))| && !IsUpperHexChar(Upper(Strip(text))[i])
    ensures Upper(Strip(text)) != s.code
  {
    if |Upper(Strip(text))| == 6 {
      assert IsUpperHexChar(s.code[i]);
    }
  }

  /** A session made at `t` is accepted at `t + 299` and expired at `t + 301`. */
  lemma SessionWindow(corporateId: string, rnd: seq<byte>, t: int)
    requires |rnd| == 3
    ensures SessionLive(NewSession(corporateId, rnd, t), t + 299)
    ensures SessionLive(NewSession(corporateId, rnd, t), t + 300)
    ensures !SessionLive(NewSession(corporateId, rnd, t), t + 301)
  {
  }

  /**
   * The revoke and validate handlers test `Upper(Strip(text))`; on such input the
   * regex's allowance for a final newline never applies, so the test is exactly the format.
   */
  lemma HandlerIdCheck(text: string)
    ensures MatchesIdPattern(Upper(Strip(text))) <==> IsIdFormat(Upper(Strip(text)))
  {
    var s := Strip(text);
    var u := Upper(s);
    if s != [] {
      assert u[0] == UpperChar(s[0]) && u[|u| - 1] == UpperChar(s[|s| - 1]);
    }
    PatternOnStripped(u);
  }

  class Bot {
    const db: Database
    const adminIds: set<string>
    var states: map<int, FsmState>
    var sessions: map<int, Session>

    ghost predicate Valid()
      reads this, db
    {
      && db.Valid()
      && AdminStatesHeldByAdmins(states, adminIds)
      && SessionsWellFormed(sessions)
    }

    /** `Telegram2FA.__init__`: no sessions, no states, admin ids parsed from the setting. */
    constructor (db: Database, adminConfig: string)
      requires db.Valid()
      ensures Valid()
      ensures this.db == db && adminIds == ParseAdminIds(adminConfig)
      ensures states == map[] && sessions == map[]
    {
      this.db := db;
      adminIds := ParseAdminIds(adminConfig);
      states := map[];
      sessions := map[];
    }

    // ----- the linking flow

    method StartCommand(userId: int) returns (reply: Reply)
      requires Valid()
      modifies this
      ensures Valid()
      ensures sessions == old(sessions)
      ensures (exists c :: c in db.users && db.users[c].telegramId == Some(TelegramId(userId))) ==>
        && states == old(states)[userId := Authenticated]
        && reply.AlreadyAuthenticated?
        && reply.corporateId in db.users
        && db.users[reply.corporateId].telegramId == Some(TelegramId(userId))
      ensures !(exists c :: c in db.users && db.users[c].telegramId == Some(TelegramId(userId))) ==>
        states == old(states)[userId := WaitingForCorporateId] && reply == AskCorporateId
    {
      var existing := db.GetUserByTelegramId(TelegramId(userId));
      if existing.Some? {
        states := states[userId := Authenticated];
        reply := AlreadyAuthenticated(existing.value.corporateId);
      } else {
        states := states[userId := WaitingForCorporateId];
        reply := AskCorporateId;
      }
    }

    /** `rnd` is the three random bytes behind `secrets.token_hex(3)`. */
    method HandleCorporateId(userId: int, text: string, rnd: seq<byte>, now: int) returns (reply: Reply)
      requires Valid()
      requires |rnd| == 3
      modifies this
      ensures Valid()
      ensures |Strip(text)| < 3 ==>
        states == old(states) && sessions == old(sessions) && reply == InvalidCorporateId
      ensures |Strip(text)| >= 3 ==>
        && sessions == old(sessions)[userId := NewSession(Strip(text), rnd, now)]
        && states == old(states)[userId := WaitingForVerificationCode]
        && reply == CodeSent
    {
      var corporateId := Strip(text);
      if corporateId == [] || |corporateId| < 3 {
        return InvalidCorporateId;
      }
      sessions := sessions[userId := NewSession(corporateId, rnd, now)];
      states := states[userId := WaitingForVerificationCode];
      reply := CodeSent;
    }

    method HandleVerificationCode(userId: int, text: string, now: int) returns (reply: Reply)
      requires Valid()
      modifies this, db
      ensures Valid()
      ensures reply != AuthSucceeded ==> unchanged(db)
      ensures userId !in old(sessions) ==>
        states == old(states) - {userId} && sessions == old(sessions) && reply == CodeExpired
      ensures userId in old(sessions) && now > old(sessions)[userId].expiresAt ==>
        states == old(states) - {userId} && sessions == old(sessions) - {userId} && reply == CodeExpired
      ensures userId in old(sessions) && SessionLive(old(sessions)[userId], now) && Upper(Strip(text)) != old(sessions)[userId].code ==>
        states == old(states) && sessions == old(sessions) && reply == WrongCode
      ensures userId in old(sessions) && SessionLive(old(sessions)[userId], now) && Upper(Strip(text)) == old(sessions)[userId].code ==>
        && db.users == LinkedUsers(old(db.users), TelegramId(userId), old(sessions)[userId].corporateId)
        && db.registry == old(db.registry) && db.idAudit == old(db.idAudit) && db.authLogs == old(db.authLogs)
        && db.monitorEvents == old(db.monitorEvents) && db.trafficStats == old(db.trafficStats)
        && db.webhookEvents == old(db.webhookEvents)
        && sessions == old(sessions) - {userId}
        && states == old(states)[userId := Authenticated]
        && reply == AuthSucceeded
    {
      var userCode := Upper(Strip(text));
      if userId !in sessions {
        states := states - {userId};
        return CodeExpired;
      }
      var data := sessions[userId];
      if now > data.expiresAt {
        sessions := sessions - {userId};
        states := states - {userId};
        return CodeExpired;
      }
      if userCode != data.code {
        return WrongCode;
      }
      // The result of linking is not looked at: a refused link still authenticates.
      var _ := db.LinkTelegramToCorporate(TelegramId(userId), data.corporateId);
      sessions := sessions - {userId};
      states := states[userId := Authenticated];
      reply := AuthSucceeded;
    }

    // ----- admin commands

    method IssueIdCommand(userId: int) returns (reply: Reply)
      requires Valid()
      modifies this
      ensures Valid()
      ensures sessions == old(sessions)
      ensures IsAdmin(adminIds, userId) ==> states == old(states)[userId := WaitingForOwner] && reply == AskOwner
      ensures !IsAdmin(adminIds, userId) ==> states == old(states) && reply == AccessDenied
    {
      if !IsAdmin(adminIds, userId) {
        return AccessDenied;
      }
      states := states[userId := WaitingForOwner];
      reply := AskOwner;
    }

    /**
     * The regenerate loop of `handle_owner_for_issue`. `draws` are the successive outcomes
     * of `generate_corporate_id`: the first is always tried, each later one only when the
     * previous identifier is already registered. `k` is the draw that was free, if any.
     */
    method FirstFreeDraw(draws: seq<IdDraw>) returns (found: bool, k: nat)
      requires Valid()
      requires |draws| >= 1 && forall i :: 0 <= i < |draws| ==> ValidDraw(draws[i])
      ensures found ==> k < |draws| && GenerateCorporateId(draws[k]) !in db.registry
      ensures found ==> forall j :: 0 <= j < k ==> GenerateCorporateId(draws[j]) in db.registry
      ensures !found ==> forall j :: 0 <= j < |draws| ==> GenerateCorporateId(draws[j]) in db.registry
    {
      k := 0;
      var rec := db.GetId(GenerateCorporateId(draws[0]));
      while rec.Some?
        invariant 0 <= k < |draws|
        invariant rec.Some? <==> GenerateCorporateId(draws[k]) in db.registry
        invariant forall j :: 0 <= j < k ==> GenerateCorporateId(draws[j]) in db.registry
        decreases |draws| - k
      {
        if k + 1 == |draws| {
          return false, k;
        }
        k := k + 1;
        rec := db.GetId(GenerateCorporateId(draws[k]));
      }
      found := true;
    }

    method HandleOwnerForIssue(userId: int, text: string, draws: seq<IdDraw>, now: int) returns (reply: Reply)
      requires Valid()
      requires |draws| >= 1 && forall i :: 0 <= i < |draws| ==> ValidDraw(draws[i])
      modifies this, db
      ensures Valid()
      ensures sessions == old(sessions)
      ensures reply.IdIssued? || reply == DrawsExhausted
      ensures reply == DrawsExhausted ==>
        && unchanged(db) && states == old(states)
        && forall i :: 0 <= i < |draws| ==> GenerateCorporateId(draws[i]) in old(db.registry)
      ensures reply.IdIssued? ==>
        && reply.owner == Strip(text)
        && reply.id !in old(db.registry)
        && IsIdFormat(reply.id)
        && (exists k :: 0 <= k < |draws| && reply.id == GenerateCorporateId(draws[k])
              && forall j :: 0 <= j < k ==> GenerateCorporateId(draws[j]) in old(db.registry))
        && db.registry == old(db.registry)[reply.id := IdRecord(reply.id, reply.owner, Issued, now, None)]
        && db.idAudit == old(db.idAudit) + [AuditEntry(reply.id, "issue", TelegramId(userId), reply.owner, now)]
        && db.users == old(db.users) && db.authLogs == old(db.authLogs) && db.monitorEvents == old(db.monitorEvents)
        && db.trafficStats == old(db.trafficStats) && db.webhookEvents == old(db.webhookEvents)
        && states == old(states) - {userId}
    {
      var owner := Strip(text);
      var found, k := FirstFreeDraw(draws);
      if !found {
        return DrawsExhausted;
      }
      var newId := GenerateCorporateId(draws[k]);
      var _ := db.CreateId(newId, owner, now);
      db.AuditIdAction(newId, "issue", TelegramId(userId), owner, now);
      states := states - {userId};
      reply := IdIssued(newId, owner);
    }

    method RevokeIdCommand(userId: int) returns (reply: Reply)
      requires Valid()
      modifies this
      ensures Valid()
      ensures sessions == old(sessions)
      ensures IsAdmin(adminIds, userId) ==> states == old(states)[userId := WaitingForRevokeId] && reply == AskIdToRevoke
      ensures !IsAdmin(adminIds, userId) ==> states == old(states) && reply == AccessDenied
    {
      if !IsAdmin(adminIds, userId) {
        return AccessDenied;
      }
      states := states[userId := WaitingForRevokeId];
      reply := AskIdToRevoke;
    }

    method HandleRevokeId(userId: int, text: string, now: int) returns (reply: Reply)
      requires Valid()
      modifies this, db
      ensures Valid()
      ensures sessions == old(sessions)
      ensures !MatchesIdPattern(Upper(Strip(text))) ==>
        unchanged(db) && states == old(states) && reply == InvalidIdFormat
      ensures MatchesIdPattern(Upper(Strip(text))) && Upper(Strip(text)) !in old(db.registry) ==>
        unchanged(db) && states == old(states) && reply == IdNotFound
      ensures MatchesIdPattern(Upper(Strip(text))) && Upper(Strip(text)) in old(db.registry) ==>
        var id := Upper(Strip(text));
        && db.registry == old(db.registry)[id := old(db.registry)[id].(status := Revoked, updatedAt := Some(now))]
        && db.idAudit == old(db.idAudit) + [AuditEntry(id, "revoke", TelegramId(userId), "", now)]
        && db.users == old(db.users) && db.authLogs == old(db.authLogs) && db.monitorEvents == old(db.monitorEvents)
        && db.trafficStats == old(db.trafficStats) && db.webhookEvents == old(db.webhookEvents)
        && states == old(states) - {userId}
        && reply == IdRevoked
    {
      var id := Upper(Strip(text));
      if !MatchesIdPattern(id) {
        return InvalidIdFormat;
      }
      var rec := db.GetId(id);
      if rec.None? {
        return IdNotFound;
      }
      var _ := db.SetIdStatus(id, "revoked", now);
      db.AuditIdAction(id, "revoke", TelegramId(userId), "", now);
      states := states - {userId};
      reply := IdRevoked;
    }

    method SearchIdCommand(userId: int) returns (reply: Reply)
      requires Valid()
      modifies this
      ensures Valid()
      ensures sessions == old(sessions)
      ensures IsAdmin(adminIds, userId) ==> states == old(states)[userId := WaitingForSearch] && reply == AskSearchQuery
      ensures !IsAdmin(adminIds, userId) ==> states == old(states) && reply == AccessDenied
    {
      if !IsAdmin(adminIds, userId) {
        return AccessDenied;
      }
      states := states[userId := WaitingForSearch];
      reply := AskSearchQuery;
    }

    method HandleSearchId(userId: int, text: string) returns (reply: Reply)
      requires Valid()
      modifies this
      ensures Valid()
      ensures sessions == old(sessions) && states == old(states) - {userId}
      ensures reply.NothingFound? || reply.SearchResults?
      ensures reply.NothingFound? <==> MatchingIds(db.registry, Strip(text)) == {}
      ensures reply.SearchResults? ==> reply.rows != [] && IsSearchResult(db.registry, Strip(text), SearchLimit, reply.rows)
    {
      var query := Strip(text);
      var rows := db.SearchIds(query, SearchLimit);
      SearchEmptyIff(db.registry, query, SearchLimit, rows);
      if rows == [] {
        reply := NothingFound;
      } else {
        reply := SearchResults(rows);
      }
      states := states - {userId};
    }

    /** Unlike the other admin commands, this one does not check `is_admin`. */
    method ValidateIdCommand(userId: int) returns (reply: Reply)
      requires Valid()
      modifies this
      ensures Valid()
      ensures sessions == old(sessions)
      ensures states == old(states)[userId := WaitingForValidateId] && reply == AskIdToValidate
    {
      states := states[userId := WaitingForValidateId];
      reply := AskIdToValidate;
    }

    method HandleValidateId(userId: int, text: string) returns (reply: Reply)
      requires Valid()
      modifies this
      ensures Valid()
      ensures sessions == old(sessions)
      ensures !MatchesIdPattern(Upper(Strip(text))) ==> states == old(states) && reply == InvalidIdFormat
      ensures MatchesIdPattern(Upper(Strip(text))) ==> states == old(states) - {userId}
      ensures MatchesIdPattern(Upper(Strip(text))) && Upper(Strip(text)) !in db.registry ==> reply == IdNotFound
      ensures MatchesIdPattern(Upper(Strip(text))) && Upper(Strip(text)) in db.registry ==>
        reply == IdIsValid(db.registry[Upper(Strip(text))].status.Name(), db.registry[Upper(Strip(text))].owner)
    {
      var id := Upper(Strip(text));
      if !MatchesIdPattern(id) {
        return InvalidIdFormat;
      }
      var rec := db.GetId(id);
      if rec.None? {
        reply := IdNotFound;
      } else {
        reply := IdIsValid(rec.value.status.Name(), rec.value.owner);
      }
      states := states - {userId};
    }
  }

  /** Into an empty table, `INSERT OR REPLACE` stores just the new row. */
  lemma ReplaceIntoEmpty(row: UserRow)
    ensures ReplaceUser(map[], row) == map[row.corporateId := row]
  {
  }

  lemma PaddedIdStrips()
    ensures Strip(" AB123456 ") == "AB123456"
  {
    assert " AB123456 " == " " + "AB123456" + " ";
    StripPadded(" ", "AB123456", " ");
  }

  /**
   * The linking flow end to end: an account row for AB123456 exists, user 1 sends
   * /start, submits the id with surrounding spaces, types a wrong code and then the
   * right one, and ends up bound to that row.
   */
  method LinkingScenario(rnd: seq<byte>, t: int)
    requires |rnd| == 3
  {
    var db := new Database();
    var row := NewUserRow("AB123456", "corp_AB123456", "sub", "hy2", "key", None, t);
    db.AddUser("AB123456", "corp_AB123456", "sub", "hy2", "key", None, t);
    ReplaceIntoEmpty(row);
    assert db.users == map["AB123456" := row] && row.telegramId == None;
    var bot := new Bot(db, "");
    var r1 := bot.StartCommand(1);
    assert r1 == AskCorporateId;
    PaddedIdStrips();
    var r2 := bot.HandleCorporateId(1, " AB123456 ", rnd, t);
    assert r2 == CodeSent && bot.sessions[1] == NewSession("AB123456", rnd, t);
    assert !LinkedElsewhere(db.users, TelegramId(1), "AB123456");
    RetryThenLink(bot, 1, "AB123456", rnd, t);
    assert db.users["AB123456"].telegramId == Some(TelegramId(1));
  }

  /**
   * The end of the linking flow: with a fresh session open for a row no other user is
   * bound to, a wrong code costs nothing and the right code, typed back before the
   * session expires, binds the sender's Telegram id to that row.
   */
  method RetryThenLink(bot: Bot, userId: int, corporateId: string, rnd: seq<byte>, t: int)
    requires bot.Valid() && |rnd| == 3
    requires userId in bot.sessions && bot.sessions[userId] == NewSession(corporateId, rnd, t)
    requires corporateId in bot.db.users && !LinkedElsewhere(bot.db.users, TelegramId(userId), corporateId)
    modifies bot, bot.db
    ensures corporateId in bot.db.users && bot.db.users[corporateId].telegramId == Some(TelegramId(userId))
    ensures userId !in bot.sessions && userId in bot.states && bot.states[userId] == Authenticated
  {
    ReplyZIsNotHex();
    NonHexRejected(bot.sessions[userId], "zzzzzz", 0);
    var r0 := bot.HandleVerificationCode(userId, "zzzzzz", t + 10);
    assert r0 == WrongCode && bot.sessions[userId] == NewSession(corporateId, rnd, t);
    CodeTypedBack(bot.sessions[userId]);
    var r1 := bot.HandleVerificationCode(userId, HexUpper(rnd), t + SessionSeconds);
    assert r1 == AuthSucceeded;
    LinkOutcome(old(bot.db.users), TelegramId(userId), corporateId);
  }
}

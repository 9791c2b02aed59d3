/**
 * The account, identifier and event store of the automation service
 * (automation-service/database.py). Each SQL table is a field of the
 * `Database` class: the keyed tables are maps, the append-only tables are
 * sequences in insertion order. Timestamps are integer seconds passed in by
 * the caller in place of `datetime.now()` and `CURRENT_TIMESTAMP`.
 */
module Store {
  import opened Common

  // ---------------------------------------------------------------------
  // Rows

  /** A row of `users`. */
  datatype UserRow = UserRow(
    corporateId: string,
    blitzUsername: string,
    hy2AuthKey: string,
    subscriptionUrl: string,
    hy2Url: string,
    telegramId: Option<string>,
    createdAt: int,
    isActive: bool,
    lastAccess: Option<int>,
    authAttempts: nat,
    lockedUntil: Option<int>,
    totalUpload: int,
    totalDownload: int)

  /** The four values the `CHECK` constraint of `id_registry.status` admits. */
  datatype IdStatus = Issued | Active | Revoked | Archived {
    function Name(): string {
      match this
      case Issued => "issued"
      case Active => "active"
      case Revoked => "revoked"
      case Archived => "archived"
    }
  }

  /** The status a text stands for, or `None` when the `CHECK` constraint would refuse it. */
  function ParseStatus(s: string): (st: Option<IdStatus>)
    ensures st.Some? ==> st.value.Name() == s
  {
    if s == "issued" then Some(Issued)
    else if s == "active" then Some(Active)
    else if s == "revoked" then Some(Revoked)
    else if s == "archived" then Some(Archived)
    else None
  }

  lemma ParseStatusName(st: IdStatus)
    ensures ParseStatus(st.Name()) == Some(st)
  {
  }

  /** A row of `id_registry`. */
  datatype IdRecord = IdRecord(id: string, owner: string, status: IdStatus, issuedAt: int, updatedAt: Option<int>)

  /** A row of `id_audit`. */
  datatype AuditEntry = AuditEntry(id: string, action: string, actor: string, details: string, createdAt: int)

  /** A row of `auth_logs`. */
  datatype AuthLog = AuthLog(
    corporateId: string,
    telegramId: Option<string>,
    action: string,
    ipAddress: string,
    userAgent: string,
    success: bool,
    errorMessage: Option<string>,
    createdAt: int)

  /** A row of `monitor_events`. */
  datatype MonitorEvent = MonitorEvent(component: string, level: string, message: string, details: string, createdAt: int)

  /** A row of `traffic_stats`. */
  datatype TrafficRecord = TrafficRecord(corporateId: string, username: string, uploadBytes: int, downloadBytes: int, timestamp: int)

  /** A row of `webhook_events`; `id` is the AUTOINCREMENT key. */
  datatype WebhookEventRow = WebhookEventRow(
    id: int,
    eventType: string,
    corporateId: string,
    eventData: string,
    processed: bool,
    createdAt: int,
    processedAt: Option<int>)

  // ---------------------------------------------------------------------
  // Table invariants

  /** Every `users` row sits under its own primary key. */
  ghost predicate UserKeysMatch(users: map<string, UserRow>) {
    forall c :: c in users ==> users[c].corporateId == c
  }

  /** The `UNIQUE` constraint on `users.telegram_id` (NULL never conflicts). */
  ghost predicate TelegramIdsUnique(users: map<string, UserRow>) {
    forall c1, c2 :: c1 in users && c2 in users && users[c1].telegramId.Some? && users[c1].telegramId == users[c2].telegramId ==> c1 == c2
  }

  ghost predicate RegistryKeysMatch(registry: map<string, IdRecord>) {
    forall k :: k in registry ==> registry[k].id == k
  }

  /** AUTOINCREMENT on a table that is never deleted from: the n-th row has id n. */
  ghost predicate EventIdsSequential(events: seq<WebhookEventRow>) {
    forall i :: 0 <= i < |events| ==> events[i].id == i + 1
  }

  // ---------------------------------------------------------------------
  // Specification functions

  /** The row `add_user` writes: the given columns, `is_active = 1`, every other column at its default. */
  function NewUserRow(corporateId: string, blitzUsername: string, subscriptionUrl: string, hy2Url: string,
                      hy2AuthKey: string, telegramId: Option<string>, now: int): UserRow
  {
    UserRow(corporateId, blitzUsername, hy2AuthKey, subscriptionUrl, hy2Url, telegramId, now, true, None, 0, None, 0, 0)
  }

  /**
   * `INSERT OR REPLACE`: every row that conflicts with the new one on the primary key
   * or on the unique `telegram_id` is deleted before the new row is inserted.
   */
  function ReplaceUser(users: map<string, UserRow>, row: UserRow): (r: map<string, UserRow>)
    ensures row.corporateId in r && r[row.corporateId] == row
    ensures forall c :: c in r && c != row.corporateId ==> c in users && r[c] == users[c]
    ensures forall c :: c in users && c != row.corporateId && !(row.telegramId.Some? && users[c].telegramId == row.telegramId) ==> c in r
  {
    var kept := map c | c in users && c != row.corporateId && !(row.telegramId.Some? && users[c].telegramId == row.telegramId) :: users[c];
    kept[row.corporateId := row]
  }

  /** `INSERT OR REPLACE` keeps the unique `telegram_id` constraint. */
  lemma ReplaceUserKeepsUnique(users: map<string, UserRow>, row: UserRow)
    requires UserKeysMatch(users) && TelegramIdsUnique(users)
    ensures UserKeysMatch(ReplaceUser(users, row))
    ensures TelegramIdsUnique(ReplaceUser(users, row))
  {
  }

  /** Another row already carries `telegramId`, so `link_telegram_to_corporate` refuses. */
  predicate LinkedElsewhere(users: map<string, UserRow>, telegramId: string, corporateId: string) {
    exists c :: c in users && c != corporateId && users[c].telegramId == Some(telegramId)
  }

  /** The users table after `link_telegram_to_corporate(telegram_id, corporate_id)`. */
  function LinkedUsers(users: map<string, UserRow>, telegramId: string, corporateId: string): map<string, UserRow> {
    if LinkedElsewhere(users, telegramId, corporateId) then users
    else if corporateId in users then users[corporateId := users[corporateId].(telegramId := Some(telegramId))]
    else users
  }

  /**
   * Linking either leaves the table alone (the Telegram id is bound to another corporate id,
   * or there is no row to update) or binds the Telegram id to this row and touches no other;
   * the unique constraint holds afterwards, and linking twice is linking once.
   */
  lemma LinkOutcome(users: map<string, UserRow>, telegramId: string, corporateId: string)
    requires UserKeysMatch(users) && TelegramIdsUnique(users)
    ensures var r := LinkedUsers(users, telegramId, corporateId);
      && UserKeysMatch(r) && TelegramIdsUnique(r)
      && r.Keys == users.Keys
      && (LinkedElsewhere(users, telegramId, corporateId) || corporateId !in users ==> r == users)
      && (!LinkedElsewhere(users, telegramId, corporateId) && corporateId in users ==>
            r[corporateId].telegramId == Some(telegramId)
            && (forall c :: c in users && c != corporateId ==> r[c] == users[c]))
      && LinkedUsers(r, telegramId, corporateId) == r
  {
    var r := LinkedUsers(users, telegramId, corporateId);
    if !LinkedElsewhere(users, telegramId, corporateId) && corporateId in users {
      assert !LinkedElsewhere(r, telegramId, corporateId);
      assert r[corporateId := r[corporateId].(telegramId := Some(telegramId))] == r;
    }
  }

  /** `locked_until` is set and still in the future at `now`. */
  predicate LockedAt(users: map<string, UserRow>, corporateId: string, now: int) {
    corporateId in users && users[corporateId].lockedUntil.Some? && now < users[corporateId].lockedUntil.value
  }

  // ----- the ranges the source's runtime enforces

  /** The bounds of a 64-bit SQLite `INTEGER`; binding a Python int outside them raises `OverflowError`. */
  const Int64Min: int := -0x8000_0000_0000_0000
  const Int64Max: int := 0x7FFF_FFFF_FFFF_FFFF

  predicate IsInt64(n: int) {
    Int64Min <= n <= Int64Max
  }

  /**
   * `update_traffic_stats` binds the two new totals and the two deltas; it writes
   * only when all four fit in 64 bits.
   */
  predicate TrafficFits(u: UserRow, uploadBytes: int, downloadBytes: int) {
    && IsInt64(u.totalUpload + uploadBytes) && IsInt64(u.totalDownload + downloadBytes)
    && IsInt64(uploadBytes) && IsInt64(downloadBytes)
  }

  /** A total at the ceiling takes no further positive delta, and 64-bit deltas onto zero totals always fit. */
  lemma TrafficCeiling(u: UserRow, uploadBytes: int, downloadBytes: int)
    ensures u.totalUpload == Int64Max && uploadBytes > 0 ==> !TrafficFits(u, uploadBytes, downloadBytes)
    ensures u.totalDownload == Int64Max && downloadBytes > 0 ==> !TrafficFits(u, uploadBytes, downloadBytes)
    ensures u.totalUpload == 0 && u.totalDownload == 0 ==>
      (TrafficFits(u, uploadBytes, downloadBytes) <==> IsInt64(uploadBytes) && IsInt64(downloadBytes))
  {
  }

  /**
   * The instants a `datetime` can hold, in seconds from 1970-01-01 00:00:00:
   * 0001-01-01 00:00:00 through 9999-12-31 23:59:59. A clock reading inside them
   * keeps its fraction of a second, so whole seconds decide the bound exactly.
   */
  const MinTime: int := -62135596800
  const MaxTime: int := 253402300799

  predicate IsDatetime(t: int) {
    MinTime <= t <= MaxTime
  }

  /**
   * `datetime.now() + timedelta(minutes=minutes)` returns rather than raising
   * `OverflowError`: the `timedelta` keeps at most 999999999 days either way, and
   * the sum is a `datetime`.
   */
  predicate LockRepresentable(minutes: int, now: int) {
    -999999999 <= minutes / 1440 <= 999999999 && IsDatetime(now + minutes * 60)
  }

  /** For a clock reading the `timedelta` bound never decides: only the sum's range does. */
  lemma LockRangeIsDatetimeRange(minutes: int, now: int)
    requires IsDatetime(now)
    ensures LockRepresentable(minutes, now) <==> IsDatetime(now + minutes * 60)
  {
    if IsDatetime(now + minutes * 60) {
      assert -MaxTime + MinTime <= minutes * 60 <= MaxTime - MinTime;
    }
  }

  /** The users table after `lock_user(corporate_id, minutes)` at time `now`. */
  function WithLock(users: map<string, UserRow>, corporateId: string, minutes: int, now: int): map<string, UserRow> {
    if corporateId in users
    then users[corporateId := users[corporateId].(lockedUntil := Some(now + minutes * 60))]
    else users
  }

  /** A lock expires on its own: after `lock_user` the row is locked exactly until `now + minutes`. */
  lemma LockExpiresByItself(users: map<string, UserRow>, corporateId: string, minutes: int, now: int, t: int)
    ensures LockedAt(WithLock(users, corporateId, minutes, now), corporateId, t) <==> corporateId in users && t < now + minutes * 60
  {
  }

  /** The unprocessed events of `events`, in table order. */
  function Unprocessed(events: seq<WebhookEventRow>): seq<WebhookEventRow> {
    if events == [] then []
    else
      var last := events[|events| - 1];
      Unprocessed(events[..|events| - 1]) + (if last.processed then [] else [last])
  }

  /** The pending list holds exactly the unprocessed rows. */
  lemma {:induction false} UnprocessedMembers(events: seq<WebhookEventRow>, e: WebhookEventRow)
    ensures e in Unprocessed(events) <==> e in events && !e.processed
  {
    if events != [] {
      var init := events[..|events| - 1];
      UnprocessedMembers(init, e);
      assert events == init + [events[|events| - 1]];
    }
  }

  /** Ids of the pending list increase strictly: oldest event first. */
  lemma {:induction false} UnprocessedOldestFirst(events: seq<WebhookEventRow>)
    requires EventIdsSequential(events)
    ensures forall i, j :: 0 <= i < j < |Unprocessed(events)| ==> Unprocessed(events)[i].id < Unprocessed(events)[j].id
    ensures forall i :: 0 <= i < |Unprocessed(events)| ==> Unprocessed(events)[i].id <= |events|
  {
    if events != [] {
      var init := events[..|events| - 1];
      UnprocessedOldestFirst(init);
      var p := Unprocessed(init);
      forall i | 0 <= i < |p| ensures p[i] in init {
        assert p[i] in p;
        UnprocessedMembers(init, p[i]);
      }
    }
  }

  /** The events table after `mark_webhook_event_processed(event_id)` at `now`. */
  function MarkProcessed(events: seq<WebhookEventRow>, eventId: int, now: int): (r: seq<WebhookEventRow>)
    requires EventIdsSequential(events)
    ensures |r| == |events| && EventIdsSequential(r)
    ensures forall i :: 0 <= i < |events| && events[i].id != eventId ==> r[i] == events[i]
    ensures forall i :: 0 <= i < |events| && events[i].id == eventId ==> r[i].processed
  {
    if 1 <= eventId <= |events|
    then events[eventId - 1 := events[eventId - 1].(processed := true, processedAt := Some(now))]
    else events
  }

  /** Marking an event removes it, and nothing else, from the pending list. */
  lemma MarkProcessedLeavesPending(events: seq<WebhookEventRow>, eventId: int, now: int, e: WebhookEventRow)
    requires EventIdsSequential(events)
    ensures e in Unprocessed(MarkProcessed(events, eventId, now)) <==> e in Unprocessed(events) && e.id != eventId
  {
    var r := MarkProcessed(events, eventId, now);
    UnprocessedMembers(events, e);
    UnprocessedMembers(r, e);
    if e in r && !e.processed {
      var i :| 0 <= i < |r| && r[i] == e;
      assert events[i] == e;
    }
    if e in events && !e.processed && e.id != eventId {
      var i :| 0 <= i < |events| && events[i] == e;
      assert r[i] == e;
    }
  }

  /** The `LIKE '%query%'` filter of `search_ids`, read as a case-sensitive substring test. */
  predicate MatchesQuery(rec: IdRecord, query: string) {
    Contains(rec.id, query) || Contains(rec.owner, query) || Contains(rec.status.Name(), query)
  }

  ghost function MatchingIds(registry: map<string, IdRecord>, query: string): set<string> {
    set k | k in registry && MatchesQuery(registry[k], query)
  }

  ghost function ReturnedIds(rows: seq<IdRecord>): set<string> {
    set i | 0 <= i < |rows| :: rows[i].id
  }

  /**
   * What `SELECT ... WHERE id LIKE q OR owner LIKE q OR status LIKE q ORDER BY issued_at DESC LIMIT n`
   * returns: distinct matching records, newest first, at most `limit` of them (a negative
   * limit is no limit), all matches when fewer than `limit` came back, and nothing left out
   * that is newer than something returned.
   */
  ghost predicate IsSearchResult(registry: map<string, IdRecord>, query: string, limit: int, rows: seq<IdRecord>) {
    && (forall i :: 0 <= i < |rows| ==> rows[i].id in registry && registry[rows[i].id] == rows[i] && MatchesQuery(rows[i], query))
    && (forall i, j :: 0 <= i < j < |rows| ==> rows[i].id != rows[j].id && rows[i].issuedAt >= rows[j].issuedAt)
    && (limit >= 0 ==> |rows| <= limit)
    && ((limit < 0 || |rows| < limit) ==> MatchingIds(registry, query) <= ReturnedIds(rows))
    && (forall k :: k in MatchingIds(registry, query) - ReturnedIds(rows) ==>
          forall i :: 0 <= i < |rows| ==> registry[k].issuedAt <= rows[i].issuedAt)
  }

  /** Appending a record adds its id to the returned ids, and nothing else. */
  lemma ReturnedIdsAppend(rows: seq<IdRecord>, r: IdRecord)
    ensures ReturnedIds(rows + [r]) == ReturnedIds(rows) + {r.id}
  {
    var after := rows + [r];
    forall x | x in ReturnedIds(after) ensures x in ReturnedIds(rows) + {r.id} {
      var i :| 0 <= i < |after| && after[i].id == x;
      if i < |rows| { assert rows[i].id == x; }
    }
    forall x | x in ReturnedIds(rows) ensures x in ReturnedIds(after) {
      var i :| 0 <= i < |rows| && rows[i].id == x;
      assert after[i].id == x;
    }
    assert after[|rows|].id == r.id;
  }

  /** With a positive limit the search comes back empty exactly when nothing matches. */
  lemma SearchEmptyIff(registry: map<string, IdRecord>, query: string, limit: int, rows: seq<IdRecord>)
    requires IsSearchResult(registry, query, limit, rows) && limit > 0
    ensures rows == [] <==> MatchingIds(registry, query) == {}
  {
    if rows != [] {
      assert rows[0].id in MatchingIds(registry, query);
    }
  }

  /**
   * Midway through the search: `rows` holds distinct matching records, newest first,
   * `candidates` the matches not yet taken, none of them newer than a taken one.
   */
  ghost predicate SearchProgress(registry: map<string, IdRecord>, query: string, candidates: set<string>, rows: seq<IdRecord>) {
    && ReturnedIds(rows) !! candidates
    && ReturnedIds(rows) + candidates == MatchingIds(registry, query)
    && (forall i :: 0 <= i < |rows| ==> rows[i].id in registry && registry[rows[i].id] == rows[i] && MatchesQuery(rows[i], query))
    && (forall i, j :: 0 <= i < j < |rows| ==> rows[i].id != rows[j].id && rows[i].issuedAt >= rows[j].issuedAt)
    && (forall k :: k in candidates ==> forall i :: 0 <= i < |rows| ==> registry[k].issuedAt <= rows[i].issuedAt)
  }

  /** Taking the newest remaining candidate keeps the search in progress. */
  lemma SearchStep(registry: map<string, IdRecord>, query: string, candidates: set<string>, rows: seq<IdRecord>, k: string)
    requires RegistryKeysMatch(registry) && SearchProgress(registry, query, candidates, rows)
    requires k in candidates && forall j :: j in candidates ==> registry[j].issuedAt <= registry[k].issuedAt
    ensures SearchProgress(registry, query, candidates - {k}, rows + [registry[k]])
  {
    ReturnedIdsAppend(rows, registry[k]);
    var after := rows + [registry[k]];
    assert k in registry && registry[k].id == k;
    assert forall i :: 0 <= i < |rows| ==> after[i] == rows[i];
    assert after[|rows|] == registry[k];
  }

  /** Stopping for lack of candidates or at the limit yields a search result. */
  lemma SearchDone(registry: map<string, IdRecord>, query: string, limit: int, candidates: set<string>, rows: seq<IdRecord>)
    requires SearchProgress(registry, query, candidates, rows)
    requires limit >= 0 ==> |rows| <= limit
    requires candidates == {} || (limit >= 0 && |rows| >= limit)
    ensures IsSearchResult(registry, query, limit, rows)
  {
  }

  /** A non-empty set of keys has a member with the latest `issued_at`. */
  lemma {:induction false} NewestExists(registry: map<string, IdRecord>, keys: set<string>)
    requires keys != {} && keys <= registry.Keys
    ensures exists k :: k in keys && forall j :: j in keys ==> registry[j].issuedAt <= registry[k].issuedAt
    decreases keys
  {
    var x :| x in keys;
    if keys != {x} {
      NewestExists(registry, keys - {x});
      var k :| k in keys - {x} && forall j :: j in keys - {x} ==> registry[j].issuedAt <= registry[k].issuedAt;
      if registry[x].issuedAt <= registry[k].issuedAt {
        assert k in keys && forall j :: j in keys ==> registry[j].issuedAt <= registry[k].issuedAt;
      } else {
        assert x in keys && forall j :: j in keys ==> registry[j].issuedAt <= registry[x].issuedAt;
      }
    }
  }

  // ---------------------------------------------------------------------
  // The store

  class Database {
    var users: map<string, UserRow>
    var registry: map<string, IdRecord>
    var idAudit: seq<AuditEntry>
    var authLogs: seq<AuthLog>
    var monitorEvents: seq<MonitorEvent>
    var trafficStats: seq<TrafficRecord>
    var webhookEvents: seq<WebhookEventRow>

    ghost predicate Valid()
      reads this
    {
      && UserKeysMatch(users)
      && TelegramIdsUnique(users)
      && RegistryKeysMatch(registry)
      && EventIdsSequential(webhookEvents)
    }

    /** `init_db` on a fresh file: every table empty. */
    constructor ()
      ensures Valid()
      ensures users == map[] && registry == map[]
      ensures idAudit == [] && authLogs == [] && monitorEvents == [] && trafficStats == [] && webhookEvents == []
    {
      users, registry := map[], map[];
      idAudit, authLogs, monitorEvents, trafficStats, webhookEvents := [], [], [], [], [];
    }

    // ----- users

    method AddUser(corporateId: string, blitzUsername: string, subscriptionUrl: string, hy2Url: string,
                   hy2AuthKey: string, telegramId: Option<string>, now: int)
      requires Valid()
      modifies this
      ensures Valid()
      ensures users == ReplaceUser(old(users), NewUserRow(corporateId, blitzUsername, subscriptionUrl, hy2Url, hy2AuthKey, telegramId, now))
      ensures registry == old(registry) && idAudit == old(idAudit) && authLogs == old(authLogs)
      ensures monitorEvents == old(monitorEvents) && trafficStats == old(trafficStats) && webhookEvents == old(webhookEvents)
    {
      users := ReplaceUser(users, NewUserRow(corporateId, blitzUsername, subscriptionUrl, hy2Url, hy2AuthKey, telegramId, now));
    }

    method GetUser(corporateId: string) returns (row: Option<UserRow>)
      requires Valid()
      ensures row.Some? <==> corporateId in users
      ensures row.Some? ==> row.value == users[corporateId] && row.value.corporateId == corporateId
    {
      row := if corporateId in users then Some(users[corporateId]) else None;
    }

    method GetUserByTelegramId(telegramId: string) returns (row: Option<UserRow>)
      requires Valid()
      ensures row.Some? <==> exists c :: c in users && users[c].telegramId == Some(telegramId)
      ensures row.Some? ==> row.value.corporateId in users && users[row.value.corporateId] == row.value
      ensures row.Some? ==> row.value.telegramId == Some(telegramId)
    {
      if c :| c in users && users[c].telegramId == Some(telegramId) {
        row := Some(users[c]);
      } else {
        row := None;
      }
    }

    method LinkTelegramToCorporate(telegramId: string, corporateId: string) returns (ok: bool)
      requires Valid()
      modifies this
      ensures Valid()
      ensures ok <==> !LinkedElsewhere(old(users), telegramId, corporateId)
      ensures users == LinkedUsers(old(users), telegramId, corporateId)
      ensures registry == old(registry) && idAudit == old(idAudit) && authLogs == old(authLogs)
      ensures monitorEvents == old(monitorEvents) && trafficStats == old(trafficStats) && webhookEvents == old(webhookEvents)
    {
      if exists c :: c in users && c != corporateId && users[c].telegramId == Some(telegramId) {
        return false;
      }
      LinkOutcome(users, telegramId, corporateId);
      if corporateId in users {
        users := users[corporateId := users[corporateId].(telegramId := Some(telegramId))];
      }
      ok := true;
    }

    method DeactivateUser(corporateId: string)
      requires Valid()
      modifies this
      ensures Valid()
      ensures corporateId in old(users) ==> users == old(users)[corporateId := old(users)[corporateId].(isActive := false)]
      ensures corporateId !in old(users) ==> users == old(users)
      ensures registry == old(registry) && idAudit == old(idAudit) && authLogs == old(authLogs)
      ensures monitorEvents == old(monitorEvents) && trafficStats == old(trafficStats) && webhookEvents == old(webhookEvents)
    {
      if corporateId in users {
        users := users[corporateId := users[corporateId].(isActive := false)];
      }
    }

    /**
     * `raised` stands for the `OverflowError` of binding a total or a delta outside
     * 64 bits; the connection then closes without `commit`, so nothing is written.
     */
    method UpdateTrafficStats(corporateId: string, uploadBytes: int, downloadBytes: int, now: int) returns (raised: bool)
      requires Valid()
      modifies this
      ensures Valid()
      ensures raised <==> corporateId in old(users) && !TrafficFits(old(users)[corporateId], uploadBytes, downloadBytes)
      ensures corporateId !in old(users) || raised ==> users == old(users) && trafficStats == old(trafficStats)
      ensures corporateId in old(users) && !raised ==>
        var u := old(users)[corporateId];
        && users == old(users)[corporateId := u.(totalUpload := u.totalUpload + uploadBytes,
                                                 totalDownload := u.totalDownload + downloadBytes,
                                                 lastAccess := Some(now))]
        && trafficStats == old(trafficStats) + [TrafficRecord(corporateId, u.blitzUsername, uploadBytes, downloadBytes, now)]
        && IsInt64(users[corporateId].totalUpload) && IsInt64(users[corporateId].totalDownload)
      ensures registry == old(registry) && idAudit == old(idAudit) && authLogs == old(authLogs)
      ensures monitorEvents == old(monitorEvents) && webhookEvents == old(webhookEvents)
    {
      var user := GetUser(corporateId);
      raised := false;
      if user.Some? {
        var u := user.value;
        var newUpload := u.totalUpload + uploadBytes;
        var newDownload := u.totalDownload + downloadBytes;
        if !IsInt64(newUpload) || !IsInt64(newDownload) || !IsInt64(uploadBytes) || !IsInt64(downloadBytes) {
          return true;
        }
        users := users[corporateId := u.(totalUpload := u.totalUpload + uploadBytes,
                                         totalDownload := u.totalDownload + downloadBytes,
                                         lastAccess := Some(now))];
        trafficStats := trafficStats + [TrafficRecord(corporateId, u.blitzUsername, uploadBytes, downloadBytes, now)];
      }
    }

    // ----- append-only logs

    method LogAuthAttempt(corporateId: string, telegramId: Option<string>, action: string, ipAddress: string,
                          userAgent: string, success: bool, errorMessage: Option<string>, now: int)
      requires Valid()
      modifies this
      ensures Valid()
      ensures authLogs == old(authLogs) + [AuthLog(corporateId, telegramId, action, ipAddress, userAgent, success, errorMessage, now)]
      ensures users == old(users) && registry == old(registry) && idAudit == old(idAudit)
      ensures monitorEvents == old(monitorEvents) && trafficStats == old(trafficStats) && webhookEvents == old(webhookEvents)
    {
      authLogs := authLogs + [AuthLog(corporateId, telegramId, action, ipAddress, userAgent, success, errorMessage, now)];
    }

    method LogMonitorEvent(component: string, level: string, message: string, details: string, now: int)
      requires Valid()
      modifies this
      ensures Valid()
      ensures monitorEvents == old(monitorEvents) + [MonitorEvent(component, level, message, details, now)]
      ensures users == old(users) && registry == old(registry) && idAudit == old(idAudit)
      ensures authLogs == old(authLogs) && trafficStats == old(trafficStats) && webhookEvents == old(webhookEvents)
    {
      monitorEvents := monitorEvents + [MonitorEvent(component, level, message, details, now)];
    }

    // ----- webhook event queue

    method CreateWebhookEvent(eventType: string, corporateId: string, eventData: string, now: int)
      requires Valid()
      modifies this
      ensures Valid()
      ensures webhookEvents == old(webhookEvents) + [WebhookEventRow(|old(webhookEvents)| + 1, eventType, corporateId, eventData, false, now, None)]
      ensures users == old(users) && registry == old(registry) && idAudit == old(idAudit)
      ensures authLogs == old(authLogs) && monitorEvents == old(monitorEvents) && trafficStats == old(trafficStats)
    {
      webhookEvents := webhookEvents + [WebhookEventRow(|webhookEvents| + 1, eventType, corporateId, eventData, false, now, None)];
    }

    method GetPendingWebhookEvents() returns (pending: seq<WebhookEventRow>)
      requires Valid()
      ensures pending == Unprocessed(webhookEvents)
      ensures forall e :: e in pending <==> e in webhookEvents && !e.processed
      ensures forall i, j :: 0 <= i < j < |pending| ==> pending[i].id < pending[j].id
    {
      pending := [];
      var i := 0;
      while i < |webhookEvents|
        invariant 0 <= i <= |webhookEvents|
        invariant pending == Unprocessed(webhookEvents[..i])
      {
        assert webhookEvents[..i + 1][..i] == webhookEvents[..i];
        if !webhookEvents[i].processed {
          pending := pending + [webhookEvents[i]];
        }
        i := i + 1;
      }
      assert webhookEvents[..i] == webhookEvents;
      forall e ensures e in pending <==> e in webhookEvents && !e.processed {
        UnprocessedMembers(webhookEvents, e);
      }
      UnprocessedOldestFirst(webhookEvents);
    }

    method MarkWebhookEventProcessed(eventId: int, now: int)
      requires Valid()
      modifies this
      ensures Valid()
      ensures webhookEvents == MarkProcessed(old(webhookEvents), eventId, now)
      ensures users == old(users) && registry == old(registry) && idAudit == old(idAudit)
      ensures authLogs == old(authLogs) && monitorEvents == old(monitorEvents) && trafficStats == old(trafficStats)
    {
      if 1 <= eventId <= |webhookEvents| {
        webhookEvents := webhookEvents[eventId - 1 := webhookEvents[eventId - 1].(processed := true, processedAt := Some(now))];
      }
    }

    // ----- lockout

    method IncrementAuthAttempts(corporateId: string)
      requires Valid()
      modifies this
      ensures Valid()
      ensures corporateId in old(users) ==>
        users == old(users)[corporateId := old(users)[corporateId].(authAttempts := old(users)[corporateId].authAttempts + 1)]
      ensures corporateId !in old(users) ==> users == old(users)
      ensures registry == old(registry) && idAudit == old(idAudit) && authLogs == old(authLogs)
      ensures monitorEvents == old(monitorEvents) && trafficStats == old(trafficStats) && webhookEvents == old(webhookEvents)
    {
      if corporateId in users {
        users := users[corporateId := users[corporateId].(authAttempts := users[corporateId].authAttempts + 1)];
      }
    }

    /** `raised` stands for the `OverflowError` of a `locked_until` outside `datetime`'s range. */
    method LockUser(corporateId: string, durationMinutes: int, now: int) returns (raised: bool)
      requires Valid()
      modifies this
      ensures Valid()
      ensures raised <==> !LockRepresentable(durationMinutes, now)
      ensures users == if raised then old(users) else WithLock(old(users), corporateId, durationMinutes, now)
      ensures registry == old(registry) && idAudit == old(idAudit) && authLogs == old(authLogs)
      ensures monitorEvents == old(monitorEvents) && trafficStats == old(trafficStats) && webhookEvents == old(webhookEvents)
    {
      raised := !LockRepresentable(durationMinutes, now);
      if raised {
        return;
      }
      users := WithLock(users, corporateId, durationMinutes, now);
    }

    method IsUserLocked(corporateId: string, now: int) returns (locked: bool)
      requires Valid()
      ensures locked <==> corporateId in users && users[corporateId].lockedUntil.Some? && now < users[corporateId].lockedUntil.value
    {
      var user := GetUser(corporateId);
      locked := user.Some? && user.value.lockedUntil.Some? && now < user.value.lockedUntil.value;
    }

    method ResetAuthAttempts(corporateId: string)
      requires Valid()
      modifies this
      ensures Valid()
      ensures corporateId in old(users) ==>
        users == old(users)[corporateId := old(users)[corporateId].(authAttempts := 0, lockedUntil := None)]
      ensures corporateId !in old(users) ==> users == old(users)
      ensures registry == old(registry) && idAudit == old(idAudit) && authLogs == old(authLogs)
      ensures monitorEvents == old(monitorEvents) && trafficStats == old(trafficStats) && webhookEvents == old(webhookEvents)
    {
      if corporateId in users {
        users := users[corporateId := users[corporateId].(authAttempts := 0, lockedUntil := None)];
      }
    }

    // ----- identifier registry

    method GetId(id: string) returns (rec: Option<IdRecord>)
      requires Valid()
      ensures rec.Some? <==> id in registry
      ensures rec.Some? ==> rec.value == registry[id] && rec.value.id == id
    {
      rec := if id in registry then Some(registry[id]) else None;
    }

    /** `ok` is false where the `INSERT` raises on the duplicate primary key. */
    method CreateId(id: string, owner: string, now: int) returns (ok: bool)
      requires Valid()
      modifies this
      ensures Valid()
      ensures ok <==> id !in old(registry)
      ensures ok ==> registry == old(registry)[id := IdRecord(id, owner, Issued, now, None)]
      ensures !ok ==> registry == old(registry)
      ensures users == old(users) && idAudit == old(idAudit) && authLogs == old(authLogs)
      ensures monitorEvents == old(monitorEvents) && trafficStats == old(trafficStats) && webhookEvents == old(webhookEvents)
    {
      if id in registry {
        return false;
      }
      registry := registry[id := IdRecord(id, owner, Issued, now, None)];
      ok := true;
    }

    /** `ok` is false where the `UPDATE` raises on the `CHECK` constraint of `status`. */
    method SetIdStatus(id: string, status: string, now: int) returns (ok: bool)
      requires Valid()
      modifies this
      ensures Valid()
      ensures ok <==> id !in old(registry) || ParseStatus(status).Some?
      ensures id in old(registry) && ok ==>
        registry == old(registry)[id := old(registry)[id].(status := ParseStatus(status).value, updatedAt := Some(now))]
      ensures id !in old(registry) || !ok ==> registry == old(registry)
      ensures users == old(users) && idAudit == old(idAudit) && authLogs == old(authLogs)
      ensures monitorEvents == old(monitorEvents) && trafficStats == old(trafficStats) && webhookEvents == old(webhookEvents)
    {
      ok := true;
      if id in registry {
        var st := ParseStatus(status);
        if st.None? {
          return false;
        }
        registry := registry[id := registry[id].(status := st.value, updatedAt := Some(now))];
      }
    }

    method SearchIds(query: string, limit: int) returns (rows: seq<IdRecord>)
      requires Valid()
      ensures IsSearchResult(registry, query, limit, rows)
    {
      var candidates := set k | k in registry && MatchesQuery(registry[k], query);
      rows := [];
      while candidates != {} && (limit < 0 || |rows| < limit)
        invariant SearchProgress(registry, query, candidates, rows)
        invariant limit >= 0 ==> |rows| <= limit
        decreases candidates
      {
        NewestExists(registry, candidates);
        var k :| k in candidates && forall j :: j in candidates ==> registry[j].issuedAt <= registry[k].issuedAt;
        SearchStep(registry, query, candidates, rows, k);
        rows := rows + [registry[k]];
        candidates := candidates - {k};
      }
      SearchDone(registry, query, limit, candidates, rows);
    }

    method AuditIdAction(id: string, action: string, actor: string, details: string, now: int)
      requires Valid()
      modifies this
      ensures Valid()
      ensures idAudit == old(idAudit) + [AuditEntry(id, action, actor, details, now)]
      ensures users == old(users) && registry == old(registry) && authLogs == old(authLogs)
      ensures monitorEvents == old(monitorEvents) && trafficStats == old(trafficStats) && webhookEvents == old(webhookEvents)
    {
      idAudit := idAudit + [AuditEntry(id, action, actor, details, now)];
    }
  }

  /**
   * The registry cases of automation-service/tests/test_database.py: an identifier
   * created for an owner reads back with that owner, and after a status update
   * with the new status.
   */
  method RegistryScenario(t: int)
  {
    var db := new Database();
    var created := db.CreateId("AB123456", "tester", t);
    assert created;
    var rec := db.GetId("AB123456");
    assert rec.Some? && rec.value.id == "AB123456" && rec.value.owner == "tester";
    var updated := db.SetIdStatus("AB123456", "revoked", t + 1);
    assert updated;
    rec := db.GetId("AB123456");
    assert rec.Some? && rec.value.status.Name() == "revoked" && rec.value.owner == "tester";
  }
}

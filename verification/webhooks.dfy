/**
 * HR webhook ingestion (automation-service/webhooks.py): the optional signature
 * gate, persisting the event, then dispatching it to the deactivation, role-change
 * or suspension handler, and the two secret-protected queue endpoints.
 * HMAC-SHA256, `json.dumps` and the provisioning panel's "disable user" call are
 * parameters; the module's global store is passed in as `db`.
 */
module Webhooks {
  import opened Common
  import opened Store

  /** The JSON values an event's `event_data` may carry that the handlers distinguish. */
  datatype Value = Int(n: int) | Str(s: string) | Null

  type EventData = map<string, Value>

  datatype WebhookEvent = WebhookEvent(
    eventType: string,
    corporateId: string,
    eventData: EventData,
    timestamp: string,
    signature: Option<string>)

  datatype Settings = Settings(webhookSecret: string, corporateSecret: string)

  /** The functions the module calls but whose insides are not modelled. */
  datatype Externals = Externals(
    /** `hmac.new(secret.encode(), payload, hashlib.sha256).hexdigest()` */
    hmacHex: (string, string) -> string,
    /** `json.dumps(event.dict(exclude={'signature'}), default=str)`: the signature field is not an input */
    eventJson: (string, string, EventData, string) -> string,
    /** `json.dumps(event.event_data, default=str)` */
    dataJson: EventData -> string,
    /** whether `blitz.update_user_status(username, False)` returns rather than raises */
    disableSucceeds: string -> bool)

  datatype Response =
    | Processed(eventId: string)
    | InvalidSignature
    | SignatureTypeError
    | ProcessingError
    | InvalidCorporateSecret
    | PendingEvents(events: seq<WebhookEventRow>)
    | MarkedProcessed
  {
    function StatusCode(): int {
      match this
      case InvalidSignature => 401
      case InvalidCorporateSecret => 403
      case SignatureTypeError => 500
      case ProcessingError => 500
      case _ => 200
    }
  }

  // ----- the signature gate

  predicate IsAscii(s: string) {
    forall i :: 0 <= i < |s| ==> s[i] < 128 as char
  }

  predicate IsLowerHexChar(c: char) {
    ('0' <= c <= '9') || ('a' <= c <= 'f')
  }

  /**
   * `verify_webhook_signature`: `hmac.compare_digest` on two `str` values raises
   * `TypeError` (here `None`) unless both are ASCII; the expected digest always is.
   */
  function VerifyWebhookSignature(payload: string, signature: string, secret: string,
                                  hmacHex: (string, string) -> string): Option<bool>
  {
    if !IsAscii(signature) || !IsAscii(hmacHex(secret, payload)) then None
    else Some(signature == hmacHex(secret, payload))
  }

  const SignaturePrefix: string := "sha256="

  datatype Gate = NotChecked | Accepted | Rejected | Raised

  /** Lines 66-72: checked only when the header is non-empty and a secret is configured. */
  function SignatureGate(settings: Settings, event: WebhookEvent, header: Option<string>, ext: Externals): Gate {
    if header.None? || header.value == [] || settings.webhookSecret == [] then NotChecked
    else
      var payload := ext.eventJson(event.eventType, event.corporateId, event.eventData, event.timestamp);
      match VerifyWebhookSignature(payload, RemoveAll(header.value, SignaturePrefix), settings.webhookSecret, ext.hmacHex)
      case None => Raised
      case Some(ok) => if ok then Accepted else Rejected
  }

  /** The digest of the event under the configured secret. */
  function ExpectedDigest(settings: Settings, event: WebhookEvent, ext: Externals): string {
    ext.hmacHex(settings.webhookSecret, ext.eventJson(event.eventType, event.corporateId, event.eventData, event.timestamp))
  }

  /** Without a header, or without a configured secret, nothing is checked. */
  lemma GateSkipped(settings: Settings, event: WebhookEvent, header: Option<string>, ext: Externals)
    ensures SignatureGate(settings, event, header, ext) == NotChecked <==>
      header.None? || header.value == [] || settings.webhookSecret == []
  {
  }

  /**
   * With a secret configured, the correct digest is accepted whether it is sent as
   * `sha256=<hex>` or bare; the event's own `signature` field plays no part.
   */
  lemma SignedHeaderAccepted(settings: Settings, event: WebhookEvent, ext: Externals, sig: Option<string>)
    requires settings.webhookSecret != []
    requires var d := ExpectedDigest(settings, event, ext); forall i :: 0 <= i < |d| ==> IsLowerHexChar(d[i])
    ensures var d := ExpectedDigest(settings, event, ext);
      && SignatureGate(settings, event.(signature := sig), Some(SignaturePrefix + d), ext) == Accepted
      && (d != [] ==> SignatureGate(settings, event.(signature := sig), Some(d), ext) == Accepted)
  {
    var d := ExpectedDigest(settings, event, ext);
    assert 's' !in d by {
      forall i | 0 <= i < |d| ensures d[i] != 's' {
        assert IsLowerHexChar(d[i]);
      }
    }
    AbsentFirstChar(d, SignaturePrefix);
    RemoveAllAbsent(d, SignaturePrefix);
    RemoveAllLeading(SignaturePrefix, d);
  }

  /** A checked ASCII header whose digest differs from the expected one is refused. */
  lemma WrongSignatureRejected(settings: Settings, event: WebhookEvent, header: string, ext: Externals)
    requires header != [] && settings.webhookSecret != [] && IsAscii(header)
    requires IsAscii(ExpectedDigest(settings, event, ext))
    requires RemoveAll(header, SignaturePrefix) != ExpectedDigest(settings, event, ext)
    ensures SignatureGate(settings, event, Some(header), ext) == Rejected
  {
    RemoveAllKeepsAscii(header, SignaturePrefix);
  }

  lemma {:induction false} RemoveAllKeepsAscii(s: string, p: string)
    requires p != [] && IsAscii(s)
    ensures IsAscii(RemoveAll(s, p))
    decreases |s|
  {
    if |s| >= |p| {
      RemoveAllKeepsAscii(s[|p|..], p);
      RemoveAllKeepsAscii(s[1..], p);
    }
  }

  // ----- what the handlers do to the users table and the auth log

  /** `event_data.get(key, default)`. */
  function Get(data: EventData, key: string, default: Value): Value {
    if key in data then data[key] else default
  }

  /** How an f-string renders a value. */
  function Render(v: Value): string {
    match v
    case Int(n) => IntToString(n)
    case Str(s) => s
    case Null => "None"
  }

  /** The rows and log entries a handler leaves, and whether it raised. */
  datatype Effect = Effect(users: map<string, UserRow>, logs: seq<AuthLog>, raised: bool)

  function DeactivatedEffect(users: map<string, UserRow>, corporateId: string, data: EventData,
                             disableSucceeds: string -> bool, now: int): Effect
  {
    if corporateId !in users then Effect(users, [], false)
    else
      var user := users[corporateId];
      if !disableSucceeds(user.blitzUsername) then Effect(users, [], true)
      else
        var reason := Render(Get(data, "deactivation_reason", Str("unknown")));
        Effect(users[corporateId := user.(isActive := false)],
               [AuthLog(corporateId, user.telegramId, "user_deactivated", "system", "webhook", true,
                        Some("Deactivation reason: " + reason), now)],
               false)
  }

  /**
   * `duration_days` defaults to 0; a null duration makes the multiplication raise
   * `TypeError`, and a string one (repeated by the multiplication) makes `timedelta` raise it,
   * in both cases before anything is written. So does a duration that puts
   * `locked_until` outside `datetime`'s range (`OverflowError` in `lock_user`).
   */
  function SuspendedEffect(users: map<string, UserRow>, corporateId: string, data: EventData, now: int): Effect {
    if corporateId !in users then Effect(users, [], false)
    else
      var reason := Get(data, "suspension_reason", Str("unknown"));
      var duration := Get(data, "duration_days", Int(0));
      if !duration.Int? || !LockRepresentable(duration.n * 24 * 60, now) then Effect(users, [], true)
      else
        Effect(WithLock(users, corporateId, duration.n * 24 * 60, now),
               [AuthLog(corporateId, users[corporateId].telegramId, "user_suspended", "system", "webhook", true,
                        Some("Suspension reason: " + Render(reason) + ", duration: " + Render(duration) + " days"), now)],
               false)
  }

  /** The dispatch of lines 84-92; role changes and unknown types write nothing. */
  function DispatchEffect(users: map<string, UserRow>, event: WebhookEvent, ext: Externals, now: int): Effect {
    if event.eventType == "user_deactivated" then DeactivatedEffect(users, event.corporateId, event.eventData, ext.disableSucceeds, now)
    else if event.eventType == "user_suspended" then SuspendedEffect(users, event.corporateId, event.eventData, now)
    else Effect(users, [], false)
  }

  /**
   * What a handler may do to the store: touch at most the event's own row, keep the
   * table's keys and the unique Telegram ids, write at most one log entry, and write
   * nothing when it raises or when the corporate id is unknown.
   */
  ghost predicate Confined(users: map<string, UserRow>, corporateId: string, e: Effect) {
    && e.users.Keys == users.Keys
    && UserKeysMatch(e.users) && TelegramIdsUnique(e.users)
    && (forall c :: c in users && c != corporateId ==> e.users[c] == users[c])
    && |e.logs| <= 1
    && (e.raised || corporateId !in users ==> e.users == users && e.logs == [])
  }

  lemma DeactivatedConfined(users: map<string, UserRow>, corporateId: string, data: EventData,
                            disableSucceeds: string -> bool, now: int)
    requires UserKeysMatch(users) && TelegramIdsUnique(users)
    ensures Confined(users, corporateId, DeactivatedEffect(users, corporateId, data, disableSucceeds, now))
  {
    var e := DeactivatedEffect(users, corporateId, data, disableSucceeds, now);
    if corporateId in users && !e.raised {
      assert forall c :: c in e.users ==> e.users[c].telegramId == users[c].telegramId;
    }
  }

  lemma SuspendedConfined(users: map<string, UserRow>, corporateId: string, data: EventData, now: int)
    requires UserKeysMatch(users) && TelegramIdsUnique(users)
    ensures Confined(users, corporateId, SuspendedEffect(users, corporateId, data, now))
  {
    var e := SuspendedEffect(users, corporateId, data, now);
    if corporateId in users && !e.raised {
      assert forall c :: c in e.users ==> e.users[c].telegramId == users[c].telegramId;
    }
  }

  /** Whatever the event type, dispatch stays within those bounds. */
  lemma DispatchConfined(users: map<string, UserRow>, event: WebhookEvent, ext: Externals, now: int)
    requires UserKeysMatch(users) && TelegramIdsUnique(users)
    ensures Confined(users, event.corporateId, DispatchEffect(users, event, ext, now))
  {
    if event.eventType == "user_deactivated" {
      DeactivatedConfined(users, event.corporateId, event.eventData, ext.disableSucceeds, now);
    } else if event.eventType == "user_suspended" {
      SuspendedConfined(users, event.corporateId, event.eventData, now);
    }
  }

  /** A known user whose panel account is disabled ends up inactive, with one log entry saying why. */
  lemma DeactivationDisables(users: map<string, UserRow>, corporateId: string, data: EventData,
                             disableSucceeds: string -> bool, now: int)
    requires corporateId in users && disableSucceeds(users[corporateId].blitzUsername)
    ensures var e := DeactivatedEffect(users, corporateId, data, disableSucceeds, now);
      && !e.raised && !e.users[corporateId].isActive
      && |e.logs| == 1 && e.logs[0].action == "user_deactivated" && e.logs[0].corporateId == corporateId
      && (!("deactivation_reason" in data) ==> e.logs[0].errorMessage == Some("Deactivation reason: unknown"))
  {
    assert "Deactivation reason: " + "unknown" == "Deactivation reason: unknown";
  }

  /** A failed panel call leaves the row active and raises. */
  lemma DeactivationFailureKeepsRow(users: map<string, UserRow>, corporateId: string, data: EventData,
                                    disableSucceeds: string -> bool, now: int)
    requires corporateId in users && !disableSucceeds(users[corporateId].blitzUsername)
    ensures var e := DeactivatedEffect(users, corporateId, data, disableSucceeds, now);
      e.raised && e.users == users && e.logs == []
  {
  }

  /**
   * A suspension for `d` days at `now` raises exactly when `now + d` days is not a
   * `datetime`, and otherwise locks the user at exactly the instants before it and
   * logs once; without a duration the lock ends at `now`, so it never holds.
   */
  lemma SuspensionLocksForDays(users: map<string, UserRow>, corporateId: string, data: EventData, now: int, t: int)
    requires corporateId in users
    requires "duration_days" in data ==> data["duration_days"].Int?
    ensures var e := SuspendedEffect(users, corporateId, data, now);
      var days := Get(data, "duration_days", Int(0)).n;
      && (e.raised <==> !LockRepresentable(days * 24 * 60, now))
      && (IsDatetime(now) ==> (e.raised <==> !IsDatetime(now + days * 86400)))
      && (e.raised ==> e.users == users && e.logs == [])
      && (!e.raised ==> |e.logs| == 1 && (LockedAt(e.users, corporateId, t) <==> t < now + days * 86400))
      && ("duration_days" !in data && IsDatetime(now) ==> !e.raised && !LockedAt(e.users, corporateId, now))
  {
    var days := Get(data, "duration_days", Int(0)).n;
    if IsDatetime(now) {
      LockRangeIsDatetimeRange(days * 24 * 60, now);
    }
    LockExpiresByItself(users, corporateId, days * 24 * 60, now, t);
    LockExpiresByItself(users, corporateId, days * 24 * 60, now, now);
  }

  /** From a clock in 2026, a suspension of about 8,000 years is refused with nothing written. */
  lemma SuspensionBeyondYear9999Raises(users: map<string, UserRow>, corporateId: string, now: int)
    requires corporateId in users && 1767225600 <= now <= 1798761599
    ensures var e := SuspendedEffect(users, corporateId, map["duration_days" := Int(2_930_000)], now);
      e.raised && e.users == users && e.logs == []
  {
  }

  // ----- the handlers

  /** `handle_user_deactivated`; `raised` stands for the exception it re-raises. */
  method HandleUserDeactivated(db: Database, corporateId: string, data: EventData,
                               disableSucceeds: string -> bool, now: int) returns (raised: bool)
    requires db.Valid()
    modifies db
    ensures db.Valid()
    ensures var e := DeactivatedEffect(old(db.users), corporateId, data, disableSucceeds, now);
      && db.users == e.users && db.authLogs == old(db.authLogs) + e.logs && raised == e.raised
    ensures db.registry == old(db.registry) && db.idAudit == old(db.idAudit) && db.monitorEvents == old(db.monitorEvents)
    ensures db.trafficStats == old(db.trafficStats) && db.webhookEvents == old(db.webhookEvents)
  {
    var user := db.GetUser(corporateId);
    if user.None? {
      return false;
    }
    if !disableSucceeds(user.value.blitzUsername) {
      return true;
    }
    db.DeactivateUser(corporateId);
    var reason := Render(Get(data, "deactivation_reason", Str("unknown")));
    db.LogAuthAttempt(corporateId, user.value.telegramId, "user_deactivated", "system", "webhook", true,
                      Some("Deactivation reason: " + reason), now);
    raised := false;
  }

  /** The roles singled out at line 154. */
  const RestrictedRoles: set<string> := {"contractor", "intern", "visitor"}

  /**
   * `handle_user_role_changed` only logs; `limited` says whether it logs that the new
   * role may have limited access.
   */
  method HandleUserRoleChanged(db: Database, corporateId: string, data: EventData) returns (limited: bool)
    requires db.Valid()
    ensures limited <==> corporateId in db.users && "new_role" in data && data["new_role"].Str? && data["new_role"].s in RestrictedRoles
  {
    var user := db.GetUser(corporateId);
    if user.None? {
      return false;
    }
    limited := "new_role" in data && data["new_role"].Str? && data["new_role"].s in RestrictedRoles;
  }

  method HandleUserSuspended(db: Database, corporateId: string, data: EventData, now: int) returns (raised: bool)
    requires db.Valid()
    modifies db
    ensures db.Valid()
    ensures var e := SuspendedEffect(old(db.users), corporateId, data, now);
      && db.users == e.users && db.authLogs == old(db.authLogs) + e.logs && raised == e.raised
    ensures db.registry == old(db.registry) && db.idAudit == old(db.idAudit) && db.monitorEvents == old(db.monitorEvents)
    ensures db.trafficStats == old(db.trafficStats) && db.webhookEvents == old(db.webhookEvents)
  {
    var user := db.GetUser(corporateId);
    if user.None? {
      return false;
    }
    var reason := Get(data, "suspension_reason", Str("unknown"));
    var duration := Get(data, "duration_days", Int(0));
    if !duration.Int? {
      return true;
    }
    raised := db.LockUser(corporateId, duration.n * 24 * 60, now);
    if raised {
      return;
    }
    db.LogAuthAttempt(corporateId, user.value.telegramId, "user_suspended", "system", "webhook", true,
                      Some("Suspension reason: " + Render(reason) + ", duration: " + Render(duration) + " days"), now);
    raised := false;
  }

  /**
   * `handle_hr_webhook`: gate, then persist exactly one unprocessed row, then dispatch.
   * A failing handler turns into a 500, but the stored row stays and stays unprocessed.
   */
  method HandleHrWebhook(db: Database, settings: Settings, event: WebhookEvent, header: Option<string>,
                         ext: Externals, now: int) returns (resp: Response)
    requires db.Valid()
    modifies db
    ensures db.Valid()
    ensures resp.StatusCode() == 401 <==> SignatureGate(settings, event, header, ext) == Rejected
    ensures SignatureGate(settings, event, header, ext) == Rejected ==> resp == InvalidSignature && unchanged(db)
    ensures SignatureGate(settings, event, header, ext) == Raised ==> resp == SignatureTypeError && unchanged(db)
    ensures SignatureGate(settings, event, header, ext) in {NotChecked, Accepted} ==>
      var e := DispatchEffect(old(db.users), event, ext, now);
      && db.webhookEvents == old(db.webhookEvents) +
           [WebhookEventRow(|old(db.webhookEvents)| + 1, event.eventType, event.corporateId, ext.dataJson(event.eventData), false, now, None)]
      && db.users == e.users && db.authLogs == old(db.authLogs) + e.logs
      && db.registry == old(db.registry) && db.idAudit == old(db.idAudit)
      && db.monitorEvents == old(db.monitorEvents) && db.trafficStats == old(db.trafficStats)
      && resp == (if e.raised then ProcessingError else Processed(event.corporateId))
  {
    var gate := SignatureGate(settings, event, header, ext);
    if gate == Rejected {
      return InvalidSignature;
    } else if gate == Raised {
      return SignatureTypeError;
    }
    db.CreateWebhookEvent(event.eventType, event.corporateId, ext.dataJson(event.eventData), now);
    var raised := false;
    if event.eventType == "user_deactivated" {
      raised := HandleUserDeactivated(db, event.corporateId, event.eventData, ext.disableSucceeds, now);
    } else if event.eventType == "user_role_changed" {
      var _ := HandleUserRoleChanged(db, event.corporateId, event.eventData);
    } else if event.eventType == "user_suspended" {
      raised := HandleUserSuspended(db, event.corporateId, event.eventData, now);
    }
    if raised {
      return ProcessingError;
    }
    resp := Processed(event.corporateId);
  }

  // ----- the queue endpoints

  method GetPendingEndpoint(db: Database, settings: Settings, secretHeader: string) returns (resp: Response)
    requires db.Valid()
    ensures resp.StatusCode() == 403 <==> secretHeader != settings.corporateSecret
    ensures secretHeader != settings.corporateSecret ==> resp == InvalidCorporateSecret
    ensures secretHeader == settings.corporateSecret ==>
      resp.PendingEvents? && (forall r :: r in resp.events <==> r in db.webhookEvents && !r.processed)
      && (forall i, j :: 0 <= i < j < |resp.events| ==> resp.events[i].id < resp.events[j].id)
  {
    if secretHeader != settings.corporateSecret {
      return InvalidCorporateSecret;
    }
    var events := db.GetPendingWebhookEvents();
    resp := PendingEvents(events);
  }

  method MarkEventProcessedEndpoint(db: Database, settings: Settings, eventId: int, secretHeader: string, now: int)
    returns (resp: Response)
    requires db.Valid()
    modifies db
    ensures db.Valid()
    ensures resp.StatusCode() == 403 <==> secretHeader != settings.corporateSecret
    ensures secretHeader != settings.corporateSecret ==> resp == InvalidCorporateSecret && unchanged(db)
    ensures secretHeader == settings.corporateSecret ==>
      && resp == MarkedProcessed
      && db.webhookEvents == MarkProcessed(old(db.webhookEvents), eventId, now)
      && db.users == old(db.users) && db.registry == old(db.registry) && db.idAudit == old(db.idAudit)
      && db.authLogs == old(db.authLogs) && db.monitorEvents == old(db.monitorEvents) && db.trafficStats == old(db.trafficStats)
  {
    if secretHeader != settings.corporateSecret {
      return InvalidCorporateSecret;
    }
    db.MarkWebhookEventProcessed(eventId, now);
    resp := MarkedProcessed;
  }
}

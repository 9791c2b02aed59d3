# corpVPN automation service — a Dafny model

This project models the decision logic of the corpVPN automation service. That service links
Telegram accounts to corporate identifiers through a one-time code, and issues, revokes,
searches and validates those identifiers for administrators. It also ingests HR webhooks
that deactivate or suspend accounts, watches the provisioning panel ("Blitz") for outages,
and builds the panel's subscription URLs, `hy2://` URLs and client configurations.

Modules, one per source file:

- `Common` (`common.dfy`): the Python string operations the service relies on, with their laws.
  These are `strip`, ASCII `upper`, `str.replace(p, "")`, `split`/`join`, `str(int)` and upper-case hex.
- `Store` (`store.dfy`): `automation-service/database.py`.
  - Class `Database` holds one field per table. Keyed tables are maps; append-only tables are sequences.
  - `Valid()` collects the schema's constraints: primary keys, the unique `telegram_id`, and sequential AUTOINCREMENT ids.
  - Every method states its whole new state.
  - Specification functions (`ReplaceUser`, `LinkedUsers`, `WithLock`, `Unprocessed`, `MarkProcessed`, `IsSearchResult`) carry the lemmas.
- `CorporateIds` (`corporate_ids.dfy`): `generate_corporate_id` and the identifier regex of `automation-service/telegram_2fa.py`.
- `TwoFactor` (`two_factor.dfy`): the rest of `automation-service/telegram_2fa.py`.
  - Class `Bot` holds the per-user FSM state map and the `verification_codes` sessions.
  - Each handler maps (sender, text, time, random draw) to a new state, a new store and the kind of reply it sends.
- `Webhooks` (`webhooks.dfy`): `automation-service/webhooks.py`. It covers the signature gate, persisting the event, the dispatch to the three handlers, and the secret-protected queue endpoints.
- `Monitor` (`monitor.dfy`): `automation-service/monitor.py`.
  - Class `HealthMonitor` holds the consecutive-failure counter, with one step method per loop iteration.
  - Lemmas cover whole runs of probes.
- `Blitz` (`blitz.dfy`): the pure helpers of `automation-service/blitz_client.py`.

Time is an integer number of seconds from 1970-01-01 00:00:00, passed in by the caller.
Durations in minutes and days are converted to seconds. The runtime's range errors are part of
the model: a lock whose end falls outside `datetime`'s years 1 to 9999 raises `OverflowError`,
and so does a traffic total or delta outside SQLite's 64-bit `INTEGER`. In both cases nothing is written.

Several things become parameters:
- randomness: the three bytes behind `secrets.token_hex(3)`, and the index draws behind `secrets.choice`;
- HMAC-SHA256 and `json.dumps`;
- what the panel answers;
- whether `notify_admins` or a monitor-event write raise.

Behaviour of the code that the model follows as written:

- `handle_verification_code` (`automation-service/telegram_2fa.py:134`) ignores the result of linking. A code that matches authenticates even when the link is refused.
- `link_telegram_to_corporate` returns true when no row exists for the corporate id (`automation-service/database.py:144-147`).
- `validate_id_command` has no admin check (`automation-service/telegram_2fa.py:272-274`).
- `add_user` uses `INSERT OR REPLACE`. That also deletes another row holding the same `telegram_id`, which `ReplaceUser` models.
- `hmac.compare_digest` raises `TypeError` on a non-ASCII `str`. That gives a 500 before the event is stored (`SignatureGate` returns `Raised`).
- Python's `$` accepts one trailing newline (`MatchesIdPattern`). The handlers strip their input first, so this never applies there (`HandlerIdCheck`).
- The counter is reset only after `notify_admins` returns (`automation-service/monitor.py:42-48`). The real `notify_admins` swallows per-admin errors, so that path is always taken. The model keeps the failure case as a parameter.

## Model

| member | source | states |
|---|---|---|
| Common.StripPadded | automation-service/telegram_2fa.py:73 | stripping whitespace around a text without edge whitespace gives back that text |
| Common.StripIdempotent | automation-service/telegram_2fa.py:106 | stripping twice is stripping once |
| Common.UpperFixed | automation-service/telegram_2fa.py:106 | a text with no lower-case ASCII letter is unchanged by `upper()` |
| Common.RemoveAllAbsent | automation-service/webhooks.py:68 | `replace('sha256=', '')` leaves a text without that pattern unchanged |
| Common.RemoveAllLeading | automation-service/webhooks.py:68 | a leading `sha256=` is removed and the rest is treated as before |
| Common.RemoveAllKeepsPrefix | automation-service/blitz_client.py:148 | a prefix containing no occurrence of the pattern survives the replacement intact |
| Common.SplitJoin | automation-service/telegram_2fa.py:37 | splitting a comma-joined list of comma-free items gives back the items |
| Common.JoinSplit | automation-service/telegram_2fa.py:37 | joining the parts of a split gives back the original text |
| Common.DecimalRoundTrip | automation-service/telegram_2fa.py:131 | the decimal text of a natural number reads back as that number |
| Common.NatToStringInjective | automation-service/telegram_2fa.py:131 | different natural numbers have different decimal texts |
| Common.IntToStringInjective | automation-service/telegram_2fa.py:131 | different Telegram user ids give different `str(id)` texts |
| Common.HexRoundTrip | automation-service/telegram_2fa.py:84 | the upper-case hex text of the random bytes decodes to those bytes |
| Common.HexUpperIsUpper | automation-service/telegram_2fa.py:84 | `token_hex(...).upper()` is already upper-case |
| Store.ParseStatus | automation-service/database.py:91 | a text is accepted as a status only if it is the name of that status |
| Store.ParseStatusName | automation-service/database.py:91 | each of the four statuses is accepted under its own name |
| Store.ReplaceUser | automation-service/database.py:111-120 | `INSERT OR REPLACE` stores the new row and deletes only rows conflicting on the key or the Telegram id |
| Store.ReplaceUserKeepsUnique | automation-service/database.py:17-31 | replacing a row keeps rows under their own key and Telegram ids unique |
| Store.LinkOutcome | automation-service/database.py:136-147 | linking changes nothing when the Telegram id is on another row or the row is missing; otherwise it binds it on that row only; uniqueness holds after and linking twice is linking once |
| Store.LockRangeIsDatetimeRange | automation-service/database.py:263 | for a clock reading, `now + timedelta(minutes=m)` exists exactly when `now + 60m` lies in `datetime`'s range; the `timedelta` bound never decides |
| Store.TrafficCeiling | automation-service/database.py:158-165 | a total at the 64-bit ceiling refuses any positive delta; onto zero totals a delta fits exactly when it is itself a 64-bit integer |
| Store.LockExpiresByItself | automation-service/database.py:261-278 | after a lock for `m` minutes at `now`, the user is locked at `t` exactly when the row exists and `t < now + 60m` |
| Store.UnprocessedMembers | automation-service/database.py:232-241 | the pending list holds exactly the unprocessed events |
| Store.UnprocessedOldestFirst | automation-service/database.py:232-241 | the pending list is ordered oldest event first |
| Store.MarkProcessed | automation-service/database.py:243-250 | marking sets `processed` on the row with that id and changes no other row |
| Store.MarkProcessedLeavesPending | automation-service/database.py:243-250 | a marked event leaves the pending list and every other pending event stays |
| Store.SearchEmptyIff | automation-service/database.py:311-322 | with a positive limit the search is empty exactly when nothing matches |
| Store.ReturnedIdsAppend | automation-service/database.py:321-322 | appending a record adds exactly its id to the returned ids |
| Store.SearchStep | automation-service/database.py:318-319 | taking the newest remaining match keeps the partial result distinct, matching and newest first |
| Store.SearchDone | automation-service/database.py:316-320 | stopping when matches run out or the limit is reached yields a valid search result |
| Store.NewestExists | automation-service/database.py:318 | every non-empty set of records has one with the latest `issued_at` |
| Store.Database.constructor | automation-service/database.py:10-109 | a fresh database has every table empty |
| Store.Database.AddUser | automation-service/database.py:111-120 | the users table becomes the replacement of the new row: active, given Telegram id, zero attempts and totals, no lock; other tables unchanged |
| Store.Database.GetUser | automation-service/database.py:122-127 | a row is returned exactly when the key is present, and it is that row |
| Store.Database.GetUserByTelegramId | automation-service/database.py:129-134 | a row is returned exactly when some row carries the Telegram id, and it carries it |
| Store.Database.LinkTelegramToCorporate | automation-service/database.py:136-147 | returns false exactly when another row holds the Telegram id; the table becomes the linked table |
| Store.Database.DeactivateUser | automation-service/database.py:149-152 | `is_active` becomes false on that row only; a missing row changes nothing |
| Store.Database.UpdateTrafficStats | automation-service/database.py:154-173 | raises exactly when the user exists and a new total or a delta leaves 64 bits, then writes nothing; otherwise adds the deltas, stamps `last_access` and appends one traffic record, and the totals stay 64-bit; an unknown user changes nothing |
| Store.Database.LogAuthAttempt | automation-service/database.py:175-183 | appends exactly one auth-log entry with the given fields |
| Store.Database.LogMonitorEvent | automation-service/database.py:185-194 | appends exactly one monitor event with the given fields |
| Store.Database.CreateWebhookEvent | automation-service/database.py:224-230 | appends one unprocessed event with the next id |
| Store.Database.GetPendingWebhookEvents | automation-service/database.py:232-241 | returns exactly the unprocessed events, ids increasing |
| Store.Database.MarkWebhookEventProcessed | automation-service/database.py:243-250 | the events table becomes `MarkProcessed` of the old one; nothing else changes |
| Store.Database.IncrementAuthAttempts | automation-service/database.py:252-259 | adds exactly one to that row's attempt counter; a missing row changes nothing |
| Store.Database.LockUser | automation-service/database.py:261-269 | raises with no write exactly when `now` plus the minutes is not a `datetime`; otherwise sets `locked_until` to it on that row only |
| Store.Database.IsUserLocked | automation-service/database.py:271-278 | true exactly when the row has a lock still in the future |
| Store.Database.ResetAuthAttempts | automation-service/database.py:280-287 | zeroes the attempts and clears the lock on that row only |
| Store.Database.GetId | automation-service/database.py:289-294 | a record is returned exactly when the id is registered, and it is that record |
| Store.Database.CreateId | automation-service/database.py:296-302 | succeeds exactly when the id is new, storing it as `issued` with the owner; a duplicate changes nothing |
| Store.Database.SetIdStatus | automation-service/database.py:304-309 | sets the status and `updated_at` of that record only; a status outside the four is refused |
| Store.Database.SearchIds | automation-service/database.py:311-322 | distinct matching records, newest first, at most `limit`, all matches when fewer came back, none newer left out |
| Store.Database.AuditIdAction | automation-service/database.py:324-330 | appends exactly one audit entry with the given fields |
| CorporateIds.LetterAt | automation-service/telegram_2fa.py:43 | each alphabet letter is an upper-case ASCII letter other than I and O |
| CorporateIds.IdLettersExact | automation-service/telegram_2fa.py:43 | the alphabet holds exactly A-Z without I and O, each at a known index |
| CorporateIds.PatternOnStripped | automation-service/telegram_2fa.py:243 | on stripped text the regex accepts exactly two class letters and six digits |
| CorporateIds.GenerateCorporateId | automation-service/telegram_2fa.py:42-46 | every generated identifier has the format and passes the regex |
| CorporateIds.DrawFor | automation-service/telegram_2fa.py:42-46 | every identifier of the format has a valid draw |
| CorporateIds.GenerateReachesFormat | automation-service/telegram_2fa.py:42-46 | every identifier of the format can be generated |
| CorporateIds.GenerateInjective | automation-service/telegram_2fa.py:42-46 | different draws give different identifiers |
| TwoFactor.ParseAdminIds | automation-service/telegram_2fa.py:37 | parsed admin ids are non-empty, comma-free and stripped |
| TwoFactor.ParseAdminIdsOfList | automation-service/telegram_2fa.py:37 | a comma-separated list of clean ids parses to exactly that set |
| TwoFactor.NewSession | automation-service/telegram_2fa.py:84-91 | the code is six upper-case hex characters that decode to the random bytes |
| TwoFactor.TypedCodeMatches | automation-service/telegram_2fa.py:106-125 | the code typed in any letter case with surrounding whitespace is accepted |
| TwoFactor.CodeTypedBack | automation-service/telegram_2fa.py:106-125 | the code typed back exactly is accepted |
| TwoFactor.NonHexRejected | automation-service/telegram_2fa.py:125 | a reply whose stripped, upper-cased form holds any non-hex character never matches an issued code |
| TwoFactor.RetryThenLink | automation-service/telegram_2fa.py:104-145 | after a wrong code, the right code typed at the last second of the window still binds the Telegram id and authenticates |
| TwoFactor.SessionWindow | automation-service/telegram_2fa.py:118 | a session made at `t` is usable at `t+299` and `t+300` and expired at `t+301` |
| TwoFactor.HandlerIdCheck | automation-service/telegram_2fa.py:241-243 | on the handlers' upper-cased stripped input the regex is exactly the identifier format |
| TwoFactor.Bot.constructor | automation-service/telegram_2fa.py:32-37 | no sessions, no states, admin ids parsed from the setting |
| TwoFactor.Bot.StartCommand | automation-service/telegram_2fa.py:48-69 | a bound user goes to `authenticated` and is told its corporate id; others go to `waiting_for_corporate_id` |
| TwoFactor.Bot.HandleCorporateId | automation-service/telegram_2fa.py:71-102 | stripped input under 3 characters changes nothing; otherwise the session is replaced and the state advances |
| TwoFactor.Bot.HandleVerificationCode | automation-service/telegram_2fa.py:104-145 | no session or an expired one clears the state (the expired session is deleted); a wrong code changes nothing; a right one links, deletes the session and authenticates |
| TwoFactor.Bot.IssueIdCommand | automation-service/telegram_2fa.py:217-222 | non-admins are refused with the state unchanged; admins go to `waiting_for_owner` |
| TwoFactor.Bot.FirstFreeDraw | automation-service/telegram_2fa.py:226-228 | finds the first draw whose identifier is not registered, every earlier one being registered; reports when all are taken |
| TwoFactor.Bot.HandleOwnerForIssue | automation-service/telegram_2fa.py:224-232 | the issued id is the first draw not already registered; it is stored as `issued` with one `issue` audit entry, and the state is cleared |
| TwoFactor.Bot.RevokeIdCommand | automation-service/telegram_2fa.py:234-239 | non-admins are refused with the state unchanged; admins go to `waiting_for_revoke_id` |
| TwoFactor.Bot.HandleRevokeId | automation-service/telegram_2fa.py:241-253 | a malformed or unknown id changes nothing; a known one becomes `revoked` with one `revoke` audit entry, and the state is cleared |
| TwoFactor.Bot.SearchIdCommand | automation-service/telegram_2fa.py:255-260 | non-admins are refused with the state unchanged; admins go to `waiting_for_search` |
| TwoFactor.Bot.HandleSearchId | automation-service/telegram_2fa.py:262-270 | "nothing found" exactly when no record matches; otherwise a search result of at most 20; the state is cleared |
| TwoFactor.Bot.ValidateIdCommand | automation-service/telegram_2fa.py:272-274 | every user goes to `waiting_for_validate_id`, with no admin check |
| TwoFactor.Bot.HandleValidateId | automation-service/telegram_2fa.py:276-286 | a malformed id keeps the state; otherwise it reports not-found or the record's status and owner, and clears the state |
| Webhooks.GateSkipped | automation-service/webhooks.py:66 | the signature is checked exactly when the header is non-empty and a secret is configured |
| Webhooks.SignedHeaderAccepted | automation-service/webhooks.py:66-72 | the right digest is accepted, with or without `sha256=`, whatever the event's own signature field says |
| Webhooks.WrongSignatureRejected | automation-service/webhooks.py:41-49 | a checked ASCII header whose digest differs is rejected |
| Webhooks.DeactivatedConfined | automation-service/webhooks.py:100-135 | the deactivation handler touches only its own row, keeps uniqueness, logs at most once, and writes nothing when it raises or the user is unknown |
| Webhooks.SuspendedConfined | automation-service/webhooks.py:159-184 | the suspension handler touches only its own row, keeps uniqueness, logs at most once, and writes nothing when it raises or the user is unknown |
| Webhooks.DispatchConfined | automation-service/webhooks.py:84-96 | dispatch touches at most the event's own row, keeps uniqueness, logs at most once, and writes nothing when it raises or the user is unknown |
| Webhooks.DeactivationDisables | automation-service/webhooks.py:109-126 | after the panel disable, the user is inactive with one `user_deactivated` log giving the reason (default `unknown`) |
| Webhooks.DeactivationFailureKeepsRow | automation-service/webhooks.py:133-135 | a failed panel disable leaves the store untouched and raises |
| Webhooks.SuspensionLocksForDays | automation-service/webhooks.py:167-184 | a suspension for `d` days raises with no write exactly when `now + d` days is not a `datetime`; otherwise it locks the user exactly before that instant and logs once; without a duration it never locks |
| Webhooks.SuspensionBeyondYear9999Raises | automation-service/webhooks.py:173 | from a 2026 clock, a suspension of 2,930,000 days raises and writes nothing |
| Webhooks.HandleUserDeactivated | automation-service/webhooks.py:100-135 | the users table and auth log become the deactivation effect; nothing else changes |
| Webhooks.HandleUserRoleChanged | automation-service/webhooks.py:137-157 | changes nothing; reports limited access exactly for a known user whose new role is contractor, intern or visitor |
| Webhooks.HandleUserSuspended | automation-service/webhooks.py:159-184 | the users table and auth log become the suspension effect, which raises for a non-integer duration or a lock end outside `datetime`'s range; nothing else changes |
| Webhooks.HandleHrWebhook | automation-service/webhooks.py:51-98 | the status is 401 exactly when the gate rejects; a rejected or raising gate gives 401/500 with no write; otherwise one unprocessed event is stored, then the dispatch effect, 500 if it raised |
| Webhooks.GetPendingEndpoint | automation-service/webhooks.py:186-196 | a wrong secret, and only that, gives 403; otherwise exactly the unprocessed events, oldest first |
| Webhooks.MarkEventProcessedEndpoint | automation-service/webhooks.py:198-209 | a wrong secret, and only that, gives 403 with no write; otherwise only that event is marked |
| Blitz.RStrip | automation-service/blitz_client.py:12 | the result is a prefix not ending in the character, and only that character was removed |
| Blitz.RStripTrailing | automation-service/blitz_client.py:12 | any number of trailing slashes are removed and nothing more |
| Blitz.NewClient | automation-service/blitz_client.py:11-13 | the stored base URL is the given one less its trailing slashes |
| Blitz.PublicBaseUrlCases | automation-service/blitz_client.py:15-16 | one trailing `/api` is dropped, otherwise the base URL is kept |
| Blitz.PublicBaseUrlOfApi | automation-service/blitz_client.py:15-16 | the public base of `base + "/api"` is `base` |
| Blitz.PublicBaseUrlExamples | automation-service/tests/test_blitz_client.py:7-13 | the two test cases hold |
| Blitz.SubscriptionUrlParts | automation-service/blitz_client.py:138-140 | the subscription URL is the public base, `/sub/`, then the username |
| Blitz.DefaultSubscriptionUrl | automation-service/config.py:6 | the default panel URL serves subscriptions under `http://blitz:8000/sub/` |
| Blitz.ServerDomain | automation-service/blitz_client.py:148 | the server domain has no colon |
| Blitz.ServerDomainOfUrl | automation-service/blitz_client.py:148 | for `http(s)://host:port…` with a colon-free host the domain is exactly the host |
| Blitz.DefaultServerDomain | automation-service/config.py:6 | the default panel URL names server `blitz` |
| Blitz.RemoveAllFirst | automation-service/blitz_client.py:148 | a text not starting like the scheme keeps its first character after the replacement |
| Blitz.GetHy2Url | automation-service/blitz_client.py:142-152 | raises (user not found) exactly when the panel has no such user |
| Blitz.GetUserConfig | automation-service/blitz_client.py:80-117 | raises (user not found) exactly when the panel has no such user |
| Blitz.ConfigMatchesUrl | automation-service/blitz_client.py:88-152 | the `hy2://` URL and the configuration name the same server, port 443 and key; the SNI differs only when the panel stores a different one |
| Blitz.CreateUserPayload | automation-service/blitz_client.py:53-66 | the payload carries the username and key, is enabled, uses `hysteria2`, and has non-negative limits |
| Blitz.PayloadUnits | automation-service/blitz_client.py:62-63 | expiry and data limit are whole days and gigabytes, 0 exactly for non-positive arguments |
| Monitor.ProbeEvents | automation-service/monitor.py:28-39 | a failure logs exactly one event; a success logs one exactly when the counter was non-zero |
| Monitor.WritesSucceedRound | automation-service/monitor.py:28-39 | when the branch's write succeeds, a round is the probe's own branch and alerts exactly when `Alerts` says |
| Monitor.FailedWriteCountsAsFailure | automation-service/monitor.py:28-39 | a failed "Recovered" write leaves the counter at 1, a failed WARN write counts the probe twice, and the loop ends exactly when the `except` branch's write fails |
| Monitor.ProbeUrlIsPublicBase | automation-service/monitor.py:24-29 | the monitor probes the panel client's public base URL plus `/` |
| Monitor.HealthMonitor.constructor | automation-service/monitor.py:13-17 | a new monitor starts with the counter at 0 |
| Monitor.HealthMonitor.MonitorBlitzStep | automation-service/monitor.py:27-50 | the counter and the events follow `TryRound`, including failed writes; an escaping exception ends the loop before the alert check; otherwise it alerts exactly when the counter reaches 3, and the counter resets only after a delivered alert |
| Monitor.HealthMonitor.MonitorAutomationStep | automation-service/monitor.py:52-59 | appends one `alive` event, or nothing when the write fails |
| Monitor.CountIsStreakModThreshold | automation-service/monitor.py:30-46 | with alerts delivered, the counter is the current failure streak modulo 3 and stays below 3 |
| Monitor.AlertOnEveryThirdFailure | automation-service/monitor.py:42-46 | an alert fires exactly on every third consecutive failure |
| Monitor.DeliveredAlertKeepsCountLow | automation-service/monitor.py:42-46 | from a counter below 3 a delivered step stays below 3, and alerts exactly on a failure at 2 |
| Monitor.UndeliveredAlertRepeats | automation-service/monitor.py:42-48 | an undelivered alert keeps the counter, so the next failure alerts again |
| Monitor.NoRecoveryRightAfterAlert | automation-service/monitor.py:31-46 | a success right after a delivered alert logs no recovery |

## Left out

- `get_user_auth_logs` and `get_user_traffic_stats` (`automation-service/database.py:196-222`): read-only reports whose grouping depends on SQLite's date functions and its own clock.
- `init_db`'s connection handling, DDL and directory creation: the tables are fields, created empty by the constructor.
- `Store.MatchesQuery`: SQLite's `LIKE` is case-insensitive for ASCII and treats `%` and `_` in the query as wildcards. The model uses a case-sensitive substring test.
- `Store.Unprocessed`: the source orders pending events by `created_at`, a timestamp with one-second resolution. The model uses insertion order, which agrees except on ties within one second.
- `Store.Database.CreateId`, `Store.Database.SetIdStatus`: SQLite's errors are modelled as a `false` result. Other store failures (a locked or missing file) are not modelled.
- `TwoFactor.Bot.HandleOwnerForIssue`: the source draws identifiers until one is free. The model receives a finite list of draws and answers `DrawsExhausted` when every draw collides, a case the source never reaches.
- `CorporateIds.MatchesIdPattern`: Python's `\d` also matches non-ASCII digits and `upper()` also maps non-ASCII letters. The model uses ASCII digits and ASCII upper-casing.
- `get_config_command` and `help_command` (`automation-service/telegram_2fa.py:147-207`) send text only. The former reads a `marzban_username` column that is not in the schema.
- `notify_admins` (`automation-service/telegram_2fa.py:209-215`) and every `message.answer`: the sends are not modelled. Replies are result tags.
- The aiogram dispatcher, `state.update_data`, `start_bot` and `automation-service/bot.py`: a handler is called directly in the state it is registered for.
- `automation-service/main.py` and `automation-service/marzban.py` are not part of this model. They are HTTP glue over the panel and the older Marzban client.
- `BlitzClient._make_request`, `get_user`, `delete_user`, `update_user_status`, `get_user_stats`: network calls. What `get_user` returns, and whether the disable call succeeds, are parameters.
- The `BlitzClient` in `automation-service/webhooks.py:19` and `automation-service/tests/test_blitz_client.py:8` is built with three arguments, though `__init__` takes two (`automation-service/blitz_client.py:11`). The model follows the two-argument constructor, and the module-level client is assumed to exist.
- `Blitz.ServerDomain`: a base URL without an explicit port, such as `https://vpn.example.com/api`, yields the whole remainder `vpn.example.com/api`. The model computes exactly that; `Blitz.ServerDomainOfUrl` covers only URLs with a port.
- `Webhooks.VerifyWebhookSignature`: HMAC-SHA256 and `json.dumps` are uninterpreted functions. The model does not prove that a different payload gives a different digest.
- `Webhooks.Value`: event data holding JSON floats, booleans, lists or objects is not modelled. Durations and reasons are integers, strings or null.
- Pydantic validation of the request body (422 answers) and a missing `X-Corporate-Secret` header are not modelled.
- `Monitor.CountAfter`: the lemmas about whole runs of probes assume every monitor-event write succeeds. A failed write is modelled one round at a time by `TryRound`.
- The asyncio tasks, the `sleep` intervals, the `_stop` flag, httpx timeouts and concurrent handlers: the monitor is modelled one iteration at a time, and handlers run one after another.
- Logging through `logging`/`automation-service/logger.py`, and the settings of `automation-service/config.py`, are not modelled apart from the default panel URL.

# NineGuard: quota windows, credential lifecycle and their neighbours, verified

NineGuard is a router between AI clients and upstream providers. It hands out API keys with token quotas,
keeps OAuth accounts for upstream providers, and relays streamed answers. This project models its stateful
core in Dafny and proves what that core is for. `dafny verify dfyconfig.toml` checks everything.

## What is modelled

**Quota windows** (`Civil`, `Schedule`, `Windows`, `WindowTheorems`). A reset schedule (zone, HH:MM, weekday,
day of month) and an instant give the running quota window. The bounded search over reset instants is modelled
loop by loop, over a Gregorian calendar with overflow normalisation. The resets of a schedule are also numbered
once for all (`Grid`), independently of any instant; the theorems say that the window at an instant is the one
pair of consecutive resets around it, that the windows tile the time line, and that their edges fall on the
schedule's days and on no others.

**Transitional Windows** (`Pins`, `QuotaRun`, `KeyTable`, `OutdatedRule`, `KeyManager`). A schedule change keeps the start of the
running window by pinning it. `QuotaRun` follows one key through every interleaving of clock ticks, schedule
edits, reloads of the cache, validations, admissions and late usage records, under a quota on the key or on one model.
A request is checked with the reset rule it was validated with, which may be an older one by then. `KeyTable` gives
the table of keys with its global/own hierarchy, the cache that lags behind it, the traffic log and the requests of
all keys. It shows that every table operation is, for each key, one schedule change, and every run of the table a run
of each key, and lifts the theorems about usage and overshoot to every key and every quota in force. `OutdatedRule`
is the run in which they would fail. `KeyManager` is the object that carries the operations out row by row and keeps
the in-memory key cache.

**OAuth accounts** (`OAuthStore`, `OAuthRuns`, `OAuthSafety`, `OAuthSessions`, `OAuthSessionRuns`,
`OAuthConnections`). Login grants,
binding, saves, cancellations and disconnects race. Every critical section is one step of a state machine; starting
a login is two steps, because the account's version is read before the store is locked. Runs begin with a new
database or with the rows an earlier process left, and may restart at any point. Sessions are layered on
top: their own states, timeouts, and the runtime hook.

**Smaller cores.** `RateLimit`: the sliding window per address and the lockout per user. `Sse` and `SseClient`: the
relay loop for server-sent events and what the client reads out of it. `Decloak`: stripping cloak suffixes from
tool names. `Providers` and `ProviderTable`: routing, canonical model ids, and the single default provider.
`ModelSync`: the guard against mass removal of models. `ModelUsage`: the usage shown for a model against the usage
enforced. `TrafficLog` ties the two readings of the traffic log together, `WhiteSpace` the two notions of white space.
`Text` holds case folding and trimming, `Wrappers` the optional value.

Objects whose methods change fields (`Manager`, `CredentialStore`, `LoginEngine`, `RateLimiter`) are classes. Each
method is proved against a function of the old state; the theorems are about those functions and about all runs
built from them.

## Conventions

- Instants are whole seconds; in `RateLimit` they are nanoseconds. All resets are whole seconds, so a fraction of a
  second of the clock never decides a window.
- A time zone is any pair of functions: its offset at an instant, and the offset by which it turns a wall-clock
  time into an instant. The tiling theorems hold for a regular zone: offsets of less than 24 hours, and no calendar
  day that ends before it begins. A zone whose offsets lie within 24 hours of each other is regular
  (`Schedule.NarrowZoneIsRegular`). That the window contains its instant holds for every zone; that the search
  never falls back needs offsets under 24 hours only.
- Random ids and the clock are parameters. A random id is one never handed out before.
- Database transactions are atomic, tables are maps, and no database call fails.

## Where the code keeps less than its words

Each of these is kept as the code has it, with a concrete input and, where a caller could check one, the exact
condition.

- "No gap, no overlap" (`internal/traffic/window.go:14-15`) fails in a zone whose clock jumps ahead by more than a
  day: `LongJumpBreaksTiling`. The daily windows tile exactly when the schedule's resets never run backward
  (`DailyTilingExactly`); weekly and monthly windows always tile (`LongPeriodsTile`).
- A used-up quota is said to reject (`docs/adr/0005-token-quotas-utc-windows.md:27`). A request keeps the reset rule
  it was validated with (`internal/proxy/proxy.go:218`) while its body is read, so after a schedule edit it can be
  checked against a window that has not begun for the key, and get past a used-up quota: `OutdatedRuleLeaks`. Exactly when a check under
  an older rule is as strict as one under the present rule: `ServesStrictExactly`. It always is until the reset that
  was announced when the older rule was last in use: `InTimeIsNotAhead`; under either condition both theorems hold.
- A session turns connected when its account is registered, whichever login was saved: `ConnectedByAnother`. Its own
  login has committed exactly if its grant is gone: `GoneMeansCommitted`.
- Cancelling a login removes its account's creation entry whichever login it belongs to
  (`internal/providerengine/store.go:91-93`), so it can strand another bound login: `CancelCanStrandAnother`. When
  exactly a bound login commits: `GrantCommitsExactly`.
- Resolving a canonical model id is stable exactly unless the provider's prefix starts with white space, and the
  form lets such a prefix through: `ResolveIsIdempotent`, `PrefixMayStartWithSpace`, `SpacedPrefixBreaks`.
- The usage shown for a model is summed by Unicode lower case, the usage enforced by the database's collation, which
  folds ASCII only, and a request finds its quota by Unicode folding. So tokens can be shown and not enforced
  (`KelvinStrays`), and a used-up quota can be walked past (`KelvinWalksPast`). Exactly which ids are safe:
  `ExhaustedIsDeniedExactly`, `NoTwinsExactly`, `FindsOwnExactly`. With ids of ASCII everywhere, log included, the two
  usages agree.
- The mass-removal guard can be passed by when two synced providers share models: `SharedModelsDefeatGuard`; exactly
  when: `GuardFailsExactly`.
- A provider is meant to own the models under its prefix, but the prefix goes into the query as a pattern:
  `UnderscoreClaims`. It owns just those exactly if the prefix has no wildcard: `ClaimsOwnExactly`.
- A sync deletes orphan rows, so an orphan that is listed again comes back enabled: `ListedOrphanStartsOver`,
  `FlagKeptExactly`.
- A new key's cache entry is built by hand. It equals a fresh read exactly if the key's own schedule passes
  validation, which the key manager does not check itself: `BadClockMisleads`, `HandMadeInfo`, `CreateKey`.
- A key that is not cached and whose row, older than access modes, stores none is cached with the empty mode, where a
  reload fills in what it means: `AccessAsStored`, `ValidateClientKey`.
- The comment on `IsUsageOnlySSEEvent` asks for an empty `choices` array; the code also accepts a missing one. The
  decoder is abstract here, so both readings are covered.

## Model

| member | source | states |
|---|---|---|
| Civil.DayRoundTrip | internal/traffic/window.go:48-54 | every day has a calendar date, and building the day from that date gives the day back |
| Civil.DateRoundTrip | internal/traffic/window.go:48-54 | every valid date survives the way to a day number and back |
| Civil.DaysInIsMonthLength | internal/traffic/window.go:78-80 | "day 0 of the next month" is the length of the month, leap years included |
| Civil.YearStart | internal/traffic/window.go:48-54 | the months add up to the closed form of the calendar: 365 days for each year and the leap days |
| Civil.KnownDays | internal/traffic/quota.go:44-44 | days that any calendar shows: a leap day and its weekday, the one 1900 did not have, the last of 9999 |
| Schedule.FormatThenParse | internal/traffic/schedule.go:71-99 | every minute of the day parses back from its rendering |
| Schedule.ParseThenFormat | internal/traffic/schedule.go:71-99 | a text that parses is the rendering of the minute it parses to: the clock format is strict |
| Schedule.NarrowZoneIsRegular | internal/traffic/window.go:14-18 | offsets within 24 hours of each other make a zone regular |
| Windows.Search | internal/traffic/window.go:59-65 | the two bounded loops compute the bounded descent followed by the bounded ascent |
| Windows.FindScheduleWindow | internal/traffic/window.go:19-76 | the whole window search refines its specification, and the fallback is unreachable in zones with offsets under 24 hours |
| Windows.NthIsReset | internal/traffic/window.go:32-57 | the resets generated from the local date of now are those of one absolute numbering by day, week or month |
| Windows.ResetDayStep | internal/traffic/window.go:33-54 | consecutive reset days are a day, a week, or 28 to 31 days apart |
| Windows.ResetsOrdered | internal/traffic/window.go:14-18 | in a regular zone the resets never run backward |
| Windows.ResetsEnclose | internal/traffic/window.go:59-65 | four periods back and four ahead of the local date always enclose now |
| Windows.SearchSucceeds | internal/traffic/window.go:59-75 | the bounded search ends on consecutive resets around now, for every schedule, period and zone with offsets under 24 hours |
| WindowTheorems.DefaultOnGrid | internal/traffic/quota.go:24-50 | the default windows are consecutive UTC resets around now |
| WindowTheorems.WindowIsTheCrossing | internal/traffic/window.go:11-76 | the window is a pair of consecutive resets around now, and the only such pair |
| WindowTheorems.WindowsTile | internal/traffic/window.go:14-18 | every instant of a window gets that window, and the window at its reset starts exactly there |
| WindowTheorems.WindowsAdvance | internal/traffic/window.go:14-18 | a later instant has the same window, or one that starts at or after the announced reset |
| WindowTheorems.WindowContainsNow | internal/traffic/window.go:68-75 | in any zone at all the window contains its instant |
| WindowTheorems.UtcScheduleIsDefault | internal/traffic/schedule.go:8-15 | midnight UTC, Monday, the 1st gives exactly the default windows |
| WindowTheorems.UnscheduledWindow | internal/traffic/quota.go:42-48 | a total counts from the epoch to the last second of 9999, any unknown word from the epoch until now |
| WindowTheorems.ValidIsUsable | internal/traffic/schedule.go:20-61 | the form accepts exactly the schedules window math can use, with a weekday and a day in range |
| WindowTheorems.RefusedZones | internal/traffic/schedule.go:49-61 | no name, "Local" and names over 64 characters are refused and give the default windows; any other name is the zone database's |
| WindowTheorems.FixedOffsetLengths | internal/traffic/window.go:48-54 | with a fixed offset a daily window is 24 hours, a weekly one seven days, a monthly one 28 to 31 days for every reset day |
| WindowTheorems.ResetDaysAreScheduleDays | internal/traffic/window.go:33-54 | the numbered resets fall on the schedule's days, and on all of them, short months included |
| WindowTheorems.WindowEdges | internal/traffic/window.go:32-66 | a window starts and ends when the schedule's time strikes on its days, and on no such day in between |
| WindowTheorems.DailyTilingExactly | internal/traffic/window.go:14-18 | in every zone with offsets under 24 hours the daily windows returned tile the time line exactly when the schedule's resets never run backward |
| WindowTheorems.BackwardBreaks | internal/traffic/window.go:59-75 | a reset before the previous one always breaks the tiling, at the second before it: no window starts at the reset announced there |
| WindowTheorems.LongPeriodsTile | internal/traffic/window.go:38-54 | weekly and monthly windows tile in every zone with offsets under 24 hours, however far its clock jumps |
| WindowTheorems.LongJumpBreaksTiling | internal/traffic/window.go:14-18 | in a zone whose clock jumps ahead by 25 hours the window at 05:00 announces 12:00 and the window at 12:00 started at 11:00 |
| Pins.PinsForChange | internal/traffic/pins.go:27-38 | the loop gives a pin for exactly the periods whose window start would move: old start, first new reset |
| Pins.PeriodPin | internal/traffic/pins.go:30-36 | one round of that loop |
| Pins.ChangeKeepsStart | internal/traffic/pins.go:23-38 | a schedule change keeps the running window's start for every period; the window ends at the new schedule's first reset, or as before if nothing changed |
| Pins.ChangeStaysSettled | internal/traffic/pins.go:5-10 | after a change every pin has begun and ends on a reset of the new schedule |
| Pins.TimeKeepsWindows | internal/traffic/quota.go:17-22 | with pins, the window stays until its announced reset and the next one starts exactly there |
| Pins.SecondChangeKeepsOriginalStart | internal/traffic/pins.go:23-26 | another edit inside a Transitional Window keeps the original start |
| Pins.ParsedPinsExactly | internal/keys/reset_schedule.go:80-84 | reading pins back drops exactly those active at no instant, and changes no window |
| QuotaRun.WindowStep | internal/traffic/quota.go:14-22 | no event but the clock reaching the announced reset changes a window's start |
| QuotaRun.StartsAdvance | internal/traffic/pins.go:23-38 | along every run window starts never move back, and a past instant lies in the present window exactly if that was its window then |
| QuotaRun.UsageIsWindowTotal | internal/traffic/quota.go:241-256 | the usage query, of the key or of one model, gives what was recorded while this very window was running: every token counts in one window |
| QuotaRun.TotalCountsEverything | internal/traffic/quota.go:42-48 | over every run a quota that never resets counts everything recorded so far |
| QuotaRun.NoModelCountsForKey | internal/traffic/modelquota.go:35-36 | a request without a resolved model counts for the key and for no model |
| QuotaRun.SnapshotStrictExactly | internal/proxy/proxy.go:460-463 | a check under a rule kept from earlier refuses all that a present one refuses, on every log, exactly if its window does not start later |
| QuotaRun.InTimeIsNotAhead | internal/proxy/proxy.go:217-219 | until the reset announced when the rule of the validation was last in use, its window does not start later than the running one |
| QuotaRun.RuleHoldsUntilReset | internal/traffic/pins.go:23-38 | along every run, whatever is edited meanwhile, an earlier rule counts from no later than the running window until the reset announced then |
| QuotaRun.ExhaustedStaysClosed | internal/proxy/proxy.go:291-314 | once a window's total reaches the limit no covered request is admitted in time, or under a rule that does not count from later, until the window ends |
| QuotaRun.OvershootBounded | internal/proxy/proxy.go:458-486 | with at most N covered requests in flight of at most T tokens each, admitted in time or under a rule that does not count from later, a window's total never exceeds limit - 1 + N*T, for a key's quota and for one on a model |
| KeyTable.ReadIsLocal | internal/keys/reset_schedule.go:103-109 | reading a key depends on its own row, its quotas and the global schedule only |
| KeyTable.ReadTellsSource | internal/keys/reset_schedule.go:91-109 | a read tells where its schedule comes from, and the key's quotas, access and pins |
| KeyTable.OldRowMeansWhatItSaves | internal/keys/keys.go:473-479 | a row without an access mode is read as what saving it would store, exactly if it has no groups |
| KeyTable.RescheduleIsChange | internal/keys/reset_schedule.go:129-137 | storing the pins of a change and reading them back gives the changed rule: no pin is lost on the way |
| KeyTable.OperationIsScheduleChange | internal/keys/global_schedule.go:67-158 | every table operation is, for each key left in the table, one change of its effective schedule |
| KeyTable.GlobalChangeSparesOwnSchedules | internal/keys/global_schedule.go:100-108 | a global change leaves keys with their own schedule as they were |
| KeyTable.OperationKeepsUsage | internal/keys/modelquota.go:234-261 | no table operation moves a running window's start, so counted usage is the same right after it |
| KeyTable.UpdateSaves | internal/keys/modelquota.go:198-293 | after an update every setting is the one asked for, a missing one the old one, a negative limit 0; flag, raw key and other keys are as they were |
| KeyTable.QuotaSaves | internal/keys/keys.go:668-689 | limit and period are those asked for, everything else is as it was |
| KeyTable.ScheduleEditsSpareRest | internal/keys/global_schedule.go:100-108 | the schedule operations touch schedules and pins only |
| KeyTable.OperationsAreOpen | internal/keys/global_schedule.go:70-75 | any operation can happen at any time if the schedules it brings are valid and a created key is new |
| KeyTable.SavedLimitDecides | internal/proxy/proxy.go:291-295 | once a per-key limit is saved, a request validated afterwards is served exactly if the running window's usage is below it |
| KeyTable.SavedModelLimitDecides | internal/proxy/proxy.go:460-463 | the same for a limit on one model |
| KeyTable.SavedWithoutLimit | internal/proxy/proxy.go:293-293 | without a limit, or with the period "none", every request is served |
| KeyTable.ToggleDecides | internal/keys/keys.go:841-854 | after a switch a key can be validated exactly if it was switched on |
| KeyTable.TableRunIsKeyRun | internal/keys/global_schedule.go:67-158 | a run of the table, with its stale cache and all keys' validations, requests and records, is a run of each key that stays in it |
| KeyTable.TableStartsAdvance | internal/keys/global_schedule.go:67-158 | along every run of the table each key's window starts never move back |
| KeyTable.AdmitIsKeyStep | internal/proxy/proxy.go:460-463 | a request let through under the settings it was validated with passes the test of every quota these put in force |
| KeyTable.ServesIs | internal/proxy/proxy.go:460-463 | a covered request is let through exactly if the usage counted from the window of its validation's rule is below the limit |
| KeyTable.ServesStrictExactly | internal/proxy/proxy.go:460-463 | a covered request never gets past a used-up window, on every log, exactly if the rule of its validation does not count from later |
| KeyTable.TableUsageIsWindowTotal | internal/traffic/quota.go:241-256 | over every run of the table a key's usage is what was recorded for it while its present window was running |
| KeyTable.TableTotalCountsEverything | internal/traffic/quota.go:241-256 | over every run of the table a key's total usage is everything recorded for it so far |
| KeyTable.TableExhaustedStaysClosed | internal/proxy/proxy.go:291-314 | over every run of the table a used-up quota lets no covered request of its key through, in time or under a rule that does not count from later, until the window ends |
| KeyTable.TableOvershootBounded | internal/proxy/proxy.go:900-944 | over every run of the table each quota in force is overshot by no more than the load it covers, if its requests are admitted in time or under rules that do not count from later |
| OutdatedRule.WindowRunsOn | internal/traffic/pins.go:5-10 | a schedule edit at 23:00 to noon resets makes the day's window run on until noon of the next |
| OutdatedRule.OutdatedRuleLeaks | internal/proxy/proxy.go:217-463 | a run in which a request validated before that edit and checked after midnight gets past the used-up quota, and the total exceeds the bound |
| KeyManager.PreviewIsSaving | internal/keys/preview.go:44-53 | the rule a preview computes is the rule saving would store |
| KeyManager.HandMadeInfo | internal/keys/keys.go:596-620 | a new key's hand-built entry is a fresh read exactly if its schedule is absent or valid |
| KeyManager.BadClockMisleads | internal/keys/keys.go:619-620 | a key created with the clock "24:00" is cached under that schedule, where a fresh read follows the global one |
| KeyManager.AccessAsStored | internal/keys/keys.go:922-926 | reading a row without filling in the access mode is a fresh read exactly if the row stores one |
| KeyManager.CreateKeepsAccurate | internal/keys/keys.go:583-624 | adding a key keeps the cache accurate exactly if its entry is a fresh read |
| KeyManager.DeleteKeepsAccurate | internal/keys/keys.go:857-885 | deleting a key and its one cache entry keeps the cache accurate and complete |
| KeyManager.AddKeepsAccurate | internal/keys/keys.go:929-931 | caching a looked-up key keeps the cache accurate exactly if the entry is a fresh read |
| KeyManager.FallbackKey | internal/keys/keys.go:908-931 | what looking an uncached key up in the table does to the cache |
| KeyManager.Manager.constructor | internal/keys/keys.go:262-290 | a new manager's cache holds exactly the table's keys; an empty table first gets one default key |
| KeyManager.Manager.LoadLocalCache | internal/keys/keys.go:432-483 | reloading makes the cache coherent: every key, as a fresh read gives it, and no other |
| KeyManager.Manager.PinsAfter | internal/keys/reset_schedule.go:129-137 | an equal schedule keeps the stored pins, any other gets the pins of the change |
| KeyManager.Manager.SetGlobalSchedule | internal/keys/global_schedule.go:70-118 | refuses an invalid schedule without effect; otherwise the table is the specified one, the counts are right and the cache is coherent |
| KeyManager.Manager.ClearScheduleOverrides | internal/keys/global_schedule.go:122-158 | afterwards no key has its own schedule, each formerly custom one has its pins, and the cache is coherent |
| KeyManager.Manager.UpdateKeyAll | internal/keys/modelquota.go:198-293 | saves settings, quotas, schedule and pins together or nothing; the cache is coherent |
| KeyManager.Manager.UpdateKey | internal/keys/keys.go:630-665 | saves name and access only, schedule and pins untouched |
| KeyManager.Manager.UpdateKeyQuota | internal/keys/keys.go:668-689 | saves limit and period only |
| KeyManager.Manager.ToggleKey | internal/keys/keys.go:841-854 | switches one key's active flag; the cache is coherent |
| KeyManager.Manager.CreateKey | internal/keys/keys.go:522-627 | adds the row; a coherent cache stays so exactly if the key's own schedule is absent or valid |
| KeyManager.Manager.DeleteKey | internal/keys/keys.go:857-885 | removes row, quotas and cache entry; coherence is kept |
| KeyManager.Manager.ValidateClientKey | internal/keys/keys.go:888-937 | if the rows in the cache are those of the table, accepts exactly the keys the table says are active; an uncached one is a fresh read, but for the access mode of a row that stores none, and an accurate cache stays so exactly otherwise |
| KeyManager.Manager.PreviewReset | internal/keys/preview.go:24-75 | announces exactly the resets that saving would give, and lists the periods whose pin saving would create or alter |
| OAuthStore.CredentialStore.NewGrant | internal/providerengine/store.go:57-61 | records a grant with the version read before the lock |
| OAuthStore.CredentialStore.Bind | internal/providerengine/store.go:63-87 | binds an open, unexpired grant of the same family, once; otherwise nothing changes |
| OAuthStore.CredentialStore.Cancel | internal/providerengine/store.go:88-95 | forgets the grant and its account's creation entry |
| OAuthStore.CredentialStore.UpsertAccount | internal/providerengine/store.go:178-197 | writes the account row, raising the version by the lifecycle change on an existing one |
| OAuthStore.CredentialStore.Save | internal/providerengine/store.go:118-217 | the outcome and new state of a save in every branch; a rejected save changes nothing |
| OAuthSafety.RefreshSavedExactly | internal/providerengine/store.go:154-177 | a token refresh is saved exactly if its account is connected under its provider, the stored row is of the same login and not newer; otherwise it is told which failed |
| OAuthSafety.SaveStores | internal/providerengine/store.go:178-209 | what a saved record leaves of row, account, version and the logins in progress |
| OAuthSafety.BoundLoginSaves | internal/providerengine/store.go:84-85 | right after its binding a login can be saved, in time and while the account is at its version |
| OAuthSafety.DisconnectedIsTold | internal/providerengine/store.go:268-268 | right after a disconnect every save for the account is refused as disconnected |
| OAuthSafety.VersionReadExactly | internal/providerengine/store.go:43-56 | the version a login starts from, and when it can start |
| OAuthSafety.StatusTouchesConnected | internal/providerengine/oauth.go:237-242 | a failed refresh sets the status of a connected account and nothing else |
| OAuthStore.CredentialStore.DisconnectAccount | internal/providerengine/store.go:249-270 | marks the account, raises its version, drops credential row and creation entry |
| OAuthRuns.Beginnings | internal/providerengine/store.go:32-34 | a new database, and the rows any process leaves behind, are a start of a run |
| OAuthRuns.RestartAndStatus | internal/providerengine/oauth.go:232-246 | a restart forgets the logins in progress and keeps the rows; a failed refresh sets the status of one connected account; time only passes |
| OAuthRuns.AlwaysOpen | internal/providerengine/store.go:118-270 | time, refreshes, cancellations, disconnects, status reports and restarts can happen in every state |
| OAuthRuns.InvAlong | internal/providerengine/store.go:118-270 | in every state reached from such a start, restarts included, a credential row exists exactly for the accounts not disconnected, with the rest of the invariant |
| OAuthRuns.CreatingGrant | internal/providerengine/store.go:136-138 | the grant a save completes belongs to the saved account and its login |
| OAuthRuns.GrantCommitsExactly | internal/providerengine/store.go:136-156 | a bound login commits exactly if the account still points to its grant, in time, at the version it started from |
| OAuthRuns.CommitsOnce | internal/providerengine/store.go:206-209 | no grant commits twice |
| OAuthRuns.VersionCountsLifecycle | internal/providerengine/store.go:189-197 | an account starts at version 1, and its version counts committed logins and disconnects and nothing else |
| OAuthRuns.OneCommitPerVersion | internal/providerengine/store.go:150-153 | of all grants issued for one account at one version at most one ever commits |
| OAuthSafety.DisconnectHolds | internal/providerengine/store.go:249-270 | after a disconnect the account stays out until a login whose version was read afterwards commits |
| OAuthSafety.CredentialNeverOlder | internal/providerengine/store.go:157-177 | within one login the stored epoch, credential version and generation never go back |
| OAuthSafety.CancelKills | internal/providerengine/store.go:88-95 | cancelling an open grant leaves its login bound nowhere and stored nowhere |
| OAuthSafety.CancelledLoginIsPowerless | internal/providerengine/store.go:88-95 | once cancelled, a grant never commits and every later save by its login is refused without effect |
| OAuthSafety.CancelCanStrandAnother | internal/providerengine/store.go:91-93 | a run from a new database in which cancelling one login makes another bound, current, unexpired one fail |
| OAuthSessions.LoginEngine.End | internal/providerengine/oauth.go:190-201 | ends a pending session and cancels its grant; an ended one is left alone |
| OAuthSessions.LoginEngine.CancelAll | internal/providerengine/oauth.go:215-222 | ends every session of a set, one by one |
| OAuthSessions.CancelledInOrder | internal/providerengine/oauth.go:215-222 | a bulk cancellation ends exactly the named pending sessions and touches no account or credential |
| OAuthSessions.LoginEngine.Start | internal/providerengine/oauth.go:72-81 | sweeps the sessions whose time is up, then lists the new one |
| OAuthSessions.LoginEngine.PrepareLogin | internal/providerengine/oauth.go:32-50 | binds the record of a pending, unexpired, listed session, or changes nothing |
| OAuthSessionRuns.OneAnnouncedCallback | internal/providerengine/oauth.go:102-107 | over every run a session accepts one callback at most, with a state announced for it before, or none if none was |
| OAuthSessions.LoginEngine.Find | internal/providerengine/oauth.go:109-119 | finds only the administrator's own session of the provider, expiring it if its time is up |
| OAuthSessions.LoginEngine.CancelLogin | internal/providerengine/oauth.go:202-214 | refuses while the record is being saved, otherwise ends the session |
| OAuthSessionRuns.CancelSparesCommitting | internal/providerengine/oauth.go:209-211 | an administrator's cancellation spares every login being saved |
| OAuthSessionRuns.SystemIsOpen | internal/providerengine/oauth.go:120-214 | what can happen to a system at any time, and when exactly a callback or a cancellation can |
| OAuthSessions.LoginEngine.StatusReport | internal/providerengine/oauth.go:143-160 | only a pending session connects or fails on the SDK's report |
| OAuthSessions.LoginEngine.SubmitCallback | internal/providerengine/oauth.go:162-183 | accepts exactly a well-formed first callback, with a result and the matching state, of the administrator's pending session in time |
| OAuthSessions.LoginEngine.DisconnectAccount | internal/providerengine/oauth.go:215-231 | ends the account's listed sessions, then disconnects it |
| OAuthSessions.LoginEngine.RemoveProvider | internal/providerengine/oauth.go:267-285 | ends the provider's logins and disconnects exactly its connected accounts, once each; nothing else changes |
| OAuthSessions.LoginEngine.Registered | internal/providerengine/runtime_hook.go:24-31 | connects exactly the pending, committing, unexpired sessions of the account |
| OAuthConnections.HookConnectsExactly | internal/providerengine/runtime_hook.go:24-31 | over every run the hook for an account connects exactly the listed, pending sessions in time that were bound through a grant of this account, and does nothing else |
| OAuthSessionRuns.StatesAreAbsorbing | internal/providerengine/oauth.go:109-161 | a session that is no longer pending never changes state again |
| OAuthSessionRuns.EndingKills | internal/providerengine/oauth.go:190-201 | the step that ends a session kills the login bound to its grant |
| OAuthSessionRuns.EndedSessionIsPowerless | internal/providerengine/oauth.go:190-214 | once a session is cancelled, expired or failed its grant never commits, and if that was bound and open its login's saves change nothing |
| OAuthSessionRuns.UncommittedLoginIsPowerless | internal/providerengine/oauth.go:190-214 | once a session has ended every save by its login changes nothing, unless the login had already committed, whatever happened to its grant |
| OAuthSafety.OpenStep | internal/providerengine/store.go:88-95 | a bound grant stays as it is until it commits, is cancelled, or the process ends |
| OAuthConnections.GoneMeansCommitted | internal/providerengine/runtime_hook.go:24-31 | a bound session that has not ended, a connected one above all: its own login has committed exactly if its grant is gone |
| OAuthConnections.ConnectedByAnother | internal/providerengine/runtime_hook.go:27-30 | a run in which one login's save makes another session of the account connected whose own save is refused as replaced |
| RateLimit.RateLimiter.Prune | internal/handler/ratelimit.go:108-114 | keeps exactly the timestamps of the last minute, in order |
| RateLimit.RateLimiter.AllowIP | internal/handler/ratelimit.go:101-130 | decision, Retry-After and new timestamps of a request |
| RateLimit.RateLimiter.Cleanup | internal/handler/ratelimit.go:74-99 | drops old timestamps, empty addresses and stale unlocked users |
| RateLimit.RateLimiter.IsUserLocked | internal/handler/ratelimit.go:136-161 | locked exactly until lockedUntil, with exactly the fewest whole seconds that cover the rest announced |
| RateLimit.RateLimiter.RecordUserFailure | internal/handler/ratelimit.go:163-198 | counts, locks at the fifth failure, announces exactly the fewest whole seconds that cover the lock |
| RateLimit.SuccessStartsOver | internal/handler/ratelimit.go:200-206 | after a success the user is not locked at any time before five more failures, whatever came before |
| RateLimit.CleanupsNeverShow | internal/handler/ratelimit.go:74-99 | removing every cleanup from a run changes no answer to a request |
| RateLimit.ElevenSpanAMinute | internal/handler/ratelimit.go:101-130 | any eleven requests allowed to one address span at least a minute |
| RateLimit.DeniedExactly | internal/handler/ratelimit.go:116-116 | an address is denied exactly if ten of its requests were allowed within the last minute |
| RateLimit.RetryAfterIsEnough | internal/handler/ratelimit.go:116-125 | a denied address is allowed after the announced seconds (section 10.2.3 of RFC 9110) if it makes no other request |
| RateLimit.RetryAfterIsLeast | internal/handler/ratelimit.go:116-125 | one second less than announced, if that is any, and the address is still denied |
| RateLimit.LockHolds | internal/handler/ratelimit.go:136-206 | a locked user stays locked until lockedUntil unless a success is recorded |
| RateLimit.FiveFailuresLock | internal/handler/ratelimit.go:163-198 | five failures within fifteen minutes lock the user, whatever else happens in between, unless a success is recorded |
| RateLimit.RunOutStartsOver | internal/handler/ratelimit.go:186-189 | a lock that has run out starts the count over: five more failures are needed |
| Decloak.StripCloakSuffix | internal/proxy/decloak.go:64-96 | the loop terminates and computes the specified name |
| Decloak.NameOrOffered | internal/proxy/decloak.go:64-96 | with names on offer the result is the input or an offered name |
| Decloak.DecloakIsIdempotent | internal/proxy/decloak.go:64-96 | decloaking twice is decloaking once |
| Decloak.DecloakFindsLongest | internal/proxy/decloak.go:64-96 | of the uncloakings of a cloaked name the longest offered one is found |
| Decloak.OfferedNameSurvives | internal/proxy/decloak.go:64-96 | an offered name survives any cloaking exactly if none of its cloaked forms on the way is offered too |
| Decloak.NeverEmpty | internal/proxy/decloak.go:78-78 | something of a name is always left |
| Decloak.KnownSuffixes | internal/proxy/decloak.go:64-68 | "_ide" and "_cc" come off, alone and after one another |
| Sse.EventsPartition | internal/proxy/proxy.go:787-844 | framing into events loses and adds no byte |
| Sse.Relay | internal/proxy/proxy.go:787-844 | the read loop sends each event of the input once, in order, dropped or rewritten, the unfinished last one included |
| Sse.RelayWithoutTools | internal/proxy/proxy.go:798-810 | without tools the client gets the upstream bytes minus whole usage-only events, and those only if usage was injected |
| Sse.IsUsageOnlySSEEvent | internal/proxy/stream_inject.go:59-88 | collects the payload of the data lines and the verdict on it |
| Sse.DoneIsKept | internal/proxy/stream_inject.go:70-76 | the end marker and an event without data are never usage-only |
| Sse.PayloadLines | internal/proxy/stream_inject.go:60-73 | a payload holds the values of the data lines, one to a line |
| Sse.Spelled | internal/proxy/stream_inject.go:60-74 | the fixed byte strings spell "data:" and "[DONE]" |
| WhiteSpace.SpaceIsSpace | internal/proxy/stream_inject.go:65-67 | the bytes trimmed from event data are the UTF-8 forms of the characters trimmed from names |
| Sse.ReplaceSSEData | internal/proxy/decloak.go:310-335 | the loop puts the payload into the first data line, drops the others and keeps the rest |
| Sse.JoinThenLines | internal/proxy/decloak.go:310-335 | joined lines split and trim back to themselves, with either line end |
| Sse.ReplacedLines | internal/proxy/decloak.go:321-332 | the lines other than data stay in order, and one data value is left: the new payload |
| Sse.RewrittenEvent | internal/proxy/decloak.go:310-335 | a rewritten event yields the new payload, and its other lines are the old ones in their order |
| Sse.RewrittenBytes | internal/proxy/decloak.go:310-335 | an event whose lines all end in LF, or all in CR LF, keeps that: its other lines keep their bytes, and its one data line ends the same way |
| SseClient.ClientSeesUpstreamEvents | internal/proxy/proxy.go:787-844 | framed again, the relayed bytes are the upstream's events in order, rewritten, without the dropped ones |
| SseClient.ReplacedEventKeepsFrame | internal/proxy/decloak.go:310-335 | rewriting takes no event apart and leaves no complete event open |
| SseClient.RewriteSays | internal/proxy/decloak.go:230-308 | rewriting gives an event its new payload if it has data and there is one, and otherwise leaves it alone |
| SseClient.RelayWithTools | internal/proxy/proxy.go:797-844 | with tools on offer the client reads exactly the kept upstream events, each with its new payload |
| Providers.ActiveProviders | internal/providers/providers.go:536-547 | one pass collects the active providers and the default among them |
| Providers.MatchPrefix | internal/providers/providers.go:553-563 | finds the first active provider whose prefix and a slash start the model |
| Providers.FindProviderForModel | internal/providers/providers.go:528-573 | prefix match first, then the default, then the first active provider |
| Providers.FindKinds | internal/providers/providers.go:553-572 | either the request is the prefix, a slash and the model sent on, or it is sent on as it is |
| Providers.UnclaimedGoesToDefault | internal/providers/providers.go:565-572 | a request that no prefix claims goes to an active default if there is one, as it is |
| Providers.NoRouteExactly | internal/providers/providers.go:549-551 | there is no route exactly if no provider is active |
| Providers.EmptyRequest | internal/providers/providers.go:767-769 | the empty request has the empty id, which is canonical for no one |
| Providers.ListingOrder | internal/providers/providers.go:122-122 | defaults first, then active ones, then by name |
| Providers.NamesOrdered | internal/providers/providers.go:122-122 | names compare by their first difference |
| Providers.FallbackIsFirst | internal/providers/providers.go:112-123 | with at most one default, the listing puts the active default before every other active provider |
| Providers.ResolveIsIdempotent | internal/providers/providers.go:759-774 | resolving a canonical id gives the same provider, model and id, exactly unless the prefix starts with white space |
| Providers.CanonicalIsFixed | internal/providers/providers.go:776-780 | the case-insensitive test accepts only ids that resolve to their very characters |
| ProviderTable.Manager.Create | internal/providers/providers.go:244-290 | the new row, its unique id and who is the default afterwards |
| ProviderTable.StoredPrefixShape | internal/providers/providers.go:217-217 | a stored prefix is lower-cased and has no slash at either end |
| ProviderTable.PlainPrefixIsLowered | internal/providers/providers.go:217-217 | a prefix without outer white space or slashes is stored lower-cased, with or without a slash on either side |
| ProviderTable.Manager.Update | internal/providers/providers.go:354-449 | the edited row and who is the default afterwards; refusals change nothing |
| ProviderTable.Manager.SetDefault | internal/providers/providers.go:451-472 | exactly the named provider is the default, and there is one |
| ProviderTable.Manager.Toggle | internal/providers/providers.go:474-484 | switches one provider and no other; a default stays a default |
| ProviderTable.Manager.Delete | internal/providers/providers.go:486-523 | a deleted default hands over to an oldest active provider, if there is one |
| ProviderTable.StepKeepsDefault | internal/providers/providers.go:258-281 | every operation keeps at most one default; the last one is lost exactly by deleting it with no other active provider |
| ProviderTable.RunKeepsDefault | internal/providers/providers.go:405-422 | over every run of operations there is never a second default |
| ProviderTable.ResolutionIsStable | internal/providers/providers.go:759-774 | in every table the operations build, resolving a canonical id is stable |
| ProviderTable.PrefixMayStartWithSpace | internal/providers/providers.go:217-217 | the stored form of the prefix "/ a" starts with a space |
| ProviderTable.SpacedPrefixBreaks | internal/providers/providers.go:759-774 | such a prefix makes resolution unstable |
| ModelSync.Manager.RegisterListing | internal/models/models.go:275-307 | registers the listing entry by entry and collects listed ids and synced providers |
| ModelSync.Manager.SyncOne | internal/models/models.go:315-354 | marks or holds back one provider's missing models and counts the newly marked |
| ModelSync.Manager.ApplyListing | internal/models/models.go:259-357 | one whole sync; the counts are the rows deleted as orphans and the models newly removed, no model twice |
| ModelSync.SyncedRow | internal/models/models.go:259-307 | what a sync leaves of every single row |
| ModelSync.EntryProvider | internal/models/models.go:284-289 | an entry belongs to the provider it names, or to the part of its id before the first slash |
| ModelSync.NamedCounts | internal/models/models.go:279-305 | the number of models added is the number of entries with an id |
| ModelSync.NoProviderIsOrphan | internal/models/models.go:263-263 | a row without a provider is an orphan |
| ModelSync.OrphanExactly | internal/models/models.go:264-267 | any other is one exactly if its provider is neither an id nor a prefix |
| ModelSync.UnderPrefix | internal/models/models.go:316-318 | under a prefix without wildcards lie exactly the ids that start with it and a slash, up to ASCII case |
| ModelSync.ClaimsOwnExactly | internal/models/models.go:316-318 | a provider claims just the models under its prefix exactly if that has no wildcard in it |
| ModelSync.UnderscoreClaims | internal/models/models.go:316-318 | a provider "a_b" claims the models under "axb" |
| ModelSync.BelongsExactly | internal/models/models.go:316-318 | what belongs to a provider without wildcards in its name |
| ModelSync.GuardInNumbers | internal/models/models.go:334-344 | missing models are marked, all of them, exactly if they are at most half of the present ones or the provider was pending |
| ModelSync.ProviderOutcome | internal/models/models.go:315-354 | with disjoint models a provider's missing models are marked all or none, none exactly if they are over half and it was not pending |
| ModelSync.MassRemovalGuard | internal/models/models.go:248-256 | a sync marks at most half of a provider's present models unless that provider was pending |
| ModelSync.SharedModelsDefeatGuard | internal/models/models.go:316-318 | with shared models more than half can be marked at once |
| ModelSync.GuardFailsExactly | internal/models/models.go:315-354 | for any providers: some order and some pending others let a sync mark over half of a provider's present models exactly if enough of its missing ones are missing from another synced provider too |
| ModelSync.ListedArePresent | internal/models/models.go:278-307 | a listed model is never left removed |
| ModelSync.TwoSyncsSettle | internal/models/models.go:252-258 | two syncs of one listing leave exactly the listed models present for each synced provider, and none pending |
| ModelSync.ThirdSyncChangesNothing | internal/models/models.go:252-258 | a third sync of the listing changes nothing |
| ModelSync.FlagsSurvive | internal/models/models.go:296-300 | over every run that does not delete its row a model keeps the enabled flag it was given last |
| ModelSync.ListedOrphanStartsOver | internal/models/models.go:260-300 | a disabled model of a provider that is gone, listed by another, comes back enabled |
| ModelSync.FlagKeptExactly | internal/models/models.go:260-268 | one sync keeps a flag exactly if the row is no orphan, or is listed and was enabled |
| ModelSync.EditsExactly | internal/models/models.go:113-147 | what enabling, deleting, clearing and dropping a provider leave of any row |
| Text.NoCaseAndMapping | internal/db/db.go:287-296 | what the database's collation equates any case mapping equates; the converse holds for ASCII |
| Text.AsciiLetters | internal/db/db.go:287-296 | ASCII folding folds the 26 letters and nothing else |
| ModelUsage.GetModelUsageSince | internal/traffic/modelquota.go:32-52 | accumulates the groups of the query by lower-cased id |
| ModelUsage.GroupedQueryShows | internal/traffic/modelquota.go:32-52 | for every grouping the database may answer with, the accumulated map gives the tokens of all rows with that lower-cased id |
| ModelUsage.ShownIsEnforcedAndStrays | internal/traffic/modelquota.go:13-52 | the usage shown is the usage enforced plus the strays |
| ModelUsage.AsciiHasNoStrays | internal/traffic/modelquota.go:49-49 | with ids of ASCII there are no strays |
| ModelUsage.AnnotateModelQuotas | internal/keys/modelquota.go:321-348 | in place, with one query for each distinct period, every quota gets its usage, percent, status, reset and reason |
| ModelUsage.AnnotationTells | internal/keys/modelquota.go:321-348 | what an annotation says about usage, percent, status, reset and reason |
| ModelUsage.NearExactly | internal/keys/modelquota.go:67-85 | a quota in use is near exactly from the warning percent of its limit on, up to the limit |
| ModelUsage.ReasonExactly | internal/keys/modelquota.go:295-311 | removed comes before disabled, disabled before no access |
| ModelUsage.NoModelNoDenial | internal/proxy/proxy.go:460-460 | a request without a resolved model is never denied for one |
| TrafficLog.OneUsage | internal/traffic/modelquota.go:13-23 | the usage quotas are annotated against and the usage requests are checked against are the same sum of one log |
| ModelUsage.ModelQuotaFor | internal/keys/modelquota.go:91-102 | finds the first quota whose model equals the request's up to case |
| ModelUsage.FindsOwnQuota | internal/keys/modelquota.go:91-102 | with ids of ASCII, unique up to case, a request finds its own quota |
| ModelUsage.ShownIsEnforcedExactly | internal/traffic/modelquota.go:13-52 | the usage shown for a stored id is the usage enforced for a request, on every log, exactly if lower-casing and collation take the same ids for them |
| ModelUsage.NoTwinsExactly | internal/traffic/modelquota.go:49-49 | for a request under the stored id that condition holds exactly if no character outside its ASCII case pair lower-cases like one of the id's |
| ModelUsage.FindsOwnExactly | internal/keys/modelquota.go:91-102 | a stored quota is found for its own ids and no others exactly if none of its characters has such a twin |
| ModelUsage.ExhaustedAgainstDenied | internal/proxy/proxy.go:460-463 | however a request came to its quota: what decides that it is denied and that the quota is shown as exhausted |
| ModelUsage.ExhaustedIsDeniedExactly | internal/proxy/proxy.go:460-463 | a quota found for a request is shown as exhausted exactly when the request is denied, on every log, exactly under that condition on the two ids |
| ModelUsage.ExhaustedIsDenied | internal/keys/modelquota.go:75-85 | with ids of ASCII an active quota is shown as exhausted exactly when the proxy would answer 429 |
| ModelUsage.KelvinStrays | internal/traffic/modelquota.go:49-49 | tokens of the Kelvin sign are shown for "k" and not enforced for it |
| ModelUsage.KelvinWalksPast | internal/keys/modelquota.go:96-96 | a request spelled with the Kelvin sign finds the used-up quota of "k" and is not denied |

## Left out

- HTTP handlers, web pages, terminal interface, tray, daemon and log hub: input, output and display.
- SQLite: tables are maps, transactions are atomic, calls do not fail; schema migration, column defaults, NULLs and the
  order of rows in a result are not modelled. A model-quota set is a map, so a set with two spellings of one model,
  which the table refuses, does not occur.
- Encryption of stored secrets and JSON encoding: payloads are abstract values. In the stream relay the verdict on a
  payload and the rewritten payload are parameters, so the walk over the decoded event is not modelled.
- The CLIProxyAPI SDK, the embedded engine's start and stop, its transport pipe, upstream HTTP adapters and model
  aggregation: foreign code and network.
- The IANA zone database and what `time.Date` chooses in a gap or an overlap: a zone is any pair of offset functions.
- Users, password hashes and administrator sessions: thin wrappers over libraries.
- Reports, dashboards, pricing, alerts, quota pools, plugins, model groups and cost visibility: aggregation, display or
  easy members.
- Request history cleaning, response bodies, and adding the usage option to a request: edits of decoded JSON.
- Trimming and lower-casing of names, modes, periods and of the bearer prefix before the key operations: arguments are
  already normalised, and an invalid quota mode does not occur.
- KeyManager.Manager.SetGlobalSchedule: schedule operations run one at a time; the cached global schedule read before the
  transaction is not raced.
- KeyManager.Manager.CreateKey: the order of a new entry's model quotas before the next reload is not modelled.
- KeyManager.Manager.DeleteKey: plugin bindings of the key are not modelled.
- ModelSync.Manager.ApplyListing: a removed model has a flag, not a time stamp; the names and times of rows are left out.
- ProviderTable.Manager.Delete: the removal of the provider's models is an event of the runs of `ModelSync`, not of this
  table.
- ModelUsage.AnnotateModelQuotas: percent and usage are unbounded; the overflow of usage * 100 in 64 bits is not modelled.
- RateLimit.RateLimiter.Cleanup: every call is one step under the mutex; the ticker that starts it is left out.
- OAuthSessions.LoginEngine.SubmitCallback: parsing the callback's web address is a parameter; the SDK call that follows is
  left out.
- OAuthRuns.InvAlong: safety only; that a login ever completes is not claimed.

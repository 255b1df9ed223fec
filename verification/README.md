# Subroutine Defense server-side validation — a Dafny model

This project models the anti-cheat core of the game's PlayFab CloudScript
(`playfab/CloudScript.js`): four deterministic decision procedures that judge
what a client claims against what the server has stored for the player.

- **Tournament window calculator** (`Tournament`). Boss Rush tournaments run on
  the UTC weekdays Monday, Thursday and Saturday. `IsTournamentActive` says
  whether today is one of them. `LastTournamentStartTime` is the UTC midnight
  of the most recent such day, today included, found by the source's backward
  scan over 0..6 days. Time is integer milliseconds since 1970-01-01T00:00Z.
  The weekday of day number `d` is `(d + 4) % 7`, because 1970-01-01 was a
  Thursday.
- **Boss Rush score validator** (`BossRush`, `DamageCeiling`, `Pipeline`). An
  ordered, short-circuiting rule list runs on each submission: bounds, the
  five-minute rate limit, the three-per-tournament quota, the ten-wave
  progression buffer, the damage-per-wave ceiling, and tournament-open. An
  accepted submission writes exactly five keys and returns the floored damage
  per wave, computed exactly over integers (see Left out for double rounding).
  Anything rejected writes nothing.
- **Cloud-save validator** (`CloudSave`). It range-checks four fields of the
  parsed payload. It then checks progression speed, at most 100 000 waves per
  day of account age, by the exact real-number rule, stated in integers (see
  Left out for double rounding). A payload that does not
  parse is a distinct outcome.
- **Ban ledger** (`BanLedger`). `reportSuspiciousActivity` adds 1 to the cheat
  score and appends one log entry. At a score of 5 it bans the player
  permanently. `checkBanStatus` lifts a ban only when its expiry is positive
  and has passed. The ledger states are clear, flagged, temporarily banned
  and permanently banned.

The player's internal data is a map from key to typed value (`InternalData`).
A read fetches a chosen set of keys: keys that were not requested are absent
from what the handler sees, exactly as with the store's keyed read. A write
merges new values over the stored ones. Each handler is a pure function of
(request, stored data, `now`). It returns the response and the write it asks
for, if any. `PlayerHistory` runs all four handlers over any sequence of
requests and proves what none of them can undo.

In two places the code does something other than its own comments say. This
model follows the code:
- The comments at `playfab/CloudScript.js:71` and `:76` promise at most three
  submissions per tournament, with the counter reset when a new tournament
  starts. But the window-reset time the quota reads is not among the keys
  fetched at `:56`, so the quota never applies (see Findings). The handler as
  written is modelled as `BossRush.ValidateBossRushScore`.
- The comment at `:360` marks an expiry of 0 as a permanent ban. The test at
  `:310` lifts a ban only when its expiry is positive, so a ban whose expiry is
  0 *or negative* is permanent (`BanLedger.PermanentlyBanned`).

## Model

| member | source | states |
|---|---|---|
| InternalData.Fetch | playfab/CloudScript.js:54-57 | the keyed read returns exactly the requested keys that are stored, with their stored values |
| InternalData.Update | playfab/CloudScript.js:123-132 | a write replaces the written keys and leaves every other stored key with its old value |
| Tournament.Weekday | playfab/CloudScript.js:155 | the UTC weekday of a day is always one of 0 (Sunday) .. 6 (Saturday) |
| Tournament.ScanBack | playfab/CloudScript.js:170-177 | the scan returns the first i in its range whose weekday is a tournament day, with no tournament day before it; if there is none, it returns 0, the initial value |
| Tournament.DaysBack | playfab/CloudScript.js:164-177 | the most recent tournament day is at most 2 days back, is a tournament day, and no later day up to today is one |
| Tournament.LastTournamentStartTime | playfab/CloudScript.js:164-185 | the window start is a UTC midnight, at most `now` and less than three days before it; its weekday is Monday, Thursday or Saturday; no tournament day lies after it up to today |
| Tournament.ActiveIffWindowStartsToday | playfab/CloudScript.js:153-185 | a tournament is active exactly when the scan stops at 0 days back, that is, when the window starts at today's midnight |
| Tournament.WindowStartIsLatest | playfab/CloudScript.js:164-185 | every tournament day up to today is no later than the window start's day |
| Tournament.WindowStartStable | playfab/CloudScript.js:164-185 | two instants see the same window start whenever the later one's window had already begun at the earlier one |
| Tournament.WindowStartMonotone | playfab/CloudScript.js:164-185 | window starts never move backwards as time advances |
| DamageCeiling.IntPower | playfab/CloudScript.js:193-196 | a positive base to any integer power is positive, and at least 1 for base at least 1 and non-negative exponent |
| DamageCeiling.TierMultiplier | playfab/CloudScript.js:193 | `5^tier` is positive for every tier, and at least 1 for non-negative tiers |
| DamageCeiling.EnemyHp | playfab/CloudScript.js:196-201 | enemy HP is positive, and at least 5000 from wave 0 on |
| DamageCeiling.BossCount | playfab/CloudScript.js:204 | from wave 0 on there are 1..10 bosses: one per started block of ten waves, capped at ten from wave 90 on |
| DamageCeiling.CeilingBoundsHold | playfab/CloudScript.js:191-211 | the ceiling is positive from wave 0 on, and at least 7500 for non-negative tiers |
| DamageCeiling.WithinCeilingCrossMultiplied | playfab/CloudScript.js:101-105 | `damage / waves <= 2 * ceiling` holds exactly when `damage <= 2 * ceiling * waves` |
| Pipeline.FirstFailure | playfab/CloudScript.js:28-119 | an early-return rule chain yields nothing exactly when every rule passes, and otherwise the reason of the first failing rule |
| BossRush.DamagePerWave | playfab/CloudScript.js:101 | the returned damage per wave is the floor of damage / waves |
| BossRush.Commit | playfab/CloudScript.js:123-132 | the write holds exactly the five keys: submit time `now`, effective count + 1, window start, max of waves and the stored high-water mark, and the damage |
| BossRush.ValidateScoreWith | playfab/CloudScript.js:17-143 | something is written exactly when the submission is accepted, and then exactly the five-key commit; an accepted submission returns the floor of damage / waves |
| BossRush.ScoreCheckFollowsRules | playfab/CloudScript.js:28-119 | the handler's early-return checks give no rejection exactly when all eight rules pass, and otherwise the reason of the first failing rule |
| BossRush.HandlerFollowsRules | playfab/CloudScript.js:28-119 | a submission is accepted exactly when all eight rules pass (bounds, rate limit, quota on the effective count, progression buffer, ceiling, tournament open); otherwise the reason is that of the first failing rule |
| BossRush.ValidateBossRushScore | playfab/CloudScript.js:54-84 | as written, once the window start is positive the quota never rejects and every accepted submission stores a count of 1 |
| BossRush.ValidateBossRushScoreIntended | playfab/CloudScript.js:71-84 | with the reset time fetched, three submissions already counted in the current window block any further one, and an accepted one stores the effective count + 1 |
| BossRush.BoundsRejectionIgnoresRecord | playfab/CloudScript.js:28-49 | a submission out of bounds gets the same rejection whatever is stored and whenever it comes, and nothing is written |
| BossRush.TimestampIgnored | playfab/CloudScript.js:21 | the client-supplied timestamp has no effect on the response |
| BossRush.MaxWaveNeverDecreases | playfab/CloudScript.js:88-129 | the stored wave high-water mark never decreases |
| BossRush.RateLimitAfterAcceptance | playfab/CloudScript.js:63-69 | after an accepted submission, every submission in the next five minutes is rejected |
| BossRush.IntendedQuotaPerWindow | playfab/CloudScript.js:71-84 | with the reset time fetched, the accepted submissions of one tournament window never take its count past three |
| BossRush.QuotaIgnoredAsWritten | playfab/CloudScript.js:54-84 | on Monday 1970-01-05 a player with three submissions already counted gets a fourth accepted as written, and rejected with the reset time fetched |
| CloudSave.TooFastMatchesAgeInDays | playfab/CloudScript.js:261-266 | the integer rule `waves * 86400000 > age_ms * 100000` is exactly `waves > age_days * 100000` over fractional days |
| CloudSave.ValidateCloudSave | playfab/CloudScript.js:224-287 | an unparsable payload is exactly the parse-error outcome; a save is accepted exactly when all four ranges hold and progression is not too fast; only then does it write, and exactly the validation time and the validated waves |
| CloudSave.SaveHandlerFollowsRules | playfab/CloudScript.js:231-271 | a rejected save names the first failing check in the order tokens, fragments, perm damage, total waves, progression speed |
| CloudSave.MissingAccountCreatedBlocksProgress | playfab/CloudScript.js:256-271 | with no stored account-creation time, a save in range is accepted exactly when it claims zero completed waves |
| BanLedger.CheckBanStatus | playfab/CloudScript.js:297-328 | it writes exactly when a ban with positive expiry has expired, and then writes exactly the three ban keys, cleared; the returned flag is the stored one unless the ban was lifted; the returned reason and expiry are the stored (pre-clear) ones |
| BanLedger.CheckEffect | playfab/CloudScript.js:305-327 | after the check, the returned flag is the stored one; a lifted ban leaves the flag off, the reason empty and the expiry 0; no key outside the three ban keys changes |
| BanLedger.ReportSuspiciousActivity | playfab/CloudScript.js:334-385 | it always writes: the stored score + 1 and the stored log with the entry `{type or "unknown", now}` appended; at a new score of 5 or more it also writes a permanent ban with the fixed reason and returns the ban, otherwise it writes only those two keys and returns the new score |
| BanLedger.ReportEffect | playfab/CloudScript.js:343-378 | after a report, the cheat score is exactly 1 higher and the log has exactly the new entry at its end; an auto-ban is stored with expiry 0 and the fixed reason; no key outside the ones written changes |
| BanLedger.CheckTransition | playfab/CloudScript.js:309-321 | the check changes the ledger state only out of an expired temporary ban, into the unbanned state for the unchanged cheat score |
| BanLedger.ReportTransition | playfab/CloudScript.js:346-378 | a report moves to a permanent ban at the threshold; below it, a banned player keeps the ban and an unbanned one is flagged with the new score |
| BanLedger.PermanentBanNeverCleared | playfab/CloudScript.js:310 | a permanent ban is never lifted by a check, and nothing is written |
| BanLedger.CheckIsIdempotent | playfab/CloudScript.js:305-327 | a second check at the same instant writes nothing and reports the same flag; once a ban is lifted, every later check reports unbanned and writes nothing |
| BanLedger.ReportKeepsBan | playfab/CloudScript.js:353-378 | a report never lifts a ban and never turns a permanent ban temporary |
| BanLedger.EntriesOf | playfab/CloudScript.js:348-351 | a run of reports contributes one log entry per report, in order, with its type and time |
| BanLedger.ReportsRaiseScore | playfab/CloudScript.js:343-347 | n reports raise the cheat score by exactly n |
| BanLedger.ReportsAppendEntries | playfab/CloudScript.js:344-351 | n reports append exactly their own entries to the end of the log, in order |
| BanLedger.ReportsReachingThresholdBan | playfab/CloudScript.js:353-364 | once reports take the score to 5, the player is banned permanently with expiry 0 for the fixed reason |
| BanLedger.FifthReportBansFreshPlayer | playfab/CloudScript.js:297-369 | a player with no stored data reported five times is reported banned by the check, with expiry 0 and the fixed reason |
| PlayerHistory.ScoreProgresses | playfab/CloudScript.js:123-132 | a score submission never lowers the wave high-water mark or the cheat score, never shortens the log, never lifts a permanent ban, and keeps the data well typed |
| PlayerHistory.SaveProgresses | playfab/CloudScript.js:274-280 | a save never lowers the wave high-water mark or the cheat score, never shortens the log, never lifts a permanent ban, and keeps the data well typed |
| PlayerHistory.CheckProgresses | playfab/CloudScript.js:310-321 | a ban check never lowers the wave high-water mark or the cheat score, never shortens the log, never lifts a permanent ban, and keeps the data well typed |
| PlayerHistory.ReportProgresses | playfab/CloudScript.js:346-378 | a report never lowers the wave high-water mark or the cheat score, never shortens the log, never lifts a permanent ban, and keeps the data well typed |
| PlayerHistory.StepProgresses | playfab/CloudScript.js:17-385 | no single request to any handler lowers the wave high-water mark or the cheat score, shortens the log or lifts a permanent ban |
| PlayerHistory.RunProgresses | playfab/CloudScript.js:17-385 | across any run of requests to any handlers at any instants: the wave high-water mark and the cheat score never decrease, the cheat log only grows at its end, a permanent ban stays, and well-typed data stays well typed |

## Left out

- The store calls (`server.GetUserInternalData`, `server.UpdateUserInternalData`), `currentPlayerId` and `log.info` are left out. The player's data is passed in and the requested write is returned. A failing store call is not modelled.
- The store keeps strings, decoded with `parseInt`, `=== "true"` and `JSON.parse`. The model keeps typed values instead. A stored value of the wrong kind, which `parseInt` would turn into NaN, is read as if absent. No handler ever writes one (`PlayerHistory.RunProgresses`).
- Parsing the save payload (`JSON.parse`) is left out. The payload is an optional parsed record, and `None` covers every payload whose parse or field access throws.
- Request arguments are modelled as integers that may be missing, and JavaScript `x || d` maps both a missing value and 0 to `d`. Fractional, string or NaN arguments are not modelled.
- The response reason strings are left out. Verdicts carry one constructor per reason plus the values the message would show (the stored wave maximum, the tier, the rejected field value).
- `Date.now()` and `new Date()` are separate clock readings in the source. The model injects one `now` per request.
- Per-player serialization of concurrent requests is left out. The code has no such logic.
- DamageCeiling.CeilingBoundsHold: the ceiling is computed exactly over rationals, not with IEEE doubles. Rounding, and overflow of `Math.pow` to Infinity (or 0 times Infinity giving NaN) at extreme tiers and waves, are not modelled.
- BossRush.DamagePerWave: the source divides `damage / waves` in IEEE doubles and returns `Math.floor` of the rounded quotient; the model returns the exact integer floor. Above 2^53 the two can differ (damage 3·2^52+2 over 3 waves gives 2^52+1 in doubles, 2^52 here), and the comparison of that rounded quotient with the ceiling is likewise taken exactly. Double rounding is not modelled.
- CloudSave.ValidateCloudSave: the bound `9223372036854775807` is used as written. In JavaScript that literal is the double 2^63, and doubles near 10^18 and 2^63 cannot hold every integer. The source also computes the progression allowance `(now - accountCreated) / 86400000 * 100000` in doubles, and the model uses the exact rule `waves * 86400000 > age_ms * 100000`. At the boundary `age_ms == 864 * waves` the rounded allowance can fall just below `waves`: an account aged 6048 ms claiming 7 waves gets the allowance 6.999999999999999 in doubles, so the source rejects it as too fast while the model accepts it. None of these effects is modelled.
- The doc comment's `rank` result is never returned by the handler, so it is not modelled.

## Findings

| source | as written | input that shows it | evidently intended | confidence | as-written member | corrected member |
|---|---|---|---|---|---|---|
| playfab/CloudScript.js:54-84 | The read at line 54 requests only `lastBossRushSubmit`, `bossRushSubmitCount` and `maxWaveReached`. So the `lastTournamentReset` read at line 73 is always absent and parses to 0. Once the window start is positive, the counter is reset on every call, and the three-per-tournament quota never rejects. | `now` = Monday 1970-01-05 00:16:40 UTC (345 600 000 + 1 000 000 ms). Stored: count 3, reset = that day's midnight, last submit 0, max wave 100. Submission: damage 1000, waves 10, tier 1. It is accepted and stores count 1. | Fetch `lastTournamentReset` too, so that the stored count applies within the current window and a fourth submission is rejected. | not executed; high, assuming the keyed read returns only the requested keys | BossRush.ValidateBossRushScore, BossRush.QuotaIgnoredAsWritten | BossRush.ValidateBossRushScoreIntended, BossRush.IntendedQuotaPerWindow |

`PlayerHistory.Step` and `PlayerHistory.Run` take the score handler's key set
as a parameter. Their properties are proved for every key set that includes
the wave high-water mark, which covers both versions.

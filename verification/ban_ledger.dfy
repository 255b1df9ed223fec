/** The ban system: `handlers.checkBanStatus` lifts an expired temporary ban,
    `handlers.reportSuspiciousActivity` logs an activity, raises the cheat
    score and bans permanently once the score reaches the threshold. */
module BanLedger {
  import opened Wrappers
  import opened InternalData

  const BanThreshold: int := 5
  const AutoBanReason: string := "Multiple cheating violations detected"
  const UnknownActivity: string := "unknown"

  /** The keys `checkBanStatus` fetches (and the ones it may write). */
  const BanKeys: set<Key> := {Banned, BanReason, BanExpiry}

  /** The keys `reportSuspiciousActivity` fetches. */
  const CheatKeys: set<Key> := {CheatScore, CheatLog}

  function IsBanned(s: Store): bool { FlagIsSet(s, Banned) }
  function BanReasonOf(s: Store): string { TextOr(s, BanReason, "") }
  function BanExpiryOf(s: Store): int { NumOr(s, BanExpiry, 0) }
  function CheatScoreOf(s: Store): int { NumOr(s, CheatScore, 0) }
  function CheatLogOf(s: Store): seq<LogEntry> { LogOr(s, CheatLog) }

  /** The ban is permanent when its expiry is not positive: only a positive
      expiry is ever lifted. */
  predicate PermanentlyBanned(s: Store)
  {
    IsBanned(s) && BanExpiryOf(s) <= 0
  }

  /** The ledger states of a player. */
  datatype BanState = Clear | Flagged(score: int) | BannedTemporary(expiry: int) | BannedPermanent

  function StateOf(s: Store): BanState
  {
    if IsBanned(s) then
      (if BanExpiryOf(s) > 0 then BannedTemporary(BanExpiryOf(s)) else BannedPermanent)
    else if CheatScoreOf(s) <= 0 then Clear
    else Flagged(CheatScoreOf(s))
  }

  /** The state of an unbanned player with the given cheat score. */
  function Unbanned(score: int): BanState
  {
    if score <= 0 then Clear else Flagged(score)
  }

  /** What `checkBanStatus` returns. */
  datatype BanStatus = BanStatus(banned: bool, reason: string, expiryTime: int)

  /** A ban with a positive expiry that lies before `now`. */
  predicate ExpiredTemporaryBan(s: Store, now: int)
  {
    IsBanned(s) && BanExpiryOf(s) > 0 && now > BanExpiryOf(s)
  }

  /** The write that lifts a ban: flag off, reason and expiry cleared. */
  function ClearBanWrite(): (w: Store)
    ensures w.Keys == BanKeys && WellTyped(w)
  {
    map[Banned := Flag(false), BanReason := Text(""), BanExpiry := Num(0)]
  }

  function CheckBanStatus(store: Store, now: int): (r: Response<BanStatus>)
    ensures r.writes.Some? <==> ExpiredTemporaryBan(store, now)
    ensures r.writes.Some? ==>
      && r.writes.value.Keys == BanKeys
      && WellTyped(r.writes.value)
      && r.writes.value[Banned] == Flag(false)
      && r.writes.value[BanReason] == Text("")
      && r.writes.value[BanExpiry] == Num(0)
    ensures r.verdict.banned <==> IsBanned(store) && !ExpiredTemporaryBan(store, now)
    ensures r.verdict.reason == BanReasonOf(store) && r.verdict.expiryTime == BanExpiryOf(store)
  {
    var data := Fetch(store, BanKeys);
    FetchReads(store, BanKeys, Banned);
    FetchReads(store, BanKeys, BanReason);
    FetchReads(store, BanKeys, BanExpiry);
    var banned := FlagIsSet(data, Banned);
    var reason := TextOr(data, BanReason, "");
    var expiry := NumOr(data, BanExpiry, 0);
    if banned && expiry > 0 && now > expiry then
      Response(BanStatus(false, reason, expiry),
               Some(ClearBanWrite()))
    else
      Response(BanStatus(banned, reason, expiry), None)
  }

  /** After the check: the reported flag is the stored one, a lifted ban leaves
      the ban keys cleared, and every other key is as it was. */
  lemma CheckEffect(store: Store, now: int)
    ensures
      var r := CheckBanStatus(store, now);
      var s' := After(store, r);
      && (r.verdict.banned <==> IsBanned(s'))
      && (r.writes.Some? ==> !IsBanned(s') && BanReasonOf(s') == "" && BanExpiryOf(s') == 0)
      && AgreeOutside(store, s', BanKeys)
  {
    var r := CheckBanStatus(store, now);
    if r.writes.Some? {
      var w := r.writes.value;
      UpdateAgreesOutside(store, w);
      UpdateReadsWrite(store, w, Banned);
      UpdateReadsWrite(store, w, BanReason);
      UpdateReadsWrite(store, w, BanExpiry);
    }
  }

  /** What `reportSuspiciousActivity` returns: the auto-ban, or the new score. */
  datatype ReportVerdict = AutoBanned | Logged(cheatScore: int)

  /** The log entry a report appends. */
  function EntryFor(activityType: Option<string>, now: int): LogEntry
  {
    LogEntry(OrText(activityType, UnknownActivity), now)
  }

  /** The write of a report below the threshold: the new score and log. */
  function CheatWrite(score: int, log: seq<LogEntry>): (w: Store)
    ensures w.Keys == CheatKeys && WellTyped(w)
    ensures w[CheatScore] == Num(score) && w[CheatLog] == Entries(log)
  {
    map[CheatScore := Num(score), CheatLog := Entries(log)]
  }

  /** The write of a report that reaches the threshold: a permanent ban with
      the fixed reason, plus the new score and log. */
  function AutoBanWrite(score: int, log: seq<LogEntry>): (w: Store)
    ensures w.Keys == BanKeys + CheatKeys && WellTyped(w)
    ensures w[CheatScore] == Num(score) && w[CheatLog] == Entries(log)
    ensures w[Banned] == Flag(true) && w[BanReason] == Text(AutoBanReason) && w[BanExpiry] == Num(0)
  {
    map[Banned := Flag(true), BanReason := Text(AutoBanReason), BanExpiry := Num(0),
        CheatScore := Num(score), CheatLog := Entries(log)]
  }

  function ReportSuspiciousActivity(activityType: Option<string>, store: Store, now: int): (r: Response<ReportVerdict>)
    ensures r.writes.Some? && WellTyped(r.writes.value)
    ensures r.verdict == AutoBanned <==> CheatScoreOf(store) + 1 >= BanThreshold
    ensures r.verdict.Logged? ==> r.verdict.cheatScore == CheatScoreOf(store) + 1
    ensures
      var w := r.writes.value;
      && CheatScore in w && w[CheatScore] == Num(CheatScoreOf(store) + 1)
      && CheatLog in w && w[CheatLog] == Entries(CheatLogOf(store) + [EntryFor(activityType, now)])
    ensures r.verdict == AutoBanned ==>
      && r.writes.value.Keys == BanKeys + CheatKeys
      && r.writes.value[Banned] == Flag(true)
      && r.writes.value[BanReason] == Text(AutoBanReason)
      && r.writes.value[BanExpiry] == Num(0)
    ensures r.verdict.Logged? ==> r.writes.value.Keys == CheatKeys
  {
    var data := Fetch(store, CheatKeys);
    FetchReads(store, CheatKeys, CheatScore);
    FetchReads(store, CheatKeys, CheatLog);
    var score := NumOr(data, CheatScore, 0) + 1;
    var log := LogOr(data, CheatLog) + [EntryFor(activityType, now)];
    if score >= BanThreshold then
      Response(AutoBanned, Some(AutoBanWrite(score, log)))
    else
      Response(Logged(score), Some(CheatWrite(score, log)))
  }

  /** After a report: the score is one higher, the log has the new entry at
      its end, an auto-ban is permanent with the fixed reason, and otherwise
      only the score and the log changed. */
  lemma ReportEffect(activityType: Option<string>, store: Store, now: int)
    ensures
      var r := ReportSuspiciousActivity(activityType, store, now);
      var s' := After(store, r);
      && CheatScoreOf(s') == CheatScoreOf(store) + 1
      && CheatLogOf(s') == CheatLogOf(store) + [EntryFor(activityType, now)]
      && (r.verdict == AutoBanned ==>
            IsBanned(s') && BanExpiryOf(s') == 0 && BanReasonOf(s') == AutoBanReason)
      && AgreeOutside(store, s', if r.verdict == AutoBanned then BanKeys + CheatKeys else CheatKeys)
  {
    var r := ReportSuspiciousActivity(activityType, store, now);
    var w := r.writes.value;
    UpdateAgreesOutside(store, w);
    UpdateReadsWrite(store, w, CheatScore);
    UpdateReadsWrite(store, w, CheatLog);
    if r.verdict == AutoBanned {
      UpdateReadsWrite(store, w, Banned);
      UpdateReadsWrite(store, w, BanReason);
      UpdateReadsWrite(store, w, BanExpiry);
    }
  }

  /** `checkBanStatus` moves the state only out of an expired temporary ban,
      into the unbanned state for the unchanged cheat score. */
  lemma CheckTransition(store: Store, now: int)
    ensures
      var s' := After(store, CheckBanStatus(store, now));
      StateOf(s') == (if StateOf(store).BannedTemporary? && now > StateOf(store).expiry
                      then Unbanned(CheatScoreOf(store))
                      else StateOf(store))
  {
    var s' := After(store, CheckBanStatus(store, now));
    CheckEffect(store, now);
    AgreeOutsideReads(store, s', BanKeys, CheatScore);
  }

  /** `reportSuspiciousActivity` moves to a permanent ban once the new score
      reaches the threshold; below it, a banned player keeps the ban as it was
      and an unbanned one is flagged with the new score. */
  lemma ReportTransition(activityType: Option<string>, store: Store, now: int)
    ensures
      var s' := After(store, ReportSuspiciousActivity(activityType, store, now));
      var score := CheatScoreOf(store) + 1;
      StateOf(s') == (if score >= BanThreshold then BannedPermanent
                      else if IsBanned(store) then StateOf(store)
                      else Unbanned(score))
  {
    var s' := After(store, ReportSuspiciousActivity(activityType, store, now));
    ReportEffect(activityType, store, now);
    if CheatScoreOf(store) + 1 < BanThreshold {
      AgreeOutsideReads(store, s', CheatKeys, Banned);
      AgreeOutsideReads(store, s', CheatKeys, BanExpiry);
    }
  }

  /** A permanent ban is never lifted by `checkBanStatus`, and nothing is written. */
  lemma PermanentBanNeverCleared(store: Store, now: int)
    requires PermanentlyBanned(store)
    ensures CheckBanStatus(store, now).writes.None?
    ensures CheckBanStatus(store, now).verdict.banned
  {
  }

  /** A second check at the same instant writes nothing and reports the same
      ban flag; once a ban has been lifted, every later check reports the
      player unbanned and writes nothing. */
  lemma CheckIsIdempotent(store: Store, now: int, later: int)
    ensures
      var s1 := After(store, CheckBanStatus(store, now));
      && CheckBanStatus(s1, now).writes.None?
      && CheckBanStatus(s1, now).verdict.banned == CheckBanStatus(store, now).verdict.banned
    ensures
      var s1 := After(store, CheckBanStatus(store, now));
      CheckBanStatus(store, now).writes.Some? ==>
        CheckBanStatus(s1, later).writes.None? && !CheckBanStatus(s1, later).verdict.banned
  {
    CheckEffect(store, now);
  }

  /** A report never lifts a ban, and never turns a permanent ban temporary. */
  lemma ReportKeepsBan(activityType: Option<string>, store: Store, now: int)
    ensures
      var s' := After(store, ReportSuspiciousActivity(activityType, store, now));
      && (IsBanned(store) ==> IsBanned(s'))
      && (PermanentlyBanned(store) ==> PermanentlyBanned(s'))
  {
    ReportTransition(activityType, store, now);
  }

  /** One report: an activity type (possibly missing) and the instant it came in. */
  datatype Report = Report(activityType: Option<string>, at: int)

  function ReportAll(store: Store, reports: seq<Report>): Store
    decreases |reports|
  {
    if |reports| == 0 then store
    else
      var r := ReportSuspiciousActivity(reports[0].activityType, store, reports[0].at);
      ReportAll(After(store, r), reports[1..])
  }

  /** The log entries a run of reports appends, in order. */
  function EntriesOf(reports: seq<Report>): (entries: seq<LogEntry>)
    ensures |entries| == |reports|
    ensures forall i :: 0 <= i < |reports| ==> entries[i] == EntryFor(reports[i].activityType, reports[i].at)
    decreases |reports|
  {
    if |reports| == 0 then []
    else [EntryFor(reports[0].activityType, reports[0].at)] + EntriesOf(reports[1..])
  }

  /** A run of n reports raises the cheat score by exactly n. */
  lemma {:induction false} ReportsRaiseScore(store: Store, reports: seq<Report>)
    ensures CheatScoreOf(ReportAll(store, reports)) == CheatScoreOf(store) + |reports|
    decreases |reports|
  {
    if |reports| > 0 {
      var r := ReportSuspiciousActivity(reports[0].activityType, store, reports[0].at);
      ReportEffect(reports[0].activityType, store, reports[0].at);
      ReportsRaiseScore(After(store, r), reports[1..]);
    }
  }

  /** A run of reports appends exactly its own entries to the log, in order. */
  lemma {:induction false} ReportsAppendEntries(store: Store, reports: seq<Report>)
    ensures CheatLogOf(ReportAll(store, reports)) == CheatLogOf(store) + EntriesOf(reports)
    decreases |reports|
  {
    if |reports| > 0 {
      var r := ReportSuspiciousActivity(reports[0].activityType, store, reports[0].at);
      var s1 := After(store, r);
      var e := EntryFor(reports[0].activityType, reports[0].at);
      ReportEffect(reports[0].activityType, store, reports[0].at);
      ReportsAppendEntries(s1, reports[1..]);
      assert ReportAll(store, reports) == ReportAll(s1, reports[1..]);
      assert EntriesOf(reports) == [e] + EntriesOf(reports[1..]);
      assert CheatLogOf(store) + [e] + EntriesOf(reports[1..]) == CheatLogOf(store) + ([e] + EntriesOf(reports[1..]));
    }
  }

  /** Once a run of reports has taken the score to the threshold, the player is
      permanently banned for the fixed reason. */
  lemma {:induction false} ReportsReachingThresholdBan(store: Store, reports: seq<Report>)
    requires |reports| >= 1
    requires CheatScoreOf(store) + |reports| >= BanThreshold
    ensures PermanentlyBanned(ReportAll(store, reports))
    ensures BanExpiryOf(ReportAll(store, reports)) == 0
    ensures BanReasonOf(ReportAll(store, reports)) == AutoBanReason
    decreases |reports|
  {
    var r := ReportSuspiciousActivity(reports[0].activityType, store, reports[0].at);
    var s1 := After(store, r);
    ReportEffect(reports[0].activityType, store, reports[0].at);
    if |reports| > 1 {
      ReportsReachingThresholdBan(s1, reports[1..]);
    } else {
      assert ReportAll(s1, reports[1..]) == s1;
    }
  }

  /** A player with no stored data who is reported five times is banned
      permanently, and `checkBanStatus` then says so with expiry 0. */
  lemma FifthReportBansFreshPlayer(reports: seq<Report>, now: int)
    requires |reports| == BanThreshold
    ensures
      var s := ReportAll(map[], reports);
      var status := CheckBanStatus(s, now).verdict;
      status.banned && status.expiryTime == 0 && status.reason == AutoBanReason
  {
    ReportsReachingThresholdBan(map[], reports);
  }
}

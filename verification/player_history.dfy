/** Every handler acting on one player's stored data, one request after another:
    the properties that hold across all of them. */
module PlayerHistory {
  import opened Wrappers
  import opened InternalData
  import BossRush
  import CloudSave
  import BanLedger

  datatype Request =
    | SubmitScore(args: BossRush.ScoreArgs)
    | SubmitSave(payload: Option<CloudSave.SaveData>)
    | CheckBan
    | ReportActivity(activityType: Option<string>)

  /** A request and the instant it is handled. */
  datatype Call = Call(request: Request, at: int)

  /** The stored data after one request; the score handler reads the keys in
      `fetched` (`BossRush.FetchedKeys` as written, `BossRush.IntendedKeys`
      with the window-reset time). */
  function Step(fetched: set<Key>, store: Store, call: Call): Store
  {
    match call.request
    case SubmitScore(args) => After(store, BossRush.ValidateScoreWith(fetched, args, store, call.at))
    case SubmitSave(payload) => After(store, CloudSave.ValidateCloudSave(payload, store, call.at))
    case CheckBan => After(store, BanLedger.CheckBanStatus(store, call.at))
    case ReportActivity(activityType) => After(store, BanLedger.ReportSuspiciousActivity(activityType, store, call.at))
  }

  /** The stored data after a run of requests, in order. */
  function Run(fetched: set<Key>, store: Store, calls: seq<Call>): Store
    decreases |calls|
  {
    if |calls| == 0 then store else Run(fetched, Step(fetched, store, calls[0]), calls[1..])
  }

  function MaxWaveOf(s: Store): int { NumOr(s, MaxWaveReached, 0) }

  /** What no single request can undo: the wave high-water mark, the cheat
      score and the cheat log only grow, a permanent ban stays, and the store
      keeps every key at its own kind of value. */
  predicate Progresses(s: Store, s': Store)
  {
    && MaxWaveOf(s) <= MaxWaveOf(s')
    && BanLedger.CheatScoreOf(s) <= BanLedger.CheatScoreOf(s')
    && BanLedger.CheatLogOf(s) <= BanLedger.CheatLogOf(s')
    && (BanLedger.PermanentlyBanned(s) ==> BanLedger.PermanentlyBanned(s'))
    && (WellTyped(s) ==> WellTyped(s'))
  }

  /** An accepted submission's write keeps every property of `Progresses`. */
  lemma CommitProgresses(store: Store, w: Store, data: Store, args: BossRush.ScoreArgs, now: int)
    requires BossRush.CommitsExactly(w, data, args, now)
    requires WellTyped(w)
    requires NumOr(data, MaxWaveReached, 0) == NumOr(store, MaxWaveReached, 0)
    ensures Progresses(store, Update(store, w))
  {
    var s' := Update(store, w);
    assert AgreeOutside(store, s', BossRush.CommittedKeys);
    AgreeOutsideReads(store, s', BossRush.CommittedKeys, CheatScore);
    AgreeOutsideReads(store, s', BossRush.CommittedKeys, CheatLog);
    AgreeOutsideReads(store, s', BossRush.CommittedKeys, Banned);
    AgreeOutsideReads(store, s', BossRush.CommittedKeys, BanExpiry);
    UpdateKeepsWellTyped(store, w);
  }

  /** Holds for the handler as written and for the one that also fetches the
      window-reset time: both read the wave high-water mark they raise. */
  lemma ScoreProgresses(fetched: set<Key>, args: BossRush.ScoreArgs, store: Store, now: int)
    requires MaxWaveReached in fetched
    ensures Progresses(store, After(store, BossRush.ValidateScoreWith(fetched, args, store, now)))
  {
    var r := BossRush.ValidateScoreWith(fetched, args, store, now);
    if r.writes.Some? {
      var data := Fetch(store, fetched);
      assert NumOr(data, MaxWaveReached, 0) == NumOr(store, MaxWaveReached, 0);
      CommitProgresses(store, r.writes.value, data, args, now);
    }
  }

  lemma SaveProgresses(payload: Option<CloudSave.SaveData>, store: Store, now: int)
    ensures Progresses(store, After(store, CloudSave.ValidateCloudSave(payload, store, now)))
  {
    var r := CloudSave.ValidateCloudSave(payload, store, now);
    if r.writes.Some? {
      var w := r.writes.value;
      assert MaxWaveReached !in w && CheatScore !in w && CheatLog !in w && Banned !in w && BanExpiry !in w;
      UpdateKeepsWellTyped(store, w);
    }
  }

  lemma CheckProgresses(store: Store, now: int)
    ensures Progresses(store, After(store, BanLedger.CheckBanStatus(store, now)))
  {
    var r := BanLedger.CheckBanStatus(store, now);
    var s' := After(store, r);
    BanLedger.CheckEffect(store, now);
    BanLedger.CheckTransition(store, now);
    AgreeOutsideReads(store, s', BanLedger.BanKeys, MaxWaveReached);
    AgreeOutsideReads(store, s', BanLedger.BanKeys, CheatScore);
    AgreeOutsideReads(store, s', BanLedger.BanKeys, CheatLog);
    if r.writes.Some? {
      UpdateKeepsWellTyped(store, r.writes.value);
    }
  }

  lemma ReportProgresses(activityType: Option<string>, store: Store, now: int)
    ensures Progresses(store, After(store, BanLedger.ReportSuspiciousActivity(activityType, store, now)))
  {
    var r := BanLedger.ReportSuspiciousActivity(activityType, store, now);
    var s' := After(store, r);
    BanLedger.ReportEffect(activityType, store, now);
    BanLedger.ReportKeepsBan(activityType, store, now);
    AgreeOutsideReads(store, s', BanLedger.BanKeys + BanLedger.CheatKeys, MaxWaveReached);
    UpdateKeepsWellTyped(store, r.writes.value);
  }

  lemma StepProgresses(fetched: set<Key>, store: Store, call: Call)
    requires MaxWaveReached in fetched
    ensures Progresses(store, Step(fetched, store, call))
  {
    match call.request
    case SubmitScore(args) => ScoreProgresses(fetched, args, store, call.at);
    case SubmitSave(payload) => SaveProgresses(payload, store, call.at);
    case CheckBan => CheckProgresses(store, call.at);
    case ReportActivity(activityType) => ReportProgresses(activityType, store, call.at);
  }

  /** Across any run of requests, to any handler, at any instants: the wave
      high-water mark, the cheat score and the cheat log never shrink, a
      permanent ban is never lifted, and well-typed data stays well typed. */
  lemma {:induction false} RunProgresses(fetched: set<Key>, store: Store, calls: seq<Call>)
    requires MaxWaveReached in fetched
    ensures Progresses(store, Run(fetched, store, calls))
    decreases |calls|
  {
    if |calls| > 0 {
      var s1 := Step(fetched, store, calls[0]);
      StepProgresses(fetched, store, calls[0]);
      RunProgresses(fetched, s1, calls[1..]);
    }
  }
}

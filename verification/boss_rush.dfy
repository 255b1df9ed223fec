/** `handlers.validateBossRushScore`: an ordered, short-circuiting rule
    pipeline over a score submission and the player's stored data, ending in
    one conditional write of five keys. */
module BossRush {
  import opened Wrappers
  import opened InternalData
  import opened Tournament
  import opened DamageCeiling
  import opened Pipeline

  const MaxDamage: int := 1_000_000_000_000_000_000
  const MaxWaves: int := 10000
  const RateLimitMs: int := 300000
  const SubmissionsPerTournament: int := 3
  const WaveBuffer: int := 10

  /** The keys the handler asks the store for. */
  const FetchedKeys: set<Key> := {LastBossRushSubmit, BossRushSubmitCount, MaxWaveReached}

  /** The keys the quota rule actually needs: the fetched ones plus the
      stored window-reset time. */
  const IntendedKeys: set<Key> := FetchedKeys + {LastTournamentReset}

  /** The keys an accepted submission writes. */
  const CommittedKeys: set<Key> :=
    {LastBossRushSubmit, BossRushSubmitCount, LastTournamentReset, MaxWaveReached, LastValidatedDamage}

  /** The request arguments; each may be missing. */
  datatype ScoreArgs = ScoreArgs(damage: Option<int>, waves: Option<int>, tier: Option<int>, timestamp: Option<int>)

  datatype ScoreRejection =
    | InvalidAmounts
    | DamageTooHigh
    | WavesTooHigh
    | TooFrequent
    | QuotaReached
    | BeyondProgression(maxWave: int)
    | ImplausibleDamage(tier: int)
    | NotActive

  datatype ScoreVerdict = Valid(damagePerWave: int) | Invalid(reason: ScoreRejection)

  function Damage(args: ScoreArgs): int { OrNumber(args.damage, 0) }
  function Waves(args: ScoreArgs): int { OrNumber(args.waves, 0) }
  function Tier(args: ScoreArgs): int { OrNumber(args.tier, 1) }

  /** The submission count the quota sees: 0 once the stored reset time lies
      before the current window start, the stored count otherwise. */
  function EffectiveCount(data: Store, windowStart: int): int
  {
    if NumOr(data, LastTournamentReset, 0) < windowStart then 0
    else NumOr(data, BossRushSubmitCount, 0)
  }

  predicate InBounds(args: ScoreArgs)
  {
    0 < Damage(args) <= MaxDamage && 0 < Waves(args) <= MaxWaves
  }

  /** The rules in the order the handler applies them, evaluated on one request. */
  function ScoreRules(fetched: set<Key>, args: ScoreArgs, store: Store, now: int): seq<Rule<ScoreRejection>>
  {
    var damage, waves, tier := Damage(args), Waves(args), Tier(args);
    var data := Fetch(store, fetched);
    var maxWave := NumOr(data, MaxWaveReached, 0);
    [ Rule(damage > 0 && waves > 0, InvalidAmounts),
      Rule(damage <= MaxDamage, DamageTooHigh),
      Rule(waves <= MaxWaves, WavesTooHigh),
      Rule(now - NumOr(data, LastBossRushSubmit, 0) >= RateLimitMs, TooFrequent),
      Rule(EffectiveCount(data, LastTournamentStartTime(now)) < SubmissionsPerTournament, QuotaReached),
      Rule(waves <= maxWave + WaveBuffer, BeyondProgression(maxWave)),
      Rule(waves <= 0 || WithinCeiling(damage, waves, tier), ImplausibleDamage(tier)),
      Rule(IsTournamentActive(now), NotActive) ]
  }

  /** The write of an accepted submission, described key by key. */
  predicate CommitsExactly(w: Store, data: Store, args: ScoreArgs, now: int)
  {
    var windowStart := LastTournamentStartTime(now);
    && w.Keys == CommittedKeys
    && w[LastBossRushSubmit] == Num(now)
    && w[BossRushSubmitCount] == Num(EffectiveCount(data, windowStart) + 1)
    && w[LastTournamentReset] == Num(windowStart)
    && w[MaxWaveReached] == Num(Max(Waves(args), NumOr(data, MaxWaveReached, 0)))
    && w[LastValidatedDamage] == Num(Damage(args))
  }

  /** `Math.floor(damage / waves)` for positive amounts. */
  function DamagePerWave(damage: int, waves: int): (dpw: int)
    requires damage > 0 && waves > 0
    ensures 0 <= dpw * waves <= damage < (dpw + 1) * waves
  {
    var dpw := damage / waves;
    assert damage == dpw * waves + damage % waves;
    assert dpw >= 0;
    dpw
  }

  /** The write an accepted submission asks for. */
  function Commit(data: Store, args: ScoreArgs, now: int): (w: Store)
    ensures CommitsExactly(w, data, args, now)
    ensures WellTyped(w)
  {
    var windowStart := LastTournamentStartTime(now);
    map[
      LastBossRushSubmit := Num(now),
      BossRushSubmitCount := Num(EffectiveCount(data, windowStart) + 1),
      LastTournamentReset := Num(windowStart),
      MaxWaveReached := Num(Max(Waves(args), NumOr(data, MaxWaveReached, 0))),
      LastValidatedDamage := Num(Damage(args))]
  }

  /** The handler's checks in the order it makes them, each returning early:
      the first rejection, or none when the submission is accepted. */
  function ScoreCheck(fetched: set<Key>, args: ScoreArgs, store: Store, now: int): (rejection: Option<ScoreRejection>)
    ensures rejection.None? ==> InBounds(args)
  {
    var damage, waves, tier := Damage(args), Waves(args), Tier(args);
    if damage <= 0 || waves <= 0 then Some(InvalidAmounts)
    else if damage > MaxDamage then Some(DamageTooHigh)
    else if waves > MaxWaves then Some(WavesTooHigh)
    else
      var data := Fetch(store, fetched);
      var lastSubmit := NumOr(data, LastBossRushSubmit, 0);
      var count := EffectiveCount(data, LastTournamentStartTime(now));
      var maxWave := NumOr(data, MaxWaveReached, 0);
      if now - lastSubmit < RateLimitMs then Some(TooFrequent)
      else if count >= SubmissionsPerTournament then Some(QuotaReached)
      else if waves > maxWave + WaveBuffer then Some(BeyondProgression(maxWave))
      else if !WithinCeiling(damage, waves, tier) then Some(ImplausibleDamage(tier))
      else if !IsTournamentActive(now) then Some(NotActive)
      else None
  }

  /** The handler, reading only the keys in `fetched`. */
  function ValidateScoreWith(fetched: set<Key>, args: ScoreArgs, store: Store, now: int): (r: Response<ScoreVerdict>)
    ensures r.writes.Some? <==> r.verdict.Valid?
    ensures r.verdict.Valid? ==>
      var dpw := r.verdict.damagePerWave;
      0 <= dpw * Waves(args) <= Damage(args) < (dpw + 1) * Waves(args)
    ensures r.writes.Some? ==> CommitsExactly(r.writes.value, Fetch(store, fetched), args, now)
    ensures r.writes.Some? ==> WellTyped(r.writes.value)
  {
    match ScoreCheck(fetched, args, store, now)
    case Some(reason) => Response(Invalid(reason), None)
    case None =>
      Response(Valid(DamagePerWave(Damage(args), Waves(args))), Some(Commit(Fetch(store, fetched), args, now)))
  }

  /** The checks agree with the rule list: no rejection exactly when every
      rule passes, otherwise the reason of the first failing rule. */
  lemma ScoreCheckFollowsRules(fetched: set<Key>, args: ScoreArgs, store: Store, now: int)
    ensures ScoreCheck(fetched, args, store, now) == FirstFailure(ScoreRules(fetched, args, store, now))
  {
    var rules := ScoreRules(fetched, args, store, now);
    var damage, waves := Damage(args), Waves(args);
    var data := Fetch(store, fetched);
    if damage <= 0 || waves <= 0 {
      assert FirstFailingAt(rules, 0);
    } else if damage > MaxDamage {
      assert FirstFailingAt(rules, 1);
    } else if waves > MaxWaves {
      assert FirstFailingAt(rules, 2);
    } else if now - NumOr(data, LastBossRushSubmit, 0) < RateLimitMs {
      assert FirstFailingAt(rules, 3);
    } else if EffectiveCount(data, LastTournamentStartTime(now)) >= SubmissionsPerTournament {
      assert FirstFailingAt(rules, 4);
    } else if waves > NumOr(data, MaxWaveReached, 0) + WaveBuffer {
      assert FirstFailingAt(rules, 5);
    } else if !WithinCeiling(damage, waves, Tier(args)) {
      assert FirstFailingAt(rules, 6);
    } else if !IsTournamentActive(now) {
      assert FirstFailingAt(rules, 7);
    } else {
      assert AllPass(rules);
    }
  }

  /** The handler's verdict is the one the rule list gives: acceptance exactly
      when every rule passes, otherwise the reason of the first failing rule. */
  lemma HandlerFollowsRules(fetched: set<Key>, args: ScoreArgs, store: Store, now: int)
    ensures
      var r := ValidateScoreWith(fetched, args, store, now);
      var rules := ScoreRules(fetched, args, store, now);
      && (r.verdict.Valid? <==> AllPass(rules))
      && (r.verdict.Invalid? ==> FirstFailure(rules) == Some(r.verdict.reason))
  {
    ScoreCheckFollowsRules(fetched, args, store, now);
  }

  /** The handler as written: the quota reads `lastTournamentReset`, which is
      not among the fetched keys, so it always sees 0; from 1970-01-03 on,
      every window start is positive and the quota never fires. */
  function ValidateBossRushScore(args: ScoreArgs, store: Store, now: int): (r: Response<ScoreVerdict>)
    ensures LastTournamentStartTime(now) > 0 ==> r.verdict != Invalid(QuotaReached)
    ensures LastTournamentStartTime(now) > 0 && r.writes.Some? ==>
      BossRushSubmitCount in r.writes.value && r.writes.value[BossRushSubmitCount] == Num(1)
  {
    ValidateScoreWith(FetchedKeys, args, store, now)
  }

  /** The handler with the reset time fetched too, as the quota rule needs:
      three submissions already counted in the current window block a fourth. */
  function ValidateBossRushScoreIntended(args: ScoreArgs, store: Store, now: int): (r: Response<ScoreVerdict>)
    ensures EffectiveCount(store, LastTournamentStartTime(now)) >= SubmissionsPerTournament ==>
      r.verdict.Invalid? && r.writes.None?
    ensures r.writes.Some? ==>
      && BossRushSubmitCount in r.writes.value
      && r.writes.value[BossRushSubmitCount] == Num(EffectiveCount(store, LastTournamentStartTime(now)) + 1)
  {
    assert EffectiveCount(Fetch(store, IntendedKeys), LastTournamentStartTime(now))
        == EffectiveCount(store, LastTournamentStartTime(now));
    ValidateScoreWith(IntendedKeys, args, store, now)
  }

  /** The bounds rules run before the stored data is read: a submission out of
      bounds gets the same rejection whatever is stored and whenever it comes,
      and nothing is written. */
  lemma BoundsRejectionIgnoresRecord(fetched: set<Key>, args: ScoreArgs, s1: Store, s2: Store, t1: int, t2: int)
    requires !InBounds(args)
    ensures ValidateScoreWith(fetched, args, s1, t1) == ValidateScoreWith(fetched, args, s2, t2)
    ensures ValidateScoreWith(fetched, args, s1, t1).writes.None?
  {
  }

  /** The client-supplied timestamp plays no part in the decision. */
  lemma TimestampIgnored(fetched: set<Key>, args: ScoreArgs, store: Store, now: int, ts: Option<int>)
    ensures ValidateScoreWith(fetched, args.(timestamp := ts), store, now)
         == ValidateScoreWith(fetched, args, store, now)
  {
  }

  /** The stored wave high-water mark never decreases. */
  lemma MaxWaveNeverDecreases(fetched: set<Key>, args: ScoreArgs, store: Store, now: int)
    requires MaxWaveReached in fetched
    ensures NumOr(store, MaxWaveReached, 0)
         <= NumOr(After(store, ValidateScoreWith(fetched, args, store, now)), MaxWaveReached, 0)
  {
    var r := ValidateScoreWith(fetched, args, store, now);
    if r.writes.Some? {
      assert NumOr(Fetch(store, fetched), MaxWaveReached, 0) == NumOr(store, MaxWaveReached, 0);
    }
  }

  /** After an accepted submission at `t1`, every submission within the next
      five minutes is rejected. */
  lemma RateLimitAfterAcceptance(fetched: set<Key>, a1: ScoreArgs, a2: ScoreArgs, store: Store, t1: int, t2: int)
    requires LastBossRushSubmit in fetched
    requires ValidateScoreWith(fetched, a1, store, t1).verdict.Valid?
    requires t2 < t1 + RateLimitMs
    ensures
      var s1 := After(store, ValidateScoreWith(fetched, a1, store, t1));
      ValidateScoreWith(fetched, a2, s1, t2).verdict.Invalid?
  {
    var s1 := After(store, ValidateScoreWith(fetched, a1, store, t1));
    assert NumOr(Fetch(s1, fetched), LastBossRushSubmit, 0) == t1;
  }

  /** A submission attempt at a given instant. */
  datatype Submission = Submission(args: ScoreArgs, at: int)

  /** How many of a run of submissions are accepted, each seeing the data
      left by the ones before it. */
  function AcceptedCount(fetched: set<Key>, store: Store, subs: seq<Submission>): nat
    decreases |subs|
  {
    if |subs| == 0 then 0
    else
      var r := ValidateScoreWith(fetched, subs[0].args, store, subs[0].at);
      (if r.verdict.Valid? then 1 else 0) + AcceptedCount(fetched, After(store, r), subs[1..])
  }

  /** With the reset time fetched, the submissions of one tournament window
      that are accepted never take the window's count past three. */
  lemma {:induction false} IntendedQuotaPerWindow(store: Store, subs: seq<Submission>, windowStart: int)
    requires forall i :: 0 <= i < |subs| ==> LastTournamentStartTime(subs[i].at) == windowStart
    ensures AcceptedCount(IntendedKeys, store, subs)
         <= Max(0, SubmissionsPerTournament - EffectiveCount(store, windowStart))
    decreases |subs|
  {
    if |subs| > 0 {
      var r := ValidateScoreWith(IntendedKeys, subs[0].args, store, subs[0].at);
      var s1 := After(store, r);
      assert EffectiveCount(Fetch(store, IntendedKeys), windowStart) == EffectiveCount(store, windowStart);
      assert forall i :: 0 <= i < |subs[1..]| ==> LastTournamentStartTime(subs[1..][i].at) == windowStart by {
        forall i | 0 <= i < |subs[1..]| ensures LastTournamentStartTime(subs[1..][i].at) == windowStart {
          assert subs[1..][i] == subs[i + 1];
        }
      }
      IntendedQuotaPerWindow(s1, subs[1..], windowStart);
      if r.verdict.Valid? {
        assert LastTournamentStartTime(subs[0].at) == windowStart;
        assert EffectiveCount(s1, windowStart) == EffectiveCount(store, windowStart) + 1;
      }
    }
  }

  /** A concrete run on Monday 1970-01-05: the player already has three
      submissions counted in the current window. The handler as written
      accepts a fourth; with the reset time fetched it is rejected. */
  lemma QuotaIgnoredAsWritten()
    ensures
      var now := 4 * DayMs + 1_000_000;
      var store: Store := map[
        LastBossRushSubmit := Num(0),
        BossRushSubmitCount := Num(3),
        LastTournamentReset := Num(4 * DayMs),
        MaxWaveReached := Num(100)];
      var args := ScoreArgs(Some(1000), Some(10), Some(1), None);
      && ValidateBossRushScore(args, store, now).verdict == Valid(100)
      && ValidateBossRushScoreIntended(args, store, now).verdict == Invalid(QuotaReached)
  {
    var now := 4 * DayMs + 1_000_000;
    assert DayOf(now) == 4;
    assert IsTournamentActive(now);
    ActiveIffWindowStartsToday(now);
    assert LastTournamentStartTime(now) == 4 * DayMs;
    CeilingBoundsHold(1, 10);
    assert WithinCeiling(1000, 10, 1);
  }
}

/** `handlers.validateCloudSave`: range checks on four fields of a parsed save
    payload, then a progression-speed check against the account's age. */
module CloudSave {
  import opened Wrappers
  import opened InternalData
  import opened Tournament
  import opened Pipeline

  const MaxArchiveTokens: int := 1_000_000_000_000_000_000
  const MaxFragments: int := 1_000_000_000_000
  const MaxPermDamage: int := 9_223_372_036_854_775_807
  const MaxTotalWaves: int := 1_000_000_000
  const WavesPerDay: int := 100000

  /** The keys the handler asks the store for. */
  const SaveFetchedKeys: set<Key> := {AccountCreated, LastSaveValidation}

  /** The keys an accepted save writes. */
  const SaveCommittedKeys: set<Key> := {LastSaveValidation, ValidatedWaves}

  /** A parsed save payload; each field may be missing. */
  datatype SaveData = SaveData(
    archiveTokens: Option<int>,
    fragments: Option<int>,
    permProjectileDamage: Option<int>,
    totalWavesCompleted: Option<int>)

  datatype SaveRejection =
    | InvalidTokens(tokens: int)
    | InvalidFragments(fragments: int)
    | InvalidPermDamage(permDamage: int)
    | InvalidWaveCount(totalWaves: int)
    | ProgressionTooFast

  /** `ParseError` is the payload that does not parse: a distinct outcome. */
  datatype SaveVerdict = SaveValid | SaveInvalid(reason: SaveRejection) | ParseError

  function Tokens(d: SaveData): int { OrNumber(d.archiveTokens, 0) }
  function Fragments(d: SaveData): int { OrNumber(d.fragments, 0) }
  function PermDamage(d: SaveData): int { OrNumber(d.permProjectileDamage, 0) }
  function TotalWaves(d: SaveData): int { OrNumber(d.totalWavesCompleted, 0) }

  /** The account-creation time the check uses; a missing key counts as `now`. */
  function AccountCreatedAt(store: Store, now: int): int
  {
    NumOr(Fetch(store, SaveFetchedKeys), AccountCreated, now)
  }

  /** The progression-speed rule in integers: more than 100000 waves per day
      of account age, with the day fraction cross-multiplied away. */
  predicate TooFast(totalWaves: int, accountCreated: int, now: int)
  {
    totalWaves * DayMs > (now - accountCreated) * WavesPerDay
  }

  /** The integer rule is exactly `totalWaves > accountAgeDays * 100000` with
      the account age in (fractional) days. */
  lemma TooFastMatchesAgeInDays(totalWaves: int, accountCreated: int, now: int)
    ensures TooFast(totalWaves, accountCreated, now)
        <==> totalWaves as real > ((now - accountCreated) as real / DayMs as real) * WavesPerDay as real
  {
    var age := (now - accountCreated) as real / DayMs as real;
    assert age * DayMs as real == (now - accountCreated) as real;
    assert (age * WavesPerDay as real) * DayMs as real == (now - accountCreated) as real * WavesPerDay as real;
  }

  /** Every rule of the handler holds: the reference conjunction. */
  predicate Acceptable(d: SaveData, accountCreated: int, now: int)
  {
    && 0 <= Tokens(d) <= MaxArchiveTokens
    && 0 <= Fragments(d) <= MaxFragments
    && 0 <= PermDamage(d) <= MaxPermDamage
    && 0 <= TotalWaves(d) <= MaxTotalWaves
    && !TooFast(TotalWaves(d), accountCreated, now)
  }

  /** The rules in the order the handler applies them. */
  function SaveRules(d: SaveData, store: Store, now: int): seq<Rule<SaveRejection>>
  {
    [ Rule(0 <= Tokens(d) <= MaxArchiveTokens, InvalidTokens(Tokens(d))),
      Rule(0 <= Fragments(d) <= MaxFragments, InvalidFragments(Fragments(d))),
      Rule(0 <= PermDamage(d) <= MaxPermDamage, InvalidPermDamage(PermDamage(d))),
      Rule(0 <= TotalWaves(d) <= MaxTotalWaves, InvalidWaveCount(TotalWaves(d))),
      Rule(!TooFast(TotalWaves(d), AccountCreatedAt(store, now), now), ProgressionTooFast) ]
  }

  /** The handler; `None` stands for a payload that does not parse. */
  function ValidateCloudSave(payload: Option<SaveData>, store: Store, now: int): (r: Response<SaveVerdict>)
    ensures r.verdict == ParseError <==> payload.None?
    ensures r.writes.Some? <==> r.verdict == SaveValid
    ensures r.verdict == SaveValid <==>
      payload.Some? && Acceptable(payload.value, AccountCreatedAt(store, now), now)
    ensures r.writes.Some? ==>
      && r.writes.value.Keys == SaveCommittedKeys
      && r.writes.value[LastSaveValidation] == Num(now)
      && r.writes.value[ValidatedWaves] == Num(TotalWaves(payload.value))
    ensures r.writes.Some? ==> WellTyped(r.writes.value)
  {
    match payload
    case None => Response(ParseError, None)
    case Some(d) =>
      var tokens, fragments, permDamage, totalWaves := Tokens(d), Fragments(d), PermDamage(d), TotalWaves(d);
      if tokens < 0 || tokens > MaxArchiveTokens then Response(SaveInvalid(InvalidTokens(tokens)), None)
      else if fragments < 0 || fragments > MaxFragments then Response(SaveInvalid(InvalidFragments(fragments)), None)
      else if permDamage < 0 || permDamage > MaxPermDamage then Response(SaveInvalid(InvalidPermDamage(permDamage)), None)
      else if totalWaves < 0 || totalWaves > MaxTotalWaves then Response(SaveInvalid(InvalidWaveCount(totalWaves)), None)
      else if TooFast(totalWaves, AccountCreatedAt(store, now), now) then Response(SaveInvalid(ProgressionTooFast), None)
      else Response(SaveValid, Some(map[LastSaveValidation := Num(now), ValidatedWaves := Num(totalWaves)]))
  }

  /** A rejection names the first rule, in the handler's order, that fails. */
  lemma SaveHandlerFollowsRules(d: SaveData, store: Store, now: int)
    ensures
      var r := ValidateCloudSave(Some(d), store, now);
      var rules := SaveRules(d, store, now);
      && (r.verdict == SaveValid <==> AllPass(rules))
      && (r.verdict.SaveInvalid? ==> FirstFailure(rules) == Some(r.verdict.reason))
  {
    var rules := SaveRules(d, store, now);
    if !(0 <= Tokens(d) <= MaxArchiveTokens) {
      assert FirstFailingAt(rules, 0);
    } else if !(0 <= Fragments(d) <= MaxFragments) {
      assert FirstFailingAt(rules, 1);
    } else if !(0 <= PermDamage(d) <= MaxPermDamage) {
      assert FirstFailingAt(rules, 2);
    } else if !(0 <= TotalWaves(d) <= MaxTotalWaves) {
      assert FirstFailingAt(rules, 3);
    } else if TooFast(TotalWaves(d), AccountCreatedAt(store, now), now) {
      assert FirstFailingAt(rules, 4);
    } else {
      assert AllPass(rules);
    }
  }

  /** With no stored account-creation time the account counts as created now,
      so a save in range is accepted exactly when it claims no completed waves. */
  lemma MissingAccountCreatedBlocksProgress(d: SaveData, store: Store, now: int)
    requires AccountCreated !in store
    requires 0 <= Tokens(d) <= MaxArchiveTokens && 0 <= Fragments(d) <= MaxFragments
    requires 0 <= PermDamage(d) <= MaxPermDamage && 0 <= TotalWaves(d) <= MaxTotalWaves
    ensures ValidateCloudSave(Some(d), store, now).verdict == SaveValid <==> TotalWaves(d) == 0
  {
    assert AccountCreatedAt(store, now) == now;
  }
}

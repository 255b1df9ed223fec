/** The per-player internal data every handler reads and writes: a map from key
    names to stored values. Reads fetch a chosen set of keys; writes merge a map
    of new values over the stored one, leaving every other key as it was. */
module InternalData {
  import opened Wrappers

  /** The stored keys the handlers use, one per field name. */
  datatype Key =
    | LastBossRushSubmit
    | BossRushSubmitCount
    | LastTournamentReset
    | MaxWaveReached
    | LastValidatedDamage
    | AccountCreated
    | LastSaveValidation
    | ValidatedWaves
    | Banned
    | BanReason
    | BanExpiry
    | CheatScore
    | CheatLog

  /** One entry of the suspicious-activity log. */
  datatype LogEntry = LogEntry(activity: string, timestamp: int)

  /** A stored value, already decoded from its string form. */
  datatype Value =
    | Num(n: int)
    | Flag(b: bool)
    | Text(s: string)
    | Entries(log: seq<LogEntry>)

  type Store = map<Key, Value>

  datatype Kind = NumKind | FlagKind | TextKind | LogKind

  /** The kind of value each key holds when written by the handlers. */
  function KindOf(k: Key): Kind
  {
    match k
    case Banned => FlagKind
    case BanReason => TextKind
    case CheatLog => LogKind
    case _ => NumKind
  }

  predicate HasKind(v: Value, kind: Kind)
  {
    match kind
    case NumKind => v.Num?
    case FlagKind => v.Flag?
    case TextKind => v.Text?
    case LogKind => v.Entries?
  }

  /** Every stored key holds a value of its own kind. */
  predicate WellTyped(s: Store)
  {
    forall k :: k in s ==> HasKind(s[k], KindOf(k))
  }

  /** The read of a chosen set of keys: only keys that are requested AND stored
      come back. */
  function Fetch(s: Store, keys: set<Key>): (view: Store)
    ensures view.Keys == s.Keys * keys
    ensures forall k :: k in view ==> view[k] == s[k]
  {
    map k | k in s && k in keys :: s[k]
  }

  /** `parseInt(data.k ? data.k.Value : fallback)` for a numeric key. */
  function NumOr(view: Store, k: Key, fallback: int): int
  {
    if k in view && view[k].Num? then view[k].n else fallback
  }

  /** `data.k ? data.k.Value === "true" : false`. */
  function FlagIsSet(view: Store, k: Key): bool
  {
    k in view && view[k].Flag? && view[k].b
  }

  /** `data.k ? data.k.Value : fallback` for a text key. */
  function TextOr(view: Store, k: Key, fallback: string): string
  {
    if k in view && view[k].Text? then view[k].s else fallback
  }

  /** `data.k ? JSON.parse(data.k.Value) : []` for a log key. */
  function LogOr(view: Store, k: Key): seq<LogEntry>
  {
    if k in view && view[k].Entries? then view[k].log else []
  }

  /** Reading a requested key from the fetched view reads the stored value. */
  lemma FetchReads(s: Store, keys: set<Key>, k: Key)
    requires k in keys
    ensures forall fallback :: NumOr(Fetch(s, keys), k, fallback) == NumOr(s, k, fallback)
    ensures FlagIsSet(Fetch(s, keys), k) == FlagIsSet(s, k)
    ensures forall fallback :: TextOr(Fetch(s, keys), k, fallback) == TextOr(s, k, fallback)
    ensures LogOr(Fetch(s, keys), k) == LogOr(s, k)
  {
  }

  /** The write: new values replace stored ones, all other keys keep theirs. */
  function Update(s: Store, writes: Store): (s': Store)
    ensures s'.Keys == s.Keys + writes.Keys
    ensures forall k :: k in writes ==> s'[k] == writes[k]
    ensures forall k :: k in s && k !in writes ==> s'[k] == s[k]
  {
    s + writes
  }

  /** After a write, every reader sees the written value of a written key. */
  lemma UpdateReadsWrite(s: Store, writes: Store, k: Key)
    requires k in writes
    ensures forall fallback :: NumOr(Update(s, writes), k, fallback) == NumOr(writes, k, fallback)
    ensures FlagIsSet(Update(s, writes), k) == FlagIsSet(writes, k)
    ensures forall fallback :: TextOr(Update(s, writes), k, fallback) == TextOr(writes, k, fallback)
    ensures LogOr(Update(s, writes), k) == LogOr(writes, k)
  {
  }

  /** A write changes nothing outside its own keys. */
  lemma UpdateAgreesOutside(s: Store, writes: Store)
    ensures AgreeOutside(s, Update(s, writes), writes.Keys)
  {
  }

  /** A well-typed write keeps well-typed data well typed. */
  lemma UpdateKeepsWellTyped(s: Store, writes: Store)
    ensures WellTyped(s) && WellTyped(writes) ==> WellTyped(Update(s, writes))
  {
  }

  /** Outside `keys`, the two stores hold the same keys with the same values. */
  predicate AgreeOutside(s: Store, s': Store, keys: set<Key>)
  {
    forall k :: k !in keys ==> (k in s <==> k in s') && (k in s ==> s[k] == s'[k])
  }

  /** Every reader sees the same value of a key the two stores agree on. */
  lemma AgreeOutsideReads(s: Store, s': Store, keys: set<Key>, k: Key)
    requires AgreeOutside(s, s', keys)
    requires k !in keys
    ensures forall fallback :: NumOr(s, k, fallback) == NumOr(s', k, fallback)
    ensures FlagIsSet(s, k) == FlagIsSet(s', k)
    ensures forall fallback :: TextOr(s, k, fallback) == TextOr(s', k, fallback)
    ensures LogOr(s, k) == LogOr(s', k)
  {
  }

  /** What a handler returns to its caller, and the write it asked for, if any. */
  datatype Response<V> = Response(verdict: V, writes: Option<Store>)

  /** The stored data once a handler's write (if any) has been applied. */
  function After<V>(s: Store, r: Response<V>): Store
  {
    match r.writes
    case None => s
    case Some(w) => Update(s, w)
  }
}

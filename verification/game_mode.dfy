/** The game-mode context: the selected competition period, restored from
    and saved to browser storage under a fixed key.

    Browser storage is a map from keys to strings; a missing `window` (a
    render outside the browser) is the absent storage `None`.
 */
module GameModes {
  import opened Wrappers

  datatype GameMode = Daily | Weekly | Monthly | Yearly

  /** The string each mode is stored and sent as. */
  function ModeName(m: GameMode): string {
    match m
    case Daily => "daily"
    case Weekly => "weekly"
    case Monthly => "monthly"
    case Yearly => "yearly"
  }

  /** `Object.values(GameMode).includes(stored)`, with the mode it names. */
  function ParseMode(s: string): (r: Option<GameMode>)
    ensures r.Some? ==> ModeName(r.value) == s
    ensures r.None? ==> forall m: GameMode :: ModeName(m) != s
  {
    if s == "daily" then Some(Daily)
    else if s == "weekly" then Some(Weekly)
    else if s == "monthly" then Some(Monthly)
    else if s == "yearly" then Some(Yearly)
    else None
  }

  /** Every mode's name reads back as that mode; so no two modes share a
      name. */
  lemma ParseModeName(m: GameMode)
    ensures ParseMode(ModeName(m)) == Some(m)
  {
  }

  type Storage = map<string, string>

  const StorageKey: string := "icp-trading-game-mode"

  /** The provider's initial state: the stored mode when storage holds a
      non-empty string that names a mode, otherwise daily. */
  function InitialMode(storage: Option<Storage>): (m: GameMode)
    ensures storage.None? || StorageKey !in storage.value ==> m == Daily
    ensures storage.Some? && StorageKey in storage.value && ParseMode(storage.value[StorageKey]).Some? ==>
      m == ParseMode(storage.value[StorageKey]).value
    ensures storage.Some? && StorageKey in storage.value && ParseMode(storage.value[StorageKey]).None? ==>
      m == Daily
  {
    if storage.Some? && StorageKey in storage.value then
      var stored := storage.value[StorageKey];
      if stored != "" && ParseMode(stored).Some? then ParseMode(stored).value else Daily
    else Daily
  }

  /** What the provider holds: the current mode and the storage it writes. */
  datatype Provider = Provider(gameMode: GameMode, storage: Option<Storage>)

  function NewProvider(storage: Option<Storage>): (p: Provider)
    ensures p.storage == storage
  {
    Provider(InitialMode(storage), storage)
  }

  /** `setGameMode`: switch the mode and, in a browser, store its name under
      the key; no other key changes. */
  function SetGameMode(p: Provider, mode: GameMode): (q: Provider)
    ensures q.gameMode == mode
    ensures q.storage.Some? <==> p.storage.Some?
    ensures q.storage.Some? ==>
      && StorageKey in q.storage.value && q.storage.value[StorageKey] == ModeName(mode)
      && forall k | k in p.storage.value && k != StorageKey :: k in q.storage.value && q.storage.value[k] == p.storage.value[k]
    ensures q.storage.Some? ==> q.storage.value.Keys == p.storage.value.Keys + {StorageKey}
  {
    match p.storage
    case None => Provider(mode, None)
    case Some(s) => Provider(mode, Some(s[StorageKey := ModeName(mode)]))
  }

  /** A chosen mode survives a reload: a provider built from the storage
      that `setGameMode` wrote starts in that mode. */
  lemma ModeSurvivesReload(p: Provider, mode: GameMode)
    requires p.storage.Some?
    ensures NewProvider(SetGameMode(p, mode).storage).gameMode == mode
  {
    ParseModeName(mode);
  }

  /** Outside a browser nothing is remembered: every provider starts daily. */
  lemma NoStorageStartsDaily(p: Provider, mode: GameMode)
    requires p.storage.None?
    ensures NewProvider(SetGameMode(p, mode).storage).gameMode == Daily
  {
  }

  const OutsideProviderMessage: string := "useGameMode must be used within a GameModeProvider"

  /** `useGameMode`: the provider's value, or the error it throws when no
      provider is above the caller. */
  function UseGameMode(context: Option<Provider>): (r: Result<Provider, string>)
    ensures r.Success? <==> context.Some?
    ensures r.Success? ==> r.value == context.value
    ensures r.Failure? ==> r.error == OutsideProviderMessage
  {
    match context
    case None => Failure(OutsideProviderMessage)
    case Some(p) => Success(p)
  }
}

/** What the module reads from its host: the user, their character, the
    module's settings and the localisation table. All of it is input here. */
module World {
  import opened Values
  import Constants

  /** A character: its level (system.levelData.level.current, possibly unset)
      and the names of the items it holds. */
  datatype Actor = Actor(level: Option<int>, itemNames: seq<string>)

  /** actor.items.some(i => i.name === name) */
  predicate HoldsItem(a: Actor, name: string) {
    exists i :: 0 <= i < |a.itemNames| && a.itemNames[i] == name
  }

  /** `actor ? actor.items.some(...) : false` */
  predicate HasPhoenix(actor: Option<Actor>, phoenixName: string) {
    actor.Some? && HoldsItem(actor.value, phoenixName)
  }

  datatype User = User(id: string, active: bool, isGM: bool)

  /** The world settings the core reads. `assets` holds the image and audio
      path settings by key. */
  datatype Config = Config(
    countdownDuration: int,
    blazeChatMessage: string,
    showProbabilities: bool,
    phoenixItemName: string,
    riskItAllDoubleRoll: bool,
    assets: map<string, string>)

  /** `DeathSettings.get(key) || ""`: an unset, empty or missing path is "". */
  function AssetPath(cfg: Config, key: Option<string>): (p: string)
    ensures key.Some? && key.value in cfg.assets ==> p == cfg.assets[key.value]
    ensures key.None? || key.value !in cfg.assets ==> p == ""
  {
    if key.Some? && key.value in cfg.assets then cfg.assets[key.value] else ""
  }

  /** The client the code runs on: game.user, its character, the settings, the
      localisation table and the SOCKET_TYPES object the scripts import. */
  datatype Env = Env(
    userId: string,
    isGM: bool,
    character: Option<Actor>,
    config: Config,
    i18n: map<string, string>,
    socketTypes: Constants.StringTable)

  /** game.i18n.localize: a key without a translation reads as itself. */
  function Localize(env: Env, key: string): (s: string)
    ensures key !in env.i18n ==> s == key
  {
    if key in env.i18n then env.i18n[key] else key
  }
}

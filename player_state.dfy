/**
 * The state rules of `EndstonePlayer`: operator status, experience level,
 * flight abilities, game mode, and the hiding of unusable commands before
 * the command list is sent to the player.
 */
module PlayerState {
  import opened CommandFlags

  /** What the engine's logger receives from the guarded setters. */
  datatype LogEntry =
    | NegativeExpLevel(level: int)
    | NotAllowedToFly(player: string)

  /** The engine's `GameType`; values other than the four named ones keep their number. */
  datatype GameType = Survival | Creative | Adventure | Spectator | OtherGameType(id: int)

  /** The plugin API's `GameMode`. */
  datatype GameMode = SurvivalMode | CreativeMode | AdventureMode | SpectatorMode

  /** `getGameMode`: the same-named mode, and Survival for every other game type. */
  function GameModeOf(t: GameType): (m: GameMode)
    ensures m == CreativeMode <==> t == Creative
    ensures m == AdventureMode <==> t == Adventure
    ensures m == SpectatorMode <==> t == Spectator
    ensures m == SurvivalMode <==> (t == Survival || t.OtherGameType?)
  {
    match t
    case Creative => CreativeMode
    case Adventure => AdventureMode
    case Spectator => SpectatorMode
    case _ => SurvivalMode
  }

  /** `setGameMode`: the same-named game type, never one outside the four named ones. */
  function GameTypeOf(m: GameMode): (t: GameType)
    ensures !t.OtherGameType?
    ensures m == SurvivalMode <==> t == Survival
  {
    match m
    case SurvivalMode => Survival
    case CreativeMode => Creative
    case AdventureMode => Adventure
    case SpectatorMode => Spectator
  }

  /**
   * Setting a mode and reading it back gives the mode; reading a game type
   * and setting it back restores it exactly when it is one of the four
   * named types.
   */
  lemma GameModeRoundTrip(m: GameMode, t: GameType)
    ensures GameModeOf(GameTypeOf(m)) == m
    ensures GameTypeOf(GameModeOf(t)) == t <==> !t.OtherGameType?
  {
  }

  /** `isOp`: any permission level above `Any`. */
  predicate IsOpLevel(level: CommandPermissionLevel): (r: bool)
    ensures r <==> level.GameDirectors? || level.Admin? || level.Host? || level.Owner? || level.Internal?
  {
    level != Any
  }

  /** The level `setOp(value)` hands to the engine, as written: `value ? Any : GameDirectors`. */
  function SetOpLevelAsWritten(value: bool): CommandPermissionLevel
  {
    if value then Any else GameDirectors
  }

  /**
   * As written, `setOp` never changes operator status: it only acts when
   * `value != isOp()`, and then hands over a level whose status is `!value`.
   */
  lemma SetOpAsWrittenKeepsStatus(level: CommandPermissionLevel, value: bool)
    requires value != IsOpLevel(level)
    ensures IsOpLevel(SetOpLevelAsWritten(value)) == IsOpLevel(level)
    ensures IsOpLevel(SetOpLevelAsWritten(value)) != value
  {
  }

  /** The concrete case: a player at level `Any` asked to become operator stays a non-operator. */
  lemma SetOpAsWrittenCounterexample()
    ensures !IsOpLevel(Any) && !IsOpLevel(SetOpLevelAsWritten(true))
  {
  }

  /** The level `setOp(value)` evidently means to hand over: `value ? GameDirectors : Any`. */
  function SetOpLevel(value: bool): (level: CommandPermissionLevel)
    ensures IsOpLevel(level) == value
  {
    if value then GameDirectors else Any
  }

  /** The data of one command in the available-commands list sent to a player. */
  datatype CommandData = CommandData(
    name: string,
    description: string,
    flags: CommandFlag,
    permissionLevel: CommandPermissionLevel)

  /** What the plugin command map knows about a command name. */
  datatype CommandEntry = CommandEntry(registered: bool, permitted: bool)

  /**
   * The command map's verdict on `name` for this player: there is such a
   * command, it is registered, and the player passes its permission test.
   */
  predicate Usable(commandMap: map<string, CommandEntry>, name: string)
  {
    name in commandMap && commandMap[name].registered && commandMap[name].permitted
  }

  /**
   * What `updateCommands` does to one entry: a usable command is left
   * alone; any other is hidden from players and command blocks, keeping its
   * other flags, and demoted to `Internal`.
   */
  function HideIfUnusable(commandMap: map<string, CommandEntry>, data: CommandData): (r: CommandData)
    ensures r.name == data.name && r.description == data.description
    ensures Usable(commandMap, data.name) ==> r == data
    ensures !Usable(commandMap, data.name) ==>
      r.flags == data.flags + Hidden && r.permissionLevel == Internal
  {
    if Usable(commandMap, data.name) then data
    else data.(flags := data.flags + Hidden, permissionLevel := Internal)
  }

  /** `updateCommands` applied to a whole list. */
  function HideUnusable(commandMap: map<string, CommandEntry>, commands: seq<CommandData>): (r: seq<CommandData>)
    ensures |r| == |commands|
    ensures forall i | 0 <= i < |commands| :: r[i] == HideIfUnusable(commandMap, commands[i])
  {
    if |commands| == 0 then []
    else HideUnusable(commandMap, commands[..|commands| - 1]) + [HideIfUnusable(commandMap, commands[|commands| - 1])]
  }

  /** Hiding twice is hiding once: the verdict depends only on the name, which is kept. */
  lemma HideUnusableIdempotent(commandMap: map<string, CommandEntry>, commands: seq<CommandData>)
    ensures HideUnusable(commandMap, HideUnusable(commandMap, commands)) == HideUnusable(commandMap, commands)
  {
    var once := HideUnusable(commandMap, commands);
    var twice := HideUnusable(commandMap, once);
    forall i | 0 <= i < |commands|
      ensures twice[i] == once[i]
    {
      var d := commands[i];
      assert once[i] == HideIfUnusable(commandMap, d);
      if !Usable(commandMap, d.name) {
        assert once[i].flags + Hidden == once[i].flags;
      }
    }
  }

  /**
   * The loop `updateCommands` runs over the serialized command list, in
   * place, before it sends the list.
   */
  method UpdateCommands(commandMap: map<string, CommandEntry>, commands: array<CommandData>)
    modifies commands
    ensures commands[..] == HideUnusable(commandMap, old(commands[..]))
  {
    var i := 0;
    while i < commands.Length
      invariant 0 <= i <= commands.Length
      invariant forall k | 0 <= k < i :: commands[k] == HideIfUnusable(commandMap, old(commands[k]))
      invariant forall k | i <= k < commands.Length :: commands[k] == old(commands[k])
    {
      var data := commands[i];
      var name := data.name;
      if Usable(commandMap, name) {
        i := i + 1;
        continue;
      }
      commands[i] := data.(flags := data.flags + Hidden, permissionLevel := Internal);
      i := i + 1;
    }
  }

  /**
   * The player as far as these rules go: the engine handle's permission
   * level, experience level, game type and the `MayFly` / `Flying`
   * abilities, plus what the server logs and how many times the abilities
   * were sent.
   */
  class Player {
    const name: string
    var permissionLevel: CommandPermissionLevel
    var playerLevel: int
    var gameType: GameType
    var mayFly: bool
    var flying: bool
    var log: seq<LogEntry>
    var abilityUpdates: nat

    constructor (name: string, permissionLevel: CommandPermissionLevel, playerLevel: int,
                 gameType: GameType, mayFly: bool, flying: bool)
      ensures this.name == name && this.permissionLevel == permissionLevel
      ensures this.playerLevel == playerLevel && this.gameType == gameType
      ensures this.mayFly == mayFly && this.flying == flying
      ensures log == [] && abilityUpdates == 0
    {
      this.name := name;
      this.permissionLevel := permissionLevel;
      this.playerLevel := playerLevel;
      this.gameType := gameType;
      this.mayFly := mayFly;
      this.flying := flying;
      log := [];
      abilityUpdates := 0;
    }

    /** `isOp`. */
    predicate IsOp()
      reads this
    {
      IsOpLevel(permissionLevel)
    }

    /** `setOp` as written: a no-op when `value == isOp()`, else `value ? Any : GameDirectors`. */
    method SetOpAsWritten(value: bool)
      modifies this
      ensures value == old(IsOp()) ==> permissionLevel == old(permissionLevel)
      ensures value != old(IsOp()) ==> permissionLevel == SetOpLevelAsWritten(value)
      ensures IsOp() == old(IsOp())
      ensures playerLevel == old(playerLevel) && gameType == old(gameType)
      ensures mayFly == old(mayFly) && flying == old(flying)
      ensures log == old(log) && abilityUpdates == old(abilityUpdates)
    {
      if value == IsOp() {
        return;
      }
      permissionLevel := SetOpLevelAsWritten(value);
    }

    /** `setOp` as evidently intended: afterwards `isOp() == value`. */
    method SetOp(value: bool)
      modifies this
      ensures value == old(IsOp()) ==> permissionLevel == old(permissionLevel)
      ensures value != old(IsOp()) ==> permissionLevel == SetOpLevel(value)
      ensures IsOp() == value
      ensures playerLevel == old(playerLevel) && gameType == old(gameType)
      ensures mayFly == old(mayFly) && flying == old(flying)
      ensures log == old(log) && abilityUpdates == old(abilityUpdates)
    {
      if value == IsOp() {
        return;
      }
      permissionLevel := SetOpLevel(value);
    }

    /** `getExpLevel`. */
    function ExpLevel(): int
      reads this
    {
      playerLevel
    }

    /** `giveExpLevels`: hands `delta` to the engine's `addLevels`, taken as adding to the stored level. */
    method GiveExpLevels(delta: int)
      modifies this
      ensures playerLevel == old(playerLevel) + delta
      ensures permissionLevel == old(permissionLevel) && gameType == old(gameType)
      ensures mayFly == old(mayFly) && flying == old(flying)
      ensures log == old(log) && abilityUpdates == old(abilityUpdates)
    {
      playerLevel := playerLevel + delta;
    }

    /**
     * `setExpLevel`: a negative level is logged and ignored; any other
     * becomes the player's level.
     */
    method SetExpLevel(level: int)
      modifies this
      ensures level < 0 ==> playerLevel == old(playerLevel) && log == old(log) + [NegativeExpLevel(level)]
      ensures level >= 0 ==> playerLevel == level && log == old(log)
      ensures permissionLevel == old(permissionLevel) && gameType == old(gameType)
      ensures mayFly == old(mayFly) && flying == old(flying)
      ensures abilityUpdates == old(abilityUpdates)
    {
      if level < 0 {
        log := log + [NegativeExpLevel(level)];
        return;
      }
      GiveExpLevels(level - ExpLevel());
    }

    /** `getAllowFlight`. */
    predicate AllowFlight()
      reads this
    {
      mayFly
    }

    /** `isFlying`. */
    predicate IsFlying()
      reads this
    {
      flying
    }

    /**
     * `setAllowFlight`: taking flight away from a flying player also stops
     * the flight; `MayFly` becomes `flight` and the abilities are sent.
     */
    method SetAllowFlight(flight: bool)
      modifies this
      ensures mayFly == flight
      ensures flying == (old(flying) && flight)
      ensures abilityUpdates == old(abilityUpdates) + 1
      ensures permissionLevel == old(permissionLevel) && playerLevel == old(playerLevel)
      ensures gameType == old(gameType) && log == old(log)
    {
      if IsFlying() && !flight {
        flying := false;
      }
      mayFly := flight;
      abilityUpdates := abilityUpdates + 1;
    }

    /**
     * `setFlying`: a player who may not fly gets an error logged and is left
     * alone; otherwise `Flying` becomes `value` and the abilities are sent.
     */
    method SetFlying(value: bool)
      modifies this
      ensures !old(mayFly) ==>
        flying == old(flying) && abilityUpdates == old(abilityUpdates) && log == old(log) + [NotAllowedToFly(name)]
      ensures old(mayFly) ==>
        flying == value && abilityUpdates == old(abilityUpdates) + 1 && log == old(log)
      ensures mayFly == old(mayFly)
      ensures permissionLevel == old(permissionLevel) && playerLevel == old(playerLevel)
      ensures gameType == old(gameType)
    {
      if !AllowFlight() {
        log := log + [NotAllowedToFly(name)];
        return;
      }
      flying := value;
      abilityUpdates := abilityUpdates + 1;
    }

    /**
     * `getGameMode`: the mode named like the handle's game type, so that
     * setting it back restores any of the four named types.
     */
    function GetGameMode(): (m: GameMode)
      reads this
      ensures !gameType.OtherGameType? ==> GameTypeOf(m) == gameType
      ensures gameType.OtherGameType? ==> m == SurvivalMode
    {
      GameModeOf(gameType)
    }

    /** `setGameMode`: afterwards `getGameMode()` returns `mode`. */
    method SetGameMode(mode: GameMode)
      modifies this
      ensures gameType == GameTypeOf(mode)
      ensures GetGameMode() == mode
      ensures permissionLevel == old(permissionLevel) && playerLevel == old(playerLevel)
      ensures mayFly == old(mayFly) && flying == old(flying)
      ensures log == old(log) && abilityUpdates == old(abilityUpdates)
    {
      match mode
      case SurvivalMode => gameType := Survival;
      case CreativeMode => gameType := Creative;
      case AdventureMode => gameType := Adventure;
      case SpectatorMode => gameType := Spectator;
    }
  }
}

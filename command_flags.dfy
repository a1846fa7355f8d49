/**
 * The engine's command permission levels and command flags, as far as the
 * registry and the player use them.
 */
module CommandFlags {
  /** `CommandPermissionLevel`, lowest to highest. */
  datatype CommandPermissionLevel = Any | GameDirectors | Admin | Host | Owner | Internal

  /**
   * One bit of a `CommandFlag`. Only the two bits the player code names are
   * singled out; every other bit is kept by its position.
   */
  datatype CommandFlagBit = HiddenFromPlayer | HiddenFromBlock | OtherFlagBit(position: nat)

  /** A `CommandFlag` value: the set of its bits, so `|` is set union. */
  type CommandFlag = set<CommandFlagBit>

  /** `CommandFlag::HiddenFromPlayer | CommandFlag::HiddenFromBlock`. */
  const Hidden: CommandFlag := {HiddenFromPlayer, HiddenFromBlock}
}

# Endstone command registry, player rules and action forms in Dafny

This project models three small self-contained parts of Endstone, a plugin
host for the Bedrock dedicated server, and proves what they promise:

- **The command registry's grammar symbols.** A symbol is a 32-bit value whose
  bits 20–28 are nine tag bits (`NonTerminalBit` … `ChainedSubcommandValueBit`).
  `toIndex` masks them away with `0xE00FFFFF`. The hard-wired non-terminals
  (`HardNonTerminal`, `Epsilon` … `CodeBuilderSelector`) form one gap-free
  block starting at `NonTerminalBit`. `SemanticConstraint` and
  `CommandParameterOption` are bit masks.
- **The registry's records and `registerOverload`.** The model covers
  `CommandParameterData`, `Overload` and `Signature` with their defaults. A
  `Registry` class models `registerOverload<T>`. For an unknown name it
  returns null and changes nothing. Otherwise it appends the new overload to
  the signature, hands the local copy to `registerOverloadInternal`, and
  returns the stored last element.
- **The `ParseToken` formatter.** An imperative loop over an explicit stack of
  (token, level) pairs. It is proved to print the recursive preorder of the
  token tree: one line per token, `4 * level` spaces, `Symbol: 0x<hex>` and
  `, Data: <text>` only for a token with text. A line parser proves that each
  printed line can be read back: its level, its symbol value and its text.
- **The player's state rules** (`EndstonePlayer`). `isOp`/`setOp`,
  `setExpLevel`, `setAllowFlight`/`setFlying` and `getGameMode`/`setGameMode`
  act on a `Player` class that stands for the engine handle. The in-place loop
  of `updateCommands` hides and demotes every command the player may not use.
  That loop is proved idempotent.
- **The action form builder.** `ActionForm` and `ActionForm::Button` are
  classes whose setters replace fields and return the object itself.
  `addButton` appends one button.

Modules: `Wrappers` (Option), `CommandSymbols`, `HardNonTerminals`,
`CommandFlags` (permission levels and command flags), `CommandRegistration`,
`ParseTokenFormat`, `PlayerState`, `ActionForms`.

Symbols are held as `bv32`. `value()` reads those bits as a two's-complement
`int`. `toIndex()` is the `bv32` mask result: the C++ expression promotes the
`int` to `unsigned` for the unsigned literal `0xE00FFFFF`, so the `size_t`
result has its upper bits zero.

Headers that are not part of this model are `command_flag.h`,
`command_permission_level.h`, `command_version.h`, `message.h`, `form.h`, the
engine's `Player`/`Abilities`, and the plugin `CommandMap`. Where the model
needs their types, it assumes the following:

- `CommandPermissionLevel` has the six named levels, `Any` lowest.
- `CommandFlag` is a set of flag bits, so `|` is set union.
- `CommandVersion` is a (from, to) pair.
- `Message` is a text or a translatable key with parameters. The default
  `Message` is the empty text.
- The engine's `addLevels`, which `giveExpLevels` calls, adds to the stored level.

## Model

| member | source | states |
|---|---|---|
| `CommandSymbols.TagBitsLayout` | src/bedrock/server/commands/command_registry.h:72-194 | the nine tag bits are `NonTerminalBit << k` for k = 0..8, each a single bit, pairwise disjoint, all cleared by `0xE00FFFFF`, and `0xE00FFFFF` is exactly the complement of their union |
| `CommandSymbols.ToIndex` | src/bedrock/server/commands/command_registry.h:181-184 | `toIndex` has no tag bit set, and putting the symbol's tag bits back gives its value |
| `CommandSymbols.ToIndexIgnoresTag` | src/bedrock/server/commands/command_registry.h:181-194 | OR-ing any tag bit into a symbol leaves `toIndex` unchanged and adds exactly that tag |
| `CommandSymbols.ToIndexIdempotent` | src/bedrock/server/commands/command_registry.h:181-184 | `toIndex` of a `toIndex` result is that result; it carries no tag |
| `CommandSymbols.Value` | src/bedrock/server/commands/command_registry.h:176-195 | `value()` is negative exactly when the top bit of the stored 32 bits is set |
| `CommandSymbols.DefaultSymbolIndex` | src/bedrock/server/commands/command_registry.h:170-195 | a default-constructed symbol has value -1, and its index keeps every bit outside the tag field |
| `HardNonTerminals.Code` | src/bedrock/server/commands/command_registry.h:75-168 | the value each enumerator is declared with; a definition without a contract of its own, whose layout the lemmas below prove |
| `HardNonTerminals.FromHardNonTerminal` | src/bedrock/server/commands/command_registry.h:174 | `Symbol(HardNonTerminal)` keeps the enumerator's value; a definition without a contract of its own, see `HardNonTerminalPlaced` |
| `HardNonTerminals.HardNonTerminalValue` | src/bedrock/server/commands/command_registry.h:75-168 | the k-th declared hard non-terminal has value `NonTerminalBit + k` |
| `HardNonTerminals.HardNonTerminalRange` | src/bedrock/server/commands/command_registry.h:75-168 | every hard non-terminal lies in `[NonTerminalBit, NonTerminalBit + 92)` |
| `HardNonTerminals.NonTerminalBlockTags` | src/bedrock/server/commands/command_registry.h:181-187 | any value in `[NonTerminalBit, EnumBit)` has exactly the `NonTerminalBit` tag, and `toIndex` keeps its offset from `NonTerminalBit` |
| `HardNonTerminals.OrdinalRoundTrip` | src/bedrock/server/commands/command_registry.h:75-168 | every declaration position is below 92, and reading the hard non-terminal at that position gives the same enumerator back |
| `HardNonTerminals.AtOrdinalRoundTrip` | src/bedrock/server/commands/command_registry.h:75-168 | each position below 92 holds a hard non-terminal declared at exactly that position |
| `HardNonTerminals.HardNonTerminalPlaced` | src/bedrock/server/commands/command_registry.h:75-187 | a hard non-terminal used as a symbol carries exactly the `NonTerminalBit` tag, and its `toIndex` is its declaration position |
| `HardNonTerminals.HardNonTerminalCodeInjective` | src/bedrock/server/commands/command_registry.h:75-168 | two hard non-terminals have the same value if and only if they are the same enumerator |
| `HardNonTerminals.HardNonTerminalBlockCovered` | src/bedrock/server/commands/command_registry.h:75-168 | the block has no gap: every value `NonTerminalBit + k`, k < 92, belongs to the enumerator at position k |
| `HardNonTerminals.HardNonTerminalEnds` | src/bedrock/server/commands/command_registry.h:72-187 | `Epsilon == NonTerminalBit`, `Int == FirstNonTerminal`, `CodeBuilderSelector == 0x10005b`, and `toIndex(Int) == 1` |
| `CommandRegistration.DataTypeCodeRoundTrip` | src/bedrock/server/commands/command_registry.h:44-50 | the parameter data types are declared with exactly the codes 0..4, one each, and decoding a code gives back its type |
| `CommandRegistration.ParameterOptionBits` | src/bedrock/server/commands/command_registry.h:356-361 | each parameter option other than `None` is a single bit, distinct options are disjoint, and only `None` is 0 |
| `CommandRegistration.SemanticConstraintMask` | src/bedrock/server/commands/command_registry.h:363-370 | `VALUE_MASK` is the OR of the four constraint bits; each constraint is a single bit inside the mask, and distinct constraints are disjoint |
| `CommandRegistration.NewParameterData` | src/bedrock/server/commands/command_registry.h:376-396 | the constructor stores its nine arguments and leaves both symbols at -1 and the options at `None` |
| `CommandRegistration.NewOverload` | src/bedrock/server/commands/command_registry.h:201-211 | a fresh overload has the given version and allocator, no parameters, no parameter symbols, version offset -1 and is not chaining |
| `CommandRegistration.AppendOverload` | src/bedrock/server/commands/command_registry.h:411 | `push_back` adds exactly one overload at the end, keeps the earlier ones, and changes no other field of the signature |
| `CommandRegistration.AppendedBack` | src/bedrock/server/commands/command_registry.h:411-413 | after the append, `&overloads.back()` designates the appended overload |
| `CommandRegistration.Registry.constructor` | src/bedrock/server/commands/command_registry.h:339-341 | a registry built from a signature table and a lookup table holds them, with no internal registration recorded |
| `CommandRegistration.Registry.FindCommand` | src/bedrock/server/commands/command_registry.h:312 | `findCommand` yields a signature present in the registry, and yields null exactly when the name resolves to none |
| `CommandRegistration.Registry.RegisterOverload` | src/bedrock/server/commands/command_registry.h:399-414 | unknown name: null and no change; known name: the overload built from version, command type and params is appended to that signature, the same value is handed to `registerOverloadInternal` (which is taken to change nothing), and the result designates the stored last element |
| `ParseTokenFormat.Preorder` | src/bedrock/server/commands/command_registry.h:231-451 | the preorder has one entry per token reachable through `child`/`next`, and starts with the token itself |
| `ParseTokenFormat.SubtreeBlock` | src/bedrock/server/commands/command_registry.h:445-451 | in the printed order, every token is followed by the rest of its own tree, contiguously and at the levels its own preorder gives |
| `ParseTokenFormat.PreorderLinks` | src/bedrock/server/commands/command_registry.h:446-451 | wherever a token is printed, its child comes right after it one level deeper, and its next sibling comes right after the child's whole tree at the same level |
| `ParseTokenFormat.DepthAtLeast` | src/bedrock/server/commands/command_registry.h:446-451 | no token of a tree printed from level d is printed above level d |
| `ParseTokenFormat.Hex` | src/bedrock/server/commands/command_registry.h:440 | `{:x}` writes at least one digit, all of them lower-case hexadecimal |
| `ParseTokenFormat.HexRoundTrip` | src/bedrock/server/commands/command_registry.h:440 | reading the hexadecimal digits back gives the number, and there is a leading zero only for 0 |
| `ParseTokenFormat.SignedHexRoundTrip` | src/bedrock/server/commands/command_registry.h:440 | `{:x}` of a negative `int` is a minus sign and the magnitude's digits; reading it back gives the value |
| `ParseTokenFormat.SignedHex` | src/bedrock/server/commands/command_registry.h:440 | how `{:x}` prints an `int`; a definition without a contract of its own, see `SignedHexRoundTrip` |
| `ParseTokenFormat.Line` | src/bedrock/server/commands/command_registry.h:435-444 | one token's line: `4 * level` spaces, `Symbol: 0x` and the value, `, Data: ` and the text when there is text, and a newline; a definition without a contract of its own, see `LineRoundTrip` |
| `ParseTokenFormat.LineRoundTrip` | src/bedrock/server/commands/command_registry.h:435-444 | a printed line gives back its level from its `4 * level` spaces, the symbol's value from its digits, and the text, with ", Data: " present exactly when the text is not empty |
| `ParseTokenFormat.PendingStep` | src/bedrock/server/commands/command_registry.h:429-451 | popping a pair and pushing `next`, then `child`, leaves exactly the rest of the popped token's preorder, followed by what was pending |
| `ParseTokenFormat.WriteLine` | src/bedrock/server/commands/command_registry.h:435-444 | the loop body appends exactly one token's line: the spaces one at a time, then the symbol, the text if any and a newline |
| `ParseTokenFormat.Format` | src/bedrock/server/commands/command_registry.h:423-456 | the stack loop prints exactly the lines of the tree's preorder from level 0 |
| `PlayerState.GameModeOf` | src/endstone_core/player.cpp:424-438 | Creative, Adventure and Spectator give the same-named mode, each exactly from that type; Survival comes from Survival and from every other game type |
| `PlayerState.GameTypeOf` | src/endstone_core/player.cpp:440-456 | `setGameMode` hands over one of the four named game types, and Survival exactly for Survival |
| `PlayerState.GameModeRoundTrip` | src/endstone_core/player.cpp:424-456 | `getGameMode` after `setGameMode(m)` is `m`; a game type survives a get/set round trip exactly when it is one of the four named types |
| `PlayerState.SetOpAsWrittenKeepsStatus` | src/endstone_core/player.cpp:159-171 | as written, whenever `setOp(value)` acts, the level it sets has operator status `!value`, the status the player already had |
| `PlayerState.SetOpAsWrittenCounterexample` | src/endstone_core/player.cpp:164-171 | `setOp(true)` on a player at level `Any` leaves the player a non-operator |
| `PlayerState.IsOpLevel` | src/endstone_core/player.cpp:159-162 | operator exactly at `GameDirectors`, `Admin`, `Host`, `Owner` or `Internal` |
| `PlayerState.SetOpLevel` | src/endstone_core/player.cpp:164-171 | the corrected level has operator status equal to `value` |
| `PlayerState.HideIfUnusable` | src/endstone_core/player.cpp:406-414 | a usable command is unchanged; any other keeps its name, description and flags, gains HiddenFromPlayer and HiddenFromBlock, and is demoted to `Internal` |
| `PlayerState.HideUnusable` | src/endstone_core/player.cpp:406-414 | the list keeps its length and order, and each entry is handled as one command alone |
| `PlayerState.HideUnusableIdempotent` | src/endstone_core/player.cpp:406-414 | hiding the unusable commands twice gives the same list as hiding them once |
| `PlayerState.UpdateCommands` | src/endstone_core/player.cpp:400-417 | the in-place loop leaves the array holding exactly the hidden list of its old contents |
| `PlayerState.Player.constructor` | src/endstone_core/player.cpp:40-43 | a player starts with the given level, game type and abilities, an empty log and no abilities sent |
| `PlayerState.Player.IsOp` | src/endstone_core/player.cpp:159-162 | reads the handle's level through `IsOpLevel`; an accessor without a contract of its own, through which `SetOp` states its result |
| `PlayerState.Player.SetOpAsWritten` | src/endstone_core/player.cpp:164-171 | as written: no change when `value == isOp()`, else the level becomes `value ? Any : GameDirectors`; either way `isOp()` is unchanged; nothing else changes |
| `PlayerState.Player.SetOp` | src/endstone_core/player.cpp:164-171 | corrected: no change when `value == isOp()`, else the level becomes `value ? GameDirectors : Any`; afterwards `isOp() == value`; nothing else changes |
| `PlayerState.Player.ExpLevel` | src/endstone_core/player.cpp:280-283 | reads the stored level; an accessor without a contract of its own |
| `PlayerState.Player.GiveExpLevels` | src/endstone_core/player.cpp:259-262 | the level grows by `delta`, nothing else changes |
| `PlayerState.Player.SetExpLevel` | src/endstone_core/player.cpp:280-292 | a negative level is logged and changes nothing; any other level becomes the player's level |
| `PlayerState.Player.AllowFlight` | src/endstone_core/player.cpp:302-305 | reads `MayFly`; an accessor without a contract of its own |
| `PlayerState.Player.IsFlying` | src/endstone_core/player.cpp:317-320 | reads `Flying`; an accessor without a contract of its own |
| `PlayerState.Player.SetAllowFlight` | src/endstone_core/player.cpp:302-315 | `MayFly` becomes `flight`, flying stops exactly when flight is taken away, and the abilities are sent once |
| `PlayerState.Player.SetFlying` | src/endstone_core/player.cpp:317-331 | without `MayFly`, an error is logged and nothing else changes; otherwise `Flying` becomes `value` and the abilities are sent once |
| `PlayerState.Player.GetGameMode` | src/endstone_core/player.cpp:424-438 | the mode named like the handle's game type, so setting it back restores any of the four named types; Survival for every other type |
| `PlayerState.Player.SetGameMode` | src/endstone_core/player.cpp:440-456 | the game type becomes the same-named type, so `getGameMode()` returns the mode; nothing else changes |
| `ActionForms.Button.Empty` | include/endstone/form/action_form.h:34 | a default button has the empty text and no icon |
| `ActionForms.Button.constructor` | include/endstone/form/action_form.h:35-38 | a button holds the given text and icon; the icon defaults to none |
| `ActionForms.Button.GetText` | include/endstone/form/action_form.h:45-48 | reads the text; an accessor without a contract of its own |
| `ActionForms.Button.SetText` | include/endstone/form/action_form.h:45-60 | `getText` afterwards returns `t`, the icon is unchanged, and the button itself is returned |
| `ActionForms.Button.GetIcon` | include/endstone/form/action_form.h:67-70 | reads the icon; an accessor without a contract of its own |
| `ActionForms.Button.SetIcon` | include/endstone/form/action_form.h:67-82 | `getIcon` afterwards returns `Some(s)`, the text is unchanged, and the button itself is returned |
| `ActionForms.ActionForm.constructor` | include/endstone/form/action_form.h:147-148 | a new form has the empty content and no buttons |
| `ActionForms.ActionForm.GetContent` | include/endstone/form/action_form.h:94-97 | reads the content; an accessor without a contract of its own |
| `ActionForms.ActionForm.SetContent` | include/endstone/form/action_form.h:94-109 | `getContent` afterwards returns `t`, the buttons are unchanged, and the form itself is returned |
| `ActionForms.ActionForm.AddButton` | include/endstone/form/action_form.h:118-122 | exactly one button with that text and icon (none by default) is appended at the end; earlier buttons and the content are unchanged; the form itself is returned |
| `ActionForms.ActionForm.GetButtons` | include/endstone/form/action_form.h:129-132 | reads the buttons; an accessor without a contract of its own |
| `ActionForms.ActionForm.SetButtons` | include/endstone/form/action_form.h:129-144 | `getButtons` afterwards returns exactly `bs`, the content is unchanged, and the form itself is returned |
| `ActionForms.ChainedBuild` | include/endstone/form/action_form.h:56-144 | chained setter calls act as sequential updates of the one object they are called on |

## Left out

- `registerOverloadInternal`, `createCommand`, `serializeAvailableCommands`, `addEnumValues`, `registerCommand`, `registerAlias`, the `describe` overloads, `findCommand` and the `Overload(version, alloc)` constructor are only declared in `command_registry.h`; their bodies are in the game binary. The two-argument `describe(signature, overload)` has a body there, but it only forwards to the six-argument overload, so it is left out with it. `findCommand` is a lookup table from name to signature key. A `registerOverloadInternal` call is only recorded with its arguments. The parse-function member pointers and the grammar-state fields (`rules_`, `parse_tables_` and the rest) are not modelled.
- CommandRegistration.NewOverload: the `Overload(version, alloc)` constructor is declared only. The model assumes that it stores its two arguments and leaves every other member at its declared default: empty `params` and `params_symbol`, `version_offset` -1 and `is_chaining` false.
- CommandRegistration.Registry.RegisterOverload: assumes `registerOverloadInternal` changes nothing: no field of the signature it is handed (`overloads`, `first_rule`, `first_factorization`, `first_optional`, `runnable`, `rule_counter` and the rest), no other signature and no other registry state. Its body is not part of this model, and it takes both arguments by non-const reference, so every claim that only the one overload was appended rests on that assumption. The model also does not let any later change the internal call makes to its local copy reach the stored element, which is what the source does.
- CommandRegistration.AppendedBack: a reference is modelled as an index into the signature's overloads. An index never dangles, whereas the `const Overload *` that `registerOverload` returns is invalidated when a later `push_back` onto the same signature reallocates the vector. The model does not capture that invalidation, so it promises nothing about earlier references after an append.
- The truncating `Symbol(size_t)` constructor is not modelled. Symbols are built directly from 32-bit values.
- CommandSymbols.Value: states only the sign of the two's-complement reading, not the full value. The full conversion between `int` and 32-bit vectors is too costly for the solver.
- `ParseToken` drops the `parent` back-pointer, which the formatter never reads. The `text`/`length` pair is the string of those characters.
- The formatter's stack holds tokens rather than pointers. The source's `if (node)` guard therefore always passes, because only non-null tokens are pushed. The output iterator is a string.
- `updateCommands` obtains the list from `serializeAvailableCommands` and sends it with `sendNetworkPacket`. Both are left out; the model covers only the loop. The command-map test (`getCommand`, `isRegistered`, `testPermissionSilently`) is a per-name table entry.
- PlayerState.Player.SetExpLevel: does not model the 32-bit arithmetic of `level - getExpLevel()`. It also relies on the engine's `addLevels` being additive, and the engine's body is not part of this model.
- The logger's message text is reduced to a `LogEntry` value. `updateAbilities` becomes a counter of sends.
- Everything else in `player.cpp` is foreign calls or floating point: network, packets, skins, experience progress and speeds.
- Reading a whole rendering back is not modelled. Token text is user input and may contain a newline, so two different token trees can print the same text; only single lines are proved readable.
- The form's title, inherited from `Form`, is not modelled.
- Engine hooks, the async task, declaration-only headers and the Python re-export module contain no state rules of their own.

## Findings

| source | as written | input that shows it | evidently intended | confidence | as-written member | corrected member |
|---|---|---|---|---|---|---|
| src/endstone_core/player.cpp:164-171 | `setPermissions(value ? CommandPermissionLevel::Any : CommandPermissionLevel::GameDirectors)` after returning early when `value == isOp()` | `setOp(true)` on a player at level `Any`: the level is set to `Any` again and `isOp()` stays false. `setOp(false)` on an operator sets `GameDirectors`, still an operator | `value ? GameDirectors : Any`, so that `isOp() == value` afterwards | high; not executed | `PlayerState.SetOpAsWrittenCounterexample` | `PlayerState.SetOpLevel` |

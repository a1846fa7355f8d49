/**
 * The registry's parameter and overload records and `registerOverload`, the
 * one registry operation whose body is part of this model.
 */
module CommandRegistration {
  import opened Wrappers
  import opened CommandSymbols
  import opened CommandFlags

  /** `CommandParameterDataType`. */
  datatype CommandParameterDataType = Basic | Enum | SoftEnum | Postfix | ChainedSubcommand

  /** The integer each parameter data type is declared with. */
  function DataTypeCode(t: CommandParameterDataType): int
  {
    match t
    case Basic => 0
    case Enum => 1
    case SoftEnum => 2
    case Postfix => 3
    case ChainedSubcommand => 4
  }

  /** The parameter data type declared with integer `c`, if any. */
  function DataTypeOfCode(c: int): Option<CommandParameterDataType>
  {
    if c == 0 then Some(Basic)
    else if c == 1 then Some(Enum)
    else if c == 2 then Some(SoftEnum)
    else if c == 3 then Some(Postfix)
    else if c == 4 then Some(ChainedSubcommand)
    else None
  }

  /** The declared codes are exactly 0 .. 4, one per data type. */
  lemma DataTypeCodeRoundTrip(t: CommandParameterDataType, c: int)
    ensures DataTypeOfCode(DataTypeCode(t)) == Some(t)
    ensures DataTypeOfCode(c).Some? <==> 0 <= c <= 4
    ensures DataTypeOfCode(c).Some? ==> DataTypeCode(DataTypeOfCode(c).value) == c
  {
  }

  /** `CommandParameterOption`, whose values combine as an 8-bit flag set. */
  datatype CommandParameterOption =
    | OptionNone
    | EnumAutocompleteExpansion
    | HasSemanticConstraint
    | EnumAsChainedCommand

  /** The bits each parameter option is declared with. */
  function OptionBits(o: CommandParameterOption): bv8
  {
    match o
    case OptionNone => 0
    case EnumAutocompleteExpansion => 1
    case HasSemanticConstraint => 2
    case EnumAsChainedCommand => 4
  }

  /**
   * Each option other than `None` is a single bit, and distinct options have
   * disjoint bits, so any combination of them can be taken apart again.
   */
  lemma ParameterOptionBits(o: CommandParameterOption, p: CommandParameterOption)
    ensures o != OptionNone ==> OptionBits(o) != 0 && OptionBits(o) & (OptionBits(o) - 1) == 0
    ensures o != p ==> OptionBits(o) & OptionBits(p) == 0
    ensures OptionBits(o) == 0 <==> o == OptionNone
  {
  }

  /** `SemanticConstraint`. */
  datatype SemanticConstraint =
    | NoConstraint
    | RequiresCheatsEnabled
    | RequiresElevatedPermissions
    | RequiresHostPermissions
    | RequiresAllowAliases
    | ValueMask

  /** The bits each semantic constraint is declared with. */
  function ConstraintBits(c: SemanticConstraint): bv32
  {
    match c
    case NoConstraint => 0
    case RequiresCheatsEnabled => 1
    case RequiresElevatedPermissions => 2
    case RequiresHostPermissions => 4
    case RequiresAllowAliases => 8
    case ValueMask => 15
  }

  /** The four constraints a value may carry: everything but `None` and the mask. */
  predicate IsConstraintFlag(c: SemanticConstraint)
  {
    c != NoConstraint && c != ValueMask
  }

  /**
   * `VALUE_MASK` is the union of the four constraint bits, each of which is a
   * single bit, and distinct constraints have disjoint bits.
   */
  lemma SemanticConstraintMask(c: SemanticConstraint, d: SemanticConstraint)
    ensures ConstraintBits(ValueMask)
      == ConstraintBits(RequiresCheatsEnabled) | ConstraintBits(RequiresElevatedPermissions)
       | ConstraintBits(RequiresHostPermissions) | ConstraintBits(RequiresAllowAliases)
    ensures IsConstraintFlag(c) ==> SingleBit(ConstraintBits(c))
    ensures IsConstraintFlag(c) ==> ConstraintBits(c) & ConstraintBits(ValueMask) == ConstraintBits(c)
    ensures IsConstraintFlag(c) && IsConstraintFlag(d) && c != d ==> ConstraintBits(c) & ConstraintBits(d) == 0
  {
  }

  /** `Bedrock::typeid_t<CommandRegistry>`: an opaque type number. */
  datatype TypeId = TypeId(id: nat)

  /** A `ParseFunction` member pointer, identified only by name. */
  datatype ParseFunction = ParseFunction(id: string)

  /** `CommandParameterData`; a null `const char *` is `None`. */
  datatype CommandParameterData = CommandParameterData(
    typeIndex: TypeId,
    parse: ParseFunction,
    name: string,
    enumNameOrPostfix: Option<string>,
    enumOrPostfixSymbol: int,
    chainedSubcommand: Option<string>,
    chainedSubcommandSymbol: int,
    paramType: CommandParameterDataType,
    offset: int,
    setOffset: int,
    isOptional: bool,
    options: bv8)

  /**
   * The `CommandParameterData` constructor: it stores its arguments and
   * leaves both symbols at -1 and the options at `None`.
   */
  function NewParameterData(typeIndex: TypeId, parse: ParseFunction, name: string,
                            paramType: CommandParameterDataType, enumNameOrPostfix: Option<string>,
                            chainedSubcommand: Option<string>, offset: int, isOptional: bool,
                            setOffset: int): (d: CommandParameterData)
    ensures d.enumOrPostfixSymbol == -1 && d.chainedSubcommandSymbol == -1
    ensures d.options == OptionBits(OptionNone)
    ensures d.typeIndex == typeIndex && d.parse == parse && d.name == name && d.paramType == paramType
    ensures d.enumNameOrPostfix == enumNameOrPostfix && d.chainedSubcommand == chainedSubcommand
    ensures d.offset == offset && d.setOffset == setOffset && d.isOptional == isOptional
  {
    CommandParameterData(typeIndex, parse, name, enumNameOrPostfix, -1, chainedSubcommand, -1,
                         paramType, offset, setOffset, isOptional, OptionBits(OptionNone))
  }

  /** `CommandVersion`: the range of protocol versions an overload applies to. */
  datatype CommandVersion = CommandVersion(from: int, to: int)

  /** `AllocFunction`: `allocateCommand<CommandType>`, identified by the command type. */
  datatype AllocFunction = AllocateCommand(commandType: string)

  /** `CommandRegistry::Overload`. */
  datatype Overload = Overload(
    version: CommandVersion,
    alloc: AllocFunction,
    params: seq<CommandParameterData>,
    versionOffset: int,
    isChaining: bool,
    paramsSymbol: seq<Symbol>)

  /**
   * `Overload(version, alloc)`: no parameters yet, version offset -1, not
   * chaining, no parameter symbols.
   */
  function NewOverload(version: CommandVersion, alloc: AllocFunction): (o: Overload)
    ensures o.version == version && o.alloc == alloc
    ensures o.params == [] && o.paramsSymbol == []
    ensures o.versionOffset == -1 && !o.isChaining
  {
    Overload(version, alloc, [], -1, false, [])
  }

  /** `CommandRegistry::Signature`. */
  datatype Signature = Signature(
    name: string,
    description: string,
    overloads: seq<Overload>,
    chainedSubcommandIndexes: seq<nat>,
    permissionLevel: CommandPermissionLevel,
    commandSymbol: Symbol,
    commandAliasEnum: Symbol,
    flags: CommandFlag,
    firstRule: int,
    firstFactorization: int,
    firstOptional: int,
    runnable: bool,
    hasChainedSubcommands: bool,
    finalizedChainedSubcommands: bool,
    ruleCounter: int)

  /**
   * `signature.overloads.push_back(o)`: one more overload, the earlier ones
   * untouched, `o` last, and every other field of the signature unchanged.
   */
  function AppendOverload(s: Signature, o: Overload): (t: Signature)
    ensures |t.overloads| == |s.overloads| + 1
    ensures t.overloads[..|s.overloads|] == s.overloads
    ensures t.overloads[|s.overloads|] == o
    ensures t.(overloads := s.overloads) == s
  {
    s.(overloads := s.overloads + [o])
  }

  /**
   * What a `const Overload *` returned by `registerOverload` points at: the
   * overload at `index` in the signature stored under `key`. An index does
   * not dangle when the vector grows, so this stands for the pointer only
   * until the next `push_back` onto the same signature.
   */
  datatype OverloadRef = OverloadRef(key: string, index: nat)

  /** The overload a reference designates in `signatures`, if it designates one. */
  function Deref(signatures: map<string, Signature>, r: OverloadRef): Option<Overload>
  {
    if r.key in signatures && r.index < |signatures[r.key].overloads|
    then Some(signatures[r.key].overloads[r.index])
    else None
  }

  /**
   * After an append, the reference to the new last element of that
   * signature designates the appended overload: `&overloads.back()`.
   */
  lemma AppendedBack(signatures: map<string, Signature>, key: string, o: Overload)
    requires key in signatures
    ensures Deref(signatures[key := AppendOverload(signatures[key], o)],
                  OverloadRef(key, |signatures[key].overloads|)) == Some(o)
  {
  }

  /**
   * The part of `CommandRegistry` that `registerOverload` touches.
   *
   * `findCommand` (whose body is not part of this model) is represented by
   * the table `lookup`, which sends a name to the key of its signature in
   * `signatures`. Each call of `registerOverloadInternal` (also not part of
   * this model) is recorded in `internalCalls` with the signature key and the
   * overload it was handed.
   */
  class Registry {
    var signatures: map<string, Signature>
    var lookup: map<string, string>
    var internalCalls: seq<(string, Overload)>

    constructor (signatures: map<string, Signature>, lookup: map<string, string>)
      ensures this.signatures == signatures && this.lookup == lookup && internalCalls == []
    {
      this.signatures := signatures;
      this.lookup := lookup;
      internalCalls := [];
    }

    /** `findCommand(name)`: the key of the signature it yields, or `None` for null. */
    function FindCommand(name: string): (k: Option<string>)
      reads this
      ensures k.Some? ==> k.value in signatures
      ensures k.None? <==> !(name in lookup && lookup[name] in signatures)
    {
      if name in lookup && lookup[name] in signatures then Some(lookup[name]) else None
    }

    /**
     * `registerOverload<CommandType>(name, version, params)`.
     *
     * For a name `findCommand` does not know, it returns null and changes
     * nothing. Otherwise the overload built from `version`, the command type
     * and `params` is appended to that signature (nothing else changes), the
     * local copy is handed to `registerOverloadInternal`, and the result
     * designates the stored last element.
     */
    method RegisterOverload(name: string, commandType: string, version: CommandVersion,
                            params: seq<CommandParameterData>) returns (r: Option<OverloadRef>)
      modifies this
      ensures lookup == old(lookup)
      ensures old(FindCommand(name)).None? ==>
        r.None? && signatures == old(signatures) && internalCalls == old(internalCalls)
      ensures old(FindCommand(name)).Some? ==>
        var key := old(FindCommand(name)).value;
        var o := NewOverload(version, AllocateCommand(commandType)).(params := params);
        && signatures == old(signatures)[key := AppendOverload(old(signatures)[key], o)]
        && internalCalls == old(internalCalls) + [(key, o)]
        && r == Some(OverloadRef(key, |old(signatures)[key].overloads|))
        && Deref(signatures, r.value) == Some(o)
    {
      var found := FindCommand(name);
      if found.None? {
        return None;
      }
      var key := found.value;
      var overload := NewOverload(version, AllocateCommand(commandType));
      overload := overload.(params := params);
      var signature := signatures[key];
      signatures := signatures[key := AppendOverload(signature, overload)];
      internalCalls := internalCalls + [(key, overload)];
      r := Some(OverloadRef(key, |signature.overloads|));
      AppendedBack(old(signatures), key, overload);
    }
  }
}

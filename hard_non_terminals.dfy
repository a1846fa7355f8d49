/**
 * The registry's hard-wired non-terminals (`HardNonTerminal`): one block of
 * consecutive symbol values starting at `NonTerminalBit`.
 */
module HardNonTerminals {
  import opened CommandSymbols

  /** The hard-wired non-terminals, in declaration order. */
  datatype HardNonTerminal =
      Epsilon | Int | Float | Val | RVal | WildcardInt
    | Operator | CompareOperator | Selection | StandaloneSelection | WildcardSelection | NonIdSelector
    | ScoresArg | ScoresArgs | ScoreSelectParam | ScoreSelector | TagSelector | FilePath
    | FilePathVal | FilePathCont | IntegerRangeVal | IntegerRangePostVal | IntegerRange | FullIntegerRange
    | RationalRangeVal | RationalRangePostVal | RationalRange | FullRationalRange | SelArgs | Args
    | Arg | MArg | MValue | NameArg | TypeArg | FamilyArg
    | HasPermissionArg | HasPermissionArgs | HasPermissionSelector | HasPermissionElement | HasPermissionElements | TagArg
    | HasItemElement | HasItemElements | HasItemArg | HasItemArgs | HasItemSelector | EquipmentSlotEnum
    | PropertyValue | HasPropertyParamValue | HasPropertyParamEnumValue | HasPropertyArg | HasPropertyArgs | HasPropertyElement
    | HasPropertyElements | HasPropertySelector | Id | IdCont | CoordXInt | CoordYInt
    | CoordZInt | CoordXFloat | CoordYFloat | CoordZFloat | Position | PositionFloat
    | MessageExp | Message | MessageRoot | PostSelector | RawText | RawTextCont
    | JsonValue | JsonField | JsonObject | JsonObjectFields | JsonObjectCont | JsonArray
    | JsonArrayValues | JsonArrayCont | BlockState | BlockStateKey | BlockStateValue | BlockStateValues
    | BlockStateArray | BlockStateArrayCont | Command | SlashCommand | CodeBuilderArg | CodeBuilderArgs
    | CodeBuilderSelectParam | CodeBuilderSelector

  /** The value each hard non-terminal is declared with. */
  function Code(h: HardNonTerminal): bv32
  {
    match h
    case Epsilon => 0x100000
    case Int => 0x100001
    case Float => 0x100002
    case Val => 0x100003
    case RVal => 0x100004
    case WildcardInt => 0x100005
    case Operator => 0x100006
    case CompareOperator => 0x100007
    case Selection => 0x100008
    case StandaloneSelection => 0x100009
    case WildcardSelection => 0x10000a
    case NonIdSelector => 0x10000b
    case ScoresArg => 0x10000c
    case ScoresArgs => 0x10000d
    case ScoreSelectParam => 0x10000e
    case ScoreSelector => 0x10000f
    case TagSelector => 0x100010
    case FilePath => 0x100011
    case FilePathVal => 0x100012
    case FilePathCont => 0x100013
    case IntegerRangeVal => 0x100014
    case IntegerRangePostVal => 0x100015
    case IntegerRange => 0x100016
    case FullIntegerRange => 0x100017
    case RationalRangeVal => 0x100018
    case RationalRangePostVal => 0x100019
    case RationalRange => 0x10001a
    case FullRationalRange => 0x10001b
    case SelArgs => 0x10001c
    case Args => 0x10001d
    case Arg => 0x10001e
    case MArg => 0x10001f
    case MValue => 0x100020
    case NameArg => 0x100021
    case TypeArg => 0x100022
    case FamilyArg => 0x100023
    case HasPermissionArg => 0x100024
    case HasPermissionArgs => 0x100025
    case HasPermissionSelector => 0x100026
    case HasPermissionElement => 0x100027
    case HasPermissionElements => 0x100028
    case TagArg => 0x100029
    case HasItemElement => 0x10002a
    case HasItemElements => 0x10002b
    case HasItemArg => 0x10002c
    case HasItemArgs => 0x10002d
    case HasItemSelector => 0x10002e
    case EquipmentSlotEnum => 0x10002f
    case PropertyValue => 0x100030
    case HasPropertyParamValue => 0x100031
    case HasPropertyParamEnumValue => 0x100032
    case HasPropertyArg => 0x100033
    case HasPropertyArgs => 0x100034
    case HasPropertyElement => 0x100035
    case HasPropertyElements => 0x100036
    case HasPropertySelector => 0x100037
    case Id => 0x100038
    case IdCont => 0x100039
    case CoordXInt => 0x10003a
    case CoordYInt => 0x10003b
    case CoordZInt => 0x10003c
    case CoordXFloat => 0x10003d
    case CoordYFloat => 0x10003e
    case CoordZFloat => 0x10003f
    case Position => 0x100040
    case PositionFloat => 0x100041
    case MessageExp => 0x100042
    case Message => 0x100043
    case MessageRoot => 0x100044
    case PostSelector => 0x100045
    case RawText => 0x100046
    case RawTextCont => 0x100047
    case JsonValue => 0x100048
    case JsonField => 0x100049
    case JsonObject => 0x10004a
    case JsonObjectFields => 0x10004b
    case JsonObjectCont => 0x10004c
    case JsonArray => 0x10004d
    case JsonArrayValues => 0x10004e
    case JsonArrayCont => 0x10004f
    case BlockState => 0x100050
    case BlockStateKey => 0x100051
    case BlockStateValue => 0x100052
    case BlockStateValues => 0x100053
    case BlockStateArray => 0x100054
    case BlockStateArrayCont => 0x100055
    case Command => 0x100056
    case SlashCommand => 0x100057
    case CodeBuilderArg => 0x100058
    case CodeBuilderArgs => 0x100059
    case CodeBuilderSelectParam => 0x10005a
    case CodeBuilderSelector => 0x10005b
  }

  /** The position of each hard non-terminal in the declaration, from 0. */
  function Ordinal(h: HardNonTerminal): nat
  {
    match h
    case Epsilon => 0
    case Int => 1
    case Float => 2
    case Val => 3
    case RVal => 4
    case WildcardInt => 5
    case Operator => 6
    case CompareOperator => 7
    case Selection => 8
    case StandaloneSelection => 9
    case WildcardSelection => 10
    case NonIdSelector => 11
    case ScoresArg => 12
    case ScoresArgs => 13
    case ScoreSelectParam => 14
    case ScoreSelector => 15
    case TagSelector => 16
    case FilePath => 17
    case FilePathVal => 18
    case FilePathCont => 19
    case IntegerRangeVal => 20
    case IntegerRangePostVal => 21
    case IntegerRange => 22
    case FullIntegerRange => 23
    case RationalRangeVal => 24
    case RationalRangePostVal => 25
    case RationalRange => 26
    case FullRationalRange => 27
    case SelArgs => 28
    case Args => 29
    case Arg => 30
    case MArg => 31
    case MValue => 32
    case NameArg => 33
    case TypeArg => 34
    case FamilyArg => 35
    case HasPermissionArg => 36
    case HasPermissionArgs => 37
    case HasPermissionSelector => 38
    case HasPermissionElement => 39
    case HasPermissionElements => 40
    case TagArg => 41
    case HasItemElement => 42
    case HasItemElements => 43
    case HasItemArg => 44
    case HasItemArgs => 45
    case HasItemSelector => 46
    case EquipmentSlotEnum => 47
    case PropertyValue => 48
    case HasPropertyParamValue => 49
    case HasPropertyParamEnumValue => 50
    case HasPropertyArg => 51
    case HasPropertyArgs => 52
    case HasPropertyElement => 53
    case HasPropertyElements => 54
    case HasPropertySelector => 55
    case Id => 56
    case IdCont => 57
    case CoordXInt => 58
    case CoordYInt => 59
    case CoordZInt => 60
    case CoordXFloat => 61
    case CoordYFloat => 62
    case CoordZFloat => 63
    case Position => 64
    case PositionFloat => 65
    case MessageExp => 66
    case Message => 67
    case MessageRoot => 68
    case PostSelector => 69
    case RawText => 70
    case RawTextCont => 71
    case JsonValue => 72
    case JsonField => 73
    case JsonObject => 74
    case JsonObjectFields => 75
    case JsonObjectCont => 76
    case JsonArray => 77
    case JsonArrayValues => 78
    case JsonArrayCont => 79
    case BlockState => 80
    case BlockStateKey => 81
    case BlockStateValue => 82
    case BlockStateValues => 83
    case BlockStateArray => 84
    case BlockStateArrayCont => 85
    case Command => 86
    case SlashCommand => 87
    case CodeBuilderArg => 88
    case CodeBuilderArgs => 89
    case CodeBuilderSelectParam => 90
    case CodeBuilderSelector => 91
  }

  /**
   * The hard non-terminal declared at position `k`. The positions are
   * split in halves, level by level, so that the solver unfolds only a few
   * comparisons for any one position instead of a chain of 92.
   */
  function AtOrdinal(k: nat): HardNonTerminal
    requires k < 92
  {
    if k < 46 then
      if k < 23 then
        if k < 11 then
          if k < 5 then
            if k < 2 then
              if k < 1 then
                Epsilon
              else
                Int
            else
              if k < 3 then
                Float
              else
                if k < 4 then
                  Val
                else
                  RVal
          else
            if k < 8 then
              if k < 6 then
                WildcardInt
              else
                if k < 7 then
                  Operator
                else
                  CompareOperator
            else
              if k < 9 then
                Selection
              else
                if k < 10 then
                  StandaloneSelection
                else
                  WildcardSelection
        else
          if k < 17 then
            if k < 14 then
              if k < 12 then
                NonIdSelector
              else
                if k < 13 then
                  ScoresArg
                else
                  ScoresArgs
            else
              if k < 15 then
                ScoreSelectParam
              else
                if k < 16 then
                  ScoreSelector
                else
                  TagSelector
          else
            if k < 20 then
              if k < 18 then
                FilePath
              else
                if k < 19 then
                  FilePathVal
                else
                  FilePathCont
            else
              if k < 21 then
                IntegerRangeVal
              else
                if k < 22 then
                  IntegerRangePostVal
                else
                  IntegerRange
      else
        if k < 34 then
          if k < 28 then
            if k < 25 then
              if k < 24 then
                FullIntegerRange
              else
                RationalRangeVal
            else
              if k < 26 then
                RationalRangePostVal
              else
                if k < 27 then
                  RationalRange
                else
                  FullRationalRange
          else
            if k < 31 then
              if k < 29 then
                SelArgs
              else
                if k < 30 then
                  Args
                else
                  Arg
            else
              if k < 32 then
                MArg
              else
                if k < 33 then
                  MValue
                else
                  NameArg
        else
          if k < 40 then
            if k < 37 then
              if k < 35 then
                TypeArg
              else
                if k < 36 then
                  FamilyArg
                else
                  HasPermissionArg
            else
              if k < 38 then
                HasPermissionArgs
              else
                if k < 39 then
                  HasPermissionSelector
                else
                  HasPermissionElement
          else
            if k < 43 then
              if k < 41 then
                HasPermissionElements
              else
                if k < 42 then
                  TagArg
                else
                  HasItemElement
            else
              if k < 44 then
                HasItemElements
              else
                if k < 45 then
                  HasItemArg
                else
                  HasItemArgs
    else
      if k < 69 then
        if k < 57 then
          if k < 51 then
            if k < 48 then
              if k < 47 then
                HasItemSelector
              else
                EquipmentSlotEnum
            else
              if k < 49 then
                PropertyValue
              else
                if k < 50 then
                  HasPropertyParamValue
                else
                  HasPropertyParamEnumValue
          else
            if k < 54 then
              if k < 52 then
                HasPropertyArg
              else
                if k < 53 then
                  HasPropertyArgs
                else
                  HasPropertyElement
            else
              if k < 55 then
                HasPropertyElements
              else
                if k < 56 then
                  HasPropertySelector
                else
                  Id
        else
          if k < 63 then
            if k < 60 then
              if k < 58 then
                IdCont
              else
                if k < 59 then
                  CoordXInt
                else
                  CoordYInt
            else
              if k < 61 then
                CoordZInt
              else
                if k < 62 then
                  CoordXFloat
                else
                  CoordYFloat
          else
            if k < 66 then
              if k < 64 then
                CoordZFloat
              else
                if k < 65 then
                  Position
                else
                  PositionFloat
            else
              if k < 67 then
                MessageExp
              else
                if k < 68 then
                  Message
                else
                  MessageRoot
      else
        if k < 80 then
          if k < 74 then
            if k < 71 then
              if k < 70 then
                PostSelector
              else
                RawText
            else
              if k < 72 then
                RawTextCont
              else
                if k < 73 then
                  JsonValue
                else
                  JsonField
          else
            if k < 77 then
              if k < 75 then
                JsonObject
              else
                if k < 76 then
                  JsonObjectFields
                else
                  JsonObjectCont
            else
              if k < 78 then
                JsonArray
              else
                if k < 79 then
                  JsonArrayValues
                else
                  JsonArrayCont
        else
          if k < 86 then
            if k < 83 then
              if k < 81 then
                BlockState
              else
                if k < 82 then
                  BlockStateKey
                else
                  BlockStateValue
            else
              if k < 84 then
                BlockStateValues
              else
                if k < 85 then
                  BlockStateArray
                else
                  BlockStateArrayCont
          else
            if k < 89 then
              if k < 87 then
                Command
              else
                if k < 88 then
                  SlashCommand
                else
                  CodeBuilderArg
            else
              if k < 90 then
                CodeBuilderArgs
              else
                if k < 91 then
                  CodeBuilderSelectParam
                else
                  CodeBuilderSelector
  }

  /** `Symbol(HardNonTerminal)`: the symbol whose value is the enumerator's. */
  function FromHardNonTerminal(h: HardNonTerminal): Symbol
  {
    Symbol(Code(h))
  }

  /** The k-th declared hard non-terminal has value `NonTerminalBit + k`. */
  lemma HardNonTerminalValue(h: HardNonTerminal)
    ensures Code(h) as int == NonTerminalBit as int + Ordinal(h)
  {
    match h
    case Epsilon =>
    case Int =>
    case Float =>
    case Val =>
    case RVal =>
    case WildcardInt =>
    case Operator =>
    case CompareOperator =>
    case Selection =>
    case StandaloneSelection =>
    case WildcardSelection =>
    case NonIdSelector =>
    case ScoresArg =>
    case ScoresArgs =>
    case ScoreSelectParam =>
    case ScoreSelector =>
    case TagSelector =>
    case FilePath =>
    case FilePathVal =>
    case FilePathCont =>
    case IntegerRangeVal =>
    case IntegerRangePostVal =>
    case IntegerRange =>
    case FullIntegerRange =>
    case RationalRangeVal =>
    case RationalRangePostVal =>
    case RationalRange =>
    case FullRationalRange =>
    case SelArgs =>
    case Args =>
    case Arg =>
    case MArg =>
    case MValue =>
    case NameArg =>
    case TypeArg =>
    case FamilyArg =>
    case HasPermissionArg =>
    case HasPermissionArgs =>
    case HasPermissionSelector =>
    case HasPermissionElement =>
    case HasPermissionElements =>
    case TagArg =>
    case HasItemElement =>
    case HasItemElements =>
    case HasItemArg =>
    case HasItemArgs =>
    case HasItemSelector =>
    case EquipmentSlotEnum =>
    case PropertyValue =>
    case HasPropertyParamValue =>
    case HasPropertyParamEnumValue =>
    case HasPropertyArg =>
    case HasPropertyArgs =>
    case HasPropertyElement =>
    case HasPropertyElements =>
    case HasPropertySelector =>
    case Id =>
    case IdCont =>
    case CoordXInt =>
    case CoordYInt =>
    case CoordZInt =>
    case CoordXFloat =>
    case CoordYFloat =>
    case CoordZFloat =>
    case Position =>
    case PositionFloat =>
    case MessageExp =>
    case Message =>
    case MessageRoot =>
    case PostSelector =>
    case RawText =>
    case RawTextCont =>
    case JsonValue =>
    case JsonField =>
    case JsonObject =>
    case JsonObjectFields =>
    case JsonObjectCont =>
    case JsonArray =>
    case JsonArrayValues =>
    case JsonArrayCont =>
    case BlockState =>
    case BlockStateKey =>
    case BlockStateValue =>
    case BlockStateValues =>
    case BlockStateArray =>
    case BlockStateArrayCont =>
    case Command =>
    case SlashCommand =>
    case CodeBuilderArg =>
    case CodeBuilderArgs =>
    case CodeBuilderSelectParam =>
    case CodeBuilderSelector =>
  }

  /** Every hard non-terminal lies in `[NonTerminalBit, NonTerminalBit + 92)`. */
  lemma HardNonTerminalRange(h: HardNonTerminal)
    ensures NonTerminalBit <= Code(h) < NonTerminalBit + 92
  {
    match h
    case Epsilon =>
    case Int =>
    case Float =>
    case Val =>
    case RVal =>
    case WildcardInt =>
    case Operator =>
    case CompareOperator =>
    case Selection =>
    case StandaloneSelection =>
    case WildcardSelection =>
    case NonIdSelector =>
    case ScoresArg =>
    case ScoresArgs =>
    case ScoreSelectParam =>
    case ScoreSelector =>
    case TagSelector =>
    case FilePath =>
    case FilePathVal =>
    case FilePathCont =>
    case IntegerRangeVal =>
    case IntegerRangePostVal =>
    case IntegerRange =>
    case FullIntegerRange =>
    case RationalRangeVal =>
    case RationalRangePostVal =>
    case RationalRange =>
    case FullRationalRange =>
    case SelArgs =>
    case Args =>
    case Arg =>
    case MArg =>
    case MValue =>
    case NameArg =>
    case TypeArg =>
    case FamilyArg =>
    case HasPermissionArg =>
    case HasPermissionArgs =>
    case HasPermissionSelector =>
    case HasPermissionElement =>
    case HasPermissionElements =>
    case TagArg =>
    case HasItemElement =>
    case HasItemElements =>
    case HasItemArg =>
    case HasItemArgs =>
    case HasItemSelector =>
    case EquipmentSlotEnum =>
    case PropertyValue =>
    case HasPropertyParamValue =>
    case HasPropertyParamEnumValue =>
    case HasPropertyArg =>
    case HasPropertyArgs =>
    case HasPropertyElement =>
    case HasPropertyElements =>
    case HasPropertySelector =>
    case Id =>
    case IdCont =>
    case CoordXInt =>
    case CoordYInt =>
    case CoordZInt =>
    case CoordXFloat =>
    case CoordYFloat =>
    case CoordZFloat =>
    case Position =>
    case PositionFloat =>
    case MessageExp =>
    case Message =>
    case MessageRoot =>
    case PostSelector =>
    case RawText =>
    case RawTextCont =>
    case JsonValue =>
    case JsonField =>
    case JsonObject =>
    case JsonObjectFields =>
    case JsonObjectCont =>
    case JsonArray =>
    case JsonArrayValues =>
    case JsonArrayCont =>
    case BlockState =>
    case BlockStateKey =>
    case BlockStateValue =>
    case BlockStateValues =>
    case BlockStateArray =>
    case BlockStateArrayCont =>
    case Command =>
    case SlashCommand =>
    case CodeBuilderArg =>
    case CodeBuilderArgs =>
    case CodeBuilderSelectParam =>
    case CodeBuilderSelector =>
  }

  /**
   * A value in `[NonTerminalBit, EnumBit)` carries exactly the
   * `NonTerminalBit` tag, and `toIndex` keeps its offset from
   * `NonTerminalBit`.
   */
  lemma NonTerminalBlockTags(x: bv32)
    requires NonTerminalBit <= x < EnumBit
    ensures Tags(Symbol(x)) == NonTerminalBit
    ensures ToIndex(Symbol(x)) == x - NonTerminalBit
  {
  }

  /**
   * Positions and hard non-terminals are in one-to-one correspondence:
   * every position is below 92 and `AtOrdinal` undoes `Ordinal`.
   */
  lemma OrdinalRoundTrip(h: HardNonTerminal)
    ensures Ordinal(h) < 92 && AtOrdinal(Ordinal(h)) == h
  {
    match h
    case Epsilon =>
    case Int =>
    case Float =>
    case Val =>
    case RVal =>
    case WildcardInt =>
    case Operator =>
    case CompareOperator =>
    case Selection =>
    case StandaloneSelection =>
    case WildcardSelection =>
    case NonIdSelector =>
    case ScoresArg =>
    case ScoresArgs =>
    case ScoreSelectParam =>
    case ScoreSelector =>
    case TagSelector =>
    case FilePath =>
    case FilePathVal =>
    case FilePathCont =>
    case IntegerRangeVal =>
    case IntegerRangePostVal =>
    case IntegerRange =>
    case FullIntegerRange =>
    case RationalRangeVal =>
    case RationalRangePostVal =>
    case RationalRange =>
    case FullRationalRange =>
    case SelArgs =>
    case Args =>
    case Arg =>
    case MArg =>
    case MValue =>
    case NameArg =>
    case TypeArg =>
    case FamilyArg =>
    case HasPermissionArg =>
    case HasPermissionArgs =>
    case HasPermissionSelector =>
    case HasPermissionElement =>
    case HasPermissionElements =>
    case TagArg =>
    case HasItemElement =>
    case HasItemElements =>
    case HasItemArg =>
    case HasItemArgs =>
    case HasItemSelector =>
    case EquipmentSlotEnum =>
    case PropertyValue =>
    case HasPropertyParamValue =>
    case HasPropertyParamEnumValue =>
    case HasPropertyArg =>
    case HasPropertyArgs =>
    case HasPropertyElement =>
    case HasPropertyElements =>
    case HasPropertySelector =>
    case Id =>
    case IdCont =>
    case CoordXInt =>
    case CoordYInt =>
    case CoordZInt =>
    case CoordXFloat =>
    case CoordYFloat =>
    case CoordZFloat =>
    case Position =>
    case PositionFloat =>
    case MessageExp =>
    case Message =>
    case MessageRoot =>
    case PostSelector =>
    case RawText =>
    case RawTextCont =>
    case JsonValue =>
    case JsonField =>
    case JsonObject =>
    case JsonObjectFields =>
    case JsonObjectCont =>
    case JsonArray =>
    case JsonArrayValues =>
    case JsonArrayCont =>
    case BlockState =>
    case BlockStateKey =>
    case BlockStateValue =>
    case BlockStateValues =>
    case BlockStateArray =>
    case BlockStateArrayCont =>
    case Command =>
    case SlashCommand =>
    case CodeBuilderArg =>
    case CodeBuilderArgs =>
    case CodeBuilderSelectParam =>
    case CodeBuilderSelector =>
  }

  // `AtOrdinalRange0` .. `AtOrdinalRange11` have empty bodies: each splits
  // `AtOrdinalRoundTrip` into a range of positions small enough for the
  // solver to unfold `AtOrdinal` and `Ordinal` on its own.

  lemma AtOrdinalRange0(k: nat)
    requires 0 <= k < 8
    ensures Ordinal(AtOrdinal(k)) == k
  {
  }

  lemma AtOrdinalRange1(k: nat)
    requires 8 <= k < 15
    ensures Ordinal(AtOrdinal(k)) == k
  {
  }

  lemma AtOrdinalRange2(k: nat)
    requires 15 <= k < 23
    ensures Ordinal(AtOrdinal(k)) == k
  {
  }

  lemma AtOrdinalRange3(k: nat)
    requires 23 <= k < 31
    ensures Ordinal(AtOrdinal(k)) == k
  {
  }

  lemma AtOrdinalRange4(k: nat)
    requires 31 <= k < 38
    ensures Ordinal(AtOrdinal(k)) == k
  {
  }

  lemma AtOrdinalRange5(k: nat)
    requires 38 <= k < 46
    ensures Ordinal(AtOrdinal(k)) == k
  {
  }

  lemma AtOrdinalRange6(k: nat)
    requires 46 <= k < 54
    ensures Ordinal(AtOrdinal(k)) == k
  {
  }

  lemma AtOrdinalRange7(k: nat)
    requires 54 <= k < 61
    ensures Ordinal(AtOrdinal(k)) == k
  {
  }

  lemma AtOrdinalRange8(k: nat)
    requires 61 <= k < 69
    ensures Ordinal(AtOrdinal(k)) == k
  {
  }

  lemma AtOrdinalRange9(k: nat)
    requires 69 <= k < 77
    ensures Ordinal(AtOrdinal(k)) == k
  {
  }

  lemma AtOrdinalRange10(k: nat)
    requires 77 <= k < 84
    ensures Ordinal(AtOrdinal(k)) == k
  {
  }

  lemma AtOrdinalRange11(k: nat)
    requires 84 <= k < 92
    ensures Ordinal(AtOrdinal(k)) == k
  {
  }

  /** `Ordinal` undoes `AtOrdinal`. */
  lemma AtOrdinalRoundTrip(k: nat)
    requires k < 92
    ensures Ordinal(AtOrdinal(k)) == k
  {
    if k < 8 {
      AtOrdinalRange0(k);
    } else if k < 15 {
      AtOrdinalRange1(k);
    } else if k < 23 {
      AtOrdinalRange2(k);
    } else if k < 31 {
      AtOrdinalRange3(k);
    } else if k < 38 {
      AtOrdinalRange4(k);
    } else if k < 46 {
      AtOrdinalRange5(k);
    } else if k < 54 {
      AtOrdinalRange6(k);
    } else if k < 61 {
      AtOrdinalRange7(k);
    } else if k < 69 {
      AtOrdinalRange8(k);
    } else if k < 77 {
      AtOrdinalRange9(k);
    } else if k < 84 {
      AtOrdinalRange10(k);
    } else {
      AtOrdinalRange11(k);
    }
  }

  /**
   * A hard non-terminal used as a symbol is a non-terminal only: its tag
   * bits are exactly `NonTerminalBit` and its index is its position.
   */
  lemma HardNonTerminalPlaced(h: HardNonTerminal)
    ensures Tags(FromHardNonTerminal(h)) == NonTerminalBit
    ensures ToIndex(FromHardNonTerminal(h)) == Code(h) - NonTerminalBit
    ensures ToIndex(FromHardNonTerminal(h)) as int == Ordinal(h)
  {
    HardNonTerminalRange(h);
    HardNonTerminalValue(h);
    NonTerminalBlockTags(Code(h));
  }

  /** Distinct hard non-terminals have distinct values. */
  lemma HardNonTerminalCodeInjective(g: HardNonTerminal, h: HardNonTerminal)
    ensures Code(g) == Code(h) <==> g == h
  {
    if Code(g) == Code(h) {
      HardNonTerminalValue(g);
      HardNonTerminalValue(h);
      OrdinalRoundTrip(g);
      OrdinalRoundTrip(h);
    }
  }

  /**
   * The block has no gap: each of `NonTerminalBit` .. `NonTerminalBit + 91`
   * is the value of the hard non-terminal at that position.
   */
  lemma HardNonTerminalBlockCovered(k: nat)
    requires k < 92
    ensures Ordinal(AtOrdinal(k)) == k
    ensures Code(AtOrdinal(k)) as int == NonTerminalBit as int + k
  {
    AtOrdinalRoundTrip(k);
    HardNonTerminalValue(AtOrdinal(k));
  }

  /** The named ends of the block, and `toIndex(Int) == 1`. */
  lemma HardNonTerminalEnds()
    ensures Code(Epsilon) == NonTerminalBit
    ensures Code(Int) == FirstNonTerminal
    ensures Code(CodeBuilderSelector) == NonTerminalBit + 91
    ensures ToIndex(FromHardNonTerminal(Int)) == 1
  {
  }
}

/**
 * The symbol model of the command registry: a grammar symbol is a 32-bit
 * `int` whose bits 20..28 are tags (non-terminal, enum, optional, ...) and
 * whose remaining bits form an index.
 */
module CommandSymbols {

  const NonTerminalBit: bv32 := 0x100000
  const FirstNonTerminal: bv32 := 0x100001
  const EnumBit: bv32 := 0x200000
  const OptionalBit: bv32 := 0x400000
  const FactorizationBit: bv32 := 0x800000
  const PostfixBit: bv32 := 0x1000000
  const EnumValueBit: bv32 := 0x2000000
  const SoftEnumBit: bv32 := 0x4000000
  const ChainedSubcommandBit: bv32 := 0x8000000
  const ChainedSubcommandValueBit: bv32 := 0x10000000

  /** The mask `toIndex` applies (an `unsigned int` literal). */
  const IndexMask: bv32 := 0xE00FFFFF

  /** The nine tag bits, lowest first. */
  const TagBits: seq<bv32> := [
    NonTerminalBit, EnumBit, OptionalBit, FactorizationBit, PostfixBit,
    EnumValueBit, SoftEnumBit, ChainedSubcommandBit, ChainedSubcommandValueBit
  ]

  /** Bits 20..28. */
  const TagMask: bv32 := 0x1FF0_0000

  /** A pattern with exactly one bit set. */
  predicate SingleBit(b: bv32)
  {
    b != 0 && b & (b - 1) == 0
  }

  /**
   * Tag k (counting from the lowest) is the single bit 20 + k, so the nine
   * tags are distinct powers of two; no two share a bit, none survives the
   * index mask, and together they are exactly the bits the mask clears.
   */
  lemma TagBitsLayout()
    ensures |TagBits| == 9
    ensures forall k :: 0 <= k < |TagBits| ==> SingleBit(TagBits[k]) && TagBits[k] == NonTerminalBit << k
    ensures forall j, k :: 0 <= j < k < |TagBits| ==> TagBits[j] & TagBits[k] == 0
    ensures forall k :: 0 <= k < |TagBits| ==> TagBits[k] & IndexMask == 0
    ensures TagMask == NonTerminalBit | EnumBit | OptionalBit | FactorizationBit | PostfixBit
                       | EnumValueBit | SoftEnumBit | ChainedSubcommandBit | ChainedSubcommandValueBit
    ensures IndexMask == !TagMask
  {
    forall k | 0 <= k < |TagBits|
      ensures SingleBit(TagBits[k]) && TagBits[k] == NonTerminalBit << k
    {
      assert k == 0 || k == 1 || k == 2 || k == 3 || k == 4 || k == 5 || k == 6 || k == 7 || k == 8;
    }
    forall j, k | 0 <= j < k < |TagBits|
      ensures TagBits[j] & TagBits[k] == 0
    {
      assert j == 0 || j == 1 || j == 2 || j == 3 || j == 4 || j == 5 || j == 6 || j == 7;
      assert k == 1 || k == 2 || k == 3 || k == 4 || k == 5 || k == 6 || k == 7 || k == 8;
    }
    forall k | 0 <= k < |TagBits|
      ensures TagBits[k] & IndexMask == 0
    {
      assert k == 0 || k == 1 || k == 2 || k == 3 || k == 4 || k == 5 || k == 6 || k == 7 || k == 8;
    }
  }

  /**
   * A grammar symbol. `bits` is the 32-bit pattern of the C++ `int value_`;
   * `Value` reads it back as a signed number.
   */
  datatype Symbol = Symbol(bits: bv32)

  /** `value()`: the two's-complement reading of the pattern. */
  function Value(s: Symbol): (v: int)
    ensures v < 0 <==> s.bits >= 0x8000_0000
  {
    if s.bits < 0x8000_0000 then s.bits as int else s.bits as int - 0x1_0000_0000
  }

  /** A default-constructed symbol: `value_{-1}`. */
  const DefaultSymbol: Symbol := Symbol(0xFFFF_FFFF)

  /** The tag bits a symbol carries. */
  function Tags(s: Symbol): bv32
  {
    s.bits & TagMask
  }

  /**
   * `toIndex`: the symbol's pattern with the nine tag bits cleared (the
   * `size_t` result, whose upper 32 bits are zero). The result never has a
   * tag bit set, and adding back the symbol's own tags gives its full pattern.
   */
  function ToIndex(s: Symbol): (r: bv32)
    ensures r & TagMask == 0
    ensures r | Tags(s) == s.bits
  {
    s.bits & IndexMask
  }

  /** `s` with tag k of `TagBits` or-ed in. */
  function WithTag(s: Symbol, k: nat): Symbol
    requires k < |TagBits|
  {
    Symbol(s.bits | TagBits[k])
  }

  /** Or-ing a tag bit into a symbol adds that tag and leaves its index alone. */
  lemma ToIndexIgnoresTag(s: Symbol, k: nat)
    requires k < |TagBits|
    ensures ToIndex(WithTag(s, k)) == ToIndex(s)
    ensures Tags(WithTag(s, k)) == Tags(s) | TagBits[k]
  {
    TagBitsLayout();
  }

  /** An index turned back into a symbol (`Symbol(size_t)`) carries no tag and is its own index. */
  lemma ToIndexIdempotent(s: Symbol)
    ensures Tags(Symbol(ToIndex(s))) == 0
    ensures ToIndex(Symbol(ToIndex(s))) == ToIndex(s)
  {
  }

  /** The default symbol has value -1, and `toIndex` keeps its bits 29..31. */
  lemma DefaultSymbolIndex()
    ensures Value(DefaultSymbol) == -1
    ensures ToIndex(DefaultSymbol) == 0xE00F_FFFF
  {
  }
}

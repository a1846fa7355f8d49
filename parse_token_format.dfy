/**
 * `fmt::formatter<CommandRegistry::ParseToken>`: one line per token of a
 * parse tree, in preorder, indented by four spaces per level.
 */
module ParseTokenFormat {
  import opened Wrappers
  import opened CommandSymbols

  /**
   * `CommandRegistry::ParseToken`. The tree owns its `child` and `next`
   * tokens; `text` stands for the `length` characters at the token's `text`
   * pointer, and `symbol` is its `type`.
   */
  datatype ParseToken = ParseToken(child: Option<ParseToken>, next: Option<ParseToken>, text: string, symbol: Symbol)

  /** The number of tokens reachable from `t` through `child` and `next`, `t` included. */
  function Count(t: ParseToken): nat
    decreases t
  {
    1 + OptCount(t.child) + OptCount(t.next)
  }

  function OptCount(o: Option<ParseToken>): nat
    decreases o
  {
    match o
    case None => 0
    case Some(t) => Count(t)
  }

  /** A token together with the nesting level it is printed at. */
  datatype Visit = Visit(token: ParseToken, depth: nat)

  /**
   * The tokens reachable from `t` in preorder: `t` at level `d`, then its
   * child's tree one level deeper, then its next sibling's tree at level `d`.
   */
  function Preorder(t: ParseToken, d: nat): (p: seq<Visit>)
    ensures |p| == Count(t) && p[0] == Visit(t, d)
    decreases t
  {
    [Visit(t, d)] + OptPreorder(t.child, d + 1) + OptPreorder(t.next, d)
  }

  function OptPreorder(o: Option<ParseToken>, d: nat): (p: seq<Visit>)
    ensures |p| == OptCount(o)
    decreases o
  {
    match o
    case None => []
    case Some(t) => Preorder(t, d)
  }

  /**
   * Preorder keeps every subtree together: the visit at each position is
   * followed by the rest of its own tree, printed at the levels its own
   * preorder gives them.
   */
  lemma {:induction false} SubtreeBlock(t: ParseToken, d: nat, i: nat)
    requires i < Count(t)
    ensures i + Count(Preorder(t, d)[i].token) <= Count(t)
    ensures Preorder(t, d)[i..i + Count(Preorder(t, d)[i].token)]
         == Preorder(Preorder(t, d)[i].token, Preorder(t, d)[i].depth)
    decreases t, 1
  {
    if i == 0 {
      assert Preorder(t, d)[0..Count(t)] == Preorder(t, d);
    } else if i < 1 + OptCount(t.child) {
      SubtreeBlockInChild(t, d, i);
    } else {
      SubtreeBlockInNext(t, d, i);
    }
  }

  lemma {:induction false} SubtreeBlockInChild(t: ParseToken, d: nat, i: nat)
    requires 1 <= i < 1 + OptCount(t.child)
    ensures i + Count(Preorder(t, d)[i].token) <= Count(t)
    ensures Preorder(t, d)[i..i + Count(Preorder(t, d)[i].token)]
         == Preorder(Preorder(t, d)[i].token, Preorder(t, d)[i].depth)
    decreases t, 0
  {
    var a := OptPreorder(t.child, d + 1);
    var b := OptPreorder(t.next, d);
    assert Preorder(t, d) == [Visit(t, d)] + a + b;
    SubtreeBlock(t.child.value, d + 1, i - 1);
    BlockAt(Preorder(t, d), [Visit(t, d)], a, b, i - 1, Count(a[i - 1].token));
  }

  lemma {:induction false} SubtreeBlockInNext(t: ParseToken, d: nat, i: nat)
    requires 1 + OptCount(t.child) <= i < Count(t)
    ensures i + Count(Preorder(t, d)[i].token) <= Count(t)
    ensures Preorder(t, d)[i..i + Count(Preorder(t, d)[i].token)]
         == Preorder(Preorder(t, d)[i].token, Preorder(t, d)[i].depth)
    decreases t, 0
  {
    var a := OptPreorder(t.child, d + 1);
    var b := OptPreorder(t.next, d);
    assert Preorder(t, d) == [Visit(t, d)] + a + b;
    var j := i - 1 - |a|;
    SubtreeBlock(t.next.value, d, j);
    BlockAt(Preorder(t, d), [Visit(t, d)] + a, b, [], j, Count(b[j].token));
  }

  /**
   * The elements of a block `a` placed after `x` in `p`, shifted by `|x|`.
   * (It only hands `SliceWithin` its offset; it carries no proof of its own.)
   */
  lemma BlockAt<T>(p: seq<T>, x: seq<T>, a: seq<T>, y: seq<T>, j: nat, n: nat)
    requires p == x + a + y
    requires j < |a| && j + n <= |a|
    ensures p[|x| + j] == a[j]
    ensures p[|x| + j..|x| + j + n] == a[j..j + n]
  {
    assert p[|x|..|x| + |a|] == a;
    SliceWithin(p, a, |x|, j, n);
  }

  /** A slice of a block that sits at `off` in `p` is the same slice of `p`, shifted. */
  lemma SliceWithin<T>(p: seq<T>, a: seq<T>, off: nat, j: nat, n: nat)
    requires off + |a| <= |p| && p[off..off + |a|] == a
    requires j < |a| && j + n <= |a|
    ensures p[off + j] == a[j]
    ensures p[off + j..off + j + n] == a[j..j + n]
  {
    assert p[off + j] == p[off..off + |a|][j];
    forall m | off + j <= m < off + j + n
      ensures p[m] == a[m - off]
    {
      assert p[m] == p[off..off + |a|][m - off];
    }
  }

  /**
   * Wherever a token appears in the output, its child (if any) comes right
   * after it one level deeper, and its next sibling (if any) comes right
   * after the child's whole tree at the token's own level.
   */
  lemma PreorderLinks(t: ParseToken, d: nat, i: nat)
    requires i < Count(t)
    ensures var v := Preorder(t, d)[i];
      v.token.child.Some? ==>
        i + 1 < Count(t) && Preorder(t, d)[i + 1] == Visit(v.token.child.value, v.depth + 1)
    ensures var v := Preorder(t, d)[i];
      v.token.next.Some? ==>
        i + 1 + OptCount(v.token.child) < Count(t)
        && Preorder(t, d)[i + 1 + OptCount(v.token.child)] == Visit(v.token.next.value, v.depth)
  {
    var p := Preorder(t, d);
    var v := p[i];
    SubtreeBlock(t, d, i);
    var q := Preorder(v.token, v.depth);
    assert p[i..i + Count(v.token)] == q;
    assert q == [v] + OptPreorder(v.token.child, v.depth + 1) + OptPreorder(v.token.next, v.depth);
    if v.token.child.Some? {
      assert p[i + 1] == q[1];
    }
    if v.token.next.Some? {
      assert p[i + 1 + OptCount(v.token.child)] == q[1 + OptCount(v.token.child)];
    }
  }

  /** No token of a tree printed from level `d` is printed above level `d`. */
  lemma {:induction false} DepthAtLeast(t: ParseToken, d: nat, i: nat)
    requires i < Count(t)
    ensures Preorder(t, d)[i].depth >= d
    decreases t
  {
    var a := OptPreorder(t.child, d + 1);
    var b := OptPreorder(t.next, d);
    assert Preorder(t, d) == [Visit(t, d)] + a + b;
    if 1 <= i < 1 + |a| {
      DepthAtLeast(t.child.value, d + 1, i - 1);
    } else if i >= 1 + |a| {
      DepthAtLeast(t.next.value, d, i - 1 - |a|);
    }
  }

  /** `n` spaces. */
  function Spaces(n: nat): (s: string)
    ensures |s| == n && forall i | 0 <= i < n :: s[i] == ' '
  {
    if n == 0 then "" else Spaces(n - 1) + " "
  }

  predicate IsHexDigit(c: char)
  {
    '0' <= c <= '9' || 'a' <= c <= 'f'
  }

  /** The lower-case hexadecimal digit for `d`. */
  function HexDigit(d: nat): (c: char)
    requires d < 16
    ensures IsHexDigit(c)
  {
    if d < 10 then ('0' as int + d) as char else ('a' as int + d - 10) as char
  }

  /** The value of a hexadecimal digit. */
  function DigitValue(c: char): nat
  {
    if '0' <= c <= '9' then c as int - '0' as int
    else if 'a' <= c <= 'f' then c as int - 'a' as int + 10
    else 0
  }

  /** `{:x}` of a non-negative number: lower-case digits, no leading zero. */
  function Hex(n: nat): (s: string)
    ensures |s| >= 1 && forall i | 0 <= i < |s| :: IsHexDigit(s[i])
    decreases n
  {
    if n < 16 then [HexDigit(n)] else Hex(n / 16) + [HexDigit(n % 16)]
  }

  /** The number a string of hexadecimal digits denotes. */
  function ParseHex(s: string): nat
  {
    if |s| == 0 then 0 else 16 * ParseHex(s[..|s| - 1]) + DigitValue(s[|s| - 1])
  }

  /** `Hex` writes no superfluous leading zero, and `ParseHex` undoes it. */
  lemma {:induction false} HexRoundTrip(n: nat)
    ensures ParseHex(Hex(n)) == n
    ensures Hex(n)[0] == '0' <==> n == 0
    decreases n
  {
    if n >= 16 {
      HexRoundTrip(n / 16);
      var s := Hex(n);
      assert s[..|s| - 1] == Hex(n / 16);
      assert s[0] == Hex(n / 16)[0];
    }
  }

  /** `{:x}` of an `int`: a minus sign and the digits of the magnitude for a negative value. */
  function SignedHex(v: int): string
  {
    if v < 0 then "-" + Hex(-v) else Hex(v)
  }

  function ParseSignedHex(s: string): int
  {
    if |s| > 0 && s[0] == '-' then 0 - ParseHex(s[1..]) else ParseHex(s)
  }

  predicate IsSignedHexChar(c: char)
  {
    c == '-' || IsHexDigit(c)
  }

  /** `ParseSignedHex` undoes `SignedHex`, which writes only sign and digit characters. */
  lemma SignedHexRoundTrip(v: int)
    ensures ParseSignedHex(SignedHex(v)) == v
    ensures |SignedHex(v)| >= 1
    ensures forall i | 0 <= i < |SignedHex(v)| :: IsSignedHexChar(SignedHex(v)[i])
  {
    if v < 0 {
      HexRoundTrip(-v);
      assert SignedHex(v)[1..] == Hex(-v);
    } else {
      HexRoundTrip(v);
    }
  }

  /** The line the formatter prints for one token. */
  function Line(v: Visit): string
  {
    Spaces(4 * v.depth) + SymbolPart(v.token) + DataPart(v.token.text) + "\n"
  }

  /** What `"Symbol: 0x{:x}"` formats for a token. */
  function SymbolPart(t: ParseToken): string
  {
    "Symbol: 0x" + SignedHex(Value(t.symbol))
  }

  /** What `", Data: {}"` formats for a token with text; nothing for one without. */
  function DataPart(text: string): string
  {
    if |text| > 0 then ", Data: " + text else ""
  }

  /** What a printed line says: the level, the symbol's value and the token's text. */
  datatype LineFields = LineFields(depth: nat, value: int, text: string)

  /** The number of spaces `s` starts with. */
  function LeadingSpaces(s: string): (n: nat)
    ensures n <= |s|
  {
    if |s| > 0 && s[0] == ' ' then 1 + LeadingSpaces(s[1..]) else 0
  }

  /** The length of the longest prefix of `s` made of sign and hexadecimal digit characters. */
  function SignedHexPrefix(s: string): (n: nat)
    ensures n <= |s|
  {
    if |s| > 0 && IsSignedHexChar(s[0]) then 1 + SignedHexPrefix(s[1..]) else 0
  }

  /** Reads a line back: its indentation level, its symbol value and its text. */
  function ParseLine(s: string): Option<LineFields>
  {
    var n := LeadingSpaces(s);
    if n % 4 != 0 || |s| < n + 11 || s[n..n + 10] != "Symbol: 0x" || s[|s| - 1] != '\n' then None
    else
      match ParseBody(s[n + 10..|s| - 1])
      case None => None
      case Some((value, text)) => Some(LineFields(n / 4, value, text))
  }

  /** Reads back what follows "Symbol: 0x": the value, and the text after ", Data: " if any. */
  function ParseBody(body: string): Option<(int, string)>
  {
    var h := SignedHexPrefix(body);
    var tail := body[h..];
    if |tail| == 0 then Some((ParseSignedHex(body[..h]), ""))
    else if |tail| > 8 && tail[..8] == ", Data: " then Some((ParseSignedHex(body[..h]), tail[8..]))
    else None
  }

  lemma {:induction false} LeadingSpacesOf(a: string, r: string)
    requires forall i | 0 <= i < |a| :: a[i] == ' '
    requires |r| > 0 && r[0] != ' '
    ensures LeadingSpaces(a + r) == |a|
    decreases |a|
  {
    if |a| > 0 {
      assert (a + r)[1..] == a[1..] + r;
      LeadingSpacesOf(a[1..], r);
    } else {
      assert a + r == r;
    }
  }

  lemma {:induction false} SignedHexPrefixOf(a: string, r: string)
    requires forall i | 0 <= i < |a| :: IsSignedHexChar(a[i])
    requires |r| == 0 || !IsSignedHexChar(r[0])
    ensures SignedHexPrefix(a + r) == |a|
    decreases |a|
  {
    if |a| > 0 {
      assert (a + r)[1..] == a[1..] + r;
      SignedHexPrefixOf(a[1..], r);
    } else {
      assert a + r == r;
    }
  }

  lemma ParseBodyOf(hx: string, text: string)
    requires forall i | 0 <= i < |hx| :: IsSignedHexChar(hx[i])
    ensures ParseBody(hx + DataPart(text)) == Some((ParseSignedHex(hx), text))
  {
    var data := DataPart(text);
    var body := hx + data;
    SignedHexPrefixOf(hx, data);
    assert body[..|hx|] == hx;
    assert body[|hx|..] == data;
    if |text| > 0 {
      assert data[..8] == ", Data: ";
      assert data[8..] == text;
    }
  }

  lemma ParseLineOf(sp: string, depth: nat, hx: string, data: string, value: int, text: string)
    requires forall i | 0 <= i < |sp| :: sp[i] == ' '
    requires |sp| == 4 * depth && |hx| > 0
    requires ParseBody(hx + data) == Some((value, text))
    ensures ParseLine(sp + ("Symbol: 0x" + hx) + data + "\n") == Some(LineFields(depth, value, text))
  {
    assert |sp| % 4 == 0 && |sp| / 4 == depth;
    var body := hx + data;
    var rest := "Symbol: 0x" + body + "\n";
    var line := sp + ("Symbol: 0x" + hx) + data + "\n";
    assert line == sp + rest;
    LeadingSpacesOf(sp, rest);
    var n := |sp|;
    assert line[n..n + 10] == "Symbol: 0x";
    assert line[n + 10..|line| - 1] == body;
  }

  /**
   * A line says exactly what it was printed from: `4 * depth` spaces give
   * the level back, the hexadecimal digits give the value back, and the
   * ", Data: " part is present exactly when the text is not empty.
   */
  lemma LineRoundTrip(v: Visit)
    ensures ParseLine(Line(v)) == Some(LineFields(v.depth, Value(v.token.symbol), v.token.text))
  {
    var value := Value(v.token.symbol);
    var hx := SignedHex(value);
    var data := DataPart(v.token.text);
    SignedHexRoundTrip(value);
    ParseBodyOf(hx, v.token.text);
    ParseLineOf(Spaces(4 * v.depth), v.depth, hx, data, value, v.token.text);
  }

  /** The lines of a sequence of visits, one after the other. */
  function Render(vs: seq<Visit>): string
  {
    if |vs| == 0 then "" else Line(vs[0]) + Render(vs[1..])
  }

  lemma {:induction false} RenderAppend(a: seq<Visit>, b: seq<Visit>)
    ensures Render(a + b) == Render(a) + Render(b)
    decreases |a|
  {
    if |a| > 0 {
      RenderUnfold(a, b);
      RenderAppend(a[1..], b);
    } else {
      assert a + b == b;
    }
  }

  /** One step of `Render` on a concatenation whose first part is not empty. */
  lemma RenderUnfold(a: seq<Visit>, b: seq<Visit>)
    requires |a| > 0
    ensures Render(a + b) == Line(a[0]) + Render(a[1..] + b)
    ensures Render(a) == Line(a[0]) + Render(a[1..])
  {
    assert (a + b)[0] == a[0];
    assert (a + b)[1..] == a[1..] + b;
  }

  /**
   * Everything still to be printed for a stack of pending visits whose top
   * is its last element: the preorder of the top, then that of the rest.
   */
  function Pending(stack: seq<Visit>): seq<Visit>
  {
    if |stack| == 0 then []
    else
      var top := stack[|stack| - 1];
      Preorder(top.token, top.depth) + Pending(stack[..|stack| - 1])
  }

  /** The stack after pushing the token `o` holds, if any, at level `d`. */
  function Push(stack: seq<Visit>, o: Option<ParseToken>, d: nat): seq<Visit>
  {
    if o.Some? then stack + [Visit(o.value, d)] else stack
  }

  /** The stack after popping `top` off `rest + [top]` and pushing `next`, then `child`. */
  function Pushed(rest: seq<Visit>, top: Visit): seq<Visit>
  {
    Push(Push(rest, top.token.next, top.depth), top.token.child, top.depth + 1)
  }

  lemma PendingPush(s: seq<Visit>, o: Option<ParseToken>, d: nat)
    ensures Pending(Push(s, o, d)) == OptPreorder(o, d) + Pending(s)
  {
    if o.Some? {
      assert Push(s, o, d)[..|s|] == s;
    }
  }

  /** One step of the loop prints `top` and leaves the rest of its preorder pending. */
  lemma PendingStep(rest: seq<Visit>, top: Visit)
    ensures Pending(rest + [top]) == [top] + Pending(Pushed(rest, top))
  {
    var t := top.token;
    var d := top.depth;
    var c, n, r := OptPreorder(t.child, d + 1), OptPreorder(t.next, d), Pending(rest);
    calc {
      Pending(rest + [top]);
      { PendingPush(rest, Some(t), d); assert Push(rest, Some(t), d) == rest + [top]; }
      Preorder(t, d) + r;
      ([top] + c + n) + r;
      { SeqAssoc([top], c, n, r); }
      [top] + (c + (n + r));
      { PendingPush(rest, t.next, d); }
      [top] + (c + Pending(Push(rest, t.next, d)));
      { PendingPush(Push(rest, t.next, d), t.child, d + 1); }
      [top] + Pending(Pushed(rest, top));
    }
  }

  /**
   * What the loop has printed plus what is pending stays the same when it
   * prints `top` and replaces it on the stack by its next sibling and child.
   */
  lemma LoopStep(start: string, rest: seq<Visit>, top: Visit)
    ensures |Pending(rest + [top])| == 1 + |Pending(Pushed(rest, top))|
    ensures (start + Line(top)) + Render(Pending(Pushed(rest, top))) == start + Render(Pending(rest + [top]))
  {
    var after := Pending(Pushed(rest, top));
    PendingStep(rest, top);
    calc {
      (start + Line(top)) + Render(after);
      { ConcatAssoc(start, Line(top), Render(after)); }
      start + (Line(top) + Render(after));
      { assert Render([top]) == Line(top); RenderAppend([top], after); }
      start + Render([top] + after);
    }
  }

  // The lemmas from here to `SplitLast` have empty bodies: each states one
  // sequence identity so that the proofs above and below can cite it in a
  // small context instead of leaving the solver to find it in a large one.

  lemma SeqAssoc<T>(a: seq<T>, b: seq<T>, c: seq<T>, e: seq<T>)
    ensures (a + b + c) + e == a + (b + (c + e))
  {
  }

  lemma ConcatAssoc<T>(a: seq<T>, b: seq<T>, c: seq<T>)
    ensures (a + b) + c == a + (b + c)
  {
  }

  lemma PushedIs(rest: seq<Visit>, top: Visit, mid: seq<Visit>)
    requires mid == Push(rest, top.token.next, top.depth)
    ensures Pushed(rest, top) == Push(mid, top.token.child, top.depth + 1)
  {
  }

  lemma SpacesStep(start: string, i: nat)
    ensures (start + Spaces(i)) + " " == start + Spaces(i + 1)
  {
  }

  lemma SplitLast<T>(s: seq<T>)
    requires |s| > 0
    ensures s == s[..|s| - 1] + [s[|s| - 1]]
  {
  }

  /** Appending the pieces of a line one after the other appends the line. */
  lemma LineParts(out: string, sp: string, sym: string, data: string)
    ensures ((out + sp) + sym) + data + "\n" == out + (sp + sym + data + "\n")
  {
    ConcatAssoc(out, sp + sym + data, "\n");
    ConcatAssoc(out, sp + sym, data);
    ConcatAssoc(out, sp, sym);
  }

  /**
   * The body of `format` for one popped pair: `4 * level` spaces one at a
   * time, the symbol's value in hexadecimal, the text when the token has
   * some, and a newline.
   */
  method WriteLine(out: string, v: Visit) returns (r: string)
    ensures r == out + Line(v)
  {
    var node := v.token;
    r := out;
    var i := 0;
    while i < v.depth * 4
      invariant 0 <= i <= v.depth * 4
      invariant r == out + Spaces(i)
    {
      SpacesStep(out, i);
      r := r + " ";
      i := i + 1;
    }
    r := r + ("Symbol: 0x" + SignedHex(Value(node.symbol)));
    ghost var written := r;
    if |node.text| > 0 {
      r := r + (", Data: " + node.text);
    } else {
      assert written + DataPart(node.text) == written;
    }
    r := r + "\n";
    LineParts(out, Spaces(4 * v.depth), SymbolPart(node), DataPart(node.text));
  }

  /**
   * `format`: pops a (token, level) pair, prints its line, then pushes the
   * next sibling at the same level and the child one level deeper. The
   * result is the preorder rendering of the tree.
   */
  method Format(root: ParseToken) returns (out: string)
    ensures out == Render(Preorder(root, 0))
  {
    var toVisit: seq<Visit> := [Visit(root, 0)];
    out := "";
    assert Pending(toVisit) == Preorder(root, 0) by {
      PendingPush([], Some(root), 0);
      assert Push([], Some(root), 0) == toVisit;
    }
    while |toVisit| > 0
      invariant out + Render(Pending(toVisit)) == Render(Preorder(root, 0))
      decreases |Pending(toVisit)|
    {
      var top := toVisit[|toVisit| - 1];
      var rest := toVisit[..|toVisit| - 1];
      SplitLast(toVisit);
      toVisit := rest;
      ghost var start := out;
      out := WriteLine(out, top);
      var node := top.token;
      if node.next.Some? {
        toVisit := toVisit + [Visit(node.next.value, top.depth)];
      }
      ghost var mid := Push(rest, node.next, top.depth);
      assert toVisit == mid;
      if node.child.Some? {
        toVisit := toVisit + [Visit(node.child.value, top.depth + 1)];
      }
      PushedIs(rest, top, mid);
      assert toVisit == Push(mid, node.child, top.depth + 1);
      LoopStep(start, rest, top);
    }
  }
}

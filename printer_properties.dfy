/**
 * What the pretty printer's output says about the tree: every line of a
 * depth d printer starts with at least d tabs and its own lines with exactly
 * d; a deeper printer writes the same lines with more tabs; the number of
 * lines follows from the tree's shape; and the output depends on nothing
 * but the shape (no token is printed), while, when doubles are written
 * injectively, the shape can be read back from it.
 */
module PrinterProperties {
  import opened Wrappers
  import opened Numbers
  import opened Ast
  import opened PrinterSpec

  // ---------------------------------------------------------------------
  // Tabs

  lemma {:induction false} TabsThen(d: nat, s: string)
    ensures LeadingTabs(Tabs(d) + s) == d + LeadingTabs(s)
  {
    if d > 0 {
      assert Tabs(d) + s == "\t" + (Tabs(d - 1) + s);
      assert (Tabs(d) + s)[0] == '\t';
      assert (Tabs(d) + s)[1..] == Tabs(d - 1) + s;
      TabsThen(d - 1, s);
    } else {
      assert Tabs(d) + s == s;
    }
  }

  /** m_tabstr holds nothing but tabs. */
  lemma {:induction false} AllTabs(n: nat)
    ensures forall i :: 0 <= i < n ==> Tabs(n)[i] == '\t'
  {
    if n > 0 {
      AllTabs(n - 1);
      assert Tabs(n) == "\t" + Tabs(n - 1);
    }
  }

  /** A line whose text does not start with a tab is at exactly its
      printer's depth, and has something after the tabs. */
  lemma OwnLine(d: nat, text: string)
    requires |text| > 0 && text[0] != '\t'
    ensures LeadingTabs(Line(d, text)) == d < |Line(d, text)|
  {
    TabsThen(d, text);
  }

  // ---------------------------------------------------------------------
  // Depth of every line

  /** Every line starts with at least d tabs and has text after them. */
  predicate Deep(ls: seq<string>, d: nat)
  {
    forall i :: 0 <= i < |ls| ==> d <= LeadingTabs(ls[i]) < |ls[i]|
  }

  lemma DeepAppend(xs: seq<string>, ys: seq<string>, d: nat)
    requires Deep(xs, d) && Deep(ys, d)
    ensures Deep(xs + ys, d)
  {
    forall i | 0 <= i < |xs + ys|
      ensures d <= LeadingTabs((xs + ys)[i]) < |(xs + ys)[i]|
    {
      if i < |xs| {
        assert (xs + ys)[i] == xs[i];
      } else {
        assert (xs + ys)[i] == ys[i - |xs|];
      }
    }
  }

  /** A deeper printer's lines are deep enough for a shallower one. */
  lemma DeepWeaken(ls: seq<string>, d: nat, e: nat)
    requires Deep(ls, d) && e <= d
    ensures Deep(ls, e)
  {
  }

  /** Every line of a depth d printer starts with at least d tabs followed
      by text, and the first and last lines, which the printer writes
      itself, with exactly d. */
  lemma {:induction false} LinesIndented(e: Expr, d: nat, fmt: Float64 -> string)
    ensures |Lines(e, d, fmt)| >= 4
    ensures LeadingTabs(Lines(e, d, fmt)[0]) == d
    ensures LeadingTabs(Lines(e, d, fmt)[|Lines(e, d, fmt)| - 1]) == d
    ensures Deep(Lines(e, d, fmt), d)
    decreases e, 0
  {
    match e
    case Constant(_, v) =>
      ConstantIndented(d, TypeName(v), ValueText(v, fmt));
    case Nil(_) =>
      ConstantIndented(d, "Nil", "Nil");
    case Unary(_, op, b) =>
      var head := HeadIndented(d, "Unary Op: {", "Type: " + IntToString(UnaryOrdinal(op)));
      var slot := SlotLines("Branch -> {", b, d, fmt);
      SlotIndented("Branch -> {", b, d, fmt);
      DeepAppend(head, slot, d);
      assert Lines(e, d, fmt) == head + slot;
      assert (head + slot)[|head + slot| - 1] == slot[|slot| - 1];
    case Binary(_, op, l, r) =>
      var head := HeadIndented(d, "Binary Op: {", "Type: " + IntToString(BinaryOrdinal(op)));
      var left := SlotLines("Lhs -> {", l, d, fmt);
      var right := SlotLines("Rhs -> {", r, d, fmt);
      SlotIndented("Lhs -> {", l, d, fmt);
      SlotIndented("Rhs -> {", r, d, fmt);
      DeepAppend(head, left, d);
      DeepAppend(head + left, right, d);
      assert Lines(e, d, fmt) == head + left + right;
      assert (head + left + right)[|head + left + right| - 1] == right[|right| - 1];
  }

  /** The two header lines of an operator node. */
  lemma HeadIndented(d: nat, kind: string, typeLine: string) returns (head: seq<string>)
    requires |kind| > 0 && kind[0] != '\t' && |typeLine| > 0 && typeLine[0] != '\t'
    ensures head == [Line(d, kind), Line(d, typeLine)]
    ensures LeadingTabs(head[0]) == d && Deep(head, d)
  {
    head := [Line(d, kind), Line(d, typeLine)];
    OwnLine(d, kind);
    OwnLine(d, typeLine);
  }

  lemma ConstantIndented(d: nat, typeName: string, value: string)
    ensures var b := ConstantBlock(d, typeName, value);
      LeadingTabs(b[0]) == d && LeadingTabs(b[3]) == d && Deep(b, d)
  {
    OwnLine(d, "Constant: {");
    OwnLine(d, "Type: " + typeName);
    OwnLine(d, "Value: " + value);
    OwnLine(d, "}");
  }

  /** A child slot's heading and closing brace are at the parent's depth;
      what lies between is at least that deep. */
  lemma {:induction false} SlotIndented(heading: string, c: Option<Expr>, d: nat, fmt: Float64 -> string)
    requires |heading| > 0 && heading[0] != '\t'
    ensures var s := SlotLines(heading, c, d, fmt);
      LeadingTabs(s[|s| - 1]) == d && Deep(s, d)
    decreases c, 2
  {
    OwnLine(d, heading);
    OwnLine(d, "}");
    var child := ChildLines(c, d, fmt);
    match c
    case Some(x) =>
      LinesIndented(x, d + 1, fmt);
      DeepWeaken(child, d + 1, d);
    case None =>
      OwnLine(d, "nullnode");
    DeepAppend([Line(d, heading)], child, d);
    DeepAppend([Line(d, heading)] + child, [Line(d, "}")], d);
  }

  // ---------------------------------------------------------------------
  // Depth shifts every line

  /** The lines ls with n more tabs in front of each. */
  function Indent(ls: seq<string>, n: nat): (r: seq<string>)
    ensures |r| == |ls|
  {
    seq(|ls|, i requires 0 <= i < |ls| => Tabs(n) + ls[i])
  }

  lemma IndentAppend(xs: seq<string>, ys: seq<string>, n: nat)
    ensures Indent(xs + ys, n) == Indent(xs, n) + Indent(ys, n)
  {
  }

  lemma TabsAdd(a: nat, b: nat)
    ensures Tabs(b) + Tabs(a) == Tabs(a + b)
  {
    AllTabs(a);
    AllTabs(b);
    AllTabs(a + b);
  }

  lemma LineShift(a: nat, b: nat, text: string)
    ensures Tabs(b) + Line(a, text) == Line(a + b, text)
  {
    TabsAdd(a, b);
    assert Tabs(b) + (Tabs(a) + text) == (Tabs(b) + Tabs(a)) + text;
  }

  /** A printer b levels deeper writes the same lines, each with b more
      tabs: the depth only adds tabs. */
  lemma {:induction false} LinesShift(e: Expr, a: nat, b: nat, fmt: Float64 -> string)
    ensures Lines(e, a + b, fmt) == Indent(Lines(e, a, fmt), b)
    decreases e, 0
  {
    match e
    case Constant(_, v) =>
      BlockShift(a, b, TypeName(v), ValueText(v, fmt));
    case Nil(_) =>
      BlockShift(a, b, "Nil", "Nil");
    case Unary(_, op, x) =>
      var h1, h2 := "Unary Op: {", "Type: " + IntToString(UnaryOrdinal(op));
      LineShift(a, b, h1);
      LineShift(a, b, h2);
      SlotShift("Branch -> {", x, a, b, fmt);
      IndentAppend([Line(a, h1), Line(a, h2)], SlotLines("Branch -> {", x, a, fmt), b);
    case Binary(_, op, l, r) =>
      var h1, h2 := "Binary Op: {", "Type: " + IntToString(BinaryOrdinal(op));
      LineShift(a, b, h1);
      LineShift(a, b, h2);
      SlotShift("Lhs -> {", l, a, b, fmt);
      SlotShift("Rhs -> {", r, a, b, fmt);
      var left := SlotLines("Lhs -> {", l, a, fmt);
      IndentAppend([Line(a, h1), Line(a, h2)], left, b);
      IndentAppend([Line(a, h1), Line(a, h2)] + left, SlotLines("Rhs -> {", r, a, fmt), b);
  }

  lemma BlockShift(a: nat, b: nat, typeName: string, value: string)
    ensures ConstantBlock(a + b, typeName, value) == Indent(ConstantBlock(a, typeName, value), b)
  {
    LineShift(a, b, "Constant: {");
    LineShift(a, b, "Type: " + typeName);
    LineShift(a, b, "Value: " + value);
    LineShift(a, b, "}");
  }

  lemma {:induction false} SlotShift(heading: string, c: Option<Expr>, a: nat, b: nat, fmt: Float64 -> string)
    ensures SlotLines(heading, c, a + b, fmt) == Indent(SlotLines(heading, c, a, fmt), b)
    decreases c, 2
  {
    LineShift(a, b, heading);
    LineShift(a, b, "}");
    match c
    case Some(x) =>
      LinesShift(x, a + 1, b, fmt);
    case None =>
      LineShift(a, b, "nullnode");
    IndentAppend([Line(a, heading)], ChildLines(c, a, fmt), b);
    IndentAppend([Line(a, heading)] + ChildLines(c, a, fmt), [Line(a, "}")], b);
  }

  // ---------------------------------------------------------------------
  // Number of lines

  function BinaryNodes(e: Expr): nat
  {
    match e
    case Constant(_, _) => 0
    case Nil(_) => 0
    case Unary(_, _, b) => OptBinaryNodes(b)
    case Binary(_, _, l, r) => 1 + OptBinaryNodes(l) + OptBinaryNodes(r)
  }

  function OptBinaryNodes(e: Option<Expr>): nat
  {
    if e.Some? then BinaryNodes(e.value) else 0
  }

  /** The child slots that hold null. */
  function NullSlots(e: Expr): nat
  {
    match e
    case Constant(_, _) => 0
    case Nil(_) => 0
    case Unary(_, _, b) => OptNullSlots(b)
    case Binary(_, _, l, r) => OptNullSlots(l) + OptNullSlots(r)
  }

  function OptNullSlots(e: Option<Expr>): nat
  {
    if e.Some? then NullSlots(e.value) else 1
  }

  /** Four lines per node, two more for each binary node (its second slot),
      and one `nullnode` line per missing child. */
  lemma {:induction false} LineCount(e: Expr, d: nat, fmt: Float64 -> string)
    ensures |Lines(e, d, fmt)| == 4 * Size(e) + 2 * BinaryNodes(e) + NullSlots(e)
    decreases e, 1
  {
    match e
    case Constant(_, _) =>
    case Nil(_) =>
    case Unary(_, _, b) =>
      SlotCount("Branch -> {", b, d, fmt);
    case Binary(_, _, l, r) =>
      SlotCount("Lhs -> {", l, d, fmt);
      SlotCount("Rhs -> {", r, d, fmt);
  }

  lemma {:induction false} SlotCount(heading: string, c: Option<Expr>, d: nat, fmt: Float64 -> string)
    ensures |SlotLines(heading, c, d, fmt)| == 2 + 4 * OptSize(c) + 2 * OptBinaryNodes(c) + OptNullSlots(c)
    decreases c, 2
  {
    if c.Some? {
      LineCount(c.value, d + 1, fmt);
    }
  }

  /** The child slots a node prints: none for a leaf, one for a unary node,
      two for a binary node. */
  function SlotsOf(e: Expr): nat
  {
    match e
    case Unary(_, _, _) => 1
    case Binary(_, _, _, _) => 2
    case _ => 0
  }

  /** The number of lines the given trees print at depth d, together. */
  function ChildrenLineCount(cs: seq<Expr>, d: nat, fmt: Float64 -> string): nat
  {
    if cs == [] then 0 else |Lines(cs[0], d, fmt)| + ChildrenLineCount(cs[1..], d, fmt)
  }

  lemma {:induction false} ChildrenLineCountAppend(xs: seq<Expr>, ys: seq<Expr>, d: nat, fmt: Float64 -> string)
    ensures ChildrenLineCount(xs + ys, d, fmt) == ChildrenLineCount(xs, d, fmt) + ChildrenLineCount(ys, d, fmt)
  {
    if xs == [] {
      assert xs + ys == ys;
    } else {
      assert (xs + ys)[0] == xs[0];
      assert (xs + ys)[1..] == xs[1..] + ys;
      ChildrenLineCountAppend(xs[1..], ys, d, fmt);
    }
  }

  /** Node by node: a node writes four lines of its own, two more for a
      binary node's second slot, and one `nullnode` line per slot without a
      child; every child is then printed in full by the printer one level
      deeper. */
  lemma NodeLines(e: Expr, d: nat, fmt: Float64 -> string)
    ensures |Lines(e, d, fmt)|
      == 4 + (if e.Binary? then 2 else 0) + (SlotsOf(e) - |Children(e)|) + ChildrenLineCount(Children(e), d + 1, fmt)
  {
    match e
    case Constant(_, _) =>
    case Nil(_) =>
    case Unary(_, _, b) =>
      UnarySplit(e, d, fmt, []);
      SlotLength("Branch -> {", b, d, fmt);
      assert Children(e) == OptList(b);
    case Binary(_, _, l, r) =>
      BinarySplit(e, d, fmt, []);
      SlotLength("Lhs -> {", l, d, fmt);
      SlotLength("Rhs -> {", r, d, fmt);
      ChildrenLineCountAppend(OptList(l), OptList(r), d + 1, fmt);
      assert Children(e) == OptList(l) + OptList(r);
  }

  /** A slot writes its heading, its `}` and its child's lines, which are
      the child's printout one level deeper or one `nullnode` line. */
  lemma SlotLength(heading: string, c: Option<Expr>, d: nat, fmt: Float64 -> string)
    ensures |SlotLines(heading, c, d, fmt)|
      == 2 + (if c.None? then 1 else 0) + ChildrenLineCount(OptList(c), d + 1, fmt)
  {
    if c.Some? {
      assert OptList(c)[1..] == [];
    }
  }

  // ---------------------------------------------------------------------
  // Tokens are not printed; the shape is

  /** The printout does not depend on the tokens: in particular Nil prints
      the same whatever its token. */
  lemma {:induction false} TokensNotPrinted(a: Expr, b: Expr, d: nat, fmt: Float64 -> string)
    requires SameShape(a, b)
    ensures Lines(a, d, fmt) == Lines(b, d, fmt)
    decreases a
  {
    match a
    case Constant(_, _) =>
    case Nil(_) =>
    case Unary(_, _, x) =>
      if x.Some? { TokensNotPrinted(x.value, b.branch.value, d + 1, fmt); }
      assert ChildLines(x, d, fmt) == ChildLines(b.branch, d, fmt);
    case Binary(_, _, l, r) =>
      if l.Some? { TokensNotPrinted(l.value, b.left.value, d + 1, fmt); }
      if r.Some? { TokensNotPrinted(r.value, b.right.value, d + 1, fmt); }
      assert ChildLines(l, d, fmt) == ChildLines(b.left, d, fmt);
      assert ChildLines(r, d, fmt) == ChildLines(b.right, d, fmt);
  }

  /** The doubles a constant holds. */
  function ValueFloats(v: ConstValue): set<Float64>
  {
    if v.Float64Value? then {v.f} else {}
  }

  /** The doubles among the constants of a tree. */
  function Floats(e: Expr): set<Float64>
  {
    match e
    case Constant(_, v) => ValueFloats(v)
    case Nil(_) => {}
    case Unary(_, _, c) => OptFloats(c)
    case Binary(_, _, l, r) => OptFloats(l) + OptFloats(r)
  }

  function OptFloats(c: Option<Expr>): set<Float64>
  {
    match c
    case Some(u) => Floats(u)
    case None => {}
  }

  /** The stream writes a double of F and a different double of G as
      different texts. Six significant digits write many doubles alike, so
      this is a condition on the doubles actually printed. */
  ghost predicate Distinguishes(fmt: Float64 -> string, F: set<Float64>, G: set<Float64>)
  {
    forall f, g :: f in F && g in G && fmt(f) == fmt(g) ==> f == g
  }

  lemma DistinguishesSub(fmt: Float64 -> string, F: set<Float64>, G: set<Float64>, Fs: set<Float64>, Gs: set<Float64>)
    requires Distinguishes(fmt, F, G) && Fs <= F && Gs <= G
    ensures Distinguishes(fmt, Fs, Gs)
  {
  }

  /** When the stream tells apart the doubles the two trees hold, two trees
      print the same lines only if they have the same shape: everything but
      the tokens can be read back from the printout. */
  lemma PrintDeterminesShape(a: Expr, b: Expr, d: nat, fmt: Float64 -> string)
    requires Distinguishes(fmt, Floats(a), Floats(b))
    requires Lines(a, d, fmt) == Lines(b, d, fmt)
    ensures SameShape(a, b)
  {
    assert Lines(a, d, fmt) + [] == Lines(b, d, fmt) + [];
    LinesPrefixFree(a, b, d, fmt, [], []);
  }

  /** In particular, trees without Float constants that print alike have
      the same shape, whatever the stream's formatting of doubles. */
  lemma PrintDeterminesShapeWithoutDoubles(a: Expr, b: Expr, d: nat, fmt: Float64 -> string)
    requires Floats(a) == {} && Floats(b) == {}
    requires Lines(a, d, fmt) == Lines(b, d, fmt)
    ensures SameShape(a, b)
  {
    PrintDeterminesShape(a, b, d, fmt);
  }

  /** The heading line of each kind of node. */
  function Heading(e: Expr): string
  {
    match e
    case Constant(_, _) => "Constant: {"
    case Nil(_) => "Constant: {"
    case Unary(_, _, _) => "Unary Op: {"
    case Binary(_, _, _, _) => "Binary Op: {"
  }

  /** The word after `Type: ` on a node's second line. */
  function TypeText(e: Expr, fmt: Float64 -> string): string
  {
    match e
    case Constant(_, v) => TypeName(v)
    case Nil(_) => "Nil"
    case Unary(_, op, _) => IntToString(UnaryOrdinal(op))
    case Binary(_, op, _, _) => IntToString(BinaryOrdinal(op))
  }

  lemma FirstLines(e: Expr, d: nat, fmt: Float64 -> string)
    ensures |Lines(e, d, fmt)| >= 4
    ensures Lines(e, d, fmt)[0] == Line(d, Heading(e))
    ensures Lines(e, d, fmt)[1] == Line(d, "Type: " + TypeText(e, fmt))
  {
    LinesIndented(e, d, fmt);
  }

  lemma LineInjective(d: nat, s: string, t: string)
    requires Line(d, s) == Line(d, t)
    ensures s == t
  {
    assert s == Line(d, s)[d..];
    assert t == Line(d, t)[d..];
  }

  lemma CancelFront<T>(p: seq<T>, u: seq<T>, q: seq<T>, v: seq<T>)
    requires p + u == q + v && |p| == |q|
    ensures p == q && u == v
  {
    assert p == (p + u)[..|p|];
    assert q == (q + v)[..|q|];
    assert u == (p + u)[|p|..];
    assert v == (q + v)[|q|..];
  }

  /** operator<< writes distinct int64 values differently. */
  lemma IntTextInjective(i: int64, j: int64)
    requires IntToString(i as int) == IntToString(j as int)
    ensures i == j
  {
    StrToLLOfIntToString(i);
    StrToLLOfIntToString(j);
  }

  /** The same type word means the same kind of node and, for operators,
      the same operator. */
  lemma {:induction false} TypeTextInjective(a: Expr, b: Expr, fmt: Float64 -> string)
    requires Heading(a) == Heading(b) && TypeText(a, fmt) == TypeText(b, fmt)
    ensures a.Constant? <==> b.Constant?
    ensures a.Constant? ==> TypeName(a.value) == TypeName(b.value)
    ensures a.Unary? ==> b.Unary? && a.uop == b.uop
    ensures a.Binary? ==> b.Binary? && a.bop == b.bop
  {
    assert "Constant: {"[0] == 'C' && "Unary Op: {"[0] == 'U' && "Binary Op: {"[0] == 'B';
    if a.Unary? {
      IntTextInjective(UnaryOrdinal(a.uop) as int64, UnaryOrdinal(b.uop) as int64);
      UnaryOrdinalBijective(a.uop, 0);
      UnaryOrdinalBijective(b.uop, 0);
    } else if a.Binary? {
      IntTextInjective(BinaryOrdinal(a.bop) as int64, BinaryOrdinal(b.bop) as int64);
      BinaryOrdinalBijective(a.bop, 0);
      BinaryOrdinalBijective(b.bop, 0);
    }
  }

  /** The same value text under the same type word means the same value. */
  lemma ValueTextInjective(v: ConstValue, w: ConstValue, fmt: Float64 -> string)
    requires Distinguishes(fmt, ValueFloats(v), ValueFloats(w))
    requires TypeName(v) == TypeName(w) && ValueText(v, fmt) == ValueText(w, fmt)
    ensures v == w
  {
    assert "Integer"[0] == 'I' && "Boolean"[0] == 'B';
    match v
    case Int64Value(i) => IntTextInjective(i, w.i);
    case Float64Value(f) => assert f in ValueFloats(v) && w.f in ValueFloats(w);
    case BoolValue(_) =>
    case StringValue(_) =>
    case CharValue(c) => assert [c][0] == c;
  }

  /** No printout is a proper prefix of another: reading a printout back
      stops exactly where it ends, and gives the tree's shape. */
  lemma {:induction false} LinesPrefixFree(a: Expr, b: Expr, d: nat, fmt: Float64 -> string, x: seq<string>, y: seq<string>)
    requires Distinguishes(fmt, Floats(a), Floats(b))
    requires Lines(a, d, fmt) + x == Lines(b, d, fmt) + y
    ensures SameShape(a, b) && x == y
    decreases a, 3
  {
    HeadsAgree(a, b, d, fmt, x, y);
    TypeTextInjective(a, b, fmt);
    match a
    case Constant(_, v) =>
      ConstantPrefixFree(v, b.value, d, fmt, x, y);
    case Nil(_) =>
      CancelFront(Lines(a, d, fmt), x, Lines(b, d, fmt), y);
    case Unary(_, op, c) =>
      var head := [Line(d, "Unary Op: {"), Line(d, "Type: " + IntToString(UnaryOrdinal(op)))];
      UnarySplit(a, d, fmt, x);
      UnarySplit(b, d, fmt, y);
      CancelFront(head, SlotLines("Branch -> {", c, d, fmt) + x, head, SlotLines("Branch -> {", b.branch, d, fmt) + y);
      SlotPrefixFree("Branch -> {", c, b.branch, d, fmt, x, y);
    case Binary(_, op, l, r) =>
      var head := [Line(d, "Binary Op: {"), Line(d, "Type: " + IntToString(BinaryOrdinal(op)))];
      var ra, rb := SlotLines("Rhs -> {", r, d, fmt), SlotLines("Rhs -> {", b.right, d, fmt);
      BinarySplit(a, d, fmt, x);
      BinarySplit(b, d, fmt, y);
      CancelFront(head, SlotLines("Lhs -> {", l, d, fmt) + (ra + x), head, SlotLines("Lhs -> {", b.left, d, fmt) + (rb + y));
      DistinguishesSub(fmt, Floats(a), Floats(b), OptFloats(l), OptFloats(b.left));
      SlotPrefixFree("Lhs -> {", l, b.left, d, fmt, ra + x, rb + y);
      DistinguishesSub(fmt, Floats(a), Floats(b), OptFloats(r), OptFloats(b.right));
      SlotPrefixFree("Rhs -> {", r, b.right, d, fmt, x, y);
  }

  /** Two printouts that agree, each followed by its own lines, agree on
      the heading and the type line. */
  lemma HeadsAgree(a: Expr, b: Expr, d: nat, fmt: Float64 -> string, x: seq<string>, y: seq<string>)
    requires Lines(a, d, fmt) + x == Lines(b, d, fmt) + y
    ensures Heading(a) == Heading(b) && TypeText(a, fmt) == TypeText(b, fmt)
  {
    var la, lb := Lines(a, d, fmt), Lines(b, d, fmt);
    FirstLines(a, d, fmt);
    FirstLines(b, d, fmt);
    assert la[0] == (la + x)[0] && lb[0] == (lb + y)[0];
    assert la[1] == (la + x)[1] && lb[1] == (lb + y)[1];
    LineInjective(d, Heading(a), Heading(b));
    LineInjective(d, "Type: " + TypeText(a, fmt), "Type: " + TypeText(b, fmt));
    assert TypeText(a, fmt) == ("Type: " + TypeText(a, fmt))[6..];
    assert TypeText(b, fmt) == ("Type: " + TypeText(b, fmt))[6..];
  }

  /** A unary node's lines, followed by x, regrouped around its slot. */
  lemma UnarySplit(a: Expr, d: nat, fmt: Float64 -> string, x: seq<string>)
    requires a.Unary?
    ensures Lines(a, d, fmt) + x
      == [Line(d, "Unary Op: {"), Line(d, "Type: " + IntToString(UnaryOrdinal(a.uop)))] + (SlotLines("Branch -> {", a.branch, d, fmt) + x)
  {
  }

  /** A binary node's lines, followed by x, regrouped around its slots. */
  lemma BinarySplit(a: Expr, d: nat, fmt: Float64 -> string, x: seq<string>)
    requires a.Binary?
    ensures Lines(a, d, fmt) + x
      == [Line(d, "Binary Op: {"), Line(d, "Type: " + IntToString(BinaryOrdinal(a.bop)))]
         + (SlotLines("Lhs -> {", a.left, d, fmt) + (SlotLines("Rhs -> {", a.right, d, fmt) + x))
  {
  }

  lemma ConstantPrefixFree(v: ConstValue, w: ConstValue, d: nat, fmt: Float64 -> string, x: seq<string>, y: seq<string>)
    requires Distinguishes(fmt, ValueFloats(v), ValueFloats(w)) && TypeName(v) == TypeName(w)
    requires ConstantBlock(d, TypeName(v), ValueText(v, fmt)) + x == ConstantBlock(d, TypeName(w), ValueText(w, fmt)) + y
    ensures v == w && x == y
  {
    var bv, bw := ConstantBlock(d, TypeName(v), ValueText(v, fmt)), ConstantBlock(d, TypeName(w), ValueText(w, fmt));
    CancelFront(bv, x, bw, y);
    LineInjective(d, "Value: " + ValueText(v, fmt), "Value: " + ValueText(w, fmt));
    assert ValueText(v, fmt) == ("Value: " + ValueText(v, fmt))[7..];
    assert ValueText(w, fmt) == ("Value: " + ValueText(w, fmt))[7..];
    ValueTextInjective(v, w, fmt);
  }

  /** A slot's lines, followed by x, regrouped around the child's lines. */
  lemma SlotSplit(heading: string, c: Option<Expr>, d: nat, fmt: Float64 -> string, x: seq<string>)
    ensures SlotLines(heading, c, d, fmt) + x == [Line(d, heading)] + (ChildLines(c, d, fmt) + ([Line(d, "}")] + x))
  {
  }

  lemma {:induction false} SlotPrefixFree(heading: string, c: Option<Expr>, e: Option<Expr>, d: nat, fmt: Float64 -> string, x: seq<string>, y: seq<string>)
    requires Distinguishes(fmt, OptFloats(c), OptFloats(e))
    requires SlotLines(heading, c, d, fmt) + x == SlotLines(heading, e, d, fmt) + y
    ensures SameOptShape(c, e) && x == y
    decreases c, 2
  {
    var close := [Line(d, "}")];
    SlotSplit(heading, c, d, fmt, x);
    SlotSplit(heading, e, d, fmt, y);
    CancelFront([Line(d, heading)], ChildLines(c, d, fmt) + (close + x), [Line(d, heading)], ChildLines(e, d, fmt) + (close + y));
    ChildPrefixFree(c, e, d, fmt, close + x, close + y);
    CancelFront(close, x, close, y);
  }

  lemma {:induction false} ChildPrefixFree(c: Option<Expr>, e: Option<Expr>, d: nat, fmt: Float64 -> string, x: seq<string>, y: seq<string>)
    requires Distinguishes(fmt, OptFloats(c), OptFloats(e))
    requires ChildLines(c, d, fmt) + x == ChildLines(e, d, fmt) + y
    ensures SameOptShape(c, e) && x == y
    decreases c, 1
  {
    match c
    case Some(u) =>
      if e.Some? {
        LinesPrefixFree(u, e.value, d + 1, fmt, x, y);
      } else {
        NotNull(u, d, fmt, x, y);
      }
    case None =>
      if e.Some? {
        NotNull(e.value, d, fmt, y, x);
      } else {
        CancelFront(ChildLines(c, d, fmt), x, ChildLines(e, d, fmt), y);
      }
  }

  /** A child's first line is one tab deeper than a `nullnode` line. */
  lemma NotNull(u: Expr, d: nat, fmt: Float64 -> string, x: seq<string>, y: seq<string>)
    ensures Lines(u, d + 1, fmt) + x != [Line(d, "nullnode")] + y
  {
    FirstLines(u, d + 1, fmt);
    var first := Lines(u, d + 1, fmt)[0];
    assert (Lines(u, d + 1, fmt) + x)[0] == first;
    assert ([Line(d, "nullnode")] + y)[0] == Line(d, "nullnode");
    AllTabs(d + 1);
    assert first[d] == '\t';
    assert Line(d, "nullnode")[d] == 'n';
  }
}

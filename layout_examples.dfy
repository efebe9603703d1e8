/**
 * Concrete layouts: the indentation and joining rules on small templates.
 * The children's texts are left as parameters: the layout never looks inside
 * them, so each example holds for every text. Each example is worked out on
 * the items first, then stated for the nodes the parser would produce.
 */
module JinjaLayoutExamples {
  import opened Wrappers
  import opened JinjaKeyword
  import opened JinjaLayout
  import opened JinjaLayoutProperties

  /** A statement node `{% keyword ... %}` whose second child is the keyword token. */
  function Stmt(text: string, keyword: string): Node {
    Node("statement", text, Some(keyword))
  }

  /** A free-text node. */
  function Text(text: string): Node {
    Node("text", text, None)
  }

  /** An expression node `{{ ... }}`. */
  function Expr(text: string): Node {
    Node("expression", text, None)
  }

  lemma Lead(body: string, sep: string, text: string)
    ensures "\n" + body + sep + text == "\n" + (body + sep + text)
  {
  }

  /** The first item is written on a fresh line at level 0. */
  lemma FirstLine(items: seq<Item>)
    requires 0 < |items| && NoUnderflow(items, |items|)
    ensures Buffer(items, 1) == "\n" + items[0].text
  {
    assert Level(items, 0) == 0;
    assert "" + ("\n" + Spaces(0)) == "\n";
  }

  /** Item k, not joined, goes on a new line after the buffer `"\n" + body`. */
  lemma NextLine(items: seq<Item>, k: nat, body: string, sep: string)
    requires 0 < k < |items| && NoUnderflow(items, |items|) && !Joined(items, k)
    requires Buffer(items, k) == "\n" + body
    requires sep == "\n" + Spaces(Level(items, k) * INDENT_SIZE)
    ensures Buffer(items, k + 1) == "\n" + (body + sep + items[k].text)
  {
    BrokenStep(items, k + 1);
    Lead(body, sep, items[k].text);
  }

  /** Item k, joined, follows the buffer `"\n" + body` directly. */
  lemma JoinedLine(items: seq<Item>, k: nat, body: string)
    requires 0 < k < |items| && NoUnderflow(items, |items|) && Joined(items, k)
    requires Buffer(items, k) == "\n" + body
    ensures Buffer(items, k + 1) == "\n" + (body + items[k].text)
  {
    JoinedStep(items, k + 1);
  }

  /** Items whose buffer is a line break followed by `body` lay out to `body` and a line break. */
  lemma LayoutFromBuffer(items: seq<Item>, body: string)
    requires items != [] && NoUnderflow(items, |items|)
    requires Buffer(items, |items|) == "\n" + body
    ensures Layout(items) == Ok(body + "\n")
  {
    assert Buffer(items, |items|)[1..] == body;
  }

  /** `{% if %}`, a text and `{% endif %}` are written at levels 0, 1, 0. */
  lemma IfBlockLayout(items: seq<Item>, open: string, body: string, close: string)
    requires |items| == 3 && forall k :: 0 <= k < 3 ==> !items[k].isExpression
    requires items[0].role == Opener && items[1].role == Plain && items[2].role == Closer
    requires items[0].text == open && items[1].text == body && items[2].text == close
    ensures Layout(items) == Ok(open + "\n  " + body + "\n" + close + "\n")
  {
    assert NoUnderflow(items, 3) && Level(items, 1) == 1 && Level(items, 2) == 0;
    FirstLine(items);
    NextLine(items, 1, open, "\n  ");
    NextLine(items, 2, open + "\n  " + body, "\n");
    LayoutFromBuffer(items, open + "\n  " + body + "\n" + close);
  }

  /** An `if` block indents its body by two spaces: `{% if x %}`, `  hello`, `{% endif %}`. */
  lemma IfBlockExample(open: string, body: string, close: string)
    ensures Format([Stmt(open, "if"), Text(body), Stmt(close, "endif")])
         == Ok(open + "\n  " + body + "\n" + close + "\n")
  {
    var nodes := [Stmt(open, "if"), Text(body), Stmt(close, "endif")];
    assert Items(nodes) == [Item(Opener, false, open), Item(Plain, false, body), Item(Closer, false, close)];
    IfBlockLayout(Items(nodes), open, body, close);
  }

  lemma NestedBlocksLevels(items: seq<Item>)
    requires |items| == 5
    requires items[0].role == Opener && items[1].role == Opener && items[2].role == Plain
    requires items[3].role == Closer && items[4].role == Closer
    ensures NoUnderflow(items, 5)
    ensures Level(items, 1) == 1 && Level(items, 2) == 2 && Level(items, 3) == 1 && Level(items, 4) == 0
  {
  }

  /** Nested `for` and `if` blocks go in at levels 0, 1, 2 and back out at 1, 0. */
  lemma NestedBlocksLayout(items: seq<Item>, f: string, i: string, x: string, ei: string, ef: string)
    requires |items| == 5 && forall k :: 0 <= k < 5 ==> !items[k].isExpression
    requires items[0].role == Opener && items[1].role == Opener && items[2].role == Plain
    requires items[3].role == Closer && items[4].role == Closer
    requires items[0].text == f && items[1].text == i && items[2].text == x
    requires items[3].text == ei && items[4].text == ef
    ensures Layout(items) == Ok(f + "\n  " + i + "\n    " + x + "\n  " + ei + "\n" + ef + "\n")
  {
    NestedBlocksLevels(items);
    FirstLine(items);
    NextLine(items, 1, f, "\n  ");
    NextLine(items, 2, f + "\n  " + i, "\n    ");
    NextLine(items, 3, f + "\n  " + i + "\n    " + x, "\n  ");
    NextLine(items, 4, f + "\n  " + i + "\n    " + x + "\n  " + ei, "\n");
    LayoutFromBuffer(items, f + "\n  " + i + "\n    " + x + "\n  " + ei + "\n" + ef);
  }

  lemma NestedBlocksExample(f: string, i: string, x: string, ei: string, ef: string)
    ensures Format([Stmt(f, "for"), Stmt(i, "if"), Text(x), Stmt(ei, "endif"), Stmt(ef, "endfor")])
         == Ok(f + "\n  " + i + "\n    " + x + "\n  " + ei + "\n" + ef + "\n")
  {
    var nodes := [Stmt(f, "for"), Stmt(i, "if"), Text(x), Stmt(ei, "endif"), Stmt(ef, "endfor")];
    assert Items(nodes) == [Item(Opener, false, f), Item(Opener, false, i), Item(Plain, false, x),
                            Item(Closer, false, ei), Item(Closer, false, ef)];
    NestedBlocksLayout(Items(nodes), f, i, x, ei, ef);
  }

  lemma ElseLevels(items: seq<Item>)
    requires |items| == 5
    requires items[0].role == Opener && items[1].role == Plain && items[2].role == Mid
    requires items[3].role == Plain && items[4].role == Closer
    ensures NoUnderflow(items, 5)
    ensures Level(items, 1) == 1 && Level(items, 2) == 0 && Level(items, 3) == 1 && Level(items, 4) == 0
  {
  }

  /** `else` goes back to the `if` level for its own line only: levels 0, 1, 0, 1, 0. */
  lemma ElseLayout(items: seq<Item>, i: string, a: string, e: string, b: string, ei: string)
    requires |items| == 5 && forall k :: 0 <= k < 5 ==> !items[k].isExpression
    requires items[0].role == Opener && items[1].role == Plain && items[2].role == Mid
    requires items[3].role == Plain && items[4].role == Closer
    requires items[0].text == i && items[1].text == a && items[2].text == e
    requires items[3].text == b && items[4].text == ei
    ensures Layout(items) == Ok(i + "\n  " + a + "\n" + e + "\n  " + b + "\n" + ei + "\n")
  {
    ElseLevels(items);
    FirstLine(items);
    NextLine(items, 1, i, "\n  ");
    NextLine(items, 2, i + "\n  " + a, "\n");
    NextLine(items, 3, i + "\n  " + a + "\n" + e, "\n  ");
    NextLine(items, 4, i + "\n  " + a + "\n" + e + "\n  " + b, "\n");
    LayoutFromBuffer(items, i + "\n  " + a + "\n" + e + "\n  " + b + "\n" + ei);
  }

  lemma ElseExample(i: string, a: string, e: string, b: string, ei: string)
    ensures Format([Stmt(i, "if"), Text(a), Stmt(e, "else"), Text(b), Stmt(ei, "endif")])
         == Ok(i + "\n  " + a + "\n" + e + "\n  " + b + "\n" + ei + "\n")
  {
    var nodes := [Stmt(i, "if"), Text(a), Stmt(e, "else"), Text(b), Stmt(ei, "endif")];
    assert Items(nodes) == [Item(Opener, false, i), Item(Plain, false, a), Item(Mid, false, e),
                            Item(Plain, false, b), Item(Closer, false, ei)];
    ElseLayout(Items(nodes), i, a, e, b, ei);
  }

  /** Consecutive expressions share a line; the text after them starts a new one. */
  lemma ExpressionJoinLayout(items: seq<Item>, a: string, b: string, t: string)
    requires |items| == 3 && items[0].isExpression && items[1].isExpression && !items[2].isExpression
    requires items[0].role == Plain && items[1].role == Plain && items[2].role == Plain
    requires items[0].text == a && items[1].text == b && items[2].text == t
    ensures Layout(items) == Ok(a + b + "\n" + t + "\n")
  {
    assert NoUnderflow(items, 3) && Level(items, 2) == 0;
    FirstLine(items);
    JoinedLine(items, 1, a);
    NextLine(items, 2, a + b, "\n");
    LayoutFromBuffer(items, a + b + "\n" + t);
  }

  lemma ExpressionJoinExample(a: string, b: string, t: string)
    ensures Format([Expr(a), Expr(b), Text(t)]) == Ok(a + b + "\n" + t + "\n")
  {
    var nodes := [Expr(a), Expr(b), Text(t)];
    assert Items(nodes) == [Item(Plain, true, a), Item(Plain, true, b), Item(Plain, false, t)];
    ExpressionJoinLayout(Items(nodes), a, b, t);
  }

  /** After an opener, plain items stay one level in: what `set` and an unclosed `if` both show. */
  lemma OpenerThenPlainLayout(items: seq<Item>, i: string, s: string, y: string)
    requires |items| == 3 && forall k :: 0 <= k < 3 ==> !items[k].isExpression
    requires items[0].role == Opener && items[1].role == Plain && items[2].role == Plain
    requires items[0].text == i && items[1].text == s && items[2].text == y
    ensures Layout(items) == Ok(i + "\n  " + s + "\n  " + y + "\n")
  {
    assert NoUnderflow(items, 3) && Level(items, 1) == 1 && Level(items, 2) == 1;
    FirstLine(items);
    NextLine(items, 1, i, "\n  ");
    NextLine(items, 2, i + "\n  " + s, "\n  ");
    LayoutFromBuffer(items, i + "\n  " + s + "\n  " + y);
  }

  /** A statement outside the twelve keywords (`set`) changes no level. */
  lemma UnrecognisedStatementExample(i: string, s: string, y: string)
    ensures Format([Stmt(i, "if"), Stmt(s, "set"), Text(y)]) == Ok(i + "\n  " + s + "\n  " + y + "\n")
  {
    var nodes := [Stmt(i, "if"), Stmt(s, "set"), Text(y)];
    assert Items(nodes) == [Item(Opener, false, i), Item(Plain, false, s), Item(Plain, false, y)];
    OpenerThenPlainLayout(Items(nodes), i, s, y);
  }

  /** An opener without a closer leaves the rest of the siblings indented. */
  lemma UnclosedOpenerExample(i: string, a: string, b: string)
    ensures Format([Stmt(i, "if"), Text(a), Text(b)]) == Ok(i + "\n  " + a + "\n  " + b + "\n")
  {
    var nodes := [Stmt(i, "if"), Text(a), Text(b)];
    assert Items(nodes) == [Item(Opener, false, i), Item(Plain, false, a), Item(Plain, false, b)];
    OpenerThenPlainLayout(Items(nodes), i, a, b);
  }

  /** A closer with no open block lowers a counter at 0: the formatter faults at that child. */
  lemma UnmatchedCloserExample(a: string, e: string, b: string)
    ensures Format([Text(a), Stmt(e, "endif"), Text(b)]) == Err(Underflow(1))
  {
    var nodes := [Text(a), Stmt(e, "endif"), Text(b)];
    var items := Items(nodes);
    assert items == [Item(Plain, false, a), Item(Closer, false, e), Item(Plain, false, b)];
    assert Level(items, 0) == 0 && Level(items, 1) == -1;
    FaultAtFirstUnderflow(items, 1);
  }

  /** An `else` at the top level faults too, although it lowers only the current counter. */
  lemma TopLevelElseExample(e: string)
    ensures Format([Stmt(e, "else")]) == Err(Underflow(0))
  {
    var nodes := [Stmt(e, "else")];
    var items := Items(nodes);
    assert items == [Item(Mid, false, e)];
    assert Level(items, 0) == -1;
    FaultAtFirstUnderflow(items, 0);
  }

  /**
   * A single child is written as its text and one line break, whatever the
   * text ends with: a text ending in a line break gives two at the end.
   */
  lemma SingleChildExample(t: string)
    ensures Format([Text(t)]) == Ok(t + "\n")
  {
    var items := Items([Text(t)]);
    assert items == [Item(Plain, false, t)];
    assert NoUnderflow(items, 1);
    FirstLine(items);
    LayoutFromBuffer(items, t);
  }

  /**
   * An empty first text drops nothing of its own: the line break the final
   * slice removes is its separator, so the next child's break starts the output.
   */
  lemma EmptyFirstTextExample(b: string)
    ensures Format([Text(""), Text(b)]) == Ok("\n" + b + "\n")
  {
    var items := Items([Text(""), Text(b)]);
    assert items == [Item(Plain, false, ""), Item(Plain, false, b)];
    assert NoUnderflow(items, 2) && Level(items, 1) == 0;
    FirstLine(items);
    NextLine(items, 1, "", "\n");
    LayoutFromBuffer(items, "" + "\n" + b);
    assert "" + "\n" + b == "\n" + b;
  }

  /** A root without children has nothing to format. */
  lemma NoChildrenExample()
    ensures Format([]) == Err(NoChildren)
  {
    assert Items([]) == [];
  }
}

/**
 * The layout engine of the Jinja formatter (`format_jinja_node`).
 *
 * The formatter walks the direct children of the root in order. Two counters
 * hold the level of the line being written (`curr`) and the level from the
 * next sibling on (`next`); openers raise `next`, `elif`/`else` lower `curr`
 * only, closers lower both, and `curr := next` ends every step. Each child's
 * text is preceded by a line break and two spaces per level, except that two
 * consecutive `expression` children are joined. The counters are unsigned,
 * so lowering one at 0 is a fault.
 *
 * The loop reads three things from a child: the role its keyword gives it,
 * whether its kind is `expression`, and its text. `Item` is that view of a
 * child, and the layout is specified over a sequence of items: the counter
 * value before item k (`Depth`), the level item i is written at (`Level`),
 * the separator written before it (`Sep`), the buffer after k items
 * (`Buffer`) and the whole result (`Layout`). `Format` is the layout of the
 * root's children, and `FormatJinjaNode`, the loop with its counters, is
 * proved to compute it.
 */
module JinjaLayout {
  import opened Wrappers
  import opened JinjaKeyword

  /** Spaces written per indentation level. */
  const INDENT_SIZE: nat := 2

  /** Why formatting aborts instead of producing text. */
  datatype Fault =
    | Underflow(at: nat)  // child `at` lowers an indentation counter that is already 0
    | NoChildren          // the root has no children, so the buffer is empty when sliced

  /** What the formatting loop reads from one child. */
  datatype Item = Item(role: Role, isExpression: bool, text: string)

  function ItemOf(node: Node): Item {
    Item(NodeRole(node), node.kind == "expression", node.text)
  }

  /** The children of a root, as the loop sees them. */
  function Items(nodes: seq<Node>): seq<Item> {
    seq(|nodes|, i requires 0 <= i < |nodes| => ItemOf(nodes[i]))
  }

  /** `n` spaces, as `" ".repeat(n)`. */
  function Spaces(n: nat): (s: string)
    ensures |s| == n
  {
    seq(n, _ => ' ')
  }

  /** How a role moves the `next` counter. */
  function Delta(role: Role): int {
    match role
    case Opener => 1
    case Closer => -1
    case _ => 0
  }

  /** Whether a role lowers the level its own line is written at. */
  predicate Lowers(role: Role) {
    role == Mid || role == Closer
  }

  /**
   * The value of both counters at the start of the step for item k (they
   * are equal there): openers seen minus closers seen among the first k
   * items. Negative only after an underflow.
   */
  function Depth(items: seq<Item>, k: nat): int
    requires k <= |items|
    decreases k
  {
    if k == 0 then 0 else Depth(items, k - 1) + Delta(items[k - 1].role)
  }

  /** The level item i is written at; negative exactly when it underflows. */
  function Level(items: seq<Item>, i: nat): int
    requires i < |items|
  {
    Depth(items, i) - (if Lowers(items[i].role) then 1 else 0)
  }

  /** No item among the first k underflows. */
  predicate NoUnderflow(items: seq<Item>, k: nat)
    requires k <= |items|
  {
    forall i :: 0 <= i < k ==> Level(items, i) >= 0
  }

  /** The index of the first item among the first k that underflows, if any. */
  function FirstUnderflow(items: seq<Item>, k: nat): (r: Option<nat>)
    requires k <= |items|
    ensures r == None <==> NoUnderflow(items, k)
    ensures r.Some? ==> r.value < k && Level(items, r.value) < 0 && NoUnderflow(items, r.value)
    decreases k
  {
    if k == 0 then None
    else
      match FirstUnderflow(items, k - 1)
      case Some(i) => Some(i)
      case None => if Level(items, k - 1) < 0 then Some(k - 1) else None
  }

  /** Whether item i is an expression right after an expression, written with nothing between them. */
  predicate Joined(items: seq<Item>, i: nat)
    requires i < |items|
  {
    0 < i && items[i - 1].isExpression && items[i].isExpression
  }

  /** What is written before the text of item i. */
  function Sep(items: seq<Item>, i: nat): string
    requires i < |items| && Level(items, i) >= 0
  {
    if Joined(items, i) then "" else "\n" + Spaces(Level(items, i) * INDENT_SIZE)
  }

  /** The buffer after the first k items: each separator followed by its item's text. */
  function Buffer(items: seq<Item>, k: nat): string
    requires k <= |items| && NoUnderflow(items, k)
    decreases k
  {
    if k == 0 then "" else Buffer(items, k - 1) + Sep(items, k - 1) + items[k - 1].text
  }

  /**
   * The first item always starts a new line, so a non-empty buffer starts
   * with a line break: the one `format_jinja_node` drops.
   */
  lemma {:induction false} BufferStartsWithBreak(items: seq<Item>, k: nat)
    requires 0 < k <= |items| && NoUnderflow(items, k)
    ensures |Buffer(items, k)| > 0 && Buffer(items, k)[0] == '\n'
  {
    if k == 1 {
      assert Sep(items, 0) == "\n" + Spaces(Level(items, 0) * INDENT_SIZE);
    } else {
      assert NoUnderflow(items, k - 1);
      BufferStartsWithBreak(items, k - 1);
    }
  }

  /**
   * The result of laying out a sequence of items: the first fault, or the
   * buffer without its leading line break and with one line break appended.
   */
  function Layout(items: seq<Item>): (r: Result<string, Fault>)
    ensures r == Err(NoChildren) <==> items == []
    ensures r.Err? && r.error.Underflow? ==>
              r.error.at < |items| && Level(items, r.error.at) < 0 && NoUnderflow(items, r.error.at)
    ensures r.Ok? <==> items != [] && NoUnderflow(items, |items|)
  {
    match FirstUnderflow(items, |items|)
    case Some(i) => Err(Underflow(i))
    case None =>
      if |items| == 0 then Err(NoChildren)
      else
        BufferStartsWithBreak(items, |items|);
        Ok(Buffer(items, |items|)[1..] + "\n")
  }

  /** The formatted text of a root with the given children. */
  function Format(nodes: seq<Node>): Result<string, Fault> {
    Layout(Items(nodes))
  }

  /** Formatting stops at the first item that underflows. */
  lemma {:induction false} FaultAtFirstUnderflow(items: seq<Item>, i: nat)
    requires i < |items| && NoUnderflow(items, i) && Level(items, i) < 0
    ensures Layout(items) == Err(Underflow(i))
  {
    var first := FirstUnderflow(items, |items|);
    assert first.Some? && first.value == i;
  }

  /**
   * One more item that does not underflow extends the buffer by its
   * separator and text.
   */
  lemma {:induction false} BufferStep(items: seq<Item>, i: nat, level: nat)
    requires i < |items| && NoUnderflow(items, i) && level == Level(items, i)
    ensures NoUnderflow(items, i + 1)
    ensures !Joined(items, i) ==>
              Buffer(items, i + 1) == Buffer(items, i) + ("\n" + Spaces(level * INDENT_SIZE)) + items[i].text
    ensures Joined(items, i) ==> Buffer(items, i + 1) == Buffer(items, i) + items[i].text
  {
  }

  /**
   * The keyword `match` of one step: the new values of the two counters, or
   * `None` when a counter would drop below 0. The counters are equal on entry.
   */
  method StepCounters(keyword: Option<string>, curr: nat, next: nat) returns (r: Option<(nat, nat)>)
    requires keyword.Some? ==> IsBlockKeyword(keyword.value)
    requires curr == next
    ensures r.None? <==> Lowers(RoleOf(keyword)) && curr == 0
    ensures r.Some? ==> r.value.0 == curr - (if Lowers(RoleOf(keyword)) then 1 else 0)
    ensures r.Some? ==> r.value.1 == next + Delta(RoleOf(keyword))
  {
    var currIndent, nextIndent := curr, next;
    if keyword.Some? {
      match keyword.value
      case "if" | "for" | "macro" | "call" | "filter" =>
        nextIndent := nextIndent + 1;
      case "elif" | "else" =>
        if currIndent == 0 {
          return None;
        }
        currIndent := currIndent - 1;
      case "endif" | "endfor" | "endmacro" | "endcall" | "endfilter" =>
        if currIndent == 0 {
          return None;
        }
        currIndent := currIndent - 1;
        nextIndent := nextIndent - 1;
      case _ =>
        assert false;
    }
    r := Some((currIndent, nextIndent));
  }

  /**
   * The formatting loop: two unsigned counters, the kind of the last child
   * and a growing buffer. Returns exactly what `Format` specifies.
   */
  method FormatJinjaNode(root: seq<Node>) returns (r: Result<string, Fault>)
    ensures r == Format(root)
  {
    ghost var items := Items(root);
    var formatted := "";
    var currIndent: nat := 0;
    var nextIndent: nat := 0;
    var lastNodeKind := "";
    for i := 0 to |root|
      invariant currIndent == nextIndent == Depth(items, i)
      invariant NoUnderflow(items, i)
      invariant formatted == Buffer(items, i)
      invariant lastNodeKind == if i == 0 then "" else root[i - 1].kind
    {
      var node := root[i];
      var keyword := PeekStmtKeyword(node);
      assert items[i] == Item(RoleOf(keyword), node.kind == "expression", node.text);
      var counters := StepCounters(keyword, currIndent, nextIndent);
      if counters.None? {
        FaultAtFirstUnderflow(items, i);
        return Err(Underflow(i));
      }
      currIndent, nextIndent := counters.value.0, counters.value.1;
      BufferStep(items, i, currIndent);
      assert Joined(items, i) <==> node.kind == "expression" && lastNodeKind == "expression";
      if node.kind != "expression" || lastNodeKind != "expression" {
        formatted := formatted + ("\n" + Spaces(currIndent * INDENT_SIZE));
      }
      formatted := formatted + node.text;
      lastNodeKind := node.kind;
      currIndent := nextIndent;
    }
    if |formatted| == 0 {
      if |root| > 0 {
        BufferStartsWithBreak(items, |root|);
      }
      return Err(NoChildren);
    }
    r := Ok(formatted[1..] + "\n");
  }
}

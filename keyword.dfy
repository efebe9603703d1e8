/**
 * The keyword classifier of the Jinja formatter (`peek_jinja_stmt_keyword`).
 *
 * A syntax-tree node is abstracted to the three things the formatter reads
 * from it: its grammar production (`kind`), its verbatim source text, and the
 * decoded text of its second child (index 1), which the grammar reserves for a
 * statement's leading keyword.
 */
module JinjaKeyword {
  import opened Wrappers

  /**
   * A node of the concrete syntax tree. `child1` is `None` when the node has
   * no child at index 1 or when that child's slice is not valid UTF-8.
   */
  datatype Node = Node(kind: string, text: string, child1: Option<string>)

  /** The twelve block keywords the classifier recognises. */
  const BlockKeywords: set<string> :=
    {"if", "elif", "else", "endif", "for", "endfor", "macro", "endmacro",
     "call", "endcall", "filter", "endfilter"}

  predicate IsBlockKeyword(t: string) {
    t in BlockKeywords
  }

  /**
   * Returns the block keyword a statement node starts with, or `None` for any
   * other node (not a statement, no readable second child, or a statement such
   * as `set` or `include` outside the block keywords). Never faults.
   */
  function PeekStmtKeyword(node: Node): (r: Option<string>)
    ensures node.kind != "statement" ==> r == None
    ensures r.Some? <==> node.kind == "statement" && node.child1.Some? && IsBlockKeyword(node.child1.value)
    ensures r.Some? ==> r == node.child1
  {
    if node.kind != "statement" then None
    else
      match node.child1
      case None => None
      case Some(text) =>
        match text
        case "if" | "elif" | "else" | "endif" | "for" | "endfor" | "macro" | "endmacro"
          | "call" | "endcall" | "filter" | "endfilter" => Some(text)
        case _ => None
  }

  /**
   * The structural role of a node in the indentation scheme: a block opener,
   * a mid-block marker (`elif`/`else`), a block closer, or anything else.
   */
  datatype Role = Opener | Mid | Closer | Plain

  /**
   * The role the formatter's keyword `match` assigns to a classifier result.
   * Any keyword outside the twelve reaches the `panic!` arm, which the
   * precondition excludes.
   */
  function RoleOf(keyword: Option<string>): (role: Role)
    requires keyword.Some? ==> IsBlockKeyword(keyword.value)
    ensures role == Plain <==> keyword.None?
  {
    match keyword
    case None => Plain
    case Some(k) =>
      match k
      case "if" | "for" | "macro" | "call" | "filter" => Opener
      case "elif" | "else" => Mid
      case "endif" | "endfor" | "endmacro" | "endcall" | "endfilter" => Closer
  }

  /** The role of a node, obtained through the classifier. */
  function NodeRole(node: Node): Role {
    RoleOf(PeekStmtKeyword(node))
  }

  /**
   * A node that is not a statement, or a statement whose keyword is not one of
   * the twelve, never takes part in indentation.
   */
  lemma UnrecognisedIsPlain(node: Node)
    ensures NodeRole(node) == Plain <==>
              node.kind != "statement" || node.child1.None? || !IsBlockKeyword(node.child1.value)
  {
  }
}

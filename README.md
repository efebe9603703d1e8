# Jinja formatter layout engine in Dafny

This project models the layout engine of the Jinja template formatter. It has two parts.

- **The keyword classifier** (`peek_jinja_stmt_keyword`). It tells whether a syntax-tree node is a statement that starts with one of the twelve block keywords.
- **The formatting loop** (`format_jinja_node`). It walks the direct children of the parsed template's root and re-indents them.

Module by module:

- `JinjaKeyword` (keyword.dfy) abstracts a tree-sitter node as a `Node`. A node carries its grammar kind, its verbatim text, and the decoded text of its child at index 1 (`None` when that child is absent or not valid UTF-8). The module defines the classifier and the `Role` each keyword plays: opener, `elif`/`else`, closer, or none.
- `JinjaLayout` (layout.dfy) specifies the loop over the `Item` view of a child. That view is exactly what the loop reads: the child's role, whether its kind is `expression`, and its text.
  - `Depth` is the value of both indentation counters before a child.
  - `Level` is the level a child is written at.
  - `Sep` is the separator written before a child: a line break and two spaces per level, or nothing between two consecutive expressions.
  - `Buffer` is the text built so far.
  - `Layout` is the result: the buffer without its first character, followed by one line break.
  - `Format(nodes)` is `Layout(Items(nodes))`.
  - `FormatJinjaNode` is the loop itself, with its two unsigned counters, the last child's kind and a growing buffer. It is proved to return `Format(root)`.
- `JinjaLayoutProperties` (layout_lemmas.dfy) proves what the layout promises, for every sequence of items:
  - when formatting faults;
  - how openers, `elif`/`else` and closers move the levels of their siblings;
  - that block bodies are indented;
  - that runs of expressions are joined;
  - that every child's text appears verbatim and in order;
  - that removing the separators leaves exactly the concatenated texts;
  - the overall shape of the output.
- `JinjaLayoutExamples` (layout_examples.dfy) works out concrete templates, with every text left as a parameter.

The counters are `usize` in the source, so lowering one at 0 faults. The model returns `Err(Underflow(i))` for the first child `i` that would do this. It never produces a wrapped value.

With no children the final `formatted[1..]` slices an empty string and faults too. The model returns `Err(NoChildren)` for that case.

The output starts with the first child's text, with no indentation. The leading line break the loop writes before that text is the character the final slice drops. Because texts are copied verbatim, the output starts with a line break when the first child's text does. It also starts with one when that text is empty and the next child starts a new line: that child's line break then comes first (`EmptyFirstTextExample`).

The output ends with the last child's text followed by one appended line break. When that text itself ends in a line break, the output ends in two. The code does not strip or merge trailing line breaks (`SingleChildExample`).

## Model

| member | source | states |
|---|---|---|
| JinjaKeyword.PeekStmtKeyword | src/main.rs:50-67 | A non-statement gives `None`. The result is `Some` exactly when the node is a statement with a readable child 1 whose text is one of the twelve block keywords, and then it is that text. |
| JinjaKeyword.RoleOf | src/main.rs:79-95 | The keyword `match` gives a role to every classifier result. A result is left without a role (`Plain`) exactly when it is `None`. The `panic!` arm is unreachable because the classifier only returns the twelve keywords. |
| JinjaKeyword.UnrecognisedIsPlain | src/main.rs:55-66 | A node plays no part in indentation exactly when it is not a statement, has no readable child 1, or its keyword is not one of the twelve. |
| JinjaKeyword.NodeRole | src/main.rs:78-95 | No contract. It is defined as the role the keyword `match` gives to the classifier's result for a node. |
| JinjaLayout.ItemOf | src/main.rs:77-105 | No contract. It is defined as what the loop reads from a child: its role, whether its kind is `expression` (lines 97 and 105), and its text (line 102). |
| JinjaLayout.Spaces | src/main.rs:99 | `" ".repeat(n)` has length `n`. |
| JinjaLayout.Depth | src/main.rs:79-106 | No contract. It is defined as the value of both counters before child k: 0 before the first child, then moved by each child's keyword, with `curr := next` at the end of every step. |
| JinjaLayout.Level | src/main.rs:84-99 | No contract. It is defined as the level child i is written at: the counter before it, less one for `elif`/`else`/closers. |
| JinjaLayout.Sep | src/main.rs:97-100 | No contract. It is defined as what is pushed before child i: nothing when it and the previous child are expressions, else `'\n'` and `level * INDENT_SIZE` spaces. |
| JinjaLayout.Buffer | src/main.rs:97-103 | No contract. It is defined as `formatted` after k children: each child's separator followed by its text. |
| JinjaLayout.Format | src/main.rs:69-109 | No contract. It is defined as `format_jinja_node` on a root: the layout of its children seen as items. |
| JinjaLayout.FirstUnderflow | src/main.rs:84-89 | Finds the first child whose level would be negative, that is, a decrement at 0. It is `None` exactly when no child among the first k underflows. |
| JinjaLayout.BufferStartsWithBreak | src/main.rs:74-100 | Since `last_node_kind` starts as `""`, the first child always gets a break, so a non-empty buffer starts with `'\n'`. |
| JinjaLayout.Layout | src/main.rs:69-109 | The result is `NoChildren` exactly for an empty root. An underflow error names a child that underflows, after none has. Success holds exactly when there are children and none underflows. |
| JinjaLayout.FaultAtFirstUnderflow | src/main.rs:84-89 | Formatting stops with `Underflow(i)` at the first child `i` that lowers a counter at 0. |
| JinjaLayout.BufferStep | src/main.rs:97-103 | One step appends the child's text, preceded by `'\n'` and `2*level` spaces unless the child is joined to a preceding expression. |
| JinjaLayout.StepCounters | src/main.rs:79-95 | Openers raise `next` only. `elif`/`else` lower `curr` only. Closers lower both. It is `None` exactly when a lowering keyword meets a counter at 0. |
| JinjaLayout.FormatJinjaNode | src/main.rs:69-109 | The loop, with its unsigned counters, last kind and buffer, returns exactly `Format(root)`. |
| JinjaLayoutProperties.DepthIsNet | src/main.rs:79-106 | The counter before child k equals the openers minus the closers among the first k children. |
| JinjaLayoutProperties.DepthSplit | src/main.rs:79-106 | Between two children, the counter moves by the net nesting of the children in between. |
| JinjaLayoutProperties.NetSplit | src/main.rs:79-106 | The net nesting of a range is the sum of the net nestings of its two parts. |
| JinjaLayoutProperties.DepthNonNegative | src/main.rs:72-106 | Until a child underflows, the counters stay non-negative. |
| JinjaLayoutProperties.NoUnderflowIff | src/main.rs:84-89 | No child underflows exactly when every `elif`/`else`/closer has an unclosed opener before it. |
| JinjaLayoutProperties.LayoutSucceedsIff | src/main.rs:76-108 | Formatting succeeds exactly when the root has children and every lowering keyword is matched. |
| JinjaLayoutProperties.FaultIsFirstUnmatched | src/main.rs:84-89 | Formatting faults at child i exactly when i is the first lowering keyword met while no opener is unclosed. |
| JinjaLayoutProperties.LevelAfter | src/main.rs:79-106 | A later sibling's level follows from the counter at an earlier child, that child's move, and the net nesting in between. |
| JinjaLayoutProperties.OpenerIndentsFollowing | src/main.rs:81-83 | An opener is written at the current level. Once `curr := next`, a later sibling is written one level deeper when it is not an `elif`/`else`/closer and the siblings in between open as many blocks as they close. |
| JinjaLayoutProperties.MidOutdentsOnlyItself | src/main.rs:84-86 | `elif`/`else` is written one level below the current level, and the next siblings return to it. |
| JinjaLayoutProperties.CloserOutdentsRest | src/main.rs:87-90 | A closer is written one level lower, and later siblings stay at that lower level. |
| JinjaLayoutProperties.BlockBodyIndented | src/main.rs:79-106 | For an opener, a balanced body and a closer, the closer aligns with the opener and the depth after the block equals the depth before it. Every body item other than an `elif`/`else`/closer is at least one level in, and those of the block's own level exactly one level in. The block's own `elif`/`else` is aligned with the opener. Every item inside a nested block, its closer included, is at least one level in. |
| JinjaLayoutProperties.SepShape | src/main.rs:97-100 | The separator is empty exactly for a joined child. Otherwise it is `'\n'` followed by `2*level` spaces. |
| JinjaLayoutProperties.JoinedStep | src/main.rs:97-103 | An expression right after an expression adds only its text. |
| JinjaLayoutProperties.BrokenStep | src/main.rs:97-103 | Any other child adds a line break, its indentation and its text. |
| JinjaLayoutProperties.ExpressionRunJoined | src/main.rs:97-105 | A run of consecutive expressions is written as their texts with nothing between them. |
| JinjaLayoutProperties.BufferSplit | src/main.rs:97-103 | The buffer after k children is the buffer after i children followed by the separators and texts of the children in between. |
| JinjaLayoutProperties.BufferPrefix | src/main.rs:97-103 | An earlier buffer is a prefix of every later one, because text is only appended. |
| JinjaLayoutProperties.TextInBuffer | src/main.rs:102-103 | Each child's text sits verbatim in every later buffer, right after its separator. |
| JinjaLayoutProperties.LayoutOk | src/main.rs:108 | A successful result is the non-empty buffer without its leading `'\n'`, plus one `'\n'`. |
| JinjaLayoutProperties.TextVerbatim | src/main.rs:102-108 | Every child's text appears verbatim in the output, one position before its place in the buffer. |
| JinjaLayoutProperties.TextsInOrder | src/main.rs:76-103 | Children's texts appear in order and do not overlap. |
| JinjaLayoutProperties.StripSeparators | src/main.rs:97-103 | Deleting the inserted separators from the buffer leaves exactly the children's texts, concatenated in order. |
| JinjaLayoutProperties.SeparatorsAreWhitespace | src/main.rs:97-100 | Every inserted character is a line break or a space. |
| JinjaLayoutProperties.OutputShape | src/main.rs:74-108 | The first child is at level 0, and the output starts with its text. The output ends in `'\n'`. Putting the dropped `'\n'` back and removing the final one gives the buffer. |
| JinjaLayoutProperties.UnrecognisedStatementTransparent | src/main.rs:57-63 | A statement whose keyword is not one of the twelve (`set`, `include`, ...) formats exactly as a text child with the same text would. |
| JinjaLayoutExamples.IfBlockExample | src/main.rs:69-109 | `if`, text, `endif` gives levels 0, 1, 0: `open\n  body\nclose\n`. |
| JinjaLayoutExamples.NestedBlocksExample | src/main.rs:69-109 | `for`, `if`, text, `endif`, `endfor` gives levels 0, 1, 2, 1, 0. |
| JinjaLayoutExamples.ElseExample | src/main.rs:84-86 | `if`, text, `else`, text, `endif` gives levels 0, 1, 0, 1, 0. |
| JinjaLayoutExamples.ExpressionJoinExample | src/main.rs:97-100 | Two expressions share a line, and the text after them starts a new one. |
| JinjaLayoutExamples.UnrecognisedStatementExample | src/main.rs:57-63 | A `set` statement inside an `if` changes no level. |
| JinjaLayoutExamples.UnclosedOpenerExample | src/main.rs:81-83 | An opener without a closer leaves the rest of the siblings indented. |
| JinjaLayoutExamples.UnmatchedCloserExample | src/main.rs:87-89 | An `endif` with no open block faults at that child. |
| JinjaLayoutExamples.TopLevelElseExample | src/main.rs:84-85 | A top-level `else` faults, although it lowers only the current counter. |
| JinjaLayoutExamples.SingleChildExample | src/main.rs:97-108 | A single child is written as its text followed by one line break, whatever the text ends with. |
| JinjaLayoutExamples.EmptyFirstTextExample | src/main.rs:97-108 | An empty first text followed by a text gives an output that starts with the second child's line break. |
| JinjaLayoutExamples.NoChildrenExample | src/main.rs:108 | A root without children does not format. |

## Left out

- HTTP transport is not modelled: the `axum` router, the `tokio` main, the listener and the response builders (src/main.rs:111-167). They are network I/O and async plumbing.
- JSON request decoding with `serde_json` (src/main.rs:117-124) is a foreign library call and is not modelled.
- Tree-sitter parsing (src/main.rs:128-134) is an external grammar. The model starts from the root's children as a sequence of `Node`s.
- The index page is not modelled: the Markdown renderer and the static HTML (src/main.rs:16-48, 143-149).
- UTF-8 decoding of node slices (`utf8_text`, src/main.rs:56, 102) is abstracted:
  - the already decoded `text` field stands in for a child's slice, so the `unwrap` at :102 is assumed to succeed;
  - `child1` is `None` when child 1 does not decode.
- Only the counters' lower bound is modelled. `usize` overflow when an opener raises a counter past the machine width is not modelled, because no template reaches it.
- A fault is modelled as an `Err` result. Whether it is a `panic!` (debug build) or a wrapped counter whose indentation string is too large to allocate (release build) is not distinguished. Both end formatting at that child.
- Idempotence after re-parsing the output is not modelled. It depends on the tree-sitter grammar, which is not part of this model.

/**
 * Properties of the layout: the counters as a count of openers and closers,
 * when formatting faults, how each keyword moves the levels of its siblings,
 * block bodies, expression joining, verbatim texts and the output's shape.
 * They are stated over any sequence of items; `Format` is the layout of the
 * root's children seen as items.
 */
module JinjaLayoutProperties {
  import opened Wrappers
  import opened JinjaKeyword
  import opened JinjaLayout

  /**
   * The nesting items i up to (not including) j add: the openers among them
   * minus the closers.
   */
  function Net(items: seq<Item>, i: nat, j: nat): int
    requires i <= j <= |items|
    decreases j
  {
    if i == j then 0 else Net(items, i, j - 1) + Delta(items[j - 1].role)
  }

  lemma {:induction false} NetSplit(items: seq<Item>, i: nat, m: nat, j: nat)
    requires i <= m <= j <= |items|
    ensures Net(items, i, j) == Net(items, i, m) + Net(items, m, j)
  {
    if m < j {
      NetSplit(items, i, m, j - 1);
    }
  }

  /** The counters before item k hold the openers minus the closers among the first k items. */
  lemma {:induction false} DepthIsNet(items: seq<Item>, k: nat)
    requires k <= |items|
    ensures Depth(items, k) == Net(items, 0, k)
  {
    if k > 0 {
      DepthIsNet(items, k - 1);
    }
  }

  /** The counters move by the net nesting of the items in between. */
  lemma {:induction false} DepthSplit(items: seq<Item>, i: nat, j: nat)
    requires i <= j <= |items|
    ensures Depth(items, j) == Depth(items, i) + Net(items, i, j)
  {
    DepthIsNet(items, i);
    DepthIsNet(items, j);
    NetSplit(items, 0, i, j);
  }

  /** Until an item underflows, the unsigned counters stay non-negative. */
  lemma {:induction false} DepthNonNegative(items: seq<Item>, k: nat)
    requires k <= |items| && NoUnderflow(items, k)
    ensures Depth(items, k) >= 0
  {
    if k > 0 {
      assert Level(items, k - 1) >= 0;
      DepthNonNegative(items, k - 1);
    }
  }

  /** Every `elif`/`else`/closer among the first k items has an unclosed opener before it. */
  predicate LoweringsMatched(items: seq<Item>, k: nat)
    requires k <= |items|
  {
    forall j :: 0 <= j < k && Lowers(items[j].role) ==> Net(items, 0, j) >= 1
  }

  /** No item underflows exactly when every `elif`/`else`/closer has an unclosed opener before it. */
  lemma {:induction false} NoUnderflowIff(items: seq<Item>, k: nat)
    requires k <= |items|
    ensures NoUnderflow(items, k) <==> LoweringsMatched(items, k)
  {
    if k > 0 {
      NoUnderflowIff(items, k - 1);
      DepthIsNet(items, k - 1);
      assert NoUnderflow(items, k) <==> NoUnderflow(items, k - 1) && Level(items, k - 1) >= 0;
      assert LoweringsMatched(items, k) <==>
               LoweringsMatched(items, k - 1) && (Lowers(items[k - 1].role) ==> Net(items, 0, k - 1) >= 1);
      if NoUnderflow(items, k - 1) {
        DepthNonNegative(items, k - 1);
      }
    }
  }

  /** Formatting succeeds exactly when there are items and no lowering keyword is unmatched. */
  lemma {:induction false} LayoutSucceedsIff(items: seq<Item>)
    ensures Layout(items).Ok? <==>
              items != [] &&
              forall i :: 0 <= i < |items| && Lowers(items[i].role) ==> Net(items, 0, i) >= 1
  {
    NoUnderflowIff(items, |items|);
  }

  /**
   * Formatting faults at item i exactly when i is the first `elif`/`else`/closer
   * met while no opener is unclosed.
   */
  lemma {:induction false} FaultIsFirstUnmatched(items: seq<Item>, i: nat)
    requires i < |items|
    ensures Layout(items) == Err(Underflow(i)) <==>
              Lowers(items[i].role) && Net(items, 0, i) == 0 &&
              forall j :: 0 <= j < i && Lowers(items[j].role) ==> Net(items, 0, j) >= 1
  {
    NoUnderflowIff(items, i);
    DepthIsNet(items, i);
    if NoUnderflow(items, i) {
      DepthNonNegative(items, i);
      if Level(items, i) < 0 {
        FaultAtFirstUnderflow(items, i);
      }
    }
  }

  /** The level of a later sibling j, in terms of the state at item i and the items in between. */
  lemma {:induction false} LevelAfter(items: seq<Item>, i: nat, j: nat)
    requires i < j < |items|
    ensures Level(items, j) ==
              Depth(items, i) + Delta(items[i].role) + Net(items, i + 1, j)
              - (if Lowers(items[j].role) then 1 else 0)
  {
    assert Depth(items, i + 1) == Depth(items, i) + Delta(items[i].role);
    DepthSplit(items, i + 1, j);
  }

  /**
   * An opener is written at the current level; a later sibling that is not
   * an `elif`/`else`/closer, with as many blocks opened as closed between the
   * two, is written one level deeper.
   */
  lemma {:induction false} OpenerIndentsFollowing(items: seq<Item>, i: nat, j: nat)
    requires i < j < |items| && items[i].role == Opener
    requires Net(items, i + 1, j) == 0 && !Lowers(items[j].role)
    ensures Level(items, i) == Depth(items, i)
    ensures Level(items, j) == Level(items, i) + 1
  {
    LevelAfter(items, i, j);
  }

  /**
   * `elif`/`else` is written one level below the current level, and the
   * siblings after it return to the current level.
   */
  lemma {:induction false} MidOutdentsOnlyItself(items: seq<Item>, i: nat, j: nat)
    requires i < j < |items| && items[i].role == Mid
    requires Net(items, i + 1, j) == 0 && !Lowers(items[j].role)
    ensures Level(items, i) == Depth(items, i) - 1
    ensures Level(items, j) == Depth(items, i) == Level(items, i) + 1
  {
    LevelAfter(items, i, j);
  }

  /** A closer is written one level lower, and the siblings after it stay at that level. */
  lemma {:induction false} CloserOutdentsRest(items: seq<Item>, i: nat, j: nat)
    requires i < j < |items| && items[i].role == Closer
    requires Net(items, i + 1, j) == 0 && !Lowers(items[j].role)
    ensures Level(items, i) == Depth(items, i) - 1
    ensures Level(items, j) == Level(items, i)
  {
    LevelAfter(items, i, j);
  }

  /** Items a up to (not including) b close every block they open, and never close one they did not open. */
  predicate Balanced(items: seq<Item>, a: nat, b: nat)
    requires a <= b <= |items|
  {
    Net(items, a, b) == 0 && forall p :: a <= p <= b ==> Net(items, a, p) >= 0
  }

  /**
   * A block: an opener at a, a balanced body, and its closer at b. The closer
   * is aligned with the opener, and the level after the block is the level
   * before it. Every body item other than an `elif`/`else`/closer is indented
   * at least one level; the body's own such items (those not inside a nested
   * block) exactly one level. The block's own `elif`/`else` is aligned with
   * the opener, and every item inside a nested block, its `elif`/`else` and
   * closer included, is indented at least one level.
   */
  lemma {:induction false} BlockBodyIndented(items: seq<Item>, a: nat, b: nat)
    requires a < b < |items|
    requires items[a].role == Opener && items[b].role == Closer
    requires Balanced(items, a + 1, b)
    ensures Level(items, b) == Level(items, a)
    ensures Depth(items, b + 1) == Depth(items, a)
    ensures forall c :: a < c < b && !Lowers(items[c].role) ==> Level(items, c) >= Level(items, a) + 1
    ensures forall c :: a < c < b && Net(items, a + 1, c) == 0 && !Lowers(items[c].role) ==>
              Level(items, c) == Level(items, a) + 1
    ensures forall c :: a < c < b && Net(items, a + 1, c) == 0 && items[c].role == Mid ==>
              Level(items, c) == Level(items, a)
    ensures forall c :: a < c < b && Net(items, a + 1, c) >= 1 ==> Level(items, c) >= Level(items, a) + 1
  {
    LevelAfter(items, a, b);
    forall c | a < c < b
      ensures Level(items, c) == Level(items, a) + 1 + Net(items, a + 1, c) - (if Lowers(items[c].role) then 1 else 0)
    {
      LevelAfter(items, a, c);
    }
  }

  /** The texts of items i up to (not including) j, concatenated. */
  function Texts(items: seq<Item>, i: nat, j: nat): string
    requires i <= j <= |items|
    decreases j
  {
    if i == j then "" else Texts(items, i, j - 1) + items[j - 1].text
  }

  lemma PieceRegroup(whole: string, prefix: string, sep: string, text: string,
                     start: string, run: string, longer: string)
    requires whole == prefix + sep + text && prefix == start + run && longer == run + (sep + text)
    ensures whole == start + longer
  {
    calc {
      whole;
      (start + run) + sep + text;
      start + (run + (sep + text));
    }
  }

  lemma AppendEmpty(x: string, empty: string)
    requires empty == ""
    ensures x == x + empty
  {
  }

  lemma AppendRegroup(whole: string, prefix: string, start: string, run: string, text: string, longer: string)
    requires whole == prefix + text && prefix == start + run && longer == run + text
    ensures whole == start + longer
  {
  }

  /** What is written before item i: nothing when it is joined, else a line break and its indentation. */
  lemma {:induction false} SepShape(items: seq<Item>, i: nat)
    requires i < |items| && Level(items, i) >= 0
    ensures Sep(items, i) == "" <==> Joined(items, i)
    ensures !Joined(items, i) ==> |Sep(items, i)| == 1 + INDENT_SIZE * Level(items, i)
    ensures forall j :: 0 <= j < |Sep(items, i)| ==> Sep(items, i)[j] == if j == 0 then '\n' else ' '
  {
  }

  /** An item joined to its predecessor adds only its text to the buffer. */
  lemma {:induction false} JoinedStep(items: seq<Item>, k: nat)
    requires 0 < k <= |items| && NoUnderflow(items, k) && Joined(items, k - 1)
    ensures NoUnderflow(items, k - 1)
    ensures Buffer(items, k) == Buffer(items, k - 1) + items[k - 1].text
  {
    NoUnderflowPrefix(items, k - 1, k);
    BufferStep(items, k - 1, Level(items, k - 1));
  }

  /** An item not joined to its predecessor adds a line break, its indentation and its text. */
  lemma {:induction false} BrokenStep(items: seq<Item>, k: nat)
    requires 0 < k <= |items| && NoUnderflow(items, k) && !Joined(items, k - 1)
    ensures NoUnderflow(items, k - 1)
    ensures Buffer(items, k) == Buffer(items, k - 1) + ("\n" + Spaces(Level(items, k - 1) * INDENT_SIZE)) + items[k - 1].text
  {
    NoUnderflowPrefix(items, k - 1, k);
    BufferStep(items, k - 1, Level(items, k - 1));
  }

  /** A run of consecutive `expression` children is written with nothing between their texts. */
  lemma {:induction false} ExpressionRunJoined(items: seq<Item>, a: nat, b: nat)
    requires a < b <= |items| && NoUnderflow(items, b)
    requires forall c :: a <= c < b ==> items[c].isExpression
    ensures NoUnderflow(items, a + 1)
    ensures Buffer(items, b) == Buffer(items, a + 1) + Texts(items, a + 1, b)
  {
    if b > a + 1 {
      assert NoUnderflow(items, b - 1);
      ExpressionRunJoined(items, a, b - 1);
      JoinedStep(items, b);
      AppendRegroup(Buffer(items, b), Buffer(items, b - 1), Buffer(items, a + 1),
                    Texts(items, a + 1, b - 1), items[b - 1].text, Texts(items, a + 1, b));
    } else {
      AppendEmpty(Buffer(items, b), Texts(items, a + 1, b));
    }
  }

  /** What items i up to (not including) k add to the buffer: each one's separator and text. */
  function Pieces(items: seq<Item>, i: nat, k: nat): string
    requires i <= k <= |items| && NoUnderflow(items, k)
    decreases k
  {
    if i == k then "" else Pieces(items, i, k - 1) + (Sep(items, k - 1) + items[k - 1].text)
  }

  lemma NoUnderflowPrefix(items: seq<Item>, i: nat, k: nat)
    requires i <= k <= |items| && NoUnderflow(items, k)
    ensures NoUnderflow(items, i)
  {
  }

  /** One step of `BufferSplit`: the split extends by one item. */
  lemma {:induction false} BufferSplitStep(items: seq<Item>, i: nat, k: nat)
    requires i < k <= |items| && NoUnderflow(items, k)
    requires NoUnderflow(items, i) && NoUnderflow(items, k - 1)
    requires Buffer(items, k - 1) == Buffer(items, i) + Pieces(items, i, k - 1)
    ensures Buffer(items, k) == Buffer(items, i) + Pieces(items, i, k)
  {
    PieceRegroup(Buffer(items, k), Buffer(items, k - 1), Sep(items, k - 1), items[k - 1].text,
                 Buffer(items, i), Pieces(items, i, k - 1), Pieces(items, i, k));
  }

  /** The buffer after k items is the buffer after i items followed by the pieces of the items in between. */
  lemma {:induction false} BufferSplit(items: seq<Item>, i: nat, k: nat)
    requires i <= k <= |items| && NoUnderflow(items, k)
    ensures NoUnderflow(items, i)
    ensures Buffer(items, k) == Buffer(items, i) + Pieces(items, i, k)
  {
    if i < k {
      NoUnderflowPrefix(items, k - 1, k);
      BufferSplit(items, i, k - 1);
      BufferSplitStep(items, i, k);
    } else {
      AppendEmpty(Buffer(items, k), Pieces(items, i, k));
    }
  }

  lemma PrefixOfAppend(x: string, y: string, z: string)
    requires x == y + z
    ensures |y| <= |x| && x[..|y|] == y
  {
  }

  /** An earlier buffer is a prefix of a later one: text is only ever appended. */
  lemma {:induction false} BufferPrefix(items: seq<Item>, i: nat, k: nat)
    requires i <= k <= |items| && NoUnderflow(items, k)
    ensures NoUnderflow(items, i)
    ensures |Buffer(items, i)| <= |Buffer(items, k)| && Buffer(items, k)[..|Buffer(items, i)|] == Buffer(items, i)
  {
    BufferSplit(items, i, k);
    PrefixOfAppend(Buffer(items, k), Buffer(items, i), Pieces(items, i, k));
  }

  /** Where item i's text starts in the buffer: after the buffer so far and its separator. */
  function TextPos(items: seq<Item>, i: nat): nat
    requires i < |items| && NoUnderflow(items, i + 1)
  {
    assert NoUnderflow(items, i) && Level(items, i) >= 0;
    |Buffer(items, i)| + |Sep(items, i)|
  }

  /** Before every item's text something is written: a separator or earlier texts. */
  lemma {:induction false} WrittenBefore(items: seq<Item>, i: nat)
    requires i < |items| && NoUnderflow(items, i + 1)
    ensures TextPos(items, i) >= 1
  {
    if i > 0 {
      BufferStartsWithBreak(items, i);
    }
  }

  lemma SliceOfPiece(whole: string, mid: string, head: string, sep: string, text: string, rest: string)
    requires whole == mid + rest && mid == head + sep + text
    ensures |head| + |sep| + |text| == |mid| <= |whole|
    ensures whole[|head| + |sep|..|head| + |sep| + |text|] == text
  {
    assert whole == (head + sep) + (text + rest);
  }

  /** Item i's text sits in every later buffer right after its separator. */
  lemma {:induction false} TextInBuffer(items: seq<Item>, i: nat, k: nat)
    requires i < k <= |items| && NoUnderflow(items, k)
    ensures NoUnderflow(items, i + 1)
    ensures TextPos(items, i) + |items[i].text| == |Buffer(items, i + 1)| <= |Buffer(items, k)|
    ensures Buffer(items, k)[TextPos(items, i)..TextPos(items, i) + |items[i].text|] == items[i].text
  {
    BufferSplit(items, i + 1, k);
    SliceOfPiece(Buffer(items, k), Buffer(items, i + 1), Buffer(items, i), Sep(items, i), items[i].text,
                 Pieces(items, i + 1, k));
  }

  /** A successful layout is the buffer without its leading line break, plus a final one. */
  lemma {:induction false} LayoutOk(items: seq<Item>, out: string)
    requires Layout(items) == Ok(out)
    ensures |items| > 0 && NoUnderflow(items, |items|)
    ensures |Buffer(items, |items|)| > 0 && Buffer(items, |items|)[0] == '\n'
    ensures out == Buffer(items, |items|)[1..] + "\n"
  {
    BufferStartsWithBreak(items, |items|);
  }

  lemma SliceAfterFirst(out: string, b: string, pos: nat, text: string)
    requires |b| > 0 && out == b[1..] + "\n"
    requires 1 <= pos && pos + |text| <= |b| && b[pos..pos + |text|] == text
    ensures pos - 1 + |text| < |out| && out[pos - 1..pos - 1 + |text|] == text
  {
    assert out[pos - 1..pos - 1 + |text|] == b[1..][pos - 1..pos - 1 + |text|];
  }

  /**
   * Every item's text appears verbatim in the output, one position before
   * where it stands in the buffer (the buffer's first line break is dropped).
   */
  lemma {:induction false} TextVerbatim(items: seq<Item>, i: nat, out: string)
    requires i < |items| && Layout(items) == Ok(out)
    ensures NoUnderflow(items, |items|)
    ensures 1 <= TextPos(items, i) && TextPos(items, i) - 1 + |items[i].text| < |out|
    ensures out[TextPos(items, i) - 1..TextPos(items, i) - 1 + |items[i].text|] == items[i].text
  {
    LayoutOk(items, out);
    TextInBuffer(items, i, |items|);
    WrittenBefore(items, i);
    SliceAfterFirst(out, Buffer(items, |items|), TextPos(items, i), items[i].text);
  }

  /** The texts appear in the order of the items, without overlapping. */
  lemma {:induction false} TextsInOrder(items: seq<Item>, i: nat)
    requires i + 1 < |items| && NoUnderflow(items, |items|)
    ensures TextPos(items, i) + |items[i].text| <= TextPos(items, i + 1)
  {
    TextInBuffer(items, i, i + 1);
  }

  /** Keeps the characters of `s` whose mark is false. */
  function Strip(s: string, marks: seq<bool>): (r: string)
    requires |s| == |marks|
    ensures |r| <= |s|
  {
    if s == [] then "" else (if marks[0] then "" else [s[0]]) + Strip(s[1..], marks[1..])
  }

  lemma {:induction false} StripAppend(s: string, m: seq<bool>, t: string, n: seq<bool>)
    requires |s| == |m| && |t| == |n|
    ensures Strip(s + t, m + n) == Strip(s, m) + Strip(t, n)
  {
    if s != [] {
      assert (s + t)[1..] == s[1..] + t;
      assert (m + n)[1..] == m[1..] + n;
      StripAppend(s[1..], m[1..], t, n);
    } else {
      assert s + t == t && m + n == n;
    }
  }

  lemma {:induction false} StripUniform(s: string, mark: bool)
    ensures Strip(s, seq(|s|, _ => mark)) == if mark then "" else s
  {
    if s != [] {
      assert seq(|s|, _ => mark)[1..] == seq(|s[1..]|, _ => mark);
      StripUniform(s[1..], mark);
    }
  }

  /** Appending a separator and a text, marked as such, adds only the text to what survives stripping. */
  lemma StripPiece(buf: string, marks: seq<bool>, sep: string, text: string)
    requires |buf| == |marks|
    ensures Strip(buf + sep + text, marks + seq(|sep|, _ => true) + seq(|text|, _ => false)) ==
            Strip(buf, marks) + text
  {
    var ts, fs := seq(|sep|, _ => true), seq(|text|, _ => false);
    StripAppend(buf + sep, marks + ts, text, fs);
    StripAppend(buf, marks, sep, ts);
    StripUniform(sep, true);
    StripUniform(text, false);
  }

  /** Marks, position by position, which characters of the buffer belong to separators. */
  function SepMarks(items: seq<Item>, k: nat): (marks: seq<bool>)
    requires k <= |items| && NoUnderflow(items, k)
    ensures |marks| == |Buffer(items, k)|
    decreases k
  {
    if k == 0 then []
    else SepMarks(items, k - 1) + seq(|Sep(items, k - 1)|, _ => true) + seq(|items[k - 1].text|, _ => false)
  }

  /** Deleting the separators from the buffer leaves exactly the children's texts, concatenated in order. */
  lemma {:induction false} StripSeparators(items: seq<Item>, k: nat)
    requires k <= |items| && NoUnderflow(items, k)
    ensures Strip(Buffer(items, k), SepMarks(items, k)) == Texts(items, 0, k)
  {
    if k > 0 {
      StripSeparators(items, k - 1);
      StripPiece(Buffer(items, k - 1), SepMarks(items, k - 1), Sep(items, k - 1), items[k - 1].text);
    }
  }

  /** Every character marked as a separator is a line break or a space. */
  lemma {:induction false} SeparatorsAreWhitespace(items: seq<Item>, k: nat)
    requires k <= |items| && NoUnderflow(items, k)
    ensures forall j :: 0 <= j < |SepMarks(items, k)| && SepMarks(items, k)[j] ==>
              Buffer(items, k)[j] == '\n' || Buffer(items, k)[j] == ' '
  {
    if k > 0 {
      SeparatorsAreWhitespace(items, k - 1);
      var buf, marks := Buffer(items, k - 1), SepMarks(items, k - 1);
      var sep, text := Sep(items, k - 1), items[k - 1].text;
      SepShape(items, k - 1);
      assert Buffer(items, k) == buf + sep + text;
      assert SepMarks(items, k) == marks + seq(|sep|, _ => true) + seq(|text|, _ => false);
      forall j | |buf| <= j < |buf| + |sep|
        ensures Buffer(items, k)[j] == '\n' || Buffer(items, k)[j] == ' '
      {
        assert Buffer(items, k)[j] == sep[j - |buf|];
      }
    }
  }

  lemma RestoreFirstBreak(out: string, b: string)
    requires |b| > 0 && b[0] == '\n' && out == b[1..] + "\n"
    ensures |out| > 0 && out[|out| - 1] == '\n'
    ensures ['\n'] + out[..|out| - 1] == b
  {
    assert out[..|out| - 1] == b[1..];
  }

  lemma PrefixIsSlice(s: string, n: nat)
    requires n <= |s|
    ensures s[..n] == s[0..n]
  {
  }

  /**
   * The shape of a successful output: the first item's text starts it with no
   * indentation and no blank line before it, the first inserted line break is
   * the one dropped, and it ends in the one appended line break.
   */
  lemma {:induction false} OutputShape(items: seq<Item>, out: string)
    requires Layout(items) == Ok(out)
    ensures Level(items, 0) == 0
    ensures |out| > 0 && out[|out| - 1] == '\n'
    ensures ['\n'] + out[..|out| - 1] == Buffer(items, |items|)
    ensures |items[0].text| < |out| && out[..|items[0].text|] == items[0].text
  {
    LayoutOk(items, out);
    RestoreFirstBreak(out, Buffer(items, |items|));
    assert Level(items, 0) >= 0;
    TextVerbatim(items, 0, out);
    assert TextPos(items, 0) == 1;
    PrefixIsSlice(out, |items[0].text|);
  }

  /**
   * A statement whose keyword is not one of the twelve (`set`, `include`, ...)
   * is transparent: wherever it stands, the output is what a plain text child
   * with the same text would give.
   */
  lemma UnrecognisedStatementTransparent(nodes: seq<Node>, i: nat, text: string, keyword: string)
    requires i < |nodes| && !IsBlockKeyword(keyword)
    ensures Format(nodes[i := Node("statement", text, Some(keyword))]) ==
            Format(nodes[i := Node("text", text, None)])
  {
    var a, b := nodes[i := Node("statement", text, Some(keyword))], nodes[i := Node("text", text, None)];
    assert ItemOf(a[i]) == ItemOf(b[i]);
    assert Items(a) == Items(b);
  }
}

/** What splitting and re-rendering an injected message preserves: block boundaries survive every pop. */
module InjectedBlocks {
  import opened Text
  import opened ContextGuard

  /** An injection header is one line that cannot be mistaken for a block delimiter. */
  predicate ValidHeader(h: string) {
    h != "" && '\n' !in h && h[0] != '<'
  }

  /** No header of the list is a prefix of another one. */
  predicate ValidOrder(order: seq<string>) {
    && (forall i | 0 <= i < |order| :: ValidHeader(order[i]))
    && (forall i, j | 0 <= i < |order| && 0 <= j < |order| && i != j :: !(order[i] <= order[j]))
  }

  lemma TrimOrderIsValid()
    ensures ValidOrder(TRIM_ORDER)
  {
    assert MEMORY_HEADER[0] == 'L' && SKILL_HEADER[0] == 'S' && PROJECT_HEADER[0] == 'P';
  }

  lemma {:induction false} HeadLinesArePrefix(lines: seq<string>)
    ensures HeadLines(lines) <= lines
    ensures BlocksOf(lines) == [] ==> HeadLines(lines) == lines
    decreases |lines|
  {
    if LastStart(lines) >= 0 {
      HeadLinesArePrefix(lines[..LastStart(lines)]);
    }
  }

  /** When the first line is not a block start, some line precedes the blocks. */
  lemma {:induction false} HeadLinesNonempty(lines: seq<string>)
    requires lines != [] && !IsBlockStart(lines[0])
    ensures HeadLines(lines) != [] && LastStart(lines) != 0
    decreases |lines|
  {
    if LastStart(lines) >= 0 {
      HeadLinesNonempty(lines[..LastStart(lines)]);
    }
  }

  lemma RenderOneMore(head: string, blocks: seq<string>, last: string)
    ensures Render(head, blocks + [last]) == (if blocks == [] then head else Render(head, blocks)) + "\n" + last
  {
    if blocks != [] {
      JoinAppend(blocks, [last], "\n");
      assert head + "\n" + (Join(blocks, "\n") + "\n" + last) == head + "\n" + Join(blocks, "\n") + "\n" + last;
    } else {
      assert [] + [last] == [last];
    }
  }

  /** Rendering all the blocks gives the text back. */
  lemma {:induction false} RenderAll(lines: seq<string>)
    requires lines != [] && !IsBlockStart(lines[0])
    requires BlocksOf(lines) != []
    ensures Render(Join(HeadLines(lines), "\n"), BlocksOf(lines)) == Join(lines, "\n")
    decreases |lines|
  {
    var i := LastStart(lines);
    HeadLinesNonempty(lines);
    var before, last := lines[..i], Join(lines[i..], "\n");
    assert lines == before + lines[i..];
    JoinAppend(before, lines[i..], "\n");
    RenderOneMore(Join(HeadLines(before), "\n"), BlocksOf(before), last);
    if BlocksOf(before) == [] {
      HeadLinesArePrefix(before);
    } else {
      RenderAll(before);
    }
  }

  lemma HeaderInFirstLine(h: string, text: string)
    requires ValidHeader(h) && h <= text
    ensures h <= Split(text, "\n")[0] && !IsBlockStart(Split(text, "\n")[0])
  {
    var lines := Split(text, "\n");
    if |lines| > 1 {
      assert text == lines[0] + "\n" + Join(lines[1..], "\n");
      assert text[|lines[0]|] == '\n';
      assert forall i | 0 <= i < |h| :: text[i] == h[i] && h[i] in h;
    }
    assert h <= lines[0];
    assert lines[0][0] == h[0] != "<<<"[0];
  }

  /** An injected message is exactly its head followed by its blocks. */
  lemma SplitInjectedExact(h: string, text: string)
    requires ValidHeader(h) && h <= text
    ensures var s := SplitInjected(text);
            text == if s.blocks == [] then s.head else Render(s.head, s.blocks)
  {
    HeaderInFirstLine(h, text);
    var lines := Split(text, "\n");
    HeadLinesArePrefix(lines);
    if BlocksOf(lines) != [] {
      RenderAll(lines);
    }
  }

  /** Popping the last of several blocks leaves an injected message with exactly the other blocks. */
  lemma Reparse(h: string, text: string)
    requires ValidHeader(h) && h <= text && |SplitInjected(text).blocks| > 1
    ensures var s := SplitInjected(text);
            var fewer := s.blocks[..|s.blocks| - 1];
            var shorter := Render(s.head, fewer);
            SplitInjected(shorter) == Injected(s.head, fewer) && h <= shorter <= text && |shorter| < |text|
  {
    HeaderInFirstLine(h, text);
    var lines := Split(text, "\n");
    var kept := lines[..LastStart(lines)];
    HeadLinesNonempty(lines);
    RenderAll(kept);
    PrefixOfLines(text, LastStart(lines));
    FirstLineStarts(kept, h);
  }

  /** The first n lines of a text, joined, are a shorter prefix of it that splits into the same lines. */
  lemma PrefixOfLines(text: string, n: nat)
    requires 0 < n < |Split(text, "\n")|
    ensures var kept := Split(text, "\n")[..n];
            var shorter := Join(kept, "\n");
            shorter <= text && |shorter| < |text| && Split(shorter, "\n") == kept
  {
    var lines := Split(text, "\n");
    SplitPartsClean(text, '\n');
    SplitOfJoin(lines[..n], '\n');
    assert lines == lines[..n] + lines[n..];
    JoinAppend(lines[..n], lines[n..], "\n");
  }

  lemma FirstLineStarts(lines: seq<string>, h: string)
    requires lines != [] && h <= lines[0]
    ensures h <= Join(lines, "\n")
  {
  }

  /** A line that begins with <<<, other than the lines that end a block. */
  predicate Opens(line: string) {
    |line| >= 3 && line[..3] == "<<<" && !(|line| >= 6 && line[..6] == "<<<end")
  }

  /** The positions of these lines, in ascending order. */
  function Openings(lines: seq<string>): (at: seq<nat>)
    ensures forall k | 0 <= k < |at| :: at[k] < |lines|
  {
    if lines == [] then []
    else
      var n := |lines| - 1;
      Openings(lines[..n]) + if Opens(lines[n]) then [n] else []
  }

  lemma OpensIs(line: string)
    ensures Opens(line) <==> IsBlockStart(line)
  {
    assert "<<<" <= line <==> |line| >= 3 && line[..3] == "<<<";
    assert "<<<end" <= line <==> |line| >= 6 && line[..6] == "<<<end";
  }

  lemma {:induction false} OpeningsPeeled(lines: seq<string>)
    ensures var i := LastStart(lines); Openings(lines) == if i < 0 then [] else Openings(lines[..i]) + [i]
    decreases |lines|
  {
    if lines != [] {
      var n := |lines| - 1;
      OpensIs(lines[n]);
      if !Opens(lines[n]) {
        OpeningsPeeled(lines[..n]);
        var i := LastStart(lines);
        assert i >= 0 ==> lines[..n][..i] == lines[..i];
      }
    }
  }

  /** Where the k-th block ends. */
  function BlockEnd(at: seq<nat>, k: nat, end: nat): nat
    requires k < |at|
  {
    if k + 1 < |at| then at[k + 1] else end
  }

  /** The k-th block of these lines. */
  predicate BlockIs(lines: seq<string>, at: seq<nat>, blocks: seq<string>, k: nat) {
    k < |at| == |blocks| ==>
      at[k] <= BlockEnd(at, k, |lines|) <= |lines| && blocks[k] == Join(lines[at[k]..BlockEnd(at, k, |lines|)], "\n")
  }

  lemma OneMoreBlock(lines: seq<string>, i: nat, before: seq<nat>, blocks: seq<string>, k: nat)
    requires i < |lines| && |before| == |blocks| && BlockIs(lines[..i], before, blocks, k) && (k == |before| || k < |before|)
    ensures BlockIs(lines, before + [i], blocks + [Join(lines[i..], "\n")], k)
  {
    var at := before + [i];
    if k < |before| {
      var end := BlockEnd(before, k, i);
      assert BlockEnd(at, k, |lines|) == end && at[k] == before[k];
      assert lines[..i][before[k]..end] == lines[before[k]..end];
    } else {
      assert lines[i..|lines|] == lines[i..];
    }
  }

  /** The head is all before the first opening line; the k-th block runs from the k-th opening line to the next, or the end. */
  lemma {:induction false} BlocksAre(lines: seq<string>, k: nat)
    ensures |BlocksOf(lines)| == |Openings(lines)| && BlockIs(lines, Openings(lines), BlocksOf(lines), k)
    ensures HeadLines(lines) == if Openings(lines) == [] then lines else lines[..Openings(lines)[0]]
    decreases |lines|
  {
    OpeningsPeeled(lines);
    var i := LastStart(lines);
    if i >= 0 {
      BlocksAre(lines[..i], k);
      var before := Openings(lines[..i]);
      if before != [] {
        assert lines[..i][..before[0]] == lines[..before[0]];
      }
      if k <= |before| {
        OneMoreBlock(lines, i, before, BlocksOf(lines[..i]), k);
      }
    }
  }
}

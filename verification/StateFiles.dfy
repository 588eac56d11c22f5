/** Byte-capped state files (memory/state_files.py): oldest content goes first. */
module StateFiles {
  import opened Prelude
  import opened Text
  import opened Utf8

  const STATE_MAX_BYTES := 8 * 1024
  const PARAGRAPH_BREAK := "\n\n"

  predicate Fits(s: string, max: nat) {
    |Encode(s)| <= max
  }

  function Paragraphs(s: string): (ps: seq<string>)
    ensures |ps| >= 1 && Join(ps, PARAGRAPH_BREAK) == s
  {
    Split(s, PARAGRAPH_BREAK)
  }

  function Unsplit(ps: seq<string>): string {
    Join(ps, PARAGRAPH_BREAK)
  }

  function LastBytes(encoded: seq<Byte>, max: nat): seq<Byte> {
    if max == 0 || |encoded| <= max then encoded else encoded[|encoded| - max..]
  }

  /** encoded[-max:].decode("utf-8", errors="ignore"); the slice [-0:] is the whole string. */
  function HardTrim(s: string, max: nat): string {
    DecodeIgnore(LastBytes(Encode(s), max))
  }

  /** How many leading paragraphs go: until the rest fits, but never the last one. */
  function Dropped(ps: seq<string>, max: nat): (j: nat)
    requires ps != []
    ensures j < |ps|
  {
    if |ps| == 1 || Fits(Unsplit(ps), max) then 0 else 1 + Dropped(ps[1..], max)
  }

  function Compacted(content: string, max: nat): string {
    var ps := Paragraphs(content);
    var rest := Unsplit(ps[Dropped(ps, max)..]);
    if Fits(rest, max) then rest else HardTrim(rest, max)
  }

  method PopOldest(all: seq<string>, max: nat) returns (paragraphs: seq<string>)
    requires all != []
    ensures paragraphs == all[Dropped(all, max)..]
  {
    paragraphs := all;
    ghost var popped := 0;
    while |paragraphs| > 1 && |Encode(Unsplit(paragraphs))| > max
      invariant popped < |all| && paragraphs == all[popped..]
      invariant Dropped(all, max) == popped + Dropped(paragraphs, max)
    {
      paragraphs := paragraphs[1..];
      popped := popped + 1;
    }
  }

  /** compact_oldest */
  method CompactOldest(content: string, max: nat) returns (result: string)
    ensures result == Compacted(content, max)
  {
    if |Encode(content)| <= max {
      FitsWhole(content, max);
      return content;
    }
    var paragraphs := PopOldest(Split(content, PARAGRAPH_BREAK), max);
    result := Unsplit(paragraphs);
    if |Encode(result)| > max {
      result := HardTrim(result, max);
    }
  }

  lemma FitsWhole(content: string, max: nat)
    requires Fits(content, max)
    ensures Compacted(content, max) == content
  {
    var ps := Paragraphs(content);
    assert ps[0..] == ps;
  }

  lemma HardTrimValue(s: string, max: nat)
    requires !Fits(s, max)
    ensures HardTrim(s, max) == if max == 0 then s else LongestFit(s, max)
  {
    if max == 0 {
      DecodeOfEncode(s);
    } else {
      CutKeepsWholeCharacters(s, max);
      assert LastBytes(Encode(s), max) == Encode(s)[|Encode(s)| - max..];
    }
  }

  /** What the hard trim leaves of a text that overflows. */
  lemma HardTrimIs(s: string, max: nat)
    requires !Fits(s, max)
    ensures HardTrim(s, max) == if max == 0 then s else LongestFit(s, max)
    ensures IsSuffix(HardTrim(s, max), s)
    ensures max > 0 ==> Fits(HardTrim(s, max), max)
  {
    HardTrimValue(s, max);
    LongestFitIsLongest(s, max);
    assert s[0..] == s;
  }

  lemma {:induction false} DroppedIs(ps: seq<string>, max: nat)
    requires ps != []
    ensures forall i | 0 <= i < Dropped(ps, max) :: !Fits(Unsplit(ps[i..]), max)
    ensures Fits(Unsplit(ps[Dropped(ps, max)..]), max) || Dropped(ps, max) == |ps| - 1
  {
    var j := Dropped(ps, max);
    assert ps[0..] == ps;
    if j > 0 {
      DroppedIs(ps[1..], max);
      assert ps[j..] == ps[1..][j - 1..];
      forall i | 0 <= i < j ensures !Fits(Unsplit(ps[i..]), max) {
        if i > 0 {
          assert ps[i..] == ps[1..][i - 1..];
        }
      }
    }
  }

  predicate AlignedFits(content: string, j: nat, max: nat)
    requires j < |Paragraphs(content)|
  {
    Fits(Unsplit(Paragraphs(content)[j..]), max)
  }

  /** The compaction is the longest paragraph-aligned suffix that fits. */
  lemma CompactionIsLongestAligned(content: string, max: nat, i: nat) returns (j: nat)
    requires i < |Paragraphs(content)| && AlignedFits(content, i, max)
    ensures j <= i && AlignedFits(content, j, max) && forall k: nat | k < j :: !AlignedFits(content, k, max)
    ensures Compacted(content, max) == Unsplit(Paragraphs(content)[j..])
  {
    j := Dropped(Paragraphs(content), max);
    DroppedIs(Paragraphs(content), max);
  }

  /**
   When no paragraph-aligned suffix fits, the compaction is the longest suffix of whole characters of
   the last paragraph that fits (for any positive cap; a zero cap leaves the whole paragraph).
   */
  lemma CompactionTrimsLast(content: string, max: nat)
    requires forall k: nat | k < |Paragraphs(content)| :: !AlignedFits(content, k, max)
    ensures var ps := Paragraphs(content);
            Compacted(content, max) == if max == 0 then ps[|ps| - 1] else LongestFit(ps[|ps| - 1], max)
  {
    var ps := Paragraphs(content);
    DroppedIs(ps, max);
    assert !AlignedFits(content, Dropped(ps, max), max);
    assert ps[|ps| - 1..] == [ps[|ps| - 1]];
    HardTrimIs(ps[|ps| - 1], max);
  }

  lemma {:induction false} UnsplitSuffix(ps: seq<string>, j: nat)
    requires j < |ps|
    ensures |Unsplit(ps[j..])| <= |Unsplit(ps)|
    ensures Unsplit(ps[j..]) == Unsplit(ps)[|Unsplit(ps)| - |Unsplit(ps[j..])|..]
  {
    if j == 0 {
      assert ps[0..] == ps;
    } else {
      UnsplitSuffix(ps[1..], j - 1);
      assert ps[1..][j - 1..] == ps[j..];
      assert Unsplit(ps) == (ps[0] + PARAGRAPH_BREAK) + Unsplit(ps[1..]);
      var n := |Unsplit(ps[j..])|;
      assert Unsplit(ps)[|Unsplit(ps)| - n..] == Unsplit(ps[1..])[|Unsplit(ps[1..])| - n..];
    }
  }

  predicate IsSuffix(part: string, whole: string) {
    |part| <= |whole| && part == whole[|whole| - |part|..]
  }

  lemma SuffixTrans(a: string, b: string, c: string)
    requires IsSuffix(a, b) && IsSuffix(b, c)
    ensures IsSuffix(a, c)
  {
    assert c[|c| - |b|..][|b| - |a|..] == c[|c| - |a|..];
  }

  lemma SuffixOverflows(content: string, last: string, max: nat, part: string)
    requires IsSuffix(last, content) && IsSuffix(part, content)
    requires !Fits(last, max) && |part| > |LongestFit(last, max)|
    ensures !Fits(part, max)
  {
    if |part| <= |last| {
      LongestFitIsLongest(last, max);
      assert part == last[|last| - |part|..];
    } else {
      assert part == part[..|part| - |last|] + last;
      EncodeAppend(part[..|part| - |last|], last);
    }
  }

  /** After a hard trim no longer suffix of the whole text would have fitted. */
  lemma NoLongerSuffixFits(content: string, max: nat, part: string)
    requires max > 0 && forall k: nat | k < |Paragraphs(content)| :: !AlignedFits(content, k, max)
    requires IsSuffix(part, content) && |part| > |Compacted(content, max)|
    ensures !Fits(part, max)
  {
    var ps := Paragraphs(content);
    var last := ps[|ps| - 1];
    CompactionTrimsLast(content, max);
    assert ps[|ps| - 1..] == [last];
    assert !AlignedFits(content, |ps| - 1, max);
    UnsplitSuffix(ps, |ps| - 1);
    assert IsSuffix(last, content);
    SuffixOverflows(content, last, max, part);
  }

  /** Nothing but leading text is ever lost. */
  lemma CompactionIsSuffix(content: string, max: nat)
    ensures IsSuffix(Compacted(content, max), content)
  {
    var ps := Paragraphs(content);
    var rest := Unsplit(ps[Dropped(ps, max)..]);
    UnsplitSuffix(ps, Dropped(ps, max));
    assert IsSuffix(rest, content);
    if !Fits(rest, max) {
      HardTrimIs(rest, max);
      SuffixTrans(HardTrim(rest, max), rest, content);
    }
  }

  /** The cap holds for every positive cap; a cap of zero holds only when the last paragraph is empty. */
  lemma CompactionFits(content: string, max: nat)
    ensures var ps := Paragraphs(content);
            Fits(Compacted(content, max), max) <==> max > 0 || ps[|ps| - 1] == ""
  {
    var ps := Paragraphs(content);
    var j := Dropped(ps, max);
    DroppedIs(ps, max);
    var last := ps[|ps| - 1];
    assert ps[|ps| - 1..] == [last];
    var rest := Unsplit(ps[j..]);
    if !Fits(rest, max) {
      HardTrimIs(rest, max);
    } else if max == 0 {
      EmptyParagraphs(ps[j..]);
    }
  }

  lemma EmptyParagraphs(ps: seq<string>)
    requires ps != [] && Encode(Unsplit(ps)) == []
    ensures ps[|ps| - 1] == ""
  {
    assert Unsplit(ps) == "";
    assert |ps| == 1;
  }

  // ---- appending ----

  /** What append_state writes before compaction. */
  function Merged(existing: string, addition: string): string {
    if Strip(existing) == "" then addition else RStrip(existing) + PARAGRAPH_BREAK + (Strip(addition) + "\n")
  }

  /** A break that follows a non-newline character is found, whatever comes after it. */
  lemma {:induction false} SplitAtBreak(x: string, rest: string)
    requires x != "" && x[|x| - 1] != '\n'
    ensures Paragraphs(x + PARAGRAPH_BREAK + rest) == Paragraphs(x) + Paragraphs(rest)
    decreases |x|
  {
    var whole := x + PARAGRAPH_BREAK + rest;
    if PARAGRAPH_BREAK <= x {
      SplitAtBreak(x[2..], rest);
      assert whole[2..] == x[2..] + PARAGRAPH_BREAK + rest;
      Assoc([""], Paragraphs(x[2..]), Paragraphs(rest));
    } else {
      NoBreakYet(x, rest);
      if |x| == 1 {
        SplitAfterOne(x, rest);
      } else {
        SplitAtBreak(x[1..], rest);
        SplitStep(x, Paragraphs(rest));
      }
    }
  }

  lemma SplitStep(x: string, more: seq<string>)
    requires x != "" && !(PARAGRAPH_BREAK <= x)
    ensures var tail := Paragraphs(x[1..]) + more;
            [[x[0]] + tail[0]] + tail[1..] == Paragraphs(x) + more
  {
    var p := Paragraphs(x[1..]);
    assert (p + more)[0] == p[0] && (p + more)[1..] == p[1..] + more;
    Assoc([[x[0]] + p[0]], p[1..], more);
  }

  lemma NoBreakYet(x: string, rest: string)
    requires x != "" && x[|x| - 1] != '\n' && !(PARAGRAPH_BREAK <= x)
    ensures !(PARAGRAPH_BREAK <= x + PARAGRAPH_BREAK + rest)
    ensures (x + PARAGRAPH_BREAK + rest)[1..] == x[1..] + PARAGRAPH_BREAK + rest
    ensures (x + PARAGRAPH_BREAK + rest)[0] == x[0]
  {
    var whole := x + PARAGRAPH_BREAK + rest;
    assert whole[0] == x[0];
    if |x| > 1 {
      assert whole[1] == x[1];
      assert PARAGRAPH_BREAK <= x <==> x[0] == '\n' && x[1] == '\n';
    } else {
      assert whole[0] != PARAGRAPH_BREAK[0];
    }
  }

  lemma SplitAfterOne(x: string, rest: string)
    requires |x| == 1 && x[0] != '\n'
    ensures Paragraphs(x + PARAGRAPH_BREAK + rest) == Paragraphs(x) + Paragraphs(rest)
  {
    var whole := x + PARAGRAPH_BREAK + rest;
    NoBreakYet(x, rest);
    assert whole[1..] == PARAGRAPH_BREAK + rest;
    assert whole[1..][2..] == rest;
    assert Paragraphs(whole[1..]) == [""] + Paragraphs(rest);
    assert x[1..] == "";
  }

  /** An addition that fits the cap on its own survives the append completely, at the end of the file. */
  lemma AppendKeepsAddition(existing: string, addition: string, max: nat)
    requires Strip(existing) != "" && Fits(Strip(addition) + "\n", max)
    ensures IsSuffix(Strip(addition) + "\n", Compacted(Merged(existing, addition), max))
  {
    var x, a := RStrip(existing), Strip(addition) + "\n";
    SplitAtBreak(x, a);
    assert Paragraphs(Merged(existing, addition)) == Paragraphs(x) + Paragraphs(a);
    TailSurvives(Paragraphs(x), Paragraphs(a), max);
  }

  /** Paragraphs that fit together at the end are never dropped for those before them. */
  lemma TailSurvives(front: seq<string>, tail: seq<string>, max: nat)
    requires tail != [] && Fits(Unsplit(tail), max)
    ensures var ps := front + tail;
            var rest := Unsplit(ps[Dropped(ps, max)..]);
            Dropped(ps, max) <= |front| && Fits(rest, max) && IsSuffix(Unsplit(tail), rest)
  {
    var ps, n := front + tail, |front|;
    assert ps[n..] == tail;
    DroppedIs(ps, max);
    var j := Dropped(ps, max);
    assert j <= n;
    assert ps[j..][n - j..] == ps[n..];
    UnsplitSuffix(ps[j..], n - j);
  }

  /** What is merged, exactly: the first text as it is; a later one without the white space around it, one blank line on. */
  lemma MergedIs(x: string, w: string, l: string, a: string, t: string)
    requires Blank(w) && Blank(l) && Blank(t) && Bare(a) && (x != "" ==> !IsSpace(x[|x| - 1]))
    ensures Blank(x) ==> Merged(x + w, l + a + t) == l + a + t
    ensures !Blank(x) ==> Merged(x + w, l + a + t) == x + "\n\n" + a + "\n"
  {
    var _, _ := Stripped(x + w);
    RStripIs(x, w);
    StripIs(l, a, t);
    if x == "" {
      assert x + w == w;
    } else {
      assert (x + w)[|x| - 1] == x[|x| - 1];
      assert x + "\n\n" + a + "\n" == x + "\n\n" + (a + "\n");
    }
  }

  /** An append that fits loses nothing of the file but the white space at its end. */
  lemma AppendIs(x: string, w: string, l: string, a: string, t: string, max: nat)
    requires Blank(w) && Blank(l) && Blank(t) && Bare(a) && (x != "" ==> !IsSpace(x[|x| - 1]))
    ensures var whole := if Blank(x) then l + a + t else x + "\n\n" + a + "\n";
            Fits(whole, max) ==> Compacted(Merged(x + w, l + a + t), max) == whole
  {
    MergedIs(x, w, l, a, t);
    if Fits(Merged(x + w, l + a + t), max) {
      FitsWhole(Merged(x + w, l + a + t), max);
    }
  }

  // ---- runs of appends ----

  /** A file's text after a run of appends. */
  function AfterAppends(existing: string, additions: seq<string>, max: nat): string {
    if additions == [] then existing
    else
      var k := |additions| - 1;
      Compacted(Merged(AfterAppends(existing, additions[..k], max), additions[k]), max)
  }

  /** The additions alone, without the white space around them, one blank line apart. */
  function Journal(additions: seq<string>): string
    requires additions != []
  {
    var k := |additions| - 1;
    if k == 0 then Strip(additions[0]) else Journal(additions[..k]) + PARAGRAPH_BREAK + Strip(additions[k])
  }

  /** The text ends with this part, and no paragraph of it lies on the border. */
  ghost predicate EndsAligned(text: string, part: string) {
    exists front :: Paragraphs(text) == front + Paragraphs(part)
  }

  lemma EndsAlignedIsSuffix(text: string, part: string)
    requires EndsAligned(text, part)
    ensures IsSuffix(part, text)
  {
    var front :| Paragraphs(text) == front + Paragraphs(part);
    assert Paragraphs(text)[|front|..] == Paragraphs(part);
    UnsplitSuffix(Paragraphs(text), |front|);
  }

  /** The paragraphs of what is left are the paragraphs that were left. */
  lemma {:induction false} ParagraphsOfRest(s: string, j: nat)
    requires j < |Paragraphs(s)|
    ensures Paragraphs(Unsplit(Paragraphs(s)[j..])) == Paragraphs(s)[j..]
    decreases |s|
  {
    var ps := Paragraphs(s);
    if j == 0 {
      assert ps[0..] == ps;
    } else if PARAGRAPH_BREAK <= s {
      assert ps[j..] == Paragraphs(s[2..])[j - 1..];
      ParagraphsOfRest(s[2..], j - 1);
    } else {
      assert ps[j..] == Paragraphs(s[1..])[j..];
      ParagraphsOfRest(s[1..], j);
    }
  }

  /** A compaction keeps an aligned end that fits. */
  lemma CompactionKeepsEnd(text: string, part: string, max: nat)
    requires EndsAligned(text, part) && Fits(part, max)
    ensures EndsAligned(Compacted(text, max), part)
  {
    var front :| Paragraphs(text) == front + Paragraphs(part);
    TailSurvives(front, Paragraphs(part), max);
    ParagraphsOfRest(text, Dropped(Paragraphs(text), max));
    RestOfBoth(front, Paragraphs(part), Dropped(Paragraphs(text), max));
  }

  lemma RestOfBoth(front: seq<string>, tail: seq<string>, j: nat)
    requires j <= |front|
    ensures (front + tail)[j..] == front[j..] + tail
  {
  }

  /** The paragraphs with one more newline at the end of the last one. */
  function Ended(ps: seq<string>): seq<string>
    requires ps != []
  {
    ps[..|ps| - 1] + [ps[|ps| - 1] + "\n"]
  }

  lemma EndedOne(c: char, ps: seq<string>)
    requires ps != []
    ensures Ended([[c] + ps[0]] + ps[1..]) == [[c] + Ended(ps)[0]] + Ended(ps)[1..]
  {
    if |ps| == 1 {
      assert [c] + (ps[0] + "\n") == [c] + ps[0] + "\n";
    }
  }

  lemma EndedRest(p: string, ps: seq<string>)
    requires ps != []
    ensures Ended([p] + ps) == [p] + Ended(ps)
  {
  }

  /** A newline at the end belongs to the last paragraph. */
  lemma {:induction false} SplitBeforeNewline(x: string)
    requires x != "" && x[|x| - 1] != '\n'
    ensures Paragraphs(x + "\n") == Ended(Paragraphs(x))
    decreases |x|
  {
    if PARAGRAPH_BREAK <= x {
      assert (x + "\n")[2..] == x[2..] + "\n";
      SplitBeforeNewline(x[2..]);
      EndedRest("", Paragraphs(x[2..]));
    } else if |x| == 1 {
      assert (x + "\n")[1..] == "\n" && x[1..] == "" && "\n"[1..] == "";
      assert Paragraphs("\n") == ["\n"];
      EndedOne(x[0], [""]);
    } else {
      assert (x + "\n")[1..] == x[1..] + "\n" && (x + "\n")[1] == x[1];
      SplitBeforeNewline(x[1..]);
      EndedOne(x[0], Paragraphs(x[1..]));
    }
  }

  lemma EndedApart(front: seq<string>, ps: seq<string>, qs: seq<string>)
    requires ps != [] && qs != [] && Ended(ps) == front + Ended(qs)
    ensures ps == front + qs
  {
    var p, q := ps[|ps| - 1], qs[|qs| - 1];
    assert Ended(ps)[|ps| - 1] == p + "\n" && (front + Ended(qs))[|front| + |qs| - 1] == q + "\n";
    assert (p + "\n")[..|p|] == p && (q + "\n")[..|q|] == q;
    forall i | 0 <= i < |ps| - 1 ensures ps[i] == (front + qs)[i] {
      assert Ended(ps)[i] == ps[i];
    }
  }

  /** Without the newline at the end of both the end is still aligned. */
  lemma NewlineGone(y: string, part: string)
    requires y != "" && y[|y| - 1] != '\n' && part != "" && part[|part| - 1] != '\n'
    requires EndsAligned(y + "\n", part + "\n")
    ensures EndsAligned(y, part)
  {
    SplitBeforeNewline(y);
    SplitBeforeNewline(part);
    var front :| Paragraphs(y + "\n") == front + Paragraphs(part + "\n");
    EndedApart(front, Paragraphs(y), Paragraphs(part));
  }

  /** One more append behind text that ends in this part. */
  lemma EndGrows(y: string, part: string, a: string)
    requires y != "" && y[|y| - 1] != '\n' && part != "" && part[|part| - 1] != '\n'
    requires EndsAligned(y, part)
    ensures EndsAligned(y + PARAGRAPH_BREAK + a, part + PARAGRAPH_BREAK + a)
  {
    var front :| Paragraphs(y) == front + Paragraphs(part);
    SplitAtBreak(y, a);
    SplitAtBreak(part, a);
    Assoc(front, Paragraphs(part), Paragraphs(a));
  }

  /** Text that ends with another one also ends as that one does. */
  lemma JournalEnds(additions: seq<string>)
    requires additions != [] && forall a | a in additions :: !Blank(a)
    ensures var j := Journal(additions); j != "" && !IsSpace(j[|j| - 1])
  {
    var k := |additions| - 1;
    assert additions[k] in additions;
    var _, _ := Stripped(additions[k]);
  }

  /** Text that ends with this part and a newline, without the newline. */
  lemma WithoutNewline(file: string, part: string) returns (y: string)
    requires part != "" && !IsSpace(part[|part| - 1]) && EndsAligned(file, part + "\n")
    ensures file == y + "\n" && y != "" && !IsSpace(y[|y| - 1]) && EndsAligned(y, part)
  {
    EndsAlignedIsSuffix(file, part + "\n");
    y := file[..|file| - 1];
    var n := |file| - |part| - 1;
    assert file[n..][|part|] == file[|file| - 1] && file[n..][|part| - 1] == file[|file| - 2];
    assert file == y + "\n";
    NewlineGone(y, part);
  }

  /** One more append leaves what the file ended with, if it fits together with the new text. */
  lemma OneMoreAppend(file: string, part: string, addition: string, max: nat)
    requires part != "" && !IsSpace(part[|part| - 1]) && !Blank(addition)
    requires EndsAligned(file, part + "\n")
    requires Fits(part + PARAGRAPH_BREAK + Strip(addition) + "\n", max)
    ensures EndsAligned(Compacted(Merged(file, addition), max), part + PARAGRAPH_BREAK + Strip(addition) + "\n")
  {
    var y := WithoutNewline(file, part);
    var a := Strip(addition);
    var l, t := Stripped(addition);
    MergedIs(y, "\n", l, a, t);
    EndGrows(y, part, a + "\n");
    Assoc(y + PARAGRAPH_BREAK, a, "\n");
    Assoc(part + PARAGRAPH_BREAK, a, "\n");
    CompactionKeepsEnd(Merged(file, addition), part + PARAGRAPH_BREAK + a + "\n", max);
  }

  lemma FirstAppend(existing: string, addition: string, max: nat)
    requires !Blank(existing) && !Blank(addition) && Fits(Strip(addition) + "\n", max)
    ensures EndsAligned(Compacted(Merged(existing, addition), max), Strip(addition) + "\n")
  {
    var _, _ := Stripped(existing);
    SplitAtBreak(RStrip(existing), Strip(addition) + "\n");
    CompactionKeepsEnd(Merged(existing, addition), Strip(addition) + "\n", max);
  }

  lemma PrefixFits(a: string, b: string, max: nat)
    requires Fits(a + PARAGRAPH_BREAK + b + "\n", max)
    ensures Fits(a + "\n", max)
  {
    EncodeAppend(a + PARAGRAPH_BREAK + b, "\n");
    EncodeAppend(a + PARAGRAPH_BREAK, b);
    EncodeAppend(a, PARAGRAPH_BREAK);
    EncodeAppend(a, "\n");
  }

  lemma {:induction false} AppendsEndAligned(existing: string, additions: seq<string>, max: nat)
    requires !Blank(existing) && additions != [] && forall a | a in additions :: !Blank(a)
    requires Fits(Journal(additions) + "\n", max)
    ensures EndsAligned(AfterAppends(existing, additions, max), Journal(additions) + "\n")
    decreases |additions|
  {
    var k := |additions| - 1;
    assert additions[k] in additions;
    if k == 0 {
      assert AfterAppends(existing, additions[..0], max) == existing;
      FirstAppend(existing, additions[0], max);
    } else {
      var before := additions[..k];
      assert forall a | a in before :: a in additions;
      PrefixFits(Journal(before), Strip(additions[k]), max);
      AppendsEndAligned(existing, before, max);
      JournalEnds(before);
      OneMoreAppend(AfterAppends(existing, before, max), Journal(before), additions[k], max);
    }
  }

  /**
   The newest text survives every run of appends: whatever the file held before and however much of it goes,
   the last additions that fit the cap together stand at its end, in order and in full.
   */
  lemma NewestSurvive(existing: string, additions: seq<string>, max: nat)
    requires !Blank(existing) && additions != [] && forall a | a in additions :: !Blank(a)
    requires Fits(Journal(additions) + "\n", max)
    ensures IsSuffix(Journal(additions) + "\n", AfterAppends(existing, additions, max))
  {
    AppendsEndAligned(existing, additions, max);
    EndsAlignedIsSuffix(AfterAppends(existing, additions, max), Journal(additions) + "\n");
  }

  /** The bounded state files: file texts by (slugified) name. */
  class StateFileLayer {
    var files: map<string, string>
    const maxBytes: nat

    constructor (maxBytes: nat := STATE_MAX_BYTES)
      ensures files == map[] && this.maxBytes == maxBytes
      ensures Valid()
    {
      files := map[];
      this.maxBytes := maxBytes;
    }

    /** Every file this layer wrote is within the byte cap. */
    ghost predicate Valid()
      reads this
    {
      maxBytes > 0 ==> forall name | name in files :: Fits(files[name], maxBytes)
    }

    method WriteState(name: string, content: string) returns (stored: string)
      requires Valid()
      modifies this
      ensures Valid() && stored == Compacted(content, maxBytes)
      ensures maxBytes > 0 ==> |Encode(stored)| <= maxBytes
      ensures files == old(files)[name := stored]
    {
      stored := CompactOldest(content, maxBytes);
      CompactionFits(content, maxBytes);
      files := files[name := stored];
    }

    method AppendState(name: string, addition: string) returns (stored: string)
      requires Valid()
      modifies this
      ensures Valid()
      ensures stored == Compacted(Merged(if name in old(files) then old(files)[name] else "", addition), maxBytes)
      ensures maxBytes > 0 ==> |Encode(stored)| <= maxBytes
      ensures files == old(files)[name := stored]
    {
      var existing := if name in files then files[name] else "";
      var merged := if Strip(existing) != "" then RStrip(existing) + PARAGRAPH_BREAK + (Strip(addition) + "\n") else addition;
      stored := WriteState(name, merged);
    }

    method DeleteState(name: string) returns (existed: bool)
      requires Valid()
      modifies this
      ensures Valid() && existed == (name in old(files)) && files == old(files) - {name}
    {
      existed := name in files;
      files := files - {name};
    }
  }
}

/** Strings as the source's Python handles them: str.split, str.join and str.startswith. */
module Text {

  /** sep.join(parts) */
  function Join(parts: seq<string>, sep: string): string {
    if |parts| == 0 then "" else if |parts| == 1 then parts[0] else parts[0] + sep + Join(parts[1..], sep)
  }

  lemma JoinGrows(c: char, parts: seq<string>, sep: string)
    requires parts != []
    ensures Join([[c] + parts[0]] + parts[1..], sep) == [c] + Join(parts, sep)
  {
    assert ([[c] + parts[0]] + parts[1..])[1..] == parts[1..];
    assert parts == [parts[0]] + parts[1..];
    if |parts| > 1 {
      assert [c] + parts[0] + sep + Join(parts[1..], sep) == [c] + (parts[0] + sep + Join(parts[1..], sep));
    }
  }

  /** s.split(sep): leftmost, non-overlapping occurrences of the separator. */
  function Split(s: string, sep: string): (parts: seq<string>)
    requires sep != ""
    ensures |parts| >= 1
    ensures Join(parts, sep) == s
    decreases |s|
  {
    if sep <= s then
      var rest := Split(s[|sep|..], sep);
      assert ([""] + rest)[1..] == rest && sep == "" + sep;
      assert s == sep + s[|sep|..];
      [""] + rest
    else if s == "" then
      [""]
    else
      var rest := Split(s[1..], sep);
      JoinGrows(s[0], rest, sep);
      assert s == [s[0]] + s[1..];
      [[s[0]] + rest[0]] + rest[1..]
  }

  lemma {:induction false} JoinAppend(a: seq<string>, b: seq<string>, sep: string)
    requires a != [] && b != []
    ensures Join(a + b, sep) == Join(a, sep) + sep + Join(b, sep)
  {
    if |a| == 1 {
      assert (a + b)[1..] == b;
    } else {
      JoinAppend(a[1..], b, sep);
      assert (a + b)[1..] == a[1..] + b;
    }
  }

  /** Splitting undoes joining when no part contains the (one-character) separator. */
  lemma {:induction false} SplitOfJoin(parts: seq<string>, c: char)
    requires parts != []
    requires forall p | p in parts :: c !in p
    ensures Split(Join(parts, [c]), [c]) == parts
    decreases |parts|, |parts[0]|
  {
    var s := Join(parts, [c]);
    if |parts| == 1 && parts[0] == "" {
    } else if parts[0] == "" {
      assert s == [c] + Join(parts[1..], [c]);
      assert s[1..] == Join(parts[1..], [c]);
      SplitOfJoin(parts[1..], c);
      assert parts == [""] + parts[1..];
    } else {
      var shorter := [parts[0][1..]] + parts[1..];
      assert shorter[1..] == parts[1..];
      assert parts[0] == [s[0]] + shorter[0] && s[0] in parts[0];
      forall p | p in shorter ensures c !in p {
        assert p == shorter[0] || p in parts;
        assert forall x | x in shorter[0] :: x in parts[0];
      }
      assert s[1..] == Join(shorter, [c]);
      SplitOfJoin(shorter, c);
      assert parts == [[s[0]] + shorter[0]] + shorter[1..];
    }
  }

  lemma {:induction false} SplitPartsClean(s: string, c: char)
    ensures forall p | p in Split(s, [c]) :: c !in p
    decreases |s|
  {
    if s != "" {
      SplitPartsClean(s[1..], c);
    }
  }

  /** str.isspace for one character. */
  predicate IsSpace(c: char) {
    var n := c as int;
    || 0x09 <= n <= 0x0D || 0x1C <= n <= 0x20 || n == 0x85 || n == 0xA0 || n == 0x1680
    || 0x2000 <= n <= 0x200A || n == 0x2028 || n == 0x2029 || n == 0x202F || n == 0x205F || n == 0x3000
  }

  function RStrip(s: string): (r: string)
    ensures r <= s && (r != "" ==> !IsSpace(r[|r| - 1]))
  {
    if s != "" && IsSpace(s[|s| - 1]) then RStrip(s[..|s| - 1]) else s
  }

  function LStrip(s: string): string {
    if s != "" && IsSpace(s[0]) then LStrip(s[1..]) else s
  }

  function Strip(s: string): string {
    LStrip(RStrip(s))
  }

  predicate Blank(s: string) {
    forall i | 0 <= i < |s| :: IsSpace(s[i])
  }

  /** Text with no white space at either end. */
  predicate Bare(s: string) {
    s != "" ==> !IsSpace(s[0]) && !IsSpace(s[|s| - 1])
  }

  /** rstrip removes the white space behind the last other character, and nothing else. */
  lemma {:induction false} RStripIs(x: string, w: string)
    requires Blank(w) && (x != "" ==> !IsSpace(x[|x| - 1]))
    ensures RStrip(x + w) == x
    decreases |w|
  {
    if w == "" {
      assert x + w == x;
    } else {
      assert (x + w)[..|x + w| - 1] == x + w[..|w| - 1];
      RStripIs(x, w[..|w| - 1]);
    }
  }

  lemma {:induction false} LStripIs(w: string, x: string)
    requires Blank(w) && (x != "" ==> !IsSpace(x[0]))
    ensures LStrip(w + x) == x
    decreases |w|
  {
    if w == "" {
      assert w + x == x;
    } else {
      assert (w + x)[1..] == w[1..] + x;
      LStripIs(w[1..], x);
    }
  }

  /** strip removes the white space around the text and nothing else. */
  lemma StripIs(l: string, a: string, t: string)
    requires Blank(l) && Blank(t) && Bare(a)
    ensures Strip(l + a + t) == a
  {
    if a == "" {
      assert l + a + t == "" + (l + t);
      RStripIs("", l + t);
    } else {
      assert (l + a)[|l + a| - 1] == a[|a| - 1];
      RStripIs(l + a, t);
      LStripIs(l, a);
    }
  }

  lemma {:induction false} RStripped(s: string) returns (w: string)
    ensures Blank(w) && s == RStrip(s) + w
    decreases |s|
  {
    w := "";
    if s != "" && IsSpace(s[|s| - 1]) {
      w := RStripped(s[..|s| - 1]);
      w := w + [s[|s| - 1]];
    }
  }

  lemma {:induction false} LStripped(s: string) returns (w: string)
    ensures Blank(w) && s == w + LStrip(s) && (LStrip(s) != "" ==> !IsSpace(LStrip(s)[0]))
    decreases |s|
  {
    w := "";
    if s != "" && IsSpace(s[0]) {
      w := LStripped(s[1..]);
      w := [s[0]] + w;
    }
  }

  lemma Stripped(s: string) returns (l: string, t: string)
    ensures Blank(l) && Blank(t) && Bare(Strip(s)) && s == l + Strip(s) + t
    ensures Strip(s) == "" <==> Blank(s)
  {
    t := RStripped(s);
    l := LStripped(RStrip(s));
    var r := RStrip(s);
    if Strip(s) != "" {
      assert s[|l|] == Strip(s)[0];
      assert Strip(s)[|Strip(s)| - 1] == r[|r| - 1];
    }
  }
}

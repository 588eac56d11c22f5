/** The Telegram relay's sliding-window rate limit and its message chunking (gateways/telegram.py). */
module Telegram {
  import opened Prelude
  import opened Text

  const WINDOW_S := 60.0
  const DEFAULT_RATE_LIMIT_PER_MIN := 20

  // ---- the rate limit ----

  /** Pop events from the left while they are at or before the cutoff. */
  function Prune(window: seq<real>, cutoff: real): seq<real> {
    if window != [] && window[0] <= cutoff then Prune(window[1..], cutoff) else window
  }

  type Windows = map<int, seq<real>>

  function WindowOf(ws: Windows, chat: int): seq<real> {
    if chat in ws then ws[chat] else []
  }

  datatype Decision = Decision(windows: Windows, ok: bool)

  /** _rate_limit_ok */
  function Decide(limit: int, ws: Windows, chat: int, now: real): Decision {
    if limit <= 0 then Decision(ws, true)
    else
      var kept := Prune(WindowOf(ws, chat), now - WINDOW_S);
      if |kept| >= limit then Decision(ws[chat := kept], false) else Decision(ws[chat := kept + [now]], true)
  }

  class TelegramRelay {
    var rateEvents: Windows
    const rateLimitPerMin: int

    constructor (rateLimitPerMin: int := DEFAULT_RATE_LIMIT_PER_MIN)
      ensures rateEvents == map[] && this.rateLimitPerMin == rateLimitPerMin
    {
      rateEvents := map[];
      this.rateLimitPerMin := rateLimitPerMin;
    }

    method RateLimitOk(chat: int, now: real) returns (ok: bool)
      modifies this
      ensures Decision(rateEvents, ok) == Decide(rateLimitPerMin, old(rateEvents), chat, now)
    {
      if rateLimitPerMin <= 0 {
        return true;
      }
      var window := WindowOf(rateEvents, chat);
      var cutoff := now - WINDOW_S;
      while window != [] && window[0] <= cutoff
        invariant Prune(window, cutoff) == Prune(WindowOf(rateEvents, chat), cutoff)
        decreases |window|
      {
        window := window[1..];
      }
      if |window| >= rateLimitPerMin {
        rateEvents := rateEvents[chat := window];
        return false;
      }
      rateEvents := rateEvents[chat := window + [now]];
      ok := true;
    }
  }

  // ---- whole histories ----

  datatype Event = Event(chat: int, at: real)

  predicate Monotone(events: seq<Event>) {
    forall i, j | 0 <= i < j < |events| :: events[i].at <= events[j].at
  }

  /** The relay's windows after a history of incoming messages. */
  function After(limit: int, events: seq<Event>): Windows {
    if events == [] then map[]
    else
      var n := |events| - 1;
      Decide(limit, After(limit, events[..n]), events[n].chat, events[n].at).windows
  }

  predicate Accepted(limit: int, events: seq<Event>, i: nat)
    requires i < |events|
  {
    Decide(limit, After(limit, events[..i]), events[i].chat, events[i].at).ok
  }

  /** The times of the chat's accepted messages, in order. */
  function AcceptedTimes(limit: int, chat: int, events: seq<Event>): seq<real> {
    if events == [] then []
    else
      var n := |events| - 1;
      var before := AcceptedTimes(limit, chat, events[..n]);
      if events[n].chat == chat && Accepted(limit, events, n) then before + [events[n].at] else before
  }

  /** How many of the times lie in the window (t - 60, t]. */
  function InWindow(times: seq<real>, t: real): nat {
    if times == [] then 0
    else
      var n := |times| - 1;
      InWindow(times[..n], t) + (if t - 60.0 < times[n] <= t then 1 else 0)
  }

  predicate AllAtMost(times: seq<real>, t: real) {
    forall i | 0 <= i < |times| :: times[i] <= t
  }

  predicate Sorted(times: seq<real>) {
    forall i, j | 0 <= i < j < |times| :: times[i] <= times[j]
  }

  lemma {:induction false} PruneTwice(window: seq<real>, c: real, c': real)
    requires c <= c'
    ensures Prune(Prune(window, c), c') == Prune(window, c')
  {
    if window != [] && window[0] <= c {
      PruneTwice(window[1..], c, c');
    }
  }

  lemma {:induction false} PruneAppend(window: seq<real>, x: real, c: real)
    requires Prune(window, c) == [] ==> x > c
    ensures Prune(window + [x], c) == Prune(window, c) + [x]
  {
    if window == [] {
      assert window + [x] == [x];
    } else if window[0] <= c {
      PruneAppend(window[1..], x, c);
      assert (window + [x])[1..] == window[1..] + [x];
    }
  }

  lemma {:induction false} PruneAll(window: seq<real>, c: real)
    requires AllAtMost(window, c)
    ensures Prune(window, c) == []
  {
    if window != [] {
      PruneAll(window[1..], c);
    }
  }

  /** On sorted times none later than t, pruning at t - 60 keeps exactly the window's events. */
  lemma {:induction false} PruneCounts(times: seq<real>, t: real)
    requires Sorted(times) && AllAtMost(times, t)
    ensures |Prune(times, t - WINDOW_S)| == InWindow(times, t)
  {
    if times != [] {
      var n := |times| - 1;
      var front, last := times[..n], times[n];
      assert times == front + [last];
      PruneCounts(front, t);
      if last <= t - WINDOW_S {
        PruneAll(times, t - WINDOW_S);
        PruneAll(front, t - WINDOW_S);
      } else {
        PruneAppend(front, last, t - WINDOW_S);
      }
    }
  }

  lemma {:induction false} TimesSorted(limit: int, chat: int, events: seq<Event>)
    requires Monotone(events)
    ensures Sorted(AcceptedTimes(limit, chat, events))
    ensures events == [] ==> AcceptedTimes(limit, chat, events) == []
    ensures events != [] ==> AllAtMost(AcceptedTimes(limit, chat, events), events[|events| - 1].at)
  {
    if events != [] {
      var n := |events| - 1;
      TimesSorted(limit, chat, events[..n]);
      assert n > 0 ==> events[..n][n - 1].at <= events[n].at;
    }
  }

  /** One more decision about this chat: the window and the history stay the same from the cutoff on. */
  lemma DecisionKeepsHistory(limit: int, w: seq<real>, h: seq<real>, at: real, cutoff: real)
    requires at - WINDOW_S <= cutoff
    requires Prune(w, at - WINDOW_S) == Prune(h, at - WINDOW_S) && Prune(w, cutoff) == Prune(h, cutoff)
    ensures var kept := Prune(w, at - WINDOW_S);
            if |kept| >= limit then Prune(kept, cutoff) == Prune(h, cutoff)
            else Prune(kept + [at], cutoff) == Prune(h + [at], cutoff)
  {
    var kept := Prune(w, at - WINDOW_S);
    PruneTwice(w, at - WINDOW_S, cutoff);
    if |kept| < limit {
      PruneAppendAny(kept, h, at, cutoff);
    }
  }

  /** The deque agrees with the accepted history at every cutoff a later message can use. */
  lemma {:induction false} WindowIsHistory(limit: int, chat: int, events: seq<Event>, cutoff: real)
    requires limit > 0 && Monotone(events)
    requires events != [] ==> cutoff >= events[|events| - 1].at - WINDOW_S
    ensures Prune(WindowOf(After(limit, events), chat), cutoff) == Prune(AcceptedTimes(limit, chat, events), cutoff)
  {
    if events != [] {
      var n := |events| - 1;
      var e, front := events[n], events[..n];
      assert n > 0 ==> front[n - 1].at <= e.at;
      WindowIsHistory(limit, chat, front, cutoff);
      if e.chat == chat {
        WindowIsHistory(limit, chat, front, e.at - WINDOW_S);
        DecisionKeepsHistory(limit, WindowOf(After(limit, front), chat), AcceptedTimes(limit, chat, front), e.at, cutoff);
      }
    }
  }

  lemma PruneAppendAny(a: seq<real>, b: seq<real>, x: real, c: real)
    requires Prune(a, c) == Prune(b, c)
    ensures Prune(a + [x], c) == Prune(b + [x], c)
  {
    if Prune(a, c) == [] && x <= c {
      PruneAppendAll(a, x, c);
      PruneAppendAll(b, x, c);
    } else {
      PruneAppend(a, x, c);
      PruneAppend(b, x, c);
    }
  }

  lemma {:induction false} PruneAppendAll(a: seq<real>, x: real, c: real)
    requires Prune(a, c) == [] && x <= c
    ensures Prune(a + [x], c) == []
  {
    if a == [] {
      assert a + [x] == [x];
    } else {
      PruneAppendAll(a[1..], x, c);
      assert (a + [x])[1..] == a[1..] + [x];
    }
  }

  lemma DecideIffRoom(limit: int, before: seq<Event>, chat: int, now: real)
    requires limit > 0 && Monotone(before)
    requires before != [] ==> before[|before| - 1].at <= now
    ensures Decide(limit, After(limit, before), chat, now).ok <==> InWindow(AcceptedTimes(limit, chat, before), now) < limit
  {
    WindowIsHistory(limit, chat, before, now - WINDOW_S);
    TimesSorted(limit, chat, before);
    PruneCounts(AcceptedTimes(limit, chat, before), now);
  }

  /** A message is refused exactly when the chat's last 60 seconds already hold the limit. */
  lemma RefusedIffWindowFull(limit: int, events: seq<Event>, i: nat)
    requires Monotone(events) && i < |events|
    ensures !Accepted(limit, events, i)
       <==> limit > 0 && InWindow(AcceptedTimes(limit, events[i].chat, events[..i]), events[i].at) >= limit
  {
    if limit > 0 {
      DecideIffRoom(limit, events[..i], events[i].chat, events[i].at);
    }
  }

  lemma {:induction false} LaterWindowSmaller(times: seq<real>, x: real, t: real)
    requires x <= t && AllAtMost(times, x)
    ensures InWindow(times, t) <= InWindow(times, x)
  {
    if times != [] {
      LaterWindowSmaller(times[..|times| - 1], x, t);
    }
  }

  lemma OneMoreFits(before: seq<real>, x: real, t: real, limit: int)
    requires AllAtMost(before, x) && InWindow(before, x) < limit && InWindow(before, t) <= limit
    ensures InWindow(before + [x], t) <= limit
  {
    assert (before + [x])[..|before|] == before;
    if t >= x {
      LaterWindowSmaller(before, x, t);
    }
  }

  /** No 60-second window of any chat ever holds more accepted messages than the limit. */
  lemma {:induction false} NeverMoreThanLimit(limit: int, chat: int, events: seq<Event>, t: real)
    requires limit > 0 && Monotone(events)
    ensures InWindow(AcceptedTimes(limit, chat, events), t) <= limit
  {
    if events != [] {
      var n := |events| - 1;
      var e, front := events[n], events[..n];
      NeverMoreThanLimit(limit, chat, front, t);
      if e.chat == chat && Accepted(limit, events, n) {
        RefusedIffWindowFull(limit, events, n);
        TimesSorted(limit, chat, front);
        assert n > 0 ==> front[n - 1].at <= e.at;
        OneMoreFits(AcceptedTimes(limit, chat, front), e.at, t, limit);
      }
    }
  }

  // ---- chunking ----

  predicate OccursAt(text: string, sub: string, i: int) {
    0 <= i <= |text| - |sub| && text[i..i + |sub|] == sub
  }

  predicate FoundAt(text: string, sub: string, end: nat, i: int) {
    i + |sub| <= end && OccursAt(text, sub, i)
  }

  /** text.rfind(sub, 0, end): the last occurrence that ends by `end`, or -1. */
  function RFind(text: string, sub: string, end: nat): (i: int)
    requires end <= |text|
    ensures i == -1 || FoundAt(text, sub, end, i)
    ensures forall j | i < j <= end - |sub| :: !OccursAt(text, sub, j)
    decreases end
  {
    if |sub| > end then -1
    else if text[end - |sub|..end] == sub then end - |sub|
    else if end == 0 then -1
    else RFind(text, sub, end - 1)
  }

  /** The text without its whitespace. */
  function Ink(s: string): string {
    if s == "" then "" else (if IsSpace(s[0]) then "" else [s[0]]) + Ink(s[1..])
  }

  lemma {:induction false} InkAppend(a: string, b: string)
    ensures Ink(a + b) == Ink(a) + Ink(b)
  {
    if a == "" {
      assert a + b == b;
    } else {
      InkAppend(a[1..], b);
      assert (a + b)[0] == a[0] && (a + b)[1..] == a[1..] + b;
      Assoc(if IsSpace(a[0]) then "" else [a[0]], Ink(a[1..]), Ink(b));
    }
  }

  lemma {:induction false} InkRStrip(s: string)
    ensures Ink(RStrip(s)) == Ink(s)
  {
    if s != "" && IsSpace(s[|s| - 1]) {
      InkRStrip(s[..|s| - 1]);
      InkAppend(s[..|s| - 1], [s[|s| - 1]]);
      assert s == s[..|s| - 1] + [s[|s| - 1]];
    }
  }

  lemma {:induction false} InkLStrip(s: string)
    ensures Ink(LStrip(s)) == Ink(s)
    ensures LStrip(s) != "" ==> !IsSpace(LStrip(s)[0])
    ensures s != "" && !IsSpace(s[|s| - 1]) ==> LStrip(s) != "" && LStrip(s)[|LStrip(s)| - 1] == s[|s| - 1]
    ensures |LStrip(s)| <= |s|
  {
    if s != "" && IsSpace(s[0]) {
      InkLStrip(s[1..]);
    }
  }

  /** Neither starts nor ends with whitespace. */
  predicate Trimmed(s: string) {
    s != "" && !IsSpace(s[0]) && !IsSpace(s[|s| - 1])
  }

  /** The last paragraph break in the second half of the window, else the last line break there, else the window. */
  function CutPoint(text: string, size: nat): (cut: nat)
    requires 1 <= size < |text| && !IsSpace(text[0])
    ensures 1 <= cut <= size
    ensures forall p | FoundAt(text, "\n\n", size, p) && p >= size / 2 :: FoundAt(text, "\n\n", size, cut) && cut >= p
    ensures (forall p | FoundAt(text, "\n\n", size, p) :: p < size / 2) ==>
              forall p | FoundAt(text, "\n", size, p) && p >= size / 2 :: FoundAt(text, "\n", size, cut) && cut >= p
    ensures cut == size || FoundAt(text, "\n", size, cut) || FoundAt(text, "\n\n", size, cut)
  {
    var atParagraph := RFind(text, "\n\n", size);
    if atParagraph >= size / 2 then atParagraph
    else
      var atLine := RFind(text, "\n", size);
      if atLine >= size / 2 then atLine else size
  }

  function Concat(chunks: seq<string>): string {
    if chunks == [] then "" else Concat(chunks[..|chunks| - 1]) + chunks[|chunks| - 1]
  }

  /** One cut: the front part loses only trailing whitespace, the rest only leading whitespace. */
  lemma CutLosesOnlySpace(text: string, cut: nat)
    requires Trimmed(text) && 1 <= cut < |text|
    ensures var chunk, rest := RStrip(text[..cut]), LStrip(text[cut..]);
            chunk != "" && |chunk| <= cut && Trimmed(rest) && |rest| < |text| && Ink(chunk) + Ink(rest) == Ink(text)
  {
    InkRStrip(text[..cut]);
    InkLStrip(text[cut..]);
    InkAppend(text[..cut], text[cut..]);
    assert text == text[..cut] + text[cut..];
    RStripKeepsFirst(text[..cut]);
  }

  lemma {:induction false} RStripKeepsFirst(s: string)
    requires s != "" && !IsSpace(s[0])
    ensures RStrip(s) != ""
  {
    if IsSpace(s[|s| - 1]) {
      RStripKeepsFirst(s[..|s| - 1]);
    }
  }

  const EMPTY_REPLY := "(empty reply)"

  /** text.strip() or "(empty reply)" */
  function Trim(text: string): string {
    if Strip(text) == "" then EMPTY_REPLY else Strip(text)
  }

  lemma TrimIsTrimmed(text: string)
    ensures Trimmed(Trim(text))
    ensures Strip(text) != "" ==> Ink(Trim(text)) == Ink(text)
  {
    InkRStrip(text);
    InkLStrip(RStrip(text));
    assert EMPTY_REPLY[0] == '(' && EMPTY_REPLY[|EMPTY_REPLY| - 1] == ')';
  }

  lemma InkOfSnoc(chunks: seq<string>, chunk: string)
    ensures Ink(Concat(chunks + [chunk])) == Ink(Concat(chunks)) + Ink(chunk)
  {
    assert (chunks + [chunk])[..|chunks|] == chunks;
    InkAppend(Concat(chunks), chunk);
  }

  /** The chunks so far fit, and with the rest they hold all the ink. */
  predicate Chunking(text: string, chunks: seq<string>, rest: string, size: nat) {
    && (forall i | 0 <= i < |chunks| :: 0 < |chunks[i]| <= size)
    && Ink(Concat(chunks)) + Ink(rest) == Ink(Trim(text))
  }

  lemma ChunkStep(text: string, chunks: seq<string>, rest: string, size: nat, cut: nat)
    requires Chunking(text, chunks, rest, size) && Trimmed(rest) && 1 <= cut <= size < |rest|
    ensures var chunk, rest' := RStrip(rest[..cut]), LStrip(rest[cut..]);
            Chunking(text, chunks + [chunk], rest', size) && Trimmed(rest') && |rest'| < |rest|
  {
    var chunk, rest' := RStrip(rest[..cut]), LStrip(rest[cut..]);
    CutLosesOnlySpace(rest, cut);
    InkOfSnoc(chunks, chunk);
    Assoc(Ink(Concat(chunks)), Ink(chunk), Ink(rest'));
  }

  /** The chunks of a trimmed text: cut at the preferred point, trim both sides, go on with the rest. */
  function ChunksOf(text: string, size: nat): seq<string>
    requires Trimmed(text) && size >= 1
    decreases |text|
  {
    if |text| <= size then [text]
    else
      var cut := CutPoint(text, size);
      CutLosesOnlySpace(text, cut);
      [RStrip(text[..cut])] + ChunksOf(LStrip(text[cut..]), size)
  }

  /** chunk_message: every chunk fits, none is empty, and only whitespace is lost. */
  method ChunkMessage(text: string, size: nat) returns (chunks: seq<string>)
    requires size >= 1
    ensures Trimmed(Trim(text)) && chunks == ChunksOf(Trim(text), size)
    ensures forall i | 0 <= i < |chunks| :: 0 < |chunks[i]| <= size
    ensures Ink(Concat(chunks)) == if Strip(text) == "" then Ink(EMPTY_REPLY) else Ink(text)
  {
    var rest := Trim(text);
    TrimIsTrimmed(text);
    chunks := [];
    while |rest| > size
      invariant Trimmed(rest) && Chunking(text, chunks, rest, size)
      invariant chunks + ChunksOf(rest, size) == ChunksOf(Trim(text), size)
      decreases |rest|
    {
      var cut := CutPoint(rest, size);
      ChunkStep(text, chunks, rest, size, cut);
      Assoc(chunks, [RStrip(rest[..cut])], ChunksOf(LStrip(rest[cut..]), size));
      chunks := chunks + [RStrip(rest[..cut])];
      rest := LStrip(rest[cut..]);
    }
    ChunkLast(text, chunks, rest, size);
    chunks := chunks + [rest];
  }

  lemma ChunkLast(text: string, chunks: seq<string>, rest: string, size: nat)
    requires Chunking(text, chunks, rest, size) && Trimmed(rest) && |rest| <= size
    ensures Chunking(text, chunks + [rest], "", size)
    ensures Ink(Concat(chunks + [rest])) == Ink(Trim(text))
  {
    InkOfSnoc(chunks, rest);
  }

  /** Where a chunk may end: at the last paragraph break in the second half of the window, or line break, or at its end. */
  predicate Preferred(text: string, size: nat, cut: nat) {
    && 1 <= cut <= size <= |text| && size / 2 <= cut
    && if exists p | size / 2 <= p < size :: FoundAt(text, "\n\n", size, p) then LastFound(text, "\n\n", size, cut)
       else if exists p | size / 2 <= p < size :: FoundAt(text, "\n", size, p) then LastFound(text, "\n", size, cut)
       else cut == size
  }

  predicate LastFound(text: string, sub: string, size: nat, cut: nat) {
    FoundAt(text, sub, size, cut) && forall p | cut < p < size :: !FoundAt(text, sub, size, p)
  }

  /** The text is this chunk, white space, and then the rest; the cut lies in the white space or at one of its ends. */
  ghost predicate CutAt(text: string, cut: nat, chunk: string, rest: string) {
    exists w, w' :: Blank(w) && Blank(w') && text == chunk + w + w' + rest && cut == |chunk + w|
  }

  /** The chunks follow each other through the text: cut where preferred, without the white space around the cut. */
  ghost predicate Chunked(text: string, chunks: seq<string>, size: nat)
    decreases |chunks|
  {
    if |chunks| <= 1 then chunks == [text] && |text| <= size
    else exists cut, rest ::
           |text| > size && Preferred(text, size, cut) && CutAt(text, cut, chunks[0], rest)
           && Trimmed(chunks[0]) && Trimmed(rest) && Chunked(rest, chunks[1..], size)
  }

  lemma CutPointPreferred(text: string, size: nat)
    requires 1 <= size < |text| && !IsSpace(text[0])
    ensures Preferred(text, size, CutPoint(text, size))
  {
    var cut := CutPoint(text, size);
    assert FoundAt(text, "\n\n", size, cut) ==> cut < size;
    assert FoundAt(text, "\n", size, cut) ==> cut < size;
  }

  lemma Pieces(text: string, cut: nat, chunk: string, w: string, w': string, rest: string)
    requires cut <= |text| && text[..cut] == chunk + w && text[cut..] == w' + rest && Blank(w) && Blank(w')
    ensures CutAt(text, cut, chunk, rest)
  {
    assert text == text[..cut] + text[cut..];
    assert (chunk + w) + (w' + rest) == chunk + w + w' + rest;
  }

  lemma CutPieces(text: string, cut: nat)
    requires Trimmed(text) && 1 <= cut < |text|
    ensures var chunk, rest := RStrip(text[..cut]), LStrip(text[cut..]);
            CutAt(text, cut, chunk, rest) && Trimmed(chunk) && Trimmed(rest)
  {
    var w := RStripped(text[..cut]);
    var w' := LStripped(text[cut..]);
    var chunk, rest := RStrip(text[..cut]), LStrip(text[cut..]);
    Pieces(text, cut, chunk, w, w', rest);
    CutLosesOnlySpace(text, cut);
    assert chunk[0] == text[..cut][0] == text[0];
  }

  /** Chunking loses exactly the white space around its cuts, and cuts nowhere but at the preferred places. */
  lemma {:induction false} ChunksAre(text: string, size: nat)
    requires Trimmed(text) && size >= 1
    ensures Chunked(text, ChunksOf(text, size), size)
    decreases |text|
  {
    if |text| > size {
      var cut := CutPoint(text, size);
      CutPointPreferred(text, size);
      CutLosesOnlySpace(text, cut);
      CutPieces(text, cut);
      var rest := LStrip(text[cut..]);
      ChunksAre(rest, size);
      var chunks := ChunksOf(text, size);
      assert chunks[0] == RStrip(text[..cut]) && chunks[1..] == ChunksOf(rest, size);
      assert |chunks| > 1;
    }
  }
}

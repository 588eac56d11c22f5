/** Rolling compression (memory/compression.py) and system-message coalescing (routers/chat.py). */
module Compression {
  import opened Prelude
  import opened Text
  import opened Messages

  const SUMMARY_PREFIX := "Rolling conversation " + "summary (older turns condensed):"

  predicate IsSummary(m: Message) {
    m.content.Str? && SUMMARY_PREFIX <= m.content.text
  }

  /** A leading system message that compression never folds. */
  predicate Protected(m: Message) {
    IsSystem(m) && !IsSummary(m)
  }

  /** usage_fraction(messages, slot_ctx) >= 0.70, with the fraction taken exactly. */
  predicate ShouldCompress(ms: seq<Message>, slotCtx: int) {
    slotCtx > 0 && 10 * EstimateTokens(ms) >= 7 * slotCtx
  }

  /** The number of leading protected messages. */
  function HeadEnd(ms: seq<Message>): (n: nat)
    ensures n <= |ms|
  {
    if ms == [] || !Protected(ms[0]) then 0 else 1 + HeadEnd(ms[1..])
  }

  function TailStart(ms: seq<Message>, keep: nat): (n: nat)
    ensures HeadEnd(ms) <= n <= |ms|
  {
    |ms| - Min(keep, |ms| - HeadEnd(ms))
  }

  lemma {:induction false} HeadEndIs(ms: seq<Message>, n: nat)
    requires n <= |ms| && forall i | 0 <= i < n :: Protected(ms[i])
    requires n < |ms| ==> !Protected(ms[n])
    ensures HeadEnd(ms) == n
  {
    if n > 0 {
      HeadEndIs(ms[1..], n - 1);
    }
  }

  lemma {:induction false} HeadEndProtected(ms: seq<Message>)
    ensures forall i | 0 <= i < HeadEnd(ms) :: Protected(ms[i])
    ensures HeadEnd(ms) < |ms| ==> !Protected(ms[HeadEnd(ms)])
  {
    if ms != [] && Protected(ms[0]) {
      HeadEndProtected(ms[1..]);
    }
  }

  /** _split: the protected head, the foldable middle and the verbatim tail partition the list. */
  method SplitForCompression(ms: seq<Message>, keep: nat)
    returns (head: seq<Message>, middle: seq<Message>, tail: seq<Message>)
    ensures head + middle + tail == ms
    ensures |tail| == Min(keep, |ms| - |head|)
    ensures forall m | m in head :: Protected(m)
    ensures |head| < |ms| ==> !Protected(ms[|head|])
    ensures |head| == HeadEnd(ms) && |head| + |middle| == TailStart(ms, keep)
  {
    var headEnd := 0;
    while headEnd < |ms| && IsSystem(ms[headEnd]) && !IsSummary(ms[headEnd])
      invariant 0 <= headEnd <= |ms|
      invariant forall i | 0 <= i < headEnd :: Protected(ms[i])
    {
      headEnd := headEnd + 1;
    }
    HeadEndIs(ms, headEnd);
    var body := ms[headEnd..];
    var kept := if keep <= |body| then keep else |body|;
    head, middle, tail := ms[..headEnd], body[..|body| - kept], body[|body| - kept..];
  }

  function TranscriptLine(m: Message): string {
    (match m.role case System => "system" case Other(name) => name) + ": " + MessageText(m)
  }

  function TranscriptLines(ms: seq<Message>): (lines: seq<string>)
    ensures |lines| == |ms|
    ensures forall i | 0 <= i < |ms| :: lines[i] == TranscriptLine(ms[i])
  {
    seq(|ms|, i requires 0 <= i < |ms| => TranscriptLine(ms[i]))
  }

  /** wrap_fold_input: the transcript between its delimiters, the instruction last. */
  function WrapFoldInput(transcript: string, instruction: string): string {
    "<transcript>\n" + transcript + "\n</transcript>\n" + instruction
  }

  function SummaryMessage(summary: string): Message {
    Message(System, Str(SUMMARY_PREFIX + "\n" + summary), [])
  }

  datatype CompressionResult = CompressionResult(messages: seq<Message>, messagesSummarized: nat)

  /** The messages a compression at this context would fold. */
  function Middle(ms: seq<Message>, slotCtx: int): seq<Message> {
    ms[HeadEnd(ms)..TailStart(ms, KeepRecentMessages(slotCtx))]
  }

  function FoldInput(ms: seq<Message>, slotCtx: int, instruction: string): string {
    WrapFoldInput(Join(TranscriptLines(Middle(ms, slotCtx)), "\n"), instruction)
  }

  /**
   compress. The summarizer maps its input to the (stripped) summary; None is a call that raised,
   which the caller treats as "no compression".
   */
  function Compressed(ms: seq<Message>, slotCtx: int, instruction: string, summarize: string -> Option<string>)
    : Option<CompressionResult>
  {
    if !ShouldCompress(ms, slotCtx) || |Middle(ms, slotCtx)| < 2 then None
    else match summarize(FoldInput(ms, slotCtx, instruction))
      case None => None
      case Some(summary) =>
        Some(CompressionResult(
               ms[..HeadEnd(ms)] + [SummaryMessage(summary)] + ms[TailStart(ms, KeepRecentMessages(slotCtx))..],
               |Middle(ms, slotCtx)|))
  }

  method Compress(ms: seq<Message>, slotCtx: int, instruction: string, summarize: string -> Option<string>)
    returns (result: Option<CompressionResult>)
    ensures result == Compressed(ms, slotCtx, instruction, summarize)
  {
    if !ShouldCompress(ms, slotCtx) {
      return None;
    }
    var head, middle, tail := SplitForCompression(ms, KeepRecentMessages(slotCtx));
    assert middle == Middle(ms, slotCtx) && head == ms[..HeadEnd(ms)];
    if |middle| < 2 {
      return None;
    }
    var summary := summarize(WrapFoldInput(Join(TranscriptLines(middle), "\n"), instruction));
    if summary.None? {
      return None;
    }
    result := Some(CompressionResult(head + [SummaryMessage(summary.value)] + tail, |middle|));
  }

  /** Each fold strictly shrinks the list and keeps the head and the newest `keep` messages verbatim. */
  lemma FoldShrinks(ms: seq<Message>, slotCtx: int, instruction: string, summarize: string -> Option<string>)
    requires Compressed(ms, slotCtx, instruction, summarize).Some?
    ensures var out := Compressed(ms, slotCtx, instruction, summarize).value.messages;
            var tail := Min(KeepRecentMessages(slotCtx), |ms| - HeadEnd(ms));
            && |out| == |ms| + 1 - |Middle(ms, slotCtx)| < |ms|
            && out[..HeadEnd(ms)] == ms[..HeadEnd(ms)]
            && out[|out| - tail..] == ms[|ms| - tail..]
            && out[HeadEnd(ms)..] == [out[HeadEnd(ms)]] + ms[TailStart(ms, KeepRecentMessages(slotCtx))..]
            && IsSystem(out[HeadEnd(ms)]) && IsSummary(out[HeadEnd(ms)])
  {
    var r := summarize(FoldInput(ms, slotCtx, instruction));
    assert SUMMARY_PREFIX <= SUMMARY_PREFIX + "\n" + r.value;
  }

  // ---- one rolling summary over whole runs ----

  function Summaries(ms: seq<Message>): nat {
    if ms == [] then 0 else (if IsSystem(ms[0]) && IsSummary(ms[0]) then 1 else 0) + Summaries(ms[1..])
  }

  /** At most one rolling summary, and it is the first message after the protected head. */
  predicate Rolling(ms: seq<Message>) {
    Summaries(ms[HeadEnd(ms)..]) == 0
    || (Summaries(ms[HeadEnd(ms)..]) == 1 && IsSystem(ms[HeadEnd(ms)]) && IsSummary(ms[HeadEnd(ms)]))
  }

  datatype Op = Append(message: Message) | Fold(slotCtx: int, instruction: string, reply: Option<string>)

  function Apply(ms: seq<Message>, op: Op): seq<Message> {
    match op
    case Append(m) => ms + [m]
    case Fold(ctx, instruction, reply) =>
      var r := Compressed(ms, ctx, instruction, _ => reply);
      if r.Some? then r.value.messages else ms
  }

  function Run(ms: seq<Message>, ops: seq<Op>): seq<Message>
    decreases |ops|
  {
    if ops == [] then ms else Run(Apply(ms, ops[0]), ops[1..])
  }

  predicate NoSummaryAppended(ops: seq<Op>) {
    forall op | op in ops && op.Append? :: !(IsSystem(op.message) && IsSummary(op.message))
  }

  lemma {:induction false} SummariesAppend(a: seq<Message>, b: seq<Message>)
    ensures Summaries(a + b) == Summaries(a) + Summaries(b)
  {
    if a == [] {
      assert a + b == b;
    } else {
      SummariesAppend(a[1..], b);
      assert (a + b)[1..] == a[1..] + b;
    }
  }

  lemma {:induction false} HeadEndAppend(ms: seq<Message>, m: Message)
    ensures HeadEnd(ms + [m]) == if HeadEnd(ms) == |ms| && Protected(m) then |ms| + 1 else HeadEnd(ms)
  {
    HeadEndProtected(ms);
    var out := ms + [m];
    var n := if HeadEnd(ms) == |ms| && Protected(m) then |ms| + 1 else HeadEnd(ms);
    HeadEndIs(out, n);
  }

  lemma {:induction false} SummariesBehindHead(ms: seq<Message>, h: nat)
    requires h <= |ms| && forall i | 0 <= i < h :: Protected(ms[i])
    ensures Summaries(ms) == Summaries(ms[h..])
    decreases h
  {
    if h == 0 {
      assert ms[0..] == ms;
    } else {
      SummariesBehindHead(ms[1..], h - 1);
      assert ms[1..][h - 1..] == ms[h..];
    }
  }

  /** Rolling says the whole list has at most one summary. */
  lemma RollingCount(ms: seq<Message>)
    requires Rolling(ms)
    ensures Summaries(ms) <= 1
  {
    HeadEndProtected(ms);
    SummariesBehindHead(ms, HeadEnd(ms));
  }

  lemma AppendKeepsRolling(ms: seq<Message>, m: Message)
    requires Rolling(ms) && !(IsSystem(m) && IsSummary(m))
    ensures Rolling(ms + [m])
  {
    HeadEndAppend(ms, m);
    var h := HeadEnd(ms);
    if HeadEnd(ms + [m]) == h {
      assert (ms + [m])[h..] == ms[h..] + [m];
      SummariesAppend(ms[h..], [m]);
    }
  }

  /** A fold swallows the old summary and leaves exactly its own. */
  lemma FoldKeepsRolling(ms: seq<Message>, slotCtx: int, instruction: string, summarize: string -> Option<string>)
    requires Rolling(ms) && Compressed(ms, slotCtx, instruction, summarize).Some?
    ensures Rolling(Compressed(ms, slotCtx, instruction, summarize).value.messages)
    ensures Summaries(ms[TailStart(ms, KeepRecentMessages(slotCtx))..]) == 0
  {
    var out := Compressed(ms, slotCtx, instruction, summarize).value.messages;
    var h, k := HeadEnd(ms), TailStart(ms, KeepRecentMessages(slotCtx));
    FoldShrinks(ms, slotCtx, instruction, summarize);
    HeadEndProtected(ms);
    HeadEndIs(out, h);
    TailHasNoSummary(ms, h, k);
    assert out[h + 1..] == out[h..][1..] == ms[k..];
    RollingShape(out, h);
  }

  lemma RollingShape(out: seq<Message>, h: nat)
    requires h < |out| && HeadEnd(out) == h && IsSystem(out[h]) && IsSummary(out[h])
    requires Summaries(out[h + 1..]) == 0
    ensures Rolling(out)
  {
    assert out[h..][1..] == out[h + 1..];
  }

  lemma TailHasNoSummary(ms: seq<Message>, h: nat, k: nat)
    requires h < k <= |ms| && h == HeadEnd(ms) && Rolling(ms)
    ensures Summaries(ms[k..]) == 0
  {
    var folded := ms[h..k];
    assert ms[h..] == folded + ms[k..];
    SummariesAppend(folded, ms[k..]);
    assert folded[0] == ms[h] == ms[h..][0];
  }

  /** Over any run of appends and folds there is never more than one rolling summary. */
  lemma {:induction false} OneRollingSummary(ms: seq<Message>, ops: seq<Op>)
    requires Rolling(ms) && NoSummaryAppended(ops)
    ensures Rolling(Run(ms, ops)) && Summaries(Run(ms, ops)) <= 1
    decreases |ops|
  {
    if ops == [] {
      RollingCount(ms);
    } else {
      var op := ops[0];
      match op {
        case Append(m) => AppendKeepsRolling(ms, m);
        case Fold(ctx, instruction, reply) =>
          if Compressed(ms, ctx, instruction, _ => reply).Some? {
            FoldKeepsRolling(ms, ctx, instruction, _ => reply);
          }
      }
      OneRollingSummary(Apply(ms, op), ops[1..]);
    }
  }

  predicate Contains(text: string, part: string) {
    exists i, j | 0 <= i <= j <= |text| :: text[i..j] == part
  }

  lemma ContainsInside(before: string, text: string, after: string, part: string)
    requires Contains(text, part)
    ensures Contains(before + text + after, part)
  {
    var i, j :| 0 <= i <= j <= |text| && text[i..j] == part;
    assert (before + text + after)[|before| + i..|before| + j] == text[i..j];
  }

  lemma {:induction false} JoinContains(parts: seq<string>, sep: string, k: nat)
    requires k < |parts|
    ensures Contains(Join(parts, sep), parts[k])
  {
    var text := Join(parts, sep);
    if k == 0 {
      assert text[0..|parts[0]|] == parts[0];
    } else {
      JoinContains(parts[1..], sep, k - 1);
      ContainsInside(parts[0] + sep, Join(parts[1..], sep), "", parts[k]);
      assert text == (parts[0] + sep) + Join(parts[1..], sep) + "";
    }
  }

  /** Everything a fold removes, the old summary included, reaches the summarizer's input. */
  lemma FoldedReachesSummarizer(ms: seq<Message>, slotCtx: int, instruction: string, i: nat)
    requires HeadEnd(ms) <= i < TailStart(ms, KeepRecentMessages(slotCtx))
    ensures Contains(FoldInput(ms, slotCtx, instruction), TranscriptLine(ms[i]))
  {
    var lines := TranscriptLines(Middle(ms, slotCtx));
    var k := i - HeadEnd(ms);
    assert Middle(ms, slotCtx)[k] == ms[i];
    JoinContains(lines, "\n", k);
    ContainsInside("<transcript>\n", Join(lines, "\n"), "\n</transcript>\n" + instruction, lines[k]);
    assert FoldInput(ms, slotCtx, instruction)
        == "<transcript>\n" + Join(lines, "\n") + ("\n</transcript>\n" + instruction);
  }

  /** How many of the newest messages stay verbatim. */
  function Verbatim(slotCtx: int): nat {
    if slotCtx >= 32768 then 8 else if slotCtx >= 16384 then 6 else 4
  }

  /**
   A compression happens exactly when at least seven tenths of the context are used, at least two messages can be folded and
   the summarizer answers.
   */
  lemma FoldsIff(ms: seq<Message>, slotCtx: int, instruction: string, summarize: string -> Option<string>)
    ensures Compressed(ms, slotCtx, instruction, summarize).Some?
       <==> && slotCtx > 0 && 10 * EstimateTokens(ms) >= 7 * slotCtx
            && |ms| - HeadEnd(ms) - Verbatim(slotCtx) >= 2
            && summarize(FoldInput(ms, slotCtx, instruction)).Some?
  {
  }

  /** A summary is told by its beginning alone. */
  lemma SummaryIsTold(text: string)
    ensures IsSummary(Message(System, Str(SUMMARY_PREFIX + text), []))
  {
  }

  lemma SummaryText(reply: string)
    ensures SummaryMessage(reply)
         == Message(System, Str("Rolling conversation summary (older turns condensed):\n" + reply), [])
  {
    assert SUMMARY_PREFIX + "\n" == "Rolling conversation summary (older turns condensed):\n";
  }

  /** The summarizer's answer is kept whole, under the prefix, in a system message of its own between head and tail. */
  lemma FoldIs(ms: seq<Message>, slotCtx: int, instruction: string, summarize: string -> Option<string>)
    requires Compressed(ms, slotCtx, instruction, summarize).Some?
    ensures var r, reply := Compressed(ms, slotCtx, instruction, summarize).value, summarize(FoldInput(ms, slotCtx, instruction));
            && reply.Some? && Verbatim(slotCtx) <= |ms|
            && r.messages == ms[..HeadEnd(ms)]
                             + [Message(System, Str("Rolling conversation summary (older turns condensed):\n" + reply.value), [])]
                             + ms[|ms| - Verbatim(slotCtx)..]
            && r.messagesSummarized == |ms| + 1 - |r.messages|
  {
    FoldsIff(ms, slotCtx, instruction, summarize);
    SummaryText(summarize(FoldInput(ms, slotCtx, instruction)).value);
  }

  /** The summarizer reads the folded messages line by line between two marks, each under its role, and then the instruction. */
  lemma FoldInputIs(ms: seq<Message>, slotCtx: int, instruction: string) returns (lines: seq<string>)
    ensures |lines| == |Middle(ms, slotCtx)|
    ensures FoldInput(ms, slotCtx, instruction) == "<transcript>\n" + Join(lines, "\n") + "\n</transcript>\n" + instruction
    ensures forall i | 0 <= i < |lines| ::
              var m := ms[HeadEnd(ms) + i];
              lines[i] == (if IsSystem(m) then "system" else m.role.name) + ": " + MessageText(m)
  {
    lines := TranscriptLines(Middle(ms, slotCtx));
    LinesAre(Middle(ms, slotCtx));
  }

  lemma LinesAre(ms: seq<Message>)
    ensures forall i | 0 <= i < |ms| ::
              TranscriptLines(ms)[i] == (if IsSystem(ms[i]) then "system" else ms[i].role.name) + ": " + MessageText(ms[i])
  {
  }

  /** What a summary says reaches the next summarizer as soon as the summary is folded itself. */
  lemma SummaryIsPassedOn(ms: seq<Message>, slotCtx: int, instruction: string, i: nat, reply: string)
    requires HeadEnd(ms) <= i < TailStart(ms, KeepRecentMessages(slotCtx)) && ms[i] == SummaryMessage(reply)
    ensures Contains(FoldInput(ms, slotCtx, instruction), reply)
  {
    FoldedReachesSummarizer(ms, slotCtx, instruction, i);
    SummaryLine(reply);
    ContainsEnd(FoldInput(ms, slotCtx, instruction), "system: " + (SUMMARY_PREFIX + "\n"), reply);
  }

  lemma SummaryLine(reply: string)
    ensures TranscriptLine(SummaryMessage(reply)) == "system: " + (SUMMARY_PREFIX + "\n") + reply
  {
    Assoc("system: ", SUMMARY_PREFIX + "\n", reply);
  }

  lemma ContainsEnd(text: string, front: string, part: string)
    requires Contains(text, front + part)
    ensures Contains(text, part)
  {
    var i, j :| 0 <= i <= j <= |text| && text[i..j] == front + part;
    assert text[i + |front|..j] == (front + part)[|front|..];
  }
}

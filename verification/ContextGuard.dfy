/**
 The context-overflow guard of memory/injection.py. `EnforceContextBudget` is the single-pass
 algorithm (a parallel token list and a running total); `Reference` is the obvious ladder that
 re-estimates the whole conversation after every drop. The method is proved equal to it.
 */
module ContextGuard {
  import opened Prelude
  import opened Text
  import opened Messages

  // The opening words of the three injection headers, in TRIM_ORDER. Everything below holds for
  // any list of headers; TrimLadder states what it needs of them.
  const MEMORY_HEADER := "Long-term memory excerpts"
  const SKILL_HEADER := "Skills matching"
  const PROJECT_HEADER := "Project knowledge excerpts"
  const TRIM_ORDER: seq<string> := [MEMORY_HEADER, SKILL_HEADER, PROJECT_HEADER]

  datatype TrimReport = TrimReport(
    droppedBlocks: nat, droppedInjections: nat, droppedMessages: nat,
    tokensBefore: nat, tokensAfter: int, limitTokens: int, stillOver: bool)

  /** int(slot_ctx * 0.90), with the fraction taken exactly. */
  function Limit(slotCtx: int): int {
    if slotCtx <= 0 then 0 else slotCtx * 9 / 10
  }

  /** The first header of the list that starts the text. */
  function HeaderOf(order: seq<string>, text: string): (h: Option<string>)
    ensures h.Some? ==> h.value in order && h.value <= text
    ensures h.None? ==> forall i | 0 <= i < |order| :: !(order[i] <= text)
  {
    if order == [] then None
    else if order[0] <= text then Some(order[0])
    else
      var rest := HeaderOf(order[1..], text);
      assert forall i | 1 <= i < |order| :: order[i] == order[1..][i - 1];
      rest
  }

  /** _injected_header */
  function InjectedHeader(order: seq<string>, m: Message): (h: Option<string>)
    ensures h.Some? ==> m.content.Str? && IsSystem(m)
  {
    if IsSystem(m) && m.content.Str? then HeaderOf(order, m.content.text) else None
  }

  function FirstInjected(order: seq<string>, ms: seq<Message>, header: string): (i: Option<nat>)
    ensures i.Some? ==> i.value < |ms| && InjectedHeader(order, ms[i.value]) == Some(header)
    ensures i.None? ==> forall m | m in ms :: InjectedHeader(order, m) != Some(header)
  {
    if ms == [] then None
    else if InjectedHeader(order, ms[0]) == Some(header) then Some(0)
    else match FirstInjected(order, ms[1..], header)
      case None => None
      case Some(i) => Some(i + 1)
  }

  predicate IsBlockStart(line: string) {
    "<<<" <= line && !("<<<end" <= line)
  }

  /** The last line at which a block starts, or -1. */
  function LastStart(lines: seq<string>): (i: int)
    ensures -1 <= i < |lines|
    ensures i >= 0 ==> IsBlockStart(lines[i])
    ensures forall j | i < j < |lines| :: !IsBlockStart(lines[j])
  {
    if lines == [] then -1
    else if IsBlockStart(lines[|lines| - 1]) then |lines| - 1
    else LastStart(lines[..|lines| - 1])
  }

  /** The lines before the first block. */
  function HeadLines(lines: seq<string>): seq<string>
    decreases |lines|
  {
    var i := LastStart(lines);
    if i < 0 then lines else HeadLines(lines[..i])
  }

  /** Each block runs from its start line to the next start or the end; the last one is peeled first. */
  function BlocksOf(lines: seq<string>): seq<string>
    decreases |lines|
  {
    var i := LastStart(lines);
    if i < 0 then [] else BlocksOf(lines[..i]) + [Join(lines[i..], "\n")]
  }

  datatype Injected = Injected(head: string, blocks: seq<string>)

  /** _split_injected */
  function SplitInjected(content: string): Injected {
    var lines := Split(content, "\n");
    Injected(Join(HeadLines(lines), "\n"), BlocksOf(lines))
  }

  function Render(head: string, blocks: seq<string>): string {
    head + "\n" + Join(blocks, "\n")
  }

  function WithText(m: Message, text: string): Message {
    m.(content := Str(text))
  }

  function Remove<T>(s: seq<T>, i: nat): seq<T>
    requires i < |s|
  {
    s[..i] + s[i + 1..]
  }

  // ---- the reference ladder ----

  datatype Ladder = Ladder(out: seq<Message>, blocks: nat, injections: nat, messages: nat)

  /** Pop last blocks of one injected message until the fresh estimate fits or the message is gone. */
  function PopBlocks(t: Ladder, index: nat, head: string, blocks: seq<string>, limit: int): Ladder
    requires blocks != [] ==> index < |t.out|
    decreases |blocks|
  {
    if blocks == [] || EstimateTokens(t.out) <= limit then t
    else PopBlocks(PopOne(t, index, head, blocks), index, head, blocks[..|blocks| - 1], limit)
  }

  /** One pop: rewrite the message without its last block, or delete it when that was the only one. */
  function PopOne(t: Ladder, index: nat, head: string, blocks: seq<string>): Ladder
    requires blocks != [] && index < |t.out|
  {
    if |blocks| == 1 then
      Ladder(Remove(t.out, index), t.blocks + 1, t.injections + 1, t.messages)
    else
      t.(out := t.out[index := WithText(t.out[index], Render(head, blocks[..|blocks| - 1]))], blocks := t.blocks + 1)
  }

  /** Rung 1: the injections in trim order, from the r-th header on. */
  function TrimInjections(order: seq<string>, r: nat, t: Ladder, limit: int): Ladder
    requires r <= |order|
    decreases |order| - r
  {
    if r == |order| then t
    else match FirstInjected(order, t.out, order[r])
      case None => TrimInjections(order, r + 1, t, limit)
      case Some(index) =>
        var s := SplitInjected(t.out[index].content.text);
        var t' := PopBlocks(t, index, s.head, s.blocks, limit);
        if EstimateTokens(t'.out) <= limit then t' else TrimInjections(order, r + 1, t', limit)
  }

  /** The conversation without its k oldest non-system messages. */
  function DropOldest(ms: seq<Message>, k: nat): seq<Message> {
    if ms == [] || k == 0 then ms
    else if IsSystem(ms[0]) then [ms[0]] + DropOldest(ms[1..], k)
    else DropOldest(ms[1..], k - 1)
  }

  /** Rung 2: one oldest non-system message at a time, beyond the protected window. */
  function TrimTail(t: Ladder, keep: nat, limit: int): Ladder
    decreases |Body(t.out)|
  {
    if EstimateTokens(t.out) <= limit || |Body(t.out)| <= keep then t
    else
      DropOldestBody(t.out, 1);
      TrimTail(t.(out := DropOldest(t.out, 1), messages := t.messages + 1), keep, limit)
  }

  function Trim(order: seq<string>, messages: seq<Message>, slotCtx: int): Ladder {
    var limit := Limit(slotCtx);
    TrimTail(TrimInjections(order, 0, Ladder(messages, 0, 0, 0), limit), KeepRecentMessages(slotCtx), limit)
  }

  function ReportOf(before: seq<Message>, t: Ladder, limit: int): TrimReport {
    TrimReport(t.blocks, t.injections, t.messages, EstimateTokens(before), EstimateTokens(t.out), limit,
               EstimateTokens(t.out) > limit)
  }

  function Reference(order: seq<string>, messages: seq<Message>, slotCtx: int): (seq<Message>, Option<TrimReport>) {
    if slotCtx <= 0 || EstimateTokens(messages) <= Limit(slotCtx) then (messages, None)
    else
      var t := Trim(order, messages, slotCtx);
      (t.out, Some(ReportOf(messages, t, Limit(slotCtx))))
  }

  // ---- the single-pass algorithm ----

  function TokenList(ms: seq<Message>): (tokens: seq<nat>) {
    seq(|ms|, i requires 0 <= i < |ms| => MessageTokens(ms[i]))
  }

  function Sum(tokens: seq<nat>): nat {
    if tokens == [] then 0 else tokens[0] + Sum(tokens[1..])
  }

  /** The positions of the non-system messages; `from` is the position of ms[0]. */
  function BodyIndexes(ms: seq<Message>, from: nat): (indexes: seq<nat>)
    ensures |indexes| == |Body(ms)|
    ensures forall k | 0 <= k < |indexes| :: from <= indexes[k] < from + |ms|
  {
    if ms == [] then [] else (if IsSystem(ms[0]) then [] else [from]) + BodyIndexes(ms[1..], from + 1)
  }

  /** The rebuild of rung 2: every message whose position is not in `drop`. */
  function Without(ms: seq<Message>, from: nat, drop: set<nat>): seq<Message> {
    if ms == [] then [] else (if from in drop then [] else [ms[0]]) + Without(ms[1..], from + 1, drop)
  }

  predicate Parallel(ms: seq<Message>, tokens: seq<nat>) {
    |tokens| == |ms| && forall i | 0 <= i < |ms| :: tokens[i] == MessageTokens(ms[i])
  }

  /** What the running bookkeeping must always agree with. */
  predicate Synced(out: seq<Message>, tokens: seq<nat>, total: int) {
    Parallel(out, tokens) && total == EstimateTokens(out)
  }

  lemma {:induction false} SumIsEstimate(ms: seq<Message>, tokens: seq<nat>)
    requires Parallel(ms, tokens)
    ensures Sum(tokens) == EstimateTokens(ms)
  {
    if ms != [] {
      SumIsEstimate(ms[1..], tokens[1..]);
    }
  }

  lemma EstimateSplit(a: seq<Message>, m: Message, b: seq<Message>)
    ensures EstimateTokens(a + [m] + b) == EstimateTokens(a) + MessageTokens(m) + EstimateTokens(b)
  {
    Assoc(a, [m], b);
    EstimateAppend(a, [m] + b);
    assert ([m] + b)[1..] == b;
  }

  lemma EstimateExchange(a: seq<Message>, m: Message, n: Message, b: seq<Message>)
    ensures EstimateTokens(a + [n] + b) == EstimateTokens(a + [m] + b) + MessageTokens(n) - MessageTokens(m)
    ensures EstimateTokens(a + b) == EstimateTokens(a + [m] + b) - MessageTokens(m)
  {
    EstimateSplit(a, m, b);
    EstimateSplit(a, n, b);
    EstimateAppend(a, b);
  }

  /** Replacing one message moves the fresh estimate by exactly that message's delta. */
  lemma EstimateUpdate(ms: seq<Message>, i: nat, m: Message)
    requires i < |ms|
    ensures EstimateTokens(ms[i := m]) == EstimateTokens(ms) + MessageTokens(m) - MessageTokens(ms[i])
  {
    Around(ms, i);
    Exchanged(ms, i, m);
    EstimateExchange(ms[..i], ms[i], m, ms[i + 1..]);
  }

  lemma EstimateRemove(ms: seq<Message>, i: nat)
    requires i < |ms|
    ensures EstimateTokens(Remove(ms, i)) == EstimateTokens(ms) - MessageTokens(ms[i])
  {
    Around(ms, i);
    EstimateExchange(ms[..i], ms[i], ms[i], ms[i + 1..]);
  }

  lemma SyncedUpdate(ms: seq<Message>, tokens: seq<nat>, total: int, i: nat, m: Message)
    requires Synced(ms, tokens, total) && i < |ms|
    ensures Synced(ms[i := m], tokens[i := MessageTokens(m)], total + MessageTokens(m) - tokens[i])
  {
    EstimateUpdate(ms, i, m);
  }

  lemma SyncedRemove(ms: seq<Message>, tokens: seq<nat>, total: int, i: nat)
    requires Synced(ms, tokens, total) && i < |ms|
    ensures Synced(Remove(ms, i), Remove(tokens, i), total - tokens[i])
  {
    EstimateRemove(ms, i);
  }

  lemma {:induction false} DropOldestBody(ms: seq<Message>, k: nat)
    requires k <= |Body(ms)|
    ensures Body(DropOldest(ms, k)) == Body(ms)[k..]
  {
    if ms == [] || k == 0 {
      assert Body(ms)[0..] == Body(ms);
    } else if IsSystem(ms[0]) {
      var rest := DropOldest(ms[1..], k);
      DropOldestBody(ms[1..], k);
      assert ([ms[0]] + rest)[1..] == rest;
      assert Body([ms[0]] + rest) == Body(rest);
    } else {
      var body := Body(ms[1..]);
      DropOldestBody(ms[1..], k - 1);
      assert ([ms[0]] + body)[k..] == body[k - 1..];
    }
  }

  /** Dropping one more oldest message is one step of the reference. */
  lemma {:induction false} DropOldestStep(ms: seq<Message>, k: nat)
    requires k < |Body(ms)|
    ensures DropOldest(DropOldest(ms, k), 1) == DropOldest(ms, k + 1)
  {
    if IsSystem(ms[0]) {
      DropOldestStep(ms[1..], k);
      assert ms == [ms[0]] + ms[1..];
      DropPastSystem(ms[0], ms[1..], k);
      DropPastSystem(ms[0], ms[1..], k + 1);
      DropPastSystem(ms[0], DropOldest(ms[1..], k), 1);
    } else if k > 0 {
      DropOldestStep(ms[1..], k - 1);
    }
  }

  lemma {:induction false} DropOldestCost(ms: seq<Message>, k: nat)
    requires k < |Body(ms)|
    ensures EstimateTokens(DropOldest(ms, k + 1)) == EstimateTokens(DropOldest(ms, k)) - MessageTokens(Body(ms)[k])
  {
    if IsSystem(ms[0]) {
      DropOldestCost(ms[1..], k);
      assert Body(ms) == Body(ms[1..]);
      HeadAndRest(ms);
      DropPastSystem(ms[0], ms[1..], k);
      DropPastSystem(ms[0], ms[1..], k + 1);
    } else {
      assert Body(ms) == [ms[0]] + Body(ms[1..]);
      assert DropOldest(ms, k + 1) == DropOldest(ms[1..], k);
      if k > 0 {
        DropOldestCost(ms[1..], k - 1);
      }
    }
  }

  lemma HeadAndRest(ms: seq<Message>)
    requires ms != []
    ensures ms == [ms[0]] + ms[1..]
  {
  }

  lemma DropPastSystem(m: Message, rest: seq<Message>, k: nat)
    requires IsSystem(m)
    ensures DropOldest([m] + rest, k) == [m] + DropOldest(rest, k)
    ensures EstimateTokens([m] + rest) == MessageTokens(m) + EstimateTokens(rest)
    ensures EstimateTokens([m] + DropOldest(rest, k)) == MessageTokens(m) + EstimateTokens(DropOldest(rest, k))
  {
    assert ([m] + rest)[1..] == rest;
    assert ([m] + DropOldest(rest, k))[1..] == DropOldest(rest, k);
  }

  lemma {:induction false} BodyIndexAt(ms: seq<Message>, from: nat, k: nat)
    requires k < |Body(ms)|
    ensures Body(ms)[k] == ms[BodyIndexes(ms, from)[k] - from]
  {
    if IsSystem(ms[0]) {
      BodyIndexAt(ms[1..], from + 1, k);
    } else if k > 0 {
      BodyIndexAt(ms[1..], from + 1, k - 1);
    }
  }

  lemma {:induction false} WithoutAgree(ms: seq<Message>, from: nat, d1: set<nat>, d2: set<nat>)
    requires forall i: nat | from <= i < from + |ms| :: i in d1 <==> i in d2
    ensures Without(ms, from, d1) == Without(ms, from, d2)
  {
    if ms != [] {
      WithoutAgree(ms[1..], from + 1, d1, d2);
    }
  }

  function ToSet(s: seq<nat>): set<nat> {
    set i | i in s
  }

  /** Rebuilding once without the first k body positions drops the k oldest non-system messages. */
  lemma {:induction false} RebuildDropsOldest(ms: seq<Message>, from: nat, k: nat)
    requires k <= |Body(ms)|
    ensures Without(ms, from, ToSet(BodyIndexes(ms, from)[..k])) == DropOldest(ms, k)
  {
    if ms != [] {
      var indexes, rest := BodyIndexes(ms, from), BodyIndexes(ms[1..], from + 1);
      var k' := if IsSystem(ms[0]) || k == 0 then k else k - 1;
      RebuildDropsOldest(ms[1..], from + 1, k');
      assert indexes[..k] == (if k' == k then [] else [from]) + rest[..k'];
      WithoutAgree(ms[1..], from + 1, ToSet(indexes[..k]), ToSet(rest[..k']));
      assert ms == [ms[0]] + ms[1..];
    }
  }

  /** One pop, adjusting the total by that one message's delta. */
  method PopOneInPlace(t: Ladder, tokens: seq<nat>, total: int, index: nat, head: string, blocks: seq<string>)
    returns (t': Ladder, tokens': seq<nat>, total': int)
    requires Synced(t.out, tokens, total)
    requires blocks != [] && index < |t.out|
    ensures Synced(t'.out, tokens', total')
    ensures t' == PopOne(t, index, head, blocks)
  {
    if |blocks| > 1 {
      var m := WithText(t.out[index], Render(head, blocks[..|blocks| - 1]));
      SyncedUpdate(t.out, tokens, total, index, m);
      var newTokens := MessageTokens(m);
      t' := t.(out := t.out[index := m], blocks := t.blocks + 1);
      total' := total + newTokens - tokens[index];
      tokens' := tokens[index := newTokens];
    } else {
      SyncedRemove(t.out, tokens, total, index);
      total' := total - tokens[index];
      t' := Ladder(Remove(t.out, index), t.blocks + 1, t.injections + 1, t.messages);
      tokens' := Remove(tokens, index);
    }
  }

  /** The inner loop of rung 1: pops blocks of one message with the total kept incrementally. */
  method PopBlocksInPlace(t: Ladder, tokens0: seq<nat>, total0: int, index: nat, limit: int)
    returns (t': Ladder, tokens: seq<nat>, total: int)
    requires index < |t.out| && t.out[index].content.Str?
    requires Synced(t.out, tokens0, total0)
    ensures Synced(t'.out, tokens, total)
    ensures var s := SplitInjected(t.out[index].content.text); t' == PopBlocks(t, index, s.head, s.blocks, limit)
  {
    t', tokens, total := t, tokens0, total0;
    var s := SplitInjected(t.out[index].content.text);
    var blocks := s.blocks;
    while blocks != [] && total > limit
      invariant Synced(t'.out, tokens, total)
      invariant blocks != [] ==> index < |t'.out|
      invariant PopBlocks(t, index, s.head, s.blocks, limit) == PopBlocks(t', index, s.head, blocks, limit)
      decreases |blocks|
    {
      t', tokens, total := PopOneInPlace(t', tokens, total, index, s.head, blocks);
      blocks := blocks[..|blocks| - 1];
    }
  }

  /** Rung 1: `tokens` stays parallel to the conversation. */
  method TrimInjectionsInPlace(order: seq<string>, messages: seq<Message>, tokens0: seq<nat>, total0: int, limit: int)
    returns (t: Ladder, tokens: seq<nat>, total: int)
    requires Synced(messages, tokens0, total0)
    ensures Synced(t.out, tokens, total)
    ensures t == TrimInjections(order, 0, Ladder(messages, 0, 0, 0), limit)
  {
    t, tokens, total := Ladder(messages, 0, 0, 0), tokens0, total0;
    ghost var goal := TrimInjections(order, 0, t, limit);
    var r := 0;
    while r < |order|
      invariant r <= |order|
      invariant Synced(t.out, tokens, total)
      invariant goal == TrimInjections(order, r, t, limit)
    {
      var index := FirstInjected(order, t.out, order[r]);
      if index.Some? {
        t, tokens, total := PopBlocksInPlace(t, tokens, total, index.value, limit);
        if total <= limit {
          return;
        }
      }
      r := r + 1;
    }
  }

  function Cut(t: Ladder, k: nat): Ladder {
    t.(out := DropOldest(t.out, k), messages := t.messages + k)
  }

  /** The conversation rebuilt once without its first `cut` body positions. */
  function Rebuilt(t: Ladder, cut: nat): Ladder
    requires cut <= |Body(t.out)|
  {
    t.(out := Without(t.out, 0, ToSet(BodyIndexes(t.out, 0)[..cut])), messages := t.messages + cut)
  }

  lemma TailStep(t: Ladder, keep: nat, limit: int, cut: nat)
    requires cut <= |Body(t.out)|
    ensures EstimateTokens(Cut(t, cut).out) <= limit || |Body(t.out)| - cut <= keep ==>
              TrimTail(Cut(t, cut), keep, limit) == Cut(t, cut)
    ensures EstimateTokens(Cut(t, cut).out) > limit && |Body(t.out)| - cut > keep ==>
              TrimTail(Cut(t, cut), keep, limit) == TrimTail(Cut(t, cut + 1), keep, limit)
    ensures cut < |Body(t.out)| ==>
              EstimateTokens(Cut(t, cut + 1).out)
              == EstimateTokens(Cut(t, cut).out) - MessageTokens(t.out[BodyIndexes(t.out, 0)[cut]])
  {
    DropOldestBody(t.out, cut);
    if cut < |Body(t.out)| {
      DropOldestStep(t.out, cut);
      DropOldestCost(t.out, cut);
      BodyIndexAt(t.out, 0, cut);
    }
  }

  /** Rung 2 has counted `cut` messages: the running total is right, and the rest of the rung is still to do. */
  predicate CutReached(t: Ladder, keep: nat, limit: int, cut: nat, total: int) {
    total == EstimateTokens(Cut(t, cut).out) && TrimTail(t, keep, limit) == TrimTail(Cut(t, cut), keep, limit)
  }

  lemma CutFurther(t: Ladder, tokens: seq<nat>, keep: nat, limit: int, cut: nat, total: int)
    requires Parallel(t.out, tokens) && CutReached(t, keep, limit, cut, total)
    requires total > limit && cut < |Body(t.out)| - keep
    ensures CutReached(t, keep, limit, cut + 1, total - tokens[BodyIndexes(t.out, 0)[cut]])
  {
    TailStep(t, keep, limit, cut);
  }

  lemma CutDone(t: Ladder, keep: nat, limit: int, cut: nat, total: int)
    requires cut <= |Body(t.out)| && CutReached(t, keep, limit, cut, total)
    requires total <= limit || cut >= |Body(t.out)| - keep
    ensures TrimTail(t, keep, limit) == Cut(t, cut) == Rebuilt(t, cut)
    ensures cut == 0 ==> Cut(t, cut) == t
  {
    TailStep(t, keep, limit, cut);
    RebuildDropsOldest(t.out, 0, cut);
  }

  /** Rung 2: the cut is counted first and applied in one rebuild. */
  method TrimTailInPlace(t: Ladder, tokens: seq<nat>, total0: int, keep: nat, limit: int)
    returns (t': Ladder, total: int)
    requires Synced(t.out, tokens, total0)
    ensures total == EstimateTokens(t'.out)
    ensures t' == TrimTail(t, keep, limit)
  {
    total := total0;
    var bodyIndexes := BodyIndexes(t.out, 0);
    var droppable := |bodyIndexes| - keep;
    var cut := 0;
    assert Cut(t, 0) == t;
    while total > limit && cut < droppable
      invariant 0 <= cut <= |bodyIndexes| && (cut == 0 || cut <= droppable)
      invariant CutReached(t, keep, limit, cut, total)
    {
      CutFurther(t, tokens, keep, limit, cut, total);
      total := total - tokens[bodyIndexes[cut]];
      cut := cut + 1;
    }
    CutDone(t, keep, limit, cut, total);
    t' := t;
    if cut > 0 {
      t' := Rebuilt(t, cut);
    }
  }

  /** enforce_context_budget */
  method EnforceContextBudget(order: seq<string>, messages: seq<Message>, slotCtx: int)
    returns (result: seq<Message>, report: Option<TrimReport>)
    ensures (result, report) == Reference(order, messages, slotCtx)
  {
    var limit := Limit(slotCtx);
    var tokens := TokenList(messages);
    SumIsEstimate(messages, tokens);
    var total: int := Sum(tokens);
    var tokensBefore := Sum(tokens);
    if slotCtx <= 0 || total <= limit {
      return messages, None;
    }
    var t;
    t, tokens, total := TrimInjectionsInPlace(order, messages, tokens, total, limit);
    t, total := TrimTailInPlace(t, tokens, total, KeepRecentMessages(slotCtx), limit);
    result := t.out;
    report := Some(TrimReport(t.blocks, t.injections, t.messages, tokensBefore, total, limit, total > limit));
  }
}

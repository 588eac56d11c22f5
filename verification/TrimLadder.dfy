/**
 What the guard guarantees when each injection header heads at most one message: it walks the
 chain of single drops ordered by priority and stops at the first conversation that fits.
 */
module TrimLadder {
  import opened Prelude
  import opened Messages
  import opened ContextGuard
  import opened InjectedBlocks

  /** At most one message per injection header. */
  predicate Unique(order: seq<string>, ms: seq<Message>) {
    forall i, j | 0 <= i < j < |ms| && InjectedHeader(order, ms[i]).Some? ::
      InjectedHeader(order, ms[i]) != InjectedHeader(order, ms[j])
  }

  function Blocks(m: Message): seq<string> {
    if m.content.Str? then SplitInjected(m.content.text).blocks else []
  }

  /** No message headed by one of the first r headers has a block left. */
  predicate Exhausted(order: seq<string>, r: nat, ms: seq<Message>)
    requires r <= |order|
  {
    forall i, q | 0 <= i < |ms| && 0 <= q < r && InjectedHeader(order, ms[i]) == Some(order[q]) :: Blocks(ms[i]) == []
  }

  // ---- the chain of single drops ----

  /** The last block of the first injection, from rung r on, that still has one. */
  function NextBlock(order: seq<string>, r: nat, t: Ladder): Option<Ladder>
    requires r <= |order|
    decreases |order| - r
  {
    if r == |order| then None
    else
      var index := FirstInjected(order, t.out, order[r]);
      if index.Some? && Blocks(t.out[index.value]) != [] then
        var s := SplitInjected(t.out[index.value].content.text);
        Some(PopOne(t, index.value, s.head, s.blocks))
      else NextBlock(order, r + 1, t)
  }

  /** The next thing to go: a memory block before a skill block before a project block before a tail message. */
  function NextDrop(order: seq<string>, keep: nat, t: Ladder): Option<Ladder> {
    var block := NextBlock(order, 0, t);
    if block.Some? then block
    else if |Body(t.out)| > keep then Some(Cut(t, 1))
    else None
  }

  function Weight(ms: seq<Message>): nat {
    if ms == [] then 0 else 1 + |MessageText(ms[0])| + Weight(ms[1..])
  }

  /** Drop one thing at a time until the conversation fits or only protected content is left. */
  function FirstFit(order: seq<string>, keep: nat, limit: int, t: Ladder): Ladder
    requires ValidOrder(order)
    decreases Weight(t.out)
  {
    if EstimateTokens(t.out) <= limit then t
    else match NextDrop(order, keep, t)
      case None => t
      case Some(t') =>
        NextDropShrinks(order, keep, t);
        FirstFit(order, keep, limit, t')
  }

  lemma {:induction false} WeightAppend(a: seq<Message>, b: seq<Message>)
    ensures Weight(a + b) == Weight(a) + Weight(b)
  {
    if a == [] {
      assert a + b == b;
    } else {
      WeightAppend(a[1..], b);
      assert (a + b)[1..] == a[1..] + b;
    }
  }

  lemma {:induction false} DropOldestWeight(ms: seq<Message>, k: nat)
    requires 0 < k <= |Body(ms)|
    ensures Weight(DropOldest(ms, k)) < Weight(ms)
  {
    if IsSystem(ms[0]) {
      DropOldestWeight(ms[1..], k);
    } else if k > 1 {
      DropOldestWeight(ms[1..], k - 1);
    }
  }

  lemma WeightSplit(a: seq<Message>, m: Message, b: seq<Message>)
    ensures Weight(a + [m] + b) == Weight(a) + 1 + |MessageText(m)| + Weight(b)
  {
    Assoc(a, [m], b);
    WeightAppend(a, [m] + b);
    assert ([m] + b)[1..] == b;
  }

  lemma WeightExchange(a: seq<Message>, m: Message, n: Message, b: seq<Message>)
    ensures Weight(a + b) < Weight(a + [m] + b)
    ensures |MessageText(n)| < |MessageText(m)| ==> Weight(a + [n] + b) < Weight(a + [m] + b)
  {
    WeightSplit(a, m, b);
    WeightSplit(a, n, b);
    WeightAppend(a, b);
  }

  lemma PopOneShrinks(order: seq<string>, t: Ladder, i: nat)
    requires ValidOrder(order) && i < |t.out| && InjectedHeader(order, t.out[i]).Some? && Blocks(t.out[i]) != []
    ensures var s := SplitInjected(t.out[i].content.text);
            Weight(PopOne(t, i, s.head, s.blocks).out) < Weight(t.out)
  {
    var ms, m := t.out, t.out[i];
    var s := SplitInjected(m.content.text);
    var a, b := ms[..i], ms[i + 1..];
    Around(ms, i);
    if |s.blocks| == 1 {
      WeightExchange(a, m, m, b);
    } else {
      var m' := WithText(m, Render(s.head, s.blocks[..|s.blocks| - 1]));
      Reparse(InjectedHeader(order, m).value, m.content.text);
      Exchanged(ms, i, m');
      WeightExchange(a, m, m', b);
    }
  }

  lemma {:induction false} NextBlockShrinks(order: seq<string>, r: nat, t: Ladder)
    requires ValidOrder(order) && r <= |order|
    ensures var n := NextBlock(order, r, t); n.Some? ==> Weight(n.value.out) < Weight(t.out)
    decreases |order| - r
  {
    if r < |order| {
      var index := FirstInjected(order, t.out, order[r]);
      if index.Some? && Blocks(t.out[index.value]) != [] {
        var s := SplitInjected(t.out[index.value].content.text);
        assert NextBlock(order, r, t) == Some(PopOne(t, index.value, s.head, s.blocks));
        PopOneShrinks(order, t, index.value);
      } else {
        NextBlockShrinks(order, r + 1, t);
      }
    }
  }

  lemma NextDropShrinks(order: seq<string>, keep: nat, t: Ladder)
    requires ValidOrder(order)
    ensures var n := NextDrop(order, keep, t); n.Some? ==> Weight(n.value.out) < Weight(t.out)
  {
    NextBlockShrinks(order, 0, t);
    if |Body(t.out)| > keep {
      DropOldestWeight(t.out, 1);
    }
  }

  // ---- the guard walks this chain ----

  lemma {:induction false} HeaderOfShorter(order: seq<string>, text: string, shorter: string, h: string)
    requires HeaderOf(order, text) == Some(h) && h <= shorter <= text
    ensures HeaderOf(order, shorter) == Some(h)
  {
    if !(order[0] <= text) {
      HeaderOfShorter(order[1..], text, shorter, h);
    }
  }

  /** Under Unique, the message carrying a header is the one the guard finds. */
  lemma {:induction false} FoundUnique(order: seq<string>, ms: seq<Message>, i: nat)
    requires Unique(order, ms) && i < |ms| && InjectedHeader(order, ms[i]).Some?
    ensures FirstInjected(order, ms, InjectedHeader(order, ms[i]).value) == Some(i)
  {
    if i > 0 {
      assert InjectedHeader(order, ms[0]) != InjectedHeader(order, ms[i]);
      FoundUnique(order, ms[1..], i - 1);
    }
  }

  /** An exhausted rung is passed over. */
  lemma {:induction false} SkipExhausted(order: seq<string>, q: nat, r: nat, t: Ladder)
    requires q <= r <= |order| && Exhausted(order, r, t.out)
    ensures NextBlock(order, q, t) == NextBlock(order, r, t)
    decreases r - q
  {
    if q < r {
      var index := FirstInjected(order, t.out, order[q]);
      assert index.Some? ==> Blocks(t.out[index.value]) == [];
      SkipExhausted(order, q + 1, r, t);
    }
  }

  lemma OrderDistinct(order: seq<string>, q: nat, r: nat)
    requires ValidOrder(order) && q < r < |order|
    ensures order[q] != order[r]
  {
  }

  /** The message after a pop that left blocks: same header, fewer blocks, still unique and exhausted below. */
  lemma PopKeepsShape(order: seq<string>, r: nat, t: Ladder, index: nat)
    requires ValidOrder(order) && r < |order| && index < |t.out|
    requires Unique(order, t.out) && Exhausted(order, r, t.out)
    requires InjectedHeader(order, t.out[index]) == Some(order[r]) && |Blocks(t.out[index])| > 1
    ensures var s := SplitInjected(t.out[index].content.text);
            var out := PopOne(t, index, s.head, s.blocks).out;
            && Unique(order, out) && Exhausted(order, r, out)
            && |out| == |t.out|
            && InjectedHeader(order, out[index]) == Some(order[r])
            && SplitInjected(out[index].content.text) == Injected(s.head, s.blocks[..|s.blocks| - 1])
  {
    var m := t.out[index];
    var s := SplitInjected(m.content.text);
    Reparse(order[r], m.content.text);
    HeaderOfShorter(order, m.content.text, Render(s.head, s.blocks[..|s.blocks| - 1]), order[r]);
    forall q | 0 <= q < r ensures order[q] != order[r] { OrderDistinct(order, q, r); }
  }

  /** Deleting the only message of a rung leaves that rung exhausted. */
  lemma RemoveExhausts(order: seq<string>, r: nat, ms: seq<Message>, index: nat)
    requires r < |order| && index < |ms|
    requires Unique(order, ms) && Exhausted(order, r, ms)
    requires InjectedHeader(order, ms[index]) == Some(order[r])
    ensures Unique(order, Remove(ms, index)) && Exhausted(order, r + 1, Remove(ms, index))
  {
    var out := Remove(ms, index);
    forall i | 0 <= i < |out| ensures out[i] == ms[if i < index then i else i + 1] {}
    forall i, q | 0 <= i < |out| && 0 <= q < r + 1 && InjectedHeader(order, out[i]) == Some(order[q])
      ensures Blocks(out[i]) == []
    {
      var j := if i < index then i else i + 1;
      assert out[i] == ms[j];
      assert InjectedHeader(order, ms[j]) != InjectedHeader(order, ms[index]);
    }
  }

  /** Popping one block of rung r is the next drop, and it keeps the shape of the conversation. */
  lemma PopIsNextDrop(order: seq<string>, keep: nat, limit: int, r: nat, t: Ladder, index: nat)
    requires ValidOrder(order) && r < |order| && index < |t.out|
    requires Unique(order, t.out) && Exhausted(order, r, t.out) && EstimateTokens(t.out) > limit
    requires InjectedHeader(order, t.out[index]) == Some(order[r]) && Blocks(t.out[index]) != []
    ensures var s := SplitInjected(t.out[index].content.text);
            FirstFit(order, keep, limit, t) == FirstFit(order, keep, limit, PopOne(t, index, s.head, s.blocks))
  {
    FoundUnique(order, t.out, index);
    SkipExhausted(order, 0, r, t);
    var s := SplitInjected(t.out[index].content.text);
    assert NextDrop(order, keep, t) == Some(PopOne(t, index, s.head, s.blocks));
  }

  lemma NoBlocksExhausts(order: seq<string>, r: nat, t: Ladder, index: nat)
    requires r < |order| && index < |t.out| && Unique(order, t.out) && Exhausted(order, r, t.out)
    requires InjectedHeader(order, t.out[index]) == Some(order[r]) && Blocks(t.out[index]) == []
    ensures Exhausted(order, r + 1, t.out)
  {
    FoundUnique(order, t.out, index);
    forall i | 0 <= i < |t.out| && InjectedHeader(order, t.out[i]) == Some(order[r]) ensures i == index {
      FoundUnique(order, t.out, i);
    }
  }

  lemma {:induction false} PopBlocksIsChain(order: seq<string>, keep: nat, limit: int, r: nat, t: Ladder, index: nat)
    requires ValidOrder(order) && r < |order| && index < |t.out|
    requires Unique(order, t.out) && Exhausted(order, r, t.out)
    requires InjectedHeader(order, t.out[index]) == Some(order[r])
    ensures var s := SplitInjected(t.out[index].content.text);
            var t' := PopBlocks(t, index, s.head, s.blocks, limit);
            && FirstFit(order, keep, limit, t) == FirstFit(order, keep, limit, t')
            && Unique(order, t'.out)
            && (EstimateTokens(t'.out) <= limit || Exhausted(order, r + 1, t'.out))
    decreases |Blocks(t.out[index])|
  {
    var s := SplitInjected(t.out[index].content.text);
    if s.blocks == [] {
      NoBlocksExhausts(order, r, t, index);
    } else if EstimateTokens(t.out) > limit {
      PopIsNextDrop(order, keep, limit, r, t, index);
      if |s.blocks| == 1 {
        RemoveExhausts(order, r, t.out, index);
      } else {
        PopKeepsShape(order, r, t, index);
        PopBlocksIsChain(order, keep, limit, r, PopOne(t, index, s.head, s.blocks), index);
      }
    }
  }

  lemma {:induction false} TrimInjectionsIsChain(order: seq<string>, keep: nat, limit: int, r: nat, t: Ladder)
    requires ValidOrder(order) && r <= |order|
    requires Unique(order, t.out) && Exhausted(order, r, t.out)
    ensures var t' := TrimInjections(order, r, t, limit);
            && FirstFit(order, keep, limit, t) == FirstFit(order, keep, limit, t')
            && (EstimateTokens(t'.out) <= limit || Exhausted(order, |order|, t'.out))
    decreases |order| - r
  {
    if r < |order| {
      var index := FirstInjected(order, t.out, order[r]);
      if index.None? {
        TrimInjectionsIsChain(order, keep, limit, r + 1, t);
      } else {
        PopBlocksIsChain(order, keep, limit, r, t, index.value);
        var s := SplitInjected(t.out[index.value].content.text);
        var t' := PopBlocks(t, index.value, s.head, s.blocks, limit);
        if EstimateTokens(t'.out) > limit {
          TrimInjectionsIsChain(order, keep, limit, r + 1, t');
        }
      }
    }
  }

  lemma {:induction false} DropOldestSubset(ms: seq<Message>, k: nat)
    ensures forall m | m in DropOldest(ms, k) :: m in ms
  {
    if ms != [] && k > 0 {
      DropOldestSubset(ms[1..], if IsSystem(ms[0]) then k else k - 1);
    }
  }

  lemma DropOldestKeepsExhausted(order: seq<string>, ms: seq<Message>, k: nat)
    requires Exhausted(order, |order|, ms)
    ensures Exhausted(order, |order|, DropOldest(ms, k))
  {
    DropOldestSubset(ms, k);
    var out := DropOldest(ms, k);
    forall i, q | 0 <= i < |out| && 0 <= q < |order| && InjectedHeader(order, out[i]) == Some(order[q])
      ensures Blocks(out[i]) == []
    {
      assert out[i] in ms;
    }
  }

  lemma {:induction false} TrimTailIsChain(order: seq<string>, keep: nat, limit: int, t: Ladder)
    requires ValidOrder(order) && (EstimateTokens(t.out) <= limit || Exhausted(order, |order|, t.out))
    ensures FirstFit(order, keep, limit, t) == TrimTail(t, keep, limit)
    decreases |Body(t.out)|
  {
    if EstimateTokens(t.out) > limit {
      SkipExhausted(order, 0, |order|, t);
      if |Body(t.out)| > keep {
        DropOldestBody(t.out, 1);
        DropOldestKeepsExhausted(order, t.out, 1);
        TrimTailIsChain(order, keep, limit, Cut(t, 1));
      }
    }
  }

  /** The guard returns the first conversation in the chain of prioritised single drops that fits. */
  lemma GuardIsFirstFit(order: seq<string>, messages: seq<Message>, slotCtx: int)
    requires ValidOrder(order) && Unique(order, messages)
    requires Reference(order, messages, slotCtx).1.Some?
    ensures var t := FirstFit(order, KeepRecentMessages(slotCtx), Limit(slotCtx), Ladder(messages, 0, 0, 0));
            Reference(order, messages, slotCtx) == (t.out, Some(ReportOf(messages, t, Limit(slotCtx))))
  {
    var keep, limit := KeepRecentMessages(slotCtx), Limit(slotCtx);
    var t0 := Ladder(messages, 0, 0, 0);
    TrimInjectionsIsChain(order, keep, limit, 0, t0);
    TrimTailIsChain(order, keep, limit, TrimInjections(order, 0, t0, limit));
  }
}

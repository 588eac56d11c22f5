/** The guard with the headers it ships with, stated without the trim order: what goes before what, and what is reported. */
module ShippedGuard {
  import opened Prelude
  import opened Messages
  import opened ContextGuard
  import opened InjectedBlocks
  import opened TrimLadder
  import opened TrimGuarantees

  predicate Starts(m: Message, header: string) {
    IsSystem(m) && m.content.Str? && header <= m.content.text
  }

  predicate AtMostOne(ms: seq<Message>, header: string) {
    forall i, j | 0 <= i < j < |ms| && Starts(ms[i], header) :: !Starts(ms[j], header)
  }

  /** An injection of this kind still has a block. */
  predicate HasBlock(ms: seq<Message>, header: string) {
    exists m :: m in ms && Starts(m, header) && Blocks(m) != []
  }

  /** An injection of this kind lost a block, or all of itself. */
  predicate Lost(before: seq<Message>, after: seq<Message>, header: string) {
    exists m :: m in before && Starts(m, header) && forall m' | m' in after && Starts(m', header) :: Blocks(m') != Blocks(m)
  }

  lemma FirstLetters()
    ensures MEMORY_HEADER[0] == 'L' && SKILL_HEADER[0] == 'S' && PROJECT_HEADER[0] == 'P'
  {
  }

  lemma HeaderStarts(m: Message, header: string)
    requires header in {MEMORY_HEADER, SKILL_HEADER, PROJECT_HEADER}
    ensures Starts(m, header) <==> InjectedHeader(TRIM_ORDER, m) == Some(header)
  {
    FirstLetters();
    if Starts(m, header) {
      var text := m.content.text;
      assert text[0] == header[0];
      var i := if header == TRIM_ORDER[0] then 0 else if header == TRIM_ORDER[1] then 1 else 2;
      assert TRIM_ORDER[i] == header;
      var h := HeaderOf(TRIM_ORDER, text);
      assert h.Some? ==> h.value[0] == text[0];
    }
  }

  lemma UniqueHeaders(ms: seq<Message>)
    requires AtMostOne(ms, MEMORY_HEADER) && AtMostOne(ms, SKILL_HEADER) && AtMostOne(ms, PROJECT_HEADER)
    ensures Unique(TRIM_ORDER, ms)
  {
    forall i, j | 0 <= i < j < |ms| && InjectedHeader(TRIM_ORDER, ms[i]).Some?
      ensures InjectedHeader(TRIM_ORDER, ms[i]) != InjectedHeader(TRIM_ORDER, ms[j])
    {
      var h := InjectedHeader(TRIM_ORDER, ms[i]).value;
      assert h in TRIM_ORDER;
      HeaderStarts(ms[i], h);
      HeaderStarts(ms[j], h);
    }
  }

  lemma {:induction false} InSelect(order: seq<string>, lo: nat, hi: nat, ms: seq<Message>, m: Message)
    ensures m in Select(order, lo, hi, ms) <==> m in ms && lo <= Rank(order, m) < hi
  {
    if ms != [] {
      InSelect(order, lo, hi, ms[1..], m);
    }
  }

  /** A block of rank below q that is left means that nothing of rank q or above is gone. */
  lemma LeftMeansKept(before: seq<Message>, after: seq<Message>, left: Message, header: string, p: nat, q: nat, m: Message)
    requires Ordered(TRIM_ORDER, before, after) && q <= 3
    requires left in after && Starts(left, header) && Blocks(left) != [] && p < q && header == TRIM_ORDER[p]
    requires m in before && Rank(TRIM_ORDER, m) >= q
    ensures m in after
  {
    HeaderStarts(left, header);
    var i :| 0 <= i < |after| && after[i] == left;
    assert !Exhausted(TRIM_ORDER, q, after);
    InSelect(TRIM_ORDER, q, 5, before, m);
    InSelect(TRIM_ORDER, q, 5, after, m);
  }

  lemma RankOf(m: Message, header: string, r: nat)
    requires r < 3 && header == TRIM_ORDER[r] && Starts(m, header)
    ensures Rank(TRIM_ORDER, m) == r
  {
    HeaderStarts(m, header);
    TrimOrderIsValid();
    RankOfRung(TRIM_ORDER, m, r);
  }

  /** An injection of a kind lost something only when no kind that goes before it has a block left. */
  lemma LostAfter(before: seq<Message>, after: seq<Message>, header: string, r: nat, earlier: string, p: nat)
    requires Ordered(TRIM_ORDER, before, after) && p < r < 3 && header == TRIM_ORDER[r] && earlier == TRIM_ORDER[p]
    requires Lost(before, after, header)
    ensures !HasBlock(after, earlier)
  {
    if HasBlock(after, earlier) {
      var m :| m in before && Starts(m, header) && forall m' | m' in after && Starts(m', header) :: Blocks(m') != Blocks(m);
      var left :| left in after && Starts(left, earlier) && Blocks(left) != [];
      RankOf(m, header, r);
      LeftMeansKept(before, after, left, earlier, p, r, m);
    }
  }

  lemma {:induction false} SelectAgain(order: seq<string>, lo: nat, mid: nat, hi: nat, ms: seq<Message>)
    requires lo <= mid <= hi
    ensures Select(order, mid, hi, Select(order, lo, hi, ms)) == Select(order, mid, hi, ms)
  {
    if ms != [] {
      SelectAgain(order, lo, mid, hi, ms[1..]);
      var rest := Select(order, lo, hi, ms[1..]);
      if lo <= Rank(order, ms[0]) < hi {
        var all := [ms[0]] + rest;
        assert all[0] == ms[0] && all[1..] == rest && Select(order, lo, hi, ms) == all;
      } else {
        assert Select(order, lo, hi, ms) == rest;
      }
    }
  }

  lemma BlockLeft(ms: seq<Message>, header: string, p: nat)
    requires p < 3 && header == TRIM_ORDER[p] && HasBlock(ms, header)
    ensures !Exhausted(TRIM_ORDER, 3, ms)
  {
    var left :| left in ms && Starts(left, header) && Blocks(left) != [];
    HeaderStarts(left, header);
    var i :| 0 <= i < |ms| && ms[i] == left;
  }

  lemma SameTail(before: seq<Message>, after: seq<Message>)
    requires Select(TRIM_ORDER, 3, 5, after) == Select(TRIM_ORDER, 3, 5, before)
    ensures Body(after) == Body(before)
  {
    SelectAgain(TRIM_ORDER, 3, 4, 5, before);
    SelectAgain(TRIM_ORDER, 3, 4, 5, after);
    BodyIsSelect(TRIM_ORDER, before);
    BodyIsSelect(TRIM_ORDER, after);
  }

  /** Non-system messages go only when no injection has a block left. */
  lemma TailAfter(before: seq<Message>, after: seq<Message>, header: string, p: nat)
    requires Ordered(TRIM_ORDER, before, after) && p < 3 && header == TRIM_ORDER[p] && Body(after) != Body(before)
    ensures !HasBlock(after, header)
  {
    if HasBlock(after, header) {
      BlockLeft(after, header, p);
      SameTail(before, after);
    }
  }

  /**
   As shipped: a skill loses a block only when no memory block is left, project documents only when neither a memory nor a
   skill block is left, and the conversation itself only when no injected block of the three kinds is left.
   */
  lemma WhatGoesFirst(messages: seq<Message>, slotCtx: int)
    requires AtMostOne(messages, MEMORY_HEADER) && AtMostOne(messages, SKILL_HEADER) && AtMostOne(messages, PROJECT_HEADER)
    ensures var out := Reference(TRIM_ORDER, messages, slotCtx).0;
            && (Lost(messages, out, SKILL_HEADER) ==> !HasBlock(out, MEMORY_HEADER))
            && (Lost(messages, out, PROJECT_HEADER) ==> !HasBlock(out, MEMORY_HEADER) && !HasBlock(out, SKILL_HEADER))
            && (Body(out) != Body(messages) ==>
                  !HasBlock(out, MEMORY_HEADER) && !HasBlock(out, SKILL_HEADER) && !HasBlock(out, PROJECT_HEADER))
  {
    var out := Reference(TRIM_ORDER, messages, slotCtx).0;
    UniqueHeaders(messages);
    ShippedGuardGuarantees(messages, slotCtx);
    if Lost(messages, out, SKILL_HEADER) {
      LostAfter(messages, out, SKILL_HEADER, 1, MEMORY_HEADER, 0);
    }
    if Lost(messages, out, PROJECT_HEADER) {
      LostAfter(messages, out, PROJECT_HEADER, 2, MEMORY_HEADER, 0);
      LostAfter(messages, out, PROJECT_HEADER, 2, SKILL_HEADER, 1);
    }
    if Body(out) != Body(messages) {
      TailAfter(messages, out, MEMORY_HEADER, 0);
      TailAfter(messages, out, SKILL_HEADER, 1);
      TailAfter(messages, out, PROJECT_HEADER, 2);
    }
  }

  // ---- what the report counts ----

  /** The blocks of all injections. */
  function BlocksIn(order: seq<string>, ms: seq<Message>): nat {
    if ms == [] then 0
    else (if InjectedHeader(order, ms[0]).Some? then |Blocks(ms[0])| else 0) + BlocksIn(order, ms[1..])
  }

  lemma {:induction false} BlocksInAppend(order: seq<string>, a: seq<Message>, b: seq<Message>)
    ensures BlocksIn(order, a + b) == BlocksIn(order, a) + BlocksIn(order, b)
  {
    if a == [] {
      assert a + b == b;
    } else {
      BlocksInAppend(order, a[1..], b);
      assert (a + b)[0] == a[0] && (a + b)[1..] == a[1..] + b;
    }
  }

  /** The counters say how much is gone: blocks, injections (the only system messages that go) and other messages. */
  predicate Counted(order: seq<string>, a: Ladder, b: Ladder) {
    && b.blocks - a.blocks == BlocksIn(order, a.out) - BlocksIn(order, b.out)
    && b.injections - a.injections == |Systems(a.out)| - |Systems(b.out)|
    && b.messages - a.messages == |Body(a.out)| - |Body(b.out)|
  }

  lemma Spliced(order: seq<string>, a: seq<Message>, m: Message, others: seq<Message>, b: seq<Message>)
    ensures BlocksIn(order, a + others + b) - BlocksIn(order, a + [m] + b) == BlocksIn(order, others) - BlocksIn(order, [m])
    ensures |Systems(a + others + b)| - |Systems(a + [m] + b)| == |Systems(others)| - |Systems([m])|
    ensures |Body(a + others + b)| - |Body(a + [m] + b)| == |Body(others)| - |Body([m])|
  {
    BlocksInAppend(order, a + others, b);
    BlocksInAppend(order, a, others);
    BlocksInAppend(order, a + [m], b);
    BlocksInAppend(order, a, [m]);
    SystemsAppend(a + others, b);
    SystemsAppend(a, others);
    SystemsAppend(a + [m], b);
    SystemsAppend(a, [m]);
    BodyAppend(a + others, b);
    BodyAppend(a, others);
    BodyAppend(a + [m], b);
    BodyAppend(a, [m]);
  }

  lemma OneMessage(order: seq<string>, m: Message)
    ensures BlocksIn(order, [m]) == if InjectedHeader(order, m).Some? then |Blocks(m)| else 0
    ensures |Systems([m])| == (if IsSystem(m) then 1 else 0) && |Body([m])| == if IsSystem(m) then 0 else 1
  {
    assert [m][1..] == [];
  }

  lemma PopCounts(order: seq<string>, t: Ladder, i: nat)
    requires ValidOrder(order) && i < |t.out| && InjectedHeader(order, t.out[i]).Some? && Blocks(t.out[i]) != []
    ensures var s := SplitInjected(t.out[i].content.text); Counted(order, t, PopOne(t, i, s.head, s.blocks))
  {
    var m, a, b := t.out[i], t.out[..i], t.out[i + 1..];
    Around(t.out, i);
    OneMessage(order, m);
    if |Blocks(m)| == 1 {
      SpliceNone(t.out, i);
      Spliced(order, a, m, [], b);
    } else {
      ShorterTruncates(order, m);
      Reparse(InjectedHeader(order, m).value, m.content.text);
      Exchanged(t.out, i, Shorter(m));
      OneMessage(order, Shorter(m));
      Spliced(order, a, m, [Shorter(m)], b);
    }
  }

  lemma {:induction false} DropOldestCounts(order: seq<string>, ms: seq<Message>, k: nat)
    requires k <= |Body(ms)|
    ensures BlocksIn(order, DropOldest(ms, k)) == BlocksIn(order, ms)
    ensures |Systems(DropOldest(ms, k))| == |Systems(ms)|
  {
    if ms != [] && k > 0 {
      DropOldestCounts(order, ms[1..], if IsSystem(ms[0]) then k else k - 1);
      if IsSystem(ms[0]) {
        assert DropOldest(ms, k)[1..] == DropOldest(ms[1..], k);
      }
    }
  }

  lemma StepCounts(order: seq<string>, keep: nat, t: Ladder)
    requires ValidOrder(order) && Unique(order, t.out) && NextDrop(order, keep, t).Some?
    ensures Counted(order, t, NextDrop(order, keep, t).value)
  {
    if NextBlock(order, 0, t).Some? {
      var rho, index := NextBlockIs(order, 0, t);
      PopCounts(order, t, index);
    } else {
      DropOldestCounts(order, t.out, 1);
      DropOldestBody(t.out, 1);
    }
  }

  lemma {:induction false} FirstFitCounts(order: seq<string>, keep: nat, limit: int, t: Ladder)
    requires ValidOrder(order) && Unique(order, t.out)
    ensures Counted(order, t, FirstFit(order, keep, limit, t))
    decreases Weight(t.out)
  {
    FirstFitUnfolds(order, keep, limit, t);
    var next := NextDrop(order, keep, t);
    if EstimateTokens(t.out) > limit && next.Some? {
      NextDropShrinks(order, keep, t);
      StepGuarantee(order, keep, t);
      StepCounts(order, keep, t);
      FirstFitCounts(order, keep, limit, next.value);
    }
  }

  /**
   The report, in terms of what goes in and what comes out: there is one exactly when the estimate is over nine tenths of the
   context; it counts the blocks, injections and other messages that are gone; at least the newest 4, 6 or 8 stay.
   */
  lemma ReportSays(messages: seq<Message>, slotCtx: int)
    requires AtMostOne(messages, MEMORY_HEADER) && AtMostOne(messages, SKILL_HEADER) && AtMostOne(messages, PROJECT_HEADER)
    ensures var (out, report) := Reference(TRIM_ORDER, messages, slotCtx);
            var newest := if slotCtx >= 32768 then 8 else if slotCtx >= 16384 then 6 else 4;
            && (report.Some? <==> slotCtx > 0 && 10 * EstimateTokens(messages) > 9 * slotCtx)
            && (report.None? ==> out == messages)
            && |Body(out)| >= Min(newest, |Body(messages)|)
            && (report.Some? ==>
                  var r := report.value;
                  && r.droppedBlocks == BlocksIn(TRIM_ORDER, messages) - BlocksIn(TRIM_ORDER, out)
                  && r.droppedInjections == |Systems(messages)| - |Systems(out)|
                  && r.droppedMessages == |Body(messages)| - |Body(out)|
                  && r.tokensBefore == EstimateTokens(messages) && r.tokensAfter == EstimateTokens(out)
                  && (r.stillOver <==> 10 * EstimateTokens(out) > 9 * slotCtx)
                  && r.limitTokens <= slotCtx * 9 / 10 < r.limitTokens + 1)
  {
    UniqueHeaders(messages);
    TrimOrderIsValid();
    ShippedGuardGuarantees(messages, slotCtx);
    if Reference(TRIM_ORDER, messages, slotCtx).1.Some? {
      GuardIsFirstFit(TRIM_ORDER, messages, slotCtx);
      FirstFitCounts(TRIM_ORDER, KeepRecentMessages(slotCtx), Limit(slotCtx), Ladder(messages, 0, 0, 0));
    }
  }
}

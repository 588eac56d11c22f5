/** The promises of the trim ladder, for every conversation with at most one message per injection header. */
module TrimGuarantees {
  import opened Prelude
  import opened Messages
  import opened ContextGuard
  import opened InjectedBlocks
  import opened TrimLadder

  /** The position of the text's header in the trim order; |order| when it has none. */
  function HeaderRank(order: seq<string>, text: string): (r: nat)
    ensures r <= |order|
    ensures match HeaderOf(order, text) { case None => r == |order| case Some(h) => r < |order| && order[r] == h }
  {
    if order == [] then 0 else if order[0] <= text then 0 else 1 + HeaderRank(order[1..], text)
  }

  /** When a message may be sacrificed: injections by trim order, then other system messages (never), then the body. */
  function Rank(order: seq<string>, m: Message): (r: nat)
    ensures r <= |order| + 1
    ensures r == |order| + 1 <==> !IsSystem(m)
    ensures match InjectedHeader(order, m) { case None => r >= |order| case Some(h) => r < |order| && order[r] == h }
  {
    if !IsSystem(m) then |order| + 1
    else if m.content.Str? then HeaderRank(order, m.content.text)
    else |order|
  }

  /** The messages whose rank lies in [lo, hi), in order. */
  function Select(order: seq<string>, lo: nat, hi: nat, ms: seq<Message>): seq<Message> {
    if ms == [] then [] else (if lo <= Rank(order, ms[0]) < hi then [ms[0]] else []) + Select(order, lo, hi, ms[1..])
  }

  /** m' is m without some of its last blocks: same header, head and call list, and a prefix of its text. */
  predicate TruncationOf(order: seq<string>, m: Message, m': Message) {
    && InjectedHeader(order, m).Some? && InjectedHeader(order, m') == InjectedHeader(order, m)
    && m' == m.(content := m'.content) && m'.content.text <= m.content.text
    && SplitInjected(m'.content.text).head == SplitInjected(m.content.text).head
    && Blocks(m') <= Blocks(m)
  }

  predicate InjectionsTruncated(order: seq<string>, before: seq<Message>, after: seq<Message>) {
    forall m' | m' in after && InjectedHeader(order, m').Some? :: exists m :: m in before && TruncationOf(order, m, m')
  }

  /** Something of rank q or above changed only once every injection ranked below q had lost all its blocks. */
  predicate Ordered(order: seq<string>, before: seq<Message>, after: seq<Message>) {
    && (forall q | 0 <= q <= |order| && Exhausted(order, q, before) :: Exhausted(order, q, after))
    && (forall q | 0 <= q <= |order| && !Exhausted(order, q, after) ::
          Select(order, q, |order| + 2, after) == Select(order, q, |order| + 2, before))
  }

  /** Of a body, exactly the oldest messages counted since are gone, and at least `keep` are left if there were as many. */
  predicate Newest(keep: nat, counted: nat, before: seq<Message>, countedAfter: nat, after: seq<Message>) {
    && counted <= countedAfter <= counted + |before|
    && after == before[countedAfter - counted..]
    && |after| >= Min(keep, |before|)
  }

  /** The newest non-system messages survive, at least `keep` of them, and every plain system message does. */
  predicate TailKept(order: seq<string>, keep: nat, before: Ladder, after: Ladder) {
    && Newest(keep, before.messages, Body(before.out), after.messages, Body(after.out))
    && Select(order, |order|, |order| + 1, after.out) == Select(order, |order|, |order| + 1, before.out)
  }

  predicate Guaranteed(order: seq<string>, keep: nat, before: Ladder, after: Ladder) {
    && Ordered(order, before.out, after.out)
    && TailKept(order, keep, before, after)
    && InjectionsTruncated(order, before.out, after.out)
  }

  // ---- one drop ----

  lemma {:induction false} SelectAppend(order: seq<string>, lo: nat, hi: nat, a: seq<Message>, b: seq<Message>)
    ensures Select(order, lo, hi, a + b) == Select(order, lo, hi, a) + Select(order, lo, hi, b)
  {
    if a == [] {
      assert a + b == b;
    } else {
      SelectAppend(order, lo, hi, a[1..], b);
      assert (a + b)[0] == a[0] && (a + b)[1..] == a[1..] + b;
      Assoc(if lo <= Rank(order, a[0]) < hi then [a[0]] else [], Select(order, lo, hi, a[1..]), Select(order, lo, hi, b));
    }
  }

  lemma {:induction false} DropOldestSelect(order: seq<string>, lo: nat, hi: nat, ms: seq<Message>, k: nat)
    requires hi <= |order| + 1
    ensures Select(order, lo, hi, DropOldest(ms, k)) == Select(order, lo, hi, ms)
  {
    if ms != [] && k > 0 {
      DropOldestSelect(order, lo, hi, ms[1..], if IsSystem(ms[0]) then k else k - 1);
      if IsSystem(ms[0]) {
        assert DropOldest(ms, k) == [ms[0]] + DropOldest(ms[1..], k);
      }
    }
  }

  /** Replacing a message by some others of the same rank changes no selection without that rank. */
  lemma SelectSplice(order: seq<string>, lo: nat, hi: nat, ms: seq<Message>, i: nat, others: seq<Message>)
    requires i < |ms| && |others| <= 1
    requires !(lo <= Rank(order, ms[i]) < hi)
    requires forall m | m in others :: Rank(order, m) == Rank(order, ms[i])
    ensures Select(order, lo, hi, ms[..i] + others + ms[i + 1..]) == Select(order, lo, hi, ms)
  {
    Around(ms, i);
    SelectAppend(order, lo, hi, ms[..i] + [ms[i]], ms[i + 1..]);
    SelectAppend(order, lo, hi, ms[..i], [ms[i]]);
    SelectAppend(order, lo, hi, ms[..i] + others, ms[i + 1..]);
    SelectAppend(order, lo, hi, ms[..i], others);
  }

  lemma {:induction false} BodyIsSelect(order: seq<string>, ms: seq<Message>)
    ensures Body(ms) == Select(order, |order| + 1, |order| + 2, ms)
  {
    if ms != [] {
      BodyIsSelect(order, ms[1..]);
    }
  }

  /** The message without its last block. */
  function Shorter(m: Message): Message
    requires m.content.Str? && Blocks(m) != []
  {
    var s := SplitInjected(m.content.text);
    WithText(m, Render(s.head, s.blocks[..|s.blocks| - 1]))
  }

  lemma ShorterTruncates(order: seq<string>, m: Message)
    requires ValidOrder(order) && InjectedHeader(order, m).Some? && |Blocks(m)| > 1
    ensures TruncationOf(order, m, Shorter(m)) && Rank(order, Shorter(m)) == Rank(order, m)
  {
    var h := InjectedHeader(order, m).value;
    Reparse(h, m.content.text);
    HeaderOfShorter(order, m.content.text, Shorter(m).content.text, h);
    SameHeaderSameRank(order, m.content.text, Shorter(m).content.text);
  }

  /** What one pop puts in place of the message: nothing, or a truncation of it. */
  lemma PopOneSplice(order: seq<string>, t: Ladder, i: nat) returns (others: seq<Message>)
    requires ValidOrder(order) && i < |t.out| && InjectedHeader(order, t.out[i]).Some? && Blocks(t.out[i]) != []
    ensures |others| <= 1 && forall m | m in others :: TruncationOf(order, t.out[i], m)
    ensures forall m | m in others :: Rank(order, m) == Rank(order, t.out[i])
    ensures var s := SplitInjected(t.out[i].content.text);
            PopOne(t, i, s.head, s.blocks).out == t.out[..i] + others + t.out[i + 1..]
  {
    var m := t.out[i];
    if |Blocks(m)| == 1 {
      others := [];
      SpliceNone(t.out, i);
    } else {
      ShorterTruncates(order, m);
      others := [Shorter(m)];
      Exchanged(t.out, i, Shorter(m));
    }
  }

  lemma SpliceNone(ms: seq<Message>, i: nat)
    requires i < |ms|
    ensures Remove(ms, i) == ms[..i] + [] + ms[i + 1..]
  {
    assert ms[..i] + [] == ms[..i];
  }

  lemma {:induction false} SameHeaderSameRank(order: seq<string>, a: string, b: string)
    requires ValidOrder(order) && HeaderOf(order, a).Some? && HeaderOf(order, a) == HeaderOf(order, b)
    ensures HeaderRank(order, a) == HeaderRank(order, b)
  {
    var i, j := HeaderRank(order, a), HeaderRank(order, b);
    assert order[i] == order[j];
  }

  /** Which block goes next: the one of the first rung that is not exhausted. */
  lemma {:induction false} NextBlockIs(order: seq<string>, r: nat, t: Ladder) returns (rho: nat, index: nat)
    requires ValidOrder(order) && r <= |order| && Unique(order, t.out) && Exhausted(order, r, t.out)
    requires NextBlock(order, r, t).Some?
    ensures r <= rho < |order| && index < |t.out| && Exhausted(order, rho, t.out)
    ensures InjectedHeader(order, t.out[index]) == Some(order[rho]) && Blocks(t.out[index]) != []
    ensures var s := SplitInjected(t.out[index].content.text);
            NextBlock(order, r, t) == Some(PopOne(t, index, s.head, s.blocks))
    decreases |order| - r
  {
    var found := FirstInjected(order, t.out, order[r]);
    if found.Some? && Blocks(t.out[found.value]) != [] {
      rho, index := r, found.value;
    } else {
      forall i | 0 <= i < |t.out| && InjectedHeader(order, t.out[i]) == Some(order[r]) ensures Blocks(t.out[i]) == [] {
        FoundUnique(order, t.out, i);
      }
      rho, index := NextBlockIs(order, r + 1, t);
    }
  }

  lemma {:induction false} NextBlockNone(order: seq<string>, r: nat, t: Ladder)
    requires r <= |order| && Unique(order, t.out) && Exhausted(order, r, t.out)
    requires NextBlock(order, r, t).None?
    ensures Exhausted(order, |order|, t.out)
    decreases |order| - r
  {
    if r < |order| {
      var found := FirstInjected(order, t.out, order[r]);
      assert found.Some? ==> Blocks(t.out[found.value]) == [];
      forall i | 0 <= i < |t.out| && InjectedHeader(order, t.out[i]) == Some(order[r]) ensures Blocks(t.out[i]) == [] {
        FoundUnique(order, t.out, i);
      }
      assert Exhausted(order, r + 1, t.out);
      NextBlockNone(order, r + 1, t);
    }
  }

  lemma TruncationSelf(order: seq<string>, m: Message)
    requires InjectedHeader(order, m).Some?
    ensures TruncationOf(order, m, m)
  {
  }

  lemma PopUnique(order: seq<string>, t: Ladder, rho: nat, index: nat)
    requires ValidOrder(order) && rho < |order| && index < |t.out|
    requires Unique(order, t.out) && Exhausted(order, rho, t.out)
    requires InjectedHeader(order, t.out[index]) == Some(order[rho]) && Blocks(t.out[index]) != []
    ensures var s := SplitInjected(t.out[index].content.text); Unique(order, PopOne(t, index, s.head, s.blocks).out)
  {
    if |Blocks(t.out[index])| == 1 {
      RemoveExhausts(order, rho, t.out, index);
    } else {
      PopKeepsShape(order, rho, t, index);
    }
  }

  /** Exchanging an injection for others of its rank leaves the body and the plain system messages alone. */
  lemma SpliceKeepsTail(order: seq<string>, ms: seq<Message>, index: nat, others: seq<Message>)
    requires index < |ms| && |others| <= 1 && Rank(order, ms[index]) < |order|
    requires forall m | m in others :: Rank(order, m) == Rank(order, ms[index])
    ensures var out := ms[..index] + others + ms[index + 1..];
            Body(out) == Body(ms) && Select(order, |order|, |order| + 1, out) == Select(order, |order|, |order| + 1, ms)
  {
    SelectSplice(order, |order|, |order| + 1, ms, index, others);
    SelectSplice(order, |order| + 1, |order| + 2, ms, index, others);
    BodyIsSelect(order, ms);
    BodyIsSelect(order, ms[..index] + others + ms[index + 1..]);
  }

  lemma SameTailKept(order: seq<string>, keep: nat, a: Ladder, b: Ladder)
    requires a.messages == b.messages && Body(a.out) == Body(b.out)
    requires Select(order, |order|, |order| + 1, b.out) == Select(order, |order|, |order| + 1, a.out)
    ensures TailKept(order, keep, a, b)
  {
    NewestSelf(keep, a.messages, Body(a.out));
  }

  lemma NewestSelf(keep: nat, counted: nat, body: seq<Message>)
    ensures Newest(keep, counted, body, counted, body)
  {
  }

  /** A pop of rung rho touches only that rung. */
  lemma PopGuarantee(order: seq<string>, keep: nat, t: Ladder, rho: nat, index: nat)
    requires ValidOrder(order) && rho < |order| && index < |t.out|
    requires Unique(order, t.out) && Exhausted(order, rho, t.out)
    requires InjectedHeader(order, t.out[index]) == Some(order[rho]) && Blocks(t.out[index]) != []
    ensures var s := SplitInjected(t.out[index].content.text);
            Guaranteed(order, keep, t, PopOne(t, index, s.head, s.blocks))
  {
    var s := SplitInjected(t.out[index].content.text);
    var t' := PopOne(t, index, s.head, s.blocks);
    var others := PopOneSplice(order, t, index);
    RankOfRung(order, t.out[index], rho);
    SpliceKeepsTail(order, t.out, index, others);
    SameTailKept(order, keep, t, t');
    PopOrdered(order, t.out, rho, index, others);
    SpliceTruncated(order, t.out, index, others);
  }

  lemma SpliceTruncated(order: seq<string>, ms: seq<Message>, index: nat, others: seq<Message>)
    requires index < |ms| && forall m | m in others :: TruncationOf(order, ms[index], m)
    ensures InjectionsTruncated(order, ms, ms[..index] + others + ms[index + 1..])
  {
    var out := ms[..index] + others + ms[index + 1..];
    forall m' | m' in out && InjectedHeader(order, m').Some?
      ensures exists m :: m in ms && TruncationOf(order, m, m')
    {
      if m' in others {
        assert ms[index] in ms;
      } else {
        assert m' in ms;
        TruncationSelf(order, m');
      }
    }
  }

  lemma RankOfRung(order: seq<string>, m: Message, rho: nat)
    requires ValidOrder(order) && rho < |order| && InjectedHeader(order, m) == Some(order[rho])
    ensures Rank(order, m) == rho
  {
    var r := Rank(order, m);
    assert order[r] == order[rho];
  }

  /** Rungs other than rho are exhausted after the pop exactly when they were before. */
  lemma PopExhausted(order: seq<string>, ms: seq<Message>, rho: nat, index: nat, others: seq<Message>, q: nat)
    requires ValidOrder(order) && rho < |order| && index < |ms| && |others| <= 1 && q <= |order|
    requires InjectedHeader(order, ms[index]) == Some(order[rho]) && Blocks(ms[index]) != []
    requires forall m | m in others :: InjectedHeader(order, m) == Some(order[rho])
    ensures Exhausted(order, q, ms) ==> q <= rho && Exhausted(order, q, ms[..index] + others + ms[index + 1..])
  {
    if Exhausted(order, q, ms) {
      assert q <= rho;
      var out := ms[..index] + others + ms[index + 1..];
      forall i, p | 0 <= i < |out| && 0 <= p < q && InjectedHeader(order, out[i]) == Some(order[p])
        ensures Blocks(out[i]) == []
      {
        OrderDistinct(order, p, rho);
        assert out[i] in others || out[i] in ms;
      }
    }
  }

  /** From any rank above the popped rung, nothing is changed by the pop. */
  lemma PopSelects(order: seq<string>, ms: seq<Message>, rho: nat, index: nat, others: seq<Message>, q: nat)
    requires index < |ms| && |others| <= 1 && rho < q && Rank(order, ms[index]) == rho
    requires forall m | m in others :: Rank(order, m) == rho
    ensures Select(order, q, |order| + 2, ms[..index] + others + ms[index + 1..]) == Select(order, q, |order| + 2, ms)
  {
    SelectSplice(order, q, |order| + 2, ms, index, others);
  }

  lemma PopRanks(order: seq<string>, m: Message, others: seq<Message>, rho: nat)
    requires ValidOrder(order) && rho < |order| && InjectedHeader(order, m) == Some(order[rho])
    requires forall m' | m' in others :: InjectedHeader(order, m') == Some(order[rho])
    ensures Rank(order, m) == rho && forall m' | m' in others :: Rank(order, m') == rho
  {
    RankOfRung(order, m, rho);
    forall m' | m' in others ensures Rank(order, m') == rho {
      RankOfRung(order, m', rho);
    }
  }

  lemma PopOrdered(order: seq<string>, ms: seq<Message>, rho: nat, index: nat, others: seq<Message>)
    requires ValidOrder(order) && rho < |order| && index < |ms| && |others| <= 1
    requires Exhausted(order, rho, ms)
    requires InjectedHeader(order, ms[index]) == Some(order[rho]) && Blocks(ms[index]) != []
    requires forall m | m in others :: InjectedHeader(order, m) == Some(order[rho])
    ensures Ordered(order, ms, ms[..index] + others + ms[index + 1..])
  {
    var out := ms[..index] + others + ms[index + 1..];
    PopRanks(order, ms[index], others, rho);
    forall q | 0 <= q <= |order|
      ensures Exhausted(order, q, ms) ==> Exhausted(order, q, out)
      ensures q <= rho ==> Exhausted(order, q, out)
      ensures q > rho ==> Select(order, q, |order| + 2, out) == Select(order, q, |order| + 2, ms)
    {
      PopExhausted(order, ms, rho, index, others, q);
      if q > rho {
        PopSelects(order, ms, rho, index, others, q);
      } else {
        ExhaustedBelow(order, rho, q, ms);
      }
    }
  }

  lemma ExhaustedBelow(order: seq<string>, r: nat, q: nat, ms: seq<Message>)
    requires q <= r <= |order| && Exhausted(order, r, ms)
    ensures Exhausted(order, q, ms)
  {
  }

  lemma CutGuarantee(order: seq<string>, keep: nat, t: Ladder)
    requires Unique(order, t.out) && Exhausted(order, |order|, t.out) && |Body(t.out)| > keep
    ensures Guaranteed(order, keep, t, Cut(t, 1))
  {
    var out := Cut(t, 1).out;
    DropOldestBody(t.out, 1);
    DropOldestSelect(order, |order|, |order| + 1, t.out, 1);
    DropOldestKeepsExhausted(order, t.out, 1);
    DropOldestSubset(t.out, 1);
    forall m' | m' in out && InjectedHeader(order, m').Some?
      ensures exists m :: m in t.out && TruncationOf(order, m, m')
    {
      TruncationSelf(order, m');
    }
  }

  lemma {:induction false} DropOldestUnique(order: seq<string>, ms: seq<Message>, k: nat)
    requires Unique(order, ms)
    ensures Unique(order, DropOldest(ms, k))
  {
    if ms != [] && k > 0 {
      var rest := ms[1..];
      assert Unique(order, rest) by {
        forall i, j | 0 <= i < j < |rest| && InjectedHeader(order, rest[i]).Some?
          ensures InjectedHeader(order, rest[i]) != InjectedHeader(order, rest[j])
        {
          assert rest[i] == ms[i + 1] && rest[j] == ms[j + 1];
        }
      }
      var k' := if IsSystem(ms[0]) then k else k - 1;
      DropOldestUnique(order, rest, k');
      DropOldestSubset(rest, k');
      if IsSystem(ms[0]) {
        var out := DropOldest(rest, k');
        forall j | 0 <= j < |out| && InjectedHeader(order, ms[0]).Some?
          ensures InjectedHeader(order, ms[0]) != InjectedHeader(order, out[j])
        {
          assert out[j] in rest;
        }
        assert DropOldest(ms, k) == [ms[0]] + out;
      }
    }
  }

  lemma StepGuarantee(order: seq<string>, keep: nat, t: Ladder)
    requires ValidOrder(order) && Unique(order, t.out) && NextDrop(order, keep, t).Some?
    ensures Unique(order, NextDrop(order, keep, t).value.out)
    ensures Guaranteed(order, keep, t, NextDrop(order, keep, t).value)
  {
    if NextBlock(order, 0, t).Some? {
      var rho, index := NextBlockIs(order, 0, t);
      PopGuarantee(order, keep, t, rho, index);
      PopUnique(order, t, rho, index);
    } else {
      NextBlockNone(order, 0, t);
      CutGuarantee(order, keep, t);
      DropOldestUnique(order, t.out, 1);
    }
  }

  // ---- whole runs ----

  lemma GuaranteedSelf(order: seq<string>, keep: nat, t: Ladder)
    ensures Guaranteed(order, keep, t, t)
  {
    forall m | m in t.out && InjectedHeader(order, m).Some? ensures TruncationOf(order, m, m) {
      TruncationSelf(order, m);
    }
  }

  lemma TruncatedTrans(order: seq<string>, a: seq<Message>, b: seq<Message>, c: seq<Message>)
    requires InjectionsTruncated(order, a, b) && InjectionsTruncated(order, b, c)
    ensures InjectionsTruncated(order, a, c)
  {
    forall m'' | m'' in c && InjectedHeader(order, m'').Some?
      ensures exists m :: m in a && TruncationOf(order, m, m'')
    {
      var m' :| m' in b && TruncationOf(order, m', m'');
      var m :| m in a && TruncationOf(order, m, m');
      assert TruncationOf(order, m, m'');
    }
  }

  lemma GuaranteedTrans(order: seq<string>, keep: nat, a: Ladder, b: Ladder, c: Ladder)
    requires Guaranteed(order, keep, a, b) && Guaranteed(order, keep, b, c)
    ensures Guaranteed(order, keep, a, c)
  {
    TruncatedTrans(order, a.out, b.out, c.out);
  }

  /** The first fit keeps the guarantees, and is over the limit only when nothing is left to drop. */
  predicate FitsOrSpent(order: seq<string>, keep: nat, limit: int, t: Ladder, u: Ladder) {
    && Guaranteed(order, keep, t, u)
    && (EstimateTokens(u.out) > limit ==> Exhausted(order, |order|, u.out) && |Body(u.out)| <= keep)
  }

  lemma FirstFitUnfolds(order: seq<string>, keep: nat, limit: int, t: Ladder)
    requires ValidOrder(order)
    ensures EstimateTokens(t.out) <= limit || NextDrop(order, keep, t).None? ==> FirstFit(order, keep, limit, t) == t
    ensures EstimateTokens(t.out) > limit && NextDrop(order, keep, t).Some? ==>
              FirstFit(order, keep, limit, t) == FirstFit(order, keep, limit, NextDrop(order, keep, t).value)
  {
  }

  lemma NothingToDrop(order: seq<string>, keep: nat, t: Ladder)
    requires Unique(order, t.out) && NextDrop(order, keep, t).None?
    ensures Exhausted(order, |order|, t.out) && |Body(t.out)| <= keep
  {
    NextBlockNone(order, 0, t);
  }

  lemma FitsTrans(order: seq<string>, keep: nat, limit: int, a: Ladder, b: Ladder, c: Ladder)
    requires Guaranteed(order, keep, a, b) && FitsOrSpent(order, keep, limit, b, c)
    ensures FitsOrSpent(order, keep, limit, a, c)
  {
    GuaranteedTrans(order, keep, a, b, c);
  }

  lemma {:induction false} FirstFitGuarantee(order: seq<string>, keep: nat, limit: int, t: Ladder)
    requires ValidOrder(order) && Unique(order, t.out)
    ensures FitsOrSpent(order, keep, limit, t, FirstFit(order, keep, limit, t))
    decreases Weight(t.out)
  {
    FirstFitUnfolds(order, keep, limit, t);
    var next := NextDrop(order, keep, t);
    if EstimateTokens(t.out) > limit && next.Some? {
      NextDropShrinks(order, keep, t);
      StepGuarantee(order, keep, t);
      FirstFitGuarantee(order, keep, limit, next.value);
      FitsTrans(order, keep, limit, t, next.value, FirstFit(order, keep, limit, next.value));
    } else {
      GuaranteedSelf(order, keep, t);
      if next.None? {
        NothingToDrop(order, keep, t);
      }
    }
  }

  /** The ladder is ordered and minimal, and "still over" means that only protected content is left. */
  lemma GuardGuarantees(order: seq<string>, messages: seq<Message>, slotCtx: int)
    requires ValidOrder(order) && Unique(order, messages)
    ensures var (out, report) := Reference(order, messages, slotCtx);
            var dropped := if report.Some? then report.value.droppedMessages else 0;
            && Ordered(order, messages, out)
            && TailKept(order, KeepRecentMessages(slotCtx), Ladder(messages, 0, 0, 0), Ladder(out, 0, 0, dropped))
            && InjectionsTruncated(order, messages, out)
            && (report.Some? && report.value.stillOver ==>
                  Exhausted(order, |order|, out) && |Body(out)| <= KeepRecentMessages(slotCtx))
  {
    var keep, limit := KeepRecentMessages(slotCtx), Limit(slotCtx);
    var t0 := Ladder(messages, 0, 0, 0);
    FirstFitGuarantee(order, keep, limit, t0);
    GuaranteedSelf(order, keep, t0);
    if Reference(order, messages, slotCtx).1.Some? {
      GuardIsFirstFit(order, messages, slotCtx);
    }
  }

  /** The shipped headers are single lines of which none starts another, so all of this holds of the shipped guard. */
  lemma ShippedGuardGuarantees(messages: seq<Message>, slotCtx: int)
    requires Unique(TRIM_ORDER, messages)
    ensures var (out, report) := Reference(TRIM_ORDER, messages, slotCtx);
            var dropped := if report.Some? then report.value.droppedMessages else 0;
            && Ordered(TRIM_ORDER, messages, out)
            && TailKept(TRIM_ORDER, KeepRecentMessages(slotCtx), Ladder(messages, 0, 0, 0), Ladder(out, 0, 0, dropped))
            && InjectionsTruncated(TRIM_ORDER, messages, out)
            && (report.Some? && report.value.stillOver ==>
                  Exhausted(TRIM_ORDER, |TRIM_ORDER|, out) && |Body(out)| <= KeepRecentMessages(slotCtx))
  {
    TrimOrderIsValid();
    GuardGuarantees(TRIM_ORDER, messages, slotCtx);
  }
}

/** coalesce_system_messages (routers/chat.py), and what the guard can do to a coalesced conversation. */
module Coalescing {
  import opened Prelude
  import opened Text
  import opened Messages
  import opened Compression
  import opened ContextGuard

  /** A system message whose content is a non-empty part list cannot be joined: the source raises. */
  predicate Joinable(m: Message) {
    m.content.Parts? ==> m.content.parts == []
  }

  function SystemText(m: Message): string {
    if m.content.Str? then m.content.text else ""
  }

  /** The non-empty system texts, in order. */
  function SystemTexts(systems: seq<Message>): seq<string> {
    if systems == [] then []
    else (if SystemText(systems[0]) == "" then [] else [SystemText(systems[0])]) + SystemTexts(systems[1..])
  }

  /** None is the TypeError of joining a part list. */
  function Coalesce(ms: seq<Message>): Option<seq<Message>> {
    var systems := Systems(ms);
    var leading := if ms != [] && IsSystem(ms[0]) then 1 else 0;
    if |systems| == leading then Some(ms)
    else if exists m :: m in systems && !Joinable(m) then None
    else Some([Message(System, Str(Join(SystemTexts(systems), "\n\n")), [])] + Body(ms))
  }

  /** At most one system message, and only in front. */
  predicate SingleLeadingSystem(ms: seq<Message>) {
    Systems(ms) == if ms != [] && IsSystem(ms[0]) then [ms[0]] else []
  }

  lemma {:induction false} SystemsOfSystems(ms: seq<Message>)
    ensures forall m | m in Systems(ms) :: m in ms && IsSystem(m)
    ensures |Systems(ms)| + |Body(ms)| == |ms|
    ensures ms != [] && IsSystem(ms[0]) ==> Systems(ms) != [] && Systems(ms)[0] == ms[0]
  {
    if ms != [] {
      SystemsOfSystems(ms[1..]);
    }
  }

  /** The result has one leading system message at most, and the same non-system messages. */
  lemma CoalesceShape(ms: seq<Message>)
    requires Coalesce(ms).Some?
    ensures SingleLeadingSystem(Coalesce(ms).value)
    ensures Body(Coalesce(ms).value) == Body(ms)
  {
    SystemsOfSystems(ms);
    var out := Coalesce(ms).value;
    if out != ms {
      BodyHasNoSystem(ms);
      assert out[1..] == Body(ms);
    }
  }

  /** Coalescing again changes nothing. */
  lemma CoalesceIdempotent(ms: seq<Message>)
    requires Coalesce(ms).Some?
    ensures Coalesce(Coalesce(ms).value) == Coalesce(ms)
  {
    CoalesceShape(ms);
  }

  lemma {:induction false} TextsContain(systems: seq<Message>, m: Message)
    requires m in systems && SystemText(m) != ""
    ensures exists k :: 0 <= k < |SystemTexts(systems)| && SystemTexts(systems)[k] == SystemText(m)
  {
    if systems[0] == m {
      assert SystemTexts(systems)[0] == SystemText(m);
    } else {
      TextsContain(systems[1..], m);
      var k :| 0 <= k < |SystemTexts(systems[1..])| && SystemTexts(systems[1..])[k] == SystemText(m);
      var off := if SystemText(systems[0]) == "" then 0 else 1;
      assert SystemTexts(systems)[k + off] == SystemText(m);
    }
  }

  lemma {:induction false} SystemInSystems(ms: seq<Message>, m: Message)
    requires m in ms && IsSystem(m)
    ensures m in Systems(ms)
  {
    if ms[0] != m {
      SystemInSystems(ms[1..], m);
    }
  }

  /** No system text is lost: each one occurs in the merged message (or the list was left alone). */
  lemma CoalesceKeepsTexts(ms: seq<Message>, m: Message)
    requires Coalesce(ms).Some? && m in ms && IsSystem(m)
    ensures var out := Coalesce(ms).value;
            m in out || (out != [] && IsSystem(out[0]) && out[0].content.Str? && Contains(out[0].content.text, SystemText(m)))
  {
    var out := Coalesce(ms).value;
    if out != ms {
      if SystemText(m) == "" {
        assert out[0].content.text[0..0] == "";
      } else {
        SystemInSystems(ms, m);
        TextsContain(Systems(ms), m);
        var k :| 0 <= k < |SystemTexts(Systems(ms))| && SystemTexts(Systems(ms))[k] == SystemText(m);
        JoinContains(SystemTexts(Systems(ms)), "\n\n", k);
      }
    }
  }

  /** The parts occur in the text one after the other. */
  predicate InOrder(text: string, parts: seq<string>)
    decreases |parts|
  {
    parts == [] || exists i, j | 0 <= i <= j <= |text| :: text[i..j] == parts[0] && InOrder(text[j..], parts[1..])
  }

  lemma InOrderNext(text: string, i: nat, j: nat, parts: seq<string>)
    requires parts != [] && i <= j <= |text| && text[i..j] == parts[0] && InOrder(text[j..], parts[1..])
    ensures InOrder(text, parts)
  {
  }

  /** Text in front does not disturb the order. */
  lemma InOrderBehind(front: string, text: string, parts: seq<string>)
    requires InOrder(text, parts)
    ensures InOrder(front + text, parts)
  {
    if parts != [] {
      var i, j :| 0 <= i <= j <= |text| && text[i..j] == parts[0] && InOrder(text[j..], parts[1..]);
      var all := front + text;
      assert all[|front| + i..|front| + j] == text[i..j] && all[|front| + j..] == text[j..];
      InOrderNext(all, |front| + i, |front| + j, parts);
    }
  }

  /** The texts of these messages, in their order. */
  function TextsOf(ms: seq<Message>): (texts: seq<string>)
    ensures |texts| == |ms| && forall i | 0 <= i < |ms| :: texts[i] == if ms[i].content.Str? then ms[i].content.text else ""
  {
    seq(|ms|, i requires 0 <= i < |ms| => if ms[i].content.Str? then ms[i].content.text else "")
  }

  lemma FirstThenRest(first: string, sep: string, rest: string, parts: seq<string>)
    requires parts != [] && parts[0] == first && InOrder(rest, parts[1..])
    ensures InOrder(first + sep + rest, parts)
  {
    var n, all := |first|, first + sep + rest;
    assert all[0..n] == first && all[n..] == sep + rest;
    InOrderBehind(sep, rest, parts[1..]);
    InOrderNext(all, 0, n, parts);
  }

  lemma {:induction false} JoinedInOrder(systems: seq<Message>)
    ensures InOrder(Join(SystemTexts(systems), "\n\n"), TextsOf(systems))
    decreases |systems|
  {
    if systems != [] {
      var texts, more := TextsOf(systems), SystemTexts(systems[1..]);
      var rest := Join(more, "\n\n");
      JoinedInOrder(systems[1..]);
      assert texts[1..] == TextsOf(systems[1..]);
      var first := texts[0];
      var sep := if first == "" || more == [] then "" else "\n\n";
      FirstThenRest(first, sep, rest, texts);
      JoinWith(first, more);
    }
  }

  /** Joining with one more text in front, which is left out when it is empty. */
  lemma JoinWith(first: string, more: seq<string>)
    ensures Join((if first == "" then [] else [first]) + more, "\n\n")
         == first + (if first == "" || more == [] then "" else "\n\n") + Join(more, "\n\n")
  {
    assert [] + more == more;
    if first != "" {
      assert ([first] + more)[1..] == more;
    }
  }

  /**
   Exactly what coalescing does: a conversation with one leading system message at most is left alone; otherwise one whose
   system messages are not all text is refused, and any other gets one leading system message with all texts in order.
   */
  lemma CoalesceIs(ms: seq<Message>)
    ensures SingleLeadingSystem(ms) ==> Coalesce(ms) == Some(ms)
    ensures !SingleLeadingSystem(ms) ==>
              (Coalesce(ms).None? <==> exists m :: m in ms && IsSystem(m) && m.content.Parts? && m.content.parts != [])
    ensures !SingleLeadingSystem(ms) && Coalesce(ms).Some? ==>
              var out := Coalesce(ms).value;
              && out != [] && IsSystem(out[0]) && out[0].content.Str? && out[0].toolCalls == [] && out[1..] == Body(ms)
              && InOrder(out[0].content.text, TextsOf(Systems(ms)))
  {
    SystemsOfSystems(ms);
    LeadingOnly(ms);
    JoinedInOrder(Systems(ms));
    forall m ensures m in Systems(ms) <==> m in ms && IsSystem(m) {
      if m in ms && IsSystem(m) {
        SystemInSystems(ms, m);
      }
    }
  }

  lemma LeadingOnly(ms: seq<Message>)
    ensures SingleLeadingSystem(ms) <==> |Systems(ms)| == if ms != [] && IsSystem(ms[0]) then 1 else 0
  {
    SystemsOfSystems(ms);
  }

  // ---- the order of passes in _prepare_loop ----

  /** Coalesce the mode prompt with the request, then maybe compress: what the guard is given. */
  function Prepared(prompt: string, request: seq<Message>, slotCtx: int, autoCompress: bool, instruction: string,
                    summarize: string -> Option<string>): Option<seq<Message>>
  {
    match Coalesce([Message(System, Str(prompt), [])] + request)
    case None => None
    case Some(ms) =>
      var r := if autoCompress then Compressed(ms, slotCtx, instruction, summarize) else None;
      Some(if r.Some? then r.value.messages else ms)
  }

  predicate NoneInjected(order: seq<string>, ms: seq<Message>) {
    forall m | m in ms :: InjectedHeader(order, m).None?
  }

  /** The header is one line and neither starts the text nor is started by it. */
  predicate Unlike(order: seq<string>, text: string) {
    forall i | 0 <= i < |order| :: '\n' !in order[i] && order[i] != "" && !(order[i] <= text)
  }

  lemma {:induction false} UnlikeHasNoHeader(order: seq<string>, text: string, longer: string)
    requires Unlike(order, text) && (longer == text || text + "\n" <= longer)
    ensures HeaderOf(order, longer).None?
  {
    if order != [] {
      assert Unlike(order[1..], text) by {
        forall i | 0 <= i < |order[1..]| ensures order[1..][i] == order[i + 1] {}
      }
      UnlikeHasNoHeader(order[1..], text, longer);
      var h := order[0];
      if longer != text {
        assert longer[|text|] == (text + "\n")[|text|] == '\n';
        assert forall i | 0 <= i < |h| :: h[i] in h;
      }
      assert h <= longer && |h| <= |text| ==> h <= text;
    }
  }

  /** A coalesced conversation has no injected message left to recognise, when the prompt starts it. */
  lemma CoalescedHidesInjections(order: seq<string>, prompt: string, request: seq<Message>)
    requires prompt != "" && Unlike(order, prompt)
    requires Coalesce([Message(System, Str(prompt), [])] + request).Some?
    ensures NoneInjected(order, Coalesce([Message(System, Str(prompt), [])] + request).value)
  {
    var first := Message(System, Str(prompt), []);
    var ms := [first] + request;
    var out := Coalesce(ms).value;
    CoalesceShape(ms);
    SystemsOfSystems(ms);
    var texts := SystemTexts(Systems(ms));
    assert Systems(ms) == [first] + Systems(ms)[1..];
    assert texts[0] == prompt;
    assert out[0].content.text == prompt || out[0].content.text == Join(texts, "\n\n");
    if |texts| > 1 {
      assert Join(texts, "\n\n") == prompt + "\n" + ("\n" + Join(texts[1..], "\n\n"));
    }
    UnlikeHasNoHeader(order, prompt, out[0].content.text);
    forall m | m in out ensures InjectedHeader(order, m).None? {
      if IsSystem(m) {
        SystemInSystems(out, m);
      }
    }
  }

  lemma {:induction false} NothingToTrim(order: seq<string>, r: nat, t: Ladder, limit: int)
    requires r <= |order| && NoneInjected(order, t.out)
    ensures TrimInjections(order, r, t, limit) == t
    decreases |order| - r
  {
    if r < |order| {
      NothingToTrim(order, r + 1, t, limit);
    }
  }

  lemma {:induction false} TailKeepsBlocks(t: Ladder, keep: nat, limit: int)
    ensures TrimTail(t, keep, limit).blocks == t.blocks && TrimTail(t, keep, limit).injections == t.injections
    ensures Systems(TrimTail(t, keep, limit).out) == Systems(t.out)
    decreases |Body(t.out)|
  {
    if EstimateTokens(t.out) > limit && |Body(t.out)| > keep {
      DropOldestBody(t.out, 1);
      DropOldestSystems(t.out, 1);
      TailKeepsBlocks(Cut(t, 1), keep, limit);
    }
  }

  lemma {:induction false} DropOldestSystems(ms: seq<Message>, k: nat)
    ensures Systems(DropOldest(ms, k)) == Systems(ms)
  {
    if ms != [] && k > 0 {
      DropOldestSystems(ms[1..], if IsSystem(ms[0]) then k else k - 1);
    }
  }

  /** What the guard is given has no injected message left to recognise. */
  lemma PreparedHidesInjections(order: seq<string>, prompt: string, request: seq<Message>, slotCtx: int,
                                autoCompress: bool, instruction: string, summarize: string -> Option<string>)
    requires prompt != "" && Unlike(order, prompt) && Unlike(order, SUMMARY_PREFIX)
    requires Prepared(prompt, request, slotCtx, autoCompress, instruction, summarize).Some?
    ensures NoneInjected(order, Prepared(prompt, request, slotCtx, autoCompress, instruction, summarize).value)
  {
    var co := Coalesce([Message(System, Str(prompt), [])] + request).value;
    var ms := Prepared(prompt, request, slotCtx, autoCompress, instruction, summarize).value;
    CoalescedHidesInjections(order, prompt, request);
    if ms != co {
      var reply := summarize(FoldInput(co, slotCtx, instruction)).value;
      var note := SummaryMessage(reply);
      UnlikeHasNoHeader(order, SUMMARY_PREFIX, note.content.text);
      assert forall m | m in ms :: m == note || m in co;
    }
  }

  /**
   As wired, rung 1 of the guard never drops an injected block: coalescing has already merged every
   injection behind the mode prompt, so only tail messages can go. (docs/memory.md promises that
   injected blocks go first.)
   */
  lemma WiredGuardTrimsNoBlocks(order: seq<string>, prompt: string, request: seq<Message>, slotCtx: int,
                                autoCompress: bool, instruction: string, summarize: string -> Option<string>)
    requires prompt != "" && Unlike(order, prompt) && Unlike(order, SUMMARY_PREFIX)
    requires Prepared(prompt, request, slotCtx, autoCompress, instruction, summarize).Some?
    ensures var ms := Prepared(prompt, request, slotCtx, autoCompress, instruction, summarize).value;
            var (out, report) := Reference(order, ms, slotCtx);
            && Systems(out) == Systems(ms)
            && (report.Some? ==> report.value.droppedBlocks == 0 && report.value.droppedInjections == 0)
  {
    var ms := Prepared(prompt, request, slotCtx, autoCompress, instruction, summarize).value;
    PreparedHidesInjections(order, prompt, request, slotCtx, autoCompress, instruction, summarize);
    var t := Ladder(ms, 0, 0, 0);
    NothingToTrim(order, 0, t, Limit(slotCtx));
    TailKeepsBlocks(t, KeepRecentMessages(slotCtx), Limit(slotCtx));
  }

  // ---- as shipped ----

  /** What every mode prompt starts with. */
  const PROMPT_START := "# "

  lemma ShippedTextsAreUnlike(prompt: string)
    requires PROMPT_START <= prompt
    ensures Unlike(TRIM_ORDER, prompt) && Unlike(TRIM_ORDER, SUMMARY_PREFIX)
  {
    assert prompt[0] == '#';
    assert SUMMARY_PREFIX[0] == 'R';
    assert MEMORY_HEADER[0] == 'L' && SKILL_HEADER[0] == 'S' && PROJECT_HEADER[0] == 'P';
  }

  lemma {:induction false} TailCounts(t: Ladder, keep: nat, limit: int)
    ensures TrimTail(t, keep, limit).messages >= t.messages
    ensures TrimTail(t, keep, limit).messages > t.messages <==> EstimateTokens(t.out) > limit && |Body(t.out)| > keep
    decreases |Body(t.out)|
  {
    if EstimateTokens(t.out) > limit && |Body(t.out)| > keep {
      DropOldestBody(t.out, 1);
      TailCounts(Cut(t, 1), keep, limit);
    }
  }

  /**
   The shipped prompts, headers and order of passes: the guard never drops a block, and it drops tail messages exactly
   when the conversation it is given is over the limit and has more of them than it protects.
   */
  lemma ShippedGuardDropsOnlyTail(prompt: string, request: seq<Message>, slotCtx: int, autoCompress: bool,
                                  instruction: string, summarize: string -> Option<string>)
    requires PROMPT_START <= prompt && slotCtx > 0
    requires Prepared(prompt, request, slotCtx, autoCompress, instruction, summarize).Some?
    ensures var ms := Prepared(prompt, request, slotCtx, autoCompress, instruction, summarize).value;
            var report := Reference(TRIM_ORDER, ms, slotCtx).1;
            && (report.Some? <==> EstimateTokens(ms) > Limit(slotCtx))
            && (report.Some? ==>
                  && report.value.droppedBlocks == 0 && report.value.droppedInjections == 0
                  && (report.value.droppedMessages > 0 <==> |Body(ms)| > KeepRecentMessages(slotCtx)))
  {
    var ms := Prepared(prompt, request, slotCtx, autoCompress, instruction, summarize).value;
    ShippedTextsAreUnlike(prompt);
    WiredGuardTrimsNoBlocks(TRIM_ORDER, prompt, request, slotCtx, autoCompress, instruction, summarize);
    PreparedHidesInjections(TRIM_ORDER, prompt, request, slotCtx, autoCompress, instruction, summarize);
    NothingToTrim(TRIM_ORDER, 0, Ladder(ms, 0, 0, 0), Limit(slotCtx));
    TailCounts(Ladder(ms, 0, 0, 0), KeepRecentMessages(slotCtx), Limit(slotCtx));
  }

  lemma {:induction false} EstimateAtLeast(ms: seq<Message>)
    ensures EstimateTokens(ms) >= PER_MESSAGE_OVERHEAD_TOKENS * |ms|
    decreases |ms|
  {
    if ms != [] {
      EstimateAtLeast(ms[1..]);
    }
  }

  const USER_TURN := Message(Other("user"), Str("hello"), [])

  lemma JoinStarts(lines: seq<string>)
    requires lines != []
    ensures lines[0] <= Join(lines, "\n")
  {
  }

  lemma LinesHaveBlock(lines: seq<string>, k: nat)
    requires k < |lines| && IsBlockStart(lines[k]) && forall p | p in lines :: '\n' !in p
    ensures SplitInjected(Join(lines, "\n")).blocks != []
  {
    SplitOfJoin(lines, '\n');
  }

  lemma MemoryComesFirst(text: string)
    requires MEMORY_HEADER <= text
    ensures HeaderOf(TRIM_ORDER, text) == Some(MEMORY_HEADER)
  {
  }

  /** Recalled memory as it is injected: the header, then delimited blocks. */
  lemma RecallHasBlock(fact: string) returns (recall: Message)
    requires '\n' !in fact
    ensures IsSystem(recall) && recall.content.Str?
    ensures InjectedHeader(TRIM_ORDER, recall) == Some(MEMORY_HEADER) && SplitInjected(recall.content.text).blocks != []
  {
    var lines := [MEMORY_HEADER, "<<<memory", fact, "<<<end"];
    assert lines[1][3] == 'm' && "<<<end"[3] == 'e';
    JoinStarts(lines);
    MemoryComesFirst(Join(lines, "\n"));
    LinesHaveBlock(lines, 1);
    recall := Message(System, Str(Join(lines, "\n")), []);
  }

  /** A request made of one injected message and user messages, too long for the context: user messages go, the block stays. */
  lemma UserMessagesGoBlockStays(prompt: string, recall: Message, users: seq<Message>, slotCtx: int)
    returns (ms: seq<Message>, report: TrimReport)
    requires PROMPT_START <= prompt && slotCtx > 0
    requires IsSystem(recall) && recall.content.Str?
    requires |users| > KeepRecentMessages(slotCtx) && forall i | 0 <= i < |users| :: !IsSystem(users[i])
    requires PER_MESSAGE_OVERHEAD_TOKENS * |users| > Limit(slotCtx)
    ensures Prepared(prompt, [recall] + users, slotCtx, false, "", _ => None) == Some(ms)
    ensures Reference(TRIM_ORDER, ms, slotCtx).1 == Some(report)
    ensures report.droppedMessages > 0 && report.droppedBlocks == 0
    ensures var kept := Systems(Reference(TRIM_ORDER, ms, slotCtx).0);
            |kept| == 1 && kept[0].content.Str? && Contains(kept[0].content.text, recall.content.text)
  {
    var first := Message(System, Str(prompt), []);
    var all := [first] + ([recall] + users);
    assert all == [first, recall] + users;
    SystemsAndUsers(first, recall, users);
    ms := Coalesce(all).value;
    MergedSystem(first, recall, users, ms);
    EstimateAtLeast(ms);
    ShippedGuardDropsOnlyTail(prompt, [recall] + users, slotCtx, false, "", _ => None);
    ShippedTextsAreUnlike(prompt);
    WiredGuardTrimsNoBlocks(TRIM_ORDER, prompt, [recall] + users, slotCtx, false, "", _ => None);
    report := Reference(TRIM_ORDER, ms, slotCtx).1.value;
  }

  lemma OneSystem(m: Message, users: seq<Message>)
    requires IsSystem(m) && forall i | 0 <= i < |users| :: !IsSystem(users[i])
    ensures Systems([m] + users) == [m] && Body([m] + users) == users
  {
    OnlyUsers(users);
    assert ([m] + users)[1..] == users;
  }

  lemma MergedShape(first: Message, recall: Message, users: seq<Message>, ms: seq<Message>)
    requires IsSystem(first) && first.content.Str? && IsSystem(recall) && recall.content.Str?
    requires forall i | 0 <= i < |users| :: !IsSystem(users[i])
    requires Coalesce([first, recall] + users) == Some(ms)
    ensures |ms| == |users| + 1 && IsSystem(ms[0]) && ms == [ms[0]] + users
  {
    SystemsAndUsers(first, recall, users);
  }

  lemma MergedSystem(first: Message, recall: Message, users: seq<Message>, ms: seq<Message>)
    requires IsSystem(first) && first.content.Str? && IsSystem(recall) && recall.content.Str?
    requires forall i | 0 <= i < |users| :: !IsSystem(users[i])
    requires Coalesce([first, recall] + users) == Some(ms)
    ensures |ms| == |users| + 1 && Body(ms) == users
    ensures |Systems(ms)| == 1 && Systems(ms)[0].content.Str? && Contains(Systems(ms)[0].content.text, recall.content.text)
  {
    var all := [first, recall] + users;
    MergedShape(first, recall, users, ms);
    OneSystem(ms[0], users);
    assert all[1] == recall;
    CoalesceKeepsTexts(all, recall);
    if recall in ms {
      OnlySystemIsFirst(ms[0], users, recall);
      ContainsSelf(recall.content.text);
    }
  }

  lemma OnlySystemIsFirst(m: Message, users: seq<Message>, system: Message)
    requires IsSystem(system) && system in [m] + users
    requires forall i | 0 <= i < |users| :: !IsSystem(users[i])
    ensures system == m
  {
  }

  lemma ContainsSelf(s: string)
    ensures Contains(s, s)
  {
    assert s[0..|s|] == s;
  }

  /** The smallest context the loadout settings allow. */
  const MIN_CONTEXT := 2048

  /** Such a request exists: one recalled fact and 461 short user messages in the smallest context that can be set. */
  lemma BlockOutlivesUserMessage(prompt: string) returns (request: seq<Message>, ms: seq<Message>, report: TrimReport)
    requires PROMPT_START <= prompt
    ensures |request| == 462 && InjectedHeader(TRIM_ORDER, request[0]) == Some(MEMORY_HEADER)
    ensures SplitInjected(request[0].content.text).blocks != []
    ensures Prepared(prompt, request, MIN_CONTEXT, false, "", _ => None) == Some(ms)
    ensures Reference(TRIM_ORDER, ms, MIN_CONTEXT).1 == Some(report)
    ensures report.droppedMessages > 0 && report.droppedBlocks == 0
    ensures var kept := Systems(Reference(TRIM_ORDER, ms, MIN_CONTEXT).0);
            |kept| == 1 && kept[0].content.Str? && Contains(kept[0].content.text, request[0].content.text)
  {
    var recall := RecallHasBlock("a fact");
    var users := seq(461, i => USER_TURN);
    ms, report := UserMessagesGoBlockStays(prompt, recall, users, MIN_CONTEXT);
    request := [recall] + users;
  }

  lemma SystemsAndUsers(a: Message, b: Message, users: seq<Message>)
    requires IsSystem(a) && IsSystem(b) && forall i | 0 <= i < |users| :: !IsSystem(users[i])
    ensures Systems([a, b] + users) == [a, b] && Body([a, b] + users) == users
  {
    SystemsAppend([a, b], users);
    BodyAppend([a, b], users);
    OnlyUsers(users);
    assert [a, b][1..] == [b] && [b][1..] == [];
  }

  lemma {:induction false} OnlyUsers(users: seq<Message>)
    requires forall i | 0 <= i < |users| :: !IsSystem(users[i])
    ensures Systems(users) == [] && Body(users) == users
    decreases |users|
  {
    if users != [] {
      OnlyUsers(users[1..]);
    }
  }
}

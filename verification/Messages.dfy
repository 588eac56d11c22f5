/** Chat messages and the token estimate of memory/compression.py. */
module Messages {
  import opened Prelude
  import opened Text

  const CHARS_PER_TOKEN := 4
  const PER_MESSAGE_OVERHEAD_TOKENS := 4

  /** `name` is what a transcript line prints for a message that is not a system message. */
  datatype Role = System | Other(name: string)

  datatype Part = TextPart(text: string) | ImagePart | UnknownPart

  /** A message's content: a string, a list of multimodal parts, or neither. */
  datatype Content = Str(text: string) | Parts(parts: seq<Part>) | Absent

  /** A tool call counts by the length of its printed form, so that form stands for it. */
  datatype Message = Message(role: Role, content: Content, toolCalls: seq<string>)

  predicate IsSystem(m: Message) { m.role.System? }

  function PartTexts(parts: seq<Part>): seq<string> {
    if parts == [] then []
    else match parts[0]
      case TextPart(t) => [t] + PartTexts(parts[1..])
      case ImagePart => ["[image]"] + PartTexts(parts[1..])
      case UnknownPart => PartTexts(parts[1..])
  }

  function MessageText(m: Message): string {
    match m.content
    case Str(t) => t
    case Parts(ps) => Join(PartTexts(ps), "\n")
    case Absent => ""
  }

  function CallTokens(calls: seq<string>): nat {
    if calls == [] then 0 else |calls[0]| / CHARS_PER_TOKEN + CallTokens(calls[1..])
  }

  /** estimate_message_tokens */
  function MessageTokens(m: Message): nat {
    |MessageText(m)| / CHARS_PER_TOKEN + PER_MESSAGE_OVERHEAD_TOKENS + CallTokens(m.toolCalls)
  }

  /** estimate_tokens: the fresh sum over the whole conversation. */
  function EstimateTokens(ms: seq<Message>): nat {
    if ms == [] then 0 else MessageTokens(ms[0]) + EstimateTokens(ms[1..])
  }

  /** A text costs a token for every four characters, each message four more, and each tool call its printed length. */
  lemma EstimateExamples(role: Role)
    ensures MessageTokens(Message(role, Str("123456789"), [])) == 2 + 4
    ensures MessageTokens(Message(role, Absent, ["12345678", "123"])) == 0 + 4 + 2 + 0
    ensures MessageTokens(Message(role, Parts([TextPart("ab"), UnknownPart, ImagePart, TextPart("c")]), [])) == 3 + 4
  {
    var parts := [TextPart("ab"), UnknownPart, ImagePart, TextPart("c")];
    assert parts[1..] == [UnknownPart, ImagePart, TextPart("c")] && parts[1..][1..] == [ImagePart, TextPart("c")];
    assert parts[1..][1..][1..] == [TextPart("c")] && [TextPart("c")][1..] == [];
    var texts := ["ab", "[image]", "c"];
    assert PartTexts(parts) == texts;
    assert texts[1..] == ["[image]", "c"] && texts[1..][1..] == ["c"];
    assert Join(texts, "\n") == "ab" + "\n" + ("[image]" + "\n" + "c");
    assert ["12345678", "123"][1..] == ["123"] && ["123"][1..] == [];
  }

  /** The non-system messages, in order. */
  function Body(ms: seq<Message>): (body: seq<Message>) {
    if ms == [] then [] else (if IsSystem(ms[0]) then [] else [ms[0]]) + Body(ms[1..])
  }

  function Systems(ms: seq<Message>): seq<Message> {
    if ms == [] then [] else (if IsSystem(ms[0]) then [ms[0]] else []) + Systems(ms[1..])
  }

  /** keep_recent_messages: the adaptive verbatim window. */
  function KeepRecentMessages(slotCtx: int): nat {
    if slotCtx >= 32768 then 8 else if slotCtx >= 16384 then 6 else 4
  }

  lemma {:induction false} EstimateAppend(a: seq<Message>, b: seq<Message>)
    ensures EstimateTokens(a + b) == EstimateTokens(a) + EstimateTokens(b)
  {
    if a == [] {
      assert a + b == b;
    } else {
      EstimateAppend(a[1..], b);
      assert (a + b)[1..] == a[1..] + b;
    }
  }

  lemma {:induction false} BodyAppend(a: seq<Message>, b: seq<Message>)
    ensures Body(a + b) == Body(a) + Body(b)
  {
    if a == [] {
      assert a + b == b;
    } else {
      BodyAppend(a[1..], b);
      assert (a + b)[0] == a[0] && (a + b)[1..] == a[1..] + b;
      Assoc(if IsSystem(a[0]) then [] else [a[0]], Body(a[1..]), Body(b));
    }
  }

  lemma {:induction false} SystemsAppend(a: seq<Message>, b: seq<Message>)
    ensures Systems(a + b) == Systems(a) + Systems(b)
  {
    if a == [] {
      assert a + b == b;
    } else {
      SystemsAppend(a[1..], b);
      assert (a + b)[0] == a[0] && (a + b)[1..] == a[1..] + b;
      Assoc(if IsSystem(a[0]) then [a[0]] else [], Systems(a[1..]), Systems(b));
    }
  }

  lemma {:induction false} BodyHasNoSystem(ms: seq<Message>)
    ensures forall m | m in Body(ms) :: m in ms && !IsSystem(m)
    ensures Body(Body(ms)) == Body(ms) && Systems(Body(ms)) == []
  {
    if ms != [] {
      BodyHasNoSystem(ms[1..]);
      if !IsSystem(ms[0]) {
        assert Body(ms)[1..] == Body(ms[1..]);
      } else {
        assert Body(ms) == Body(ms[1..]);
      }
    }
  }
}

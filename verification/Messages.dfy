/** Chat messages and their character counts. */
module Messages {
  import opened Text

  /** What the kernel reads of a tool call's arguments. */
  datatype CallArgs = CallArgs(path: string, other: string)

  /** A tool call; `id` is the call's "id" or, when that is missing, its "call_id". */
  datatype ToolCall = ToolCall(id: string, name: string, args: CallArgs)

  datatype Message =
    | Human(content: string)
    | AI(content: string, toolCalls: seq<ToolCall>)
    | Tool(content: string, toolCallId: string, name: string)
    | System(content: string)

  /** The lower-case class name used in truncation step labels. */
  function ClassName(m: Message): string {
    match m
    case Human(_) => "humanmessage"
    case AI(_, _) => "aimessage"
    case Tool(_, _, _) => "toolmessage"
    case System(_) => "systemmessage"
  }

  /** The same message with other text; tool calls and tool identity stay. */
  function WithContent(m: Message, text: string): (r: Message)
    ensures r.content == text
    ensures r.Human? == m.Human? && r.AI? == m.AI? && r.Tool? == m.Tool?
    ensures m.AI? ==> r.toolCalls == m.toolCalls
    ensures m.Tool? ==> r.toolCallId == m.toolCallId && r.name == m.name
  {
    match m
    case Human(_) => Human(text)
    case AI(_, calls) => AI(text, calls)
    case Tool(_, callId, name) => Tool(text, callId, name)
    case System(_) => System(text)
  }

  function TotalChars(ms: seq<Message>): nat {
    if ms == [] then 0 else |ms[0].content| + TotalChars(ms[1..])
  }

  lemma {:induction false} TotalCharsConcat(a: seq<Message>, b: seq<Message>)
    ensures TotalChars(a + b) == TotalChars(a) + TotalChars(b)
  {
    if a == [] {
      assert a + b == b;
    } else {
      TotalCharsConcat(a[1..], b);
      assert (a + b)[1..] == a[1..] + b;
    }
  }

  /** Replacing one message changes the total by the difference of the two. */
  lemma TotalCharsUpdate(ms: seq<Message>, i: nat, m: Message)
    requires i < |ms|
    ensures TotalChars(ms[i := m]) == TotalChars(ms) - |ms[i].content| + |m.content|
  {
    TotalCharsSplit(ms, i);
    TotalCharsSplit(ms[i := m], i);
    assert ms[i := m][..i] == ms[..i] && ms[i := m][i + 1..] == ms[i + 1..];
  }

  lemma TotalCharsSplit(ms: seq<Message>, i: nat)
    requires i < |ms|
    ensures TotalChars(ms) == TotalChars(ms[..i]) + |ms[i].content| + TotalChars(ms[i + 1..])
    ensures TotalChars(ms[..i] + ms[i + 1..]) == TotalChars(ms) - |ms[i].content|
  {
    TotalCharsConcat(ms[..i], ms[i..]);
    assert ms == ms[..i] + ms[i..];
    assert ms[i..][1..] == ms[i + 1..];
    TotalCharsConcat(ms[..i], ms[i + 1..]);
  }
}

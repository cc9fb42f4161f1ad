/** Chat messages and the token estimate both the compressor and the budget use. */
module Messages {

  /** Message content is a string or, for some providers, structured blocks. */
  datatype Content = Text(text: string) | Blocks(id: nat)

  /** A tool call and the printed length of its arguments. */
  datatype ToolCall = ToolCall(id: string, argChars: nat)

  datatype Message =
    | System(content: Content)
    | Human(content: Content)
    | AI(content: Content, calls: seq<ToolCall>)
    | Tool(content: Content, callId: string)

  function CallChars(calls: seq<ToolCall>): nat {
    if calls == [] then 0 else calls[0].argChars + CallChars(calls[1..])
  }

  function Chars(m: Message): nat {
    (if m.content.Text? then |m.content.text| else 0) + (if m.AI? then CallChars(m.calls) else 0)
  }

  function TotalChars(ms: seq<Message>): nat {
    if ms == [] then 0 else Chars(ms[0]) + TotalChars(ms[1..])
  }

  /** One message more counts its own characters, wherever it stands. */
  lemma {:induction false} MessageCounts(before: seq<Message>, m: Message, after: seq<Message>)
    ensures TotalChars(before + [m] + after) == TotalChars(before + after) + Chars(m)
  {
    if before == [] {
      assert [] + [m] + after == [m] + after && ([m] + after)[1..] == after && [] + after == after;
    } else {
      assert (before + [m] + after)[1..] == before[1..] + [m] + after;
      assert (before + after)[1..] == before[1..] + after;
      MessageCounts(before[1..], m, after);
    }
  }

  /** A message counts its text, if that is what it holds, and the printed arguments of its calls. */
  lemma CharsAre(m: Message, text: string, call: ToolCall, calls: seq<ToolCall>)
    ensures m.content == Text(text) && !m.AI? ==> Chars(m) == |text|
    ensures m.content.Blocks? && !m.AI? ==> Chars(m) == 0
    ensures m.AI? ==> Chars(AI(m.content, [call] + calls)) == Chars(AI(m.content, calls)) + call.argChars
    ensures Chars(AI(Text(text), [])) == |text| && Chars(AI(Blocks(0), [])) == 0
  {
    assert ([call] + calls)[1..] == calls;
  }

  /** A quarter of the characters, plus a 20 % margin. */
  function Estimate(ms: seq<Message>): nat {
    TotalChars(ms) / 4 * 6 / 5
  }

  /** That is three tenths of the characters, short of it by less than two because both steps round down. */
  lemma EstimateIsThreeTenths(ms: seq<Message>)
    ensures 10 * Estimate(ms) <= 3 * TotalChars(ms) <= 10 * Estimate(ms) + 17
  {
    hide TotalChars;
  }

  method EstimateTokens(ms: seq<Message>) returns (est: nat)
    ensures est == Estimate(ms)
  {
    var total := 0;
    for i := 0 to |ms|
      invariant total + TotalChars(ms[i..]) == TotalChars(ms)
    {
      var m := ms[i];
      assert ms[i..][1..] == ms[i + 1..];
      if m.content.Text? {
        total := total + |m.content.text|;
      }
      if m.AI? {
        ghost var before := total;
        for k := 0 to |m.calls|
          invariant total + CallChars(m.calls[k..]) == before + CallChars(m.calls)
        {
          assert m.calls[k..][1..] == m.calls[k + 1..];
          total := total + m.calls[k].argChars;
        }
      }
    }
    est := total / 4 * 6 / 5;
  }
}

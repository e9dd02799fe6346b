/** The conversation vocabulary shared by the supervisor and the team graphs:
    human, assistant and tool-result messages, and the tool calls an
    assistant message carries. */
module Messages {

  datatype Option<+T> = None | Some(value: T)

  /** Either the value an operation produced, or the text of the exception it raised. */
  datatype Result<+T> = Ok(value: T) | Raised(error: string)

  /** A value in the argument dictionary of a tool call; `Null` is JSON null / Python None. */
  datatype ArgValue = Null | Text(s: string)

  type Args = map<string, ArgValue>

  /** One entry of an assistant message's `tool_calls` list. */
  datatype ToolCall = ToolCall(id: string, name: string, args: Args)

  datatype Message =
    | Human(content: string)
    | Assistant(content: string, toolCalls: seq<ToolCall>)
    | ToolResult(toolCallId: string, content: string)
      /** Any other message kind (system messages and the like), carried by its printed form. */
    | OtherMessage(repr: string)

  /** Python's `xs[-1]`: the last element (for a state, the message a node inspects). */
  function Last<T>(xs: seq<T>): T
    requires |xs| > 0
  {
    xs[|xs| - 1]
  }

  /** `isinstance(m, AIMessage) and m.tool_calls`: an assistant message asking for more work. */
  predicate RequestsTools(m: Message)
  {
    m.Assistant? && |m.toolCalls| > 0
  }

  /** An assistant message with no tool calls: a terminal answer. */
  predicate IsFinalAnswer(m: Message)
  {
    m.Assistant? && m.toolCalls == []
  }

  /** Python's `dict.get(key)`: the value, or None when the key is absent. */
  function Get(args: Args, key: string): (r: Option<ArgValue>)
    ensures r.Some? <==> key in args
    ensures r.Some? ==> r.value == args[key]
  {
    if key in args then Some(args[key]) else None
  }

  /** Python's `dict.get(key, default)`. */
  function GetOr(args: Args, key: string, default: ArgValue): (r: ArgValue)
    ensures key in args ==> r == args[key]
    ensures key !in args ==> r == default
  {
    if key in args then args[key] else default
  }

  /** `str(KeyError(k))` is `repr(k)`: the missing key in quotes, escaped. */
  function KeyErrorText(key: string): string
  {
    Repr(key)
  }

  // Python's `repr` of a string: the text in quotes, with backslashes, the chosen
  // quote and control characters escaped.

  /** The quote `repr` chooses: double quotes when the text holds a single quote
      and no double quote, single quotes otherwise. */
  function QuoteFor(s: string): (q: char)
    ensures q == '"' <==> '\'' in s && '"' !in s
    ensures q == '\'' || q == '"'
  {
    if '\'' in s && '"' !in s then '"' else '\''
  }

  /** A character `repr` writes as a `\xhh` escape: C0 controls other than tab,
      newline and carriage return, and DEL. */
  predicate IsHexEscaped(c: char)
  {
    (c < ' ' && c != '\t' && c != '\n' && c != '\r') || c as int == 127
  }

  const HexDigits: string := "0123456789abcdef"

  /** How `repr` writes one character inside quotes `q`. */
  function EscapeChar(c: char, q: char): (e: string)
    ensures |e| > 0
    ensures e[0] == '\\' <==> c == '\\' || c == q || c == '\t' || c == '\n' || c == '\r' || IsHexEscaped(c)
  {
    if c == '\\' then "\\\\"
    else if c == q then ['\\', c]
    else if c == '\t' then "\\t"
    else if c == '\n' then "\\n"
    else if c == '\r' then "\\r"
    else if IsHexEscaped(c) then ['\\', 'x', HexDigits[c as int / 16], HexDigits[c as int % 16]]
    else [c]
  }

  function EscapeAll(s: string, q: char): string
  {
    if s == [] then [] else EscapeChar(s[0], q) + EscapeAll(s[1..], q)
  }

  /** `repr(s)` for a string `s`. */
  function Repr(s: string): (r: string)
    ensures |r| >= 2 && r[0] == QuoteFor(s) && r[|r| - 1] == QuoteFor(s)
  {
    [QuoteFor(s)] + EscapeAll(s, QuoteFor(s)) + [QuoteFor(s)]
  }

  /** The value of a lower-case hexadecimal digit. */
  function HexValue(c: char): Option<nat>
  {
    if '0' <= c <= '9' then Some(c as int - '0' as int)
    else if 'a' <= c <= 'f' then Some(c as int - 'a' as int + 10)
    else None
  }

  function Cons(c: char, rest: Option<string>): Option<string>
  {
    if rest.Some? then Some([c] + rest.value) else None
  }

  /** Reading back the text between the quotes: the reference the escaping is checked against. */
  function Unescape(e: string): Option<string>
    decreases |e|
  {
    if e == [] then Some([])
    else if e[0] != '\\' then Cons(e[0], Unescape(e[1..]))
    else if |e| < 2 then None
    else if e[1] == '\\' || e[1] == '\'' || e[1] == '"' then Cons(e[1], Unescape(e[2..]))
    else if e[1] == 't' then Cons('\t', Unescape(e[2..]))
    else if e[1] == 'n' then Cons('\n', Unescape(e[2..]))
    else if e[1] == 'r' then Cons('\r', Unescape(e[2..]))
    else if e[1] == 'x' && |e| >= 4 && HexValue(e[2]).Some? && HexValue(e[3]).Some? then
      Cons((16 * HexValue(e[2]).value + HexValue(e[3]).value) as char, Unescape(e[4..]))
    else None
  }

  lemma UnescapeChar(c: char, q: char, rest: string)
    requires q == '\'' || q == '"'
    ensures Unescape(EscapeChar(c, q) + rest) == Cons(c, Unescape(rest))
  {
    var e := EscapeChar(c, q) + rest;
    if IsHexEscaped(c) && c != q && c != '\\' {
      var hi, lo := c as int / 16, c as int % 16;
      assert e[..4] == ['\\', 'x', HexDigits[hi], HexDigits[lo]];
      assert HexValue(HexDigits[hi]) == Some(hi);
      assert HexValue(HexDigits[lo]) == Some(lo);
      assert e[4..] == rest;
    } else if |EscapeChar(c, q)| == 2 {
      assert e[2..] == rest;
    } else {
      assert e[1..] == rest;
    }
  }

  /** Escaping loses nothing: the text between the quotes reads back as the original string. */
  lemma {:induction false} UnescapeEscapeAll(s: string, q: char)
    requires q == '\'' || q == '"'
    ensures Unescape(EscapeAll(s, q)) == Some(s)
  {
    if s != [] {
      UnescapeEscapeAll(s[1..], q);
      UnescapeChar(s[0], q, EscapeAll(s[1..], q));
      assert [s[0]] + s[1..] == s;
    }
  }

  /** `repr` round-trips: strip the quotes and read back the escapes to recover the string. */
  lemma ReprRoundTrip(s: string)
    ensures Unescape(Repr(s)[1..|Repr(s)| - 1]) == Some(s)
  {
    var q := QuoteFor(s);
    assert Repr(s)[1..|Repr(s)| - 1] == EscapeAll(s, q);
    UnescapeEscapeAll(s, q);
  }

  /** A string with no quote, backslash or control character is printed between single quotes as it is. */
  lemma PlainReprIsQuoted(s: string)
    requires forall i | 0 <= i < |s| :: s[i] != '\'' && s[i] != '\\' && ' ' <= s[i] && s[i] as int != 127
    ensures Repr(s) == "'" + s + "'"
  {
    PlainEscapeAll(s);
  }

  lemma {:induction false} PlainEscapeAll(s: string)
    requires forall i | 0 <= i < |s| :: s[i] != '\'' && s[i] != '\\' && ' ' <= s[i] && s[i] as int != 127
    ensures EscapeAll(s, '\'') == s
  {
    if s != [] {
      PlainEscapeAll(s[1..]);
      assert [s[0]] + s[1..] == s;
    }
  }
}


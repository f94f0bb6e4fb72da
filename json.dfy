/**
 * The byte-level JSON helpers of webview.h. json_parse_c scans a JSON text
 * for the value stored under a key, or at an index, of the outermost object
 * or array, without building a tree: a small lexer tracks whether it is
 * between values, inside a literal, inside a string, after a backslash or
 * inside a multi-byte UTF-8 sequence, and the nesting depth tells which
 * tokens belong to the outermost level. json_unescape decodes a quoted
 * string, json_escape quotes one, and json_parse combines them. Pointers are
 * modelled as positions in the text.
 */
module Json {
  import opened Wrappers
  import Utility

  type byte = Utility.byte

  const QUOTE: byte := 34      // '"'
  const BACKSLASH: byte := 92  // '\\'
  const COMMA: byte := 44      // ','
  const COLON: byte := 58      // ':'

  /** ' ', '\t', '\n' and '\r'. */
  predicate IsWhitespace(c: byte) {
    c == 32 || c == 9 || c == 10 || c == 13
  }

  /** The first byte of true, false, null or a number: 't', 'f', 'n', '-' or a digit. */
  predicate StartsLiteral(c: byte) {
    c == 116 || c == 102 || c == 110 || c == 45 || (48 <= c <= 57)
  }

  /** A byte that ends a literal: whitespace, ',', ']', '}' or ':'. */
  predicate EndsLiteral(c: byte) {
    IsWhitespace(c) || c == COMMA || c == 93 || c == 125 || c == COLON
  }

  /** The bytes allowed after a backslash: '"', '\\', '/', 'b', 'f', 'n', 'r', 't' and 'u'. */
  predicate IsEscapeLetter(c: byte) {
    c == QUOTE || c == BACKSLASH || c == 47 || c == 98 || c == 102 || c == 110 || c == 114 || c == 116 || c == 117
  }

  /** The lexer's states. */
  datatype LexState = ValueState | LiteralState | StringState | EscapeState | Utf8State

  /** What a byte means to the scanner: a value or a structure starts or ends, or nothing. */
  datatype Action = NoAction | StartValue | EndValue | StartStruct | EndStruct

  /**
   * The lexer's verdict on one byte: reject the text, or move on with a new
   * state, an action and a count of pending UTF-8 continuation bytes;
   * `reread` says the byte is read again (the pointer steps back).
   */
  datatype Lexed = Rejected | Lexed(state: LexState, action: Action, utf8Bytes: int, reread: bool)

  /** The checks made on a byte of a string, which a literal's bytes also go through. */
  function StringChecks(state: LexState, action: Action, c: byte, utf8Bytes: int, reread: bool): Lexed {
    if c < 32 || (126 < c < 192) then Rejected
    else if c == QUOTE then Lexed(ValueState, EndValue, utf8Bytes, reread)
    else if c == BACKSLASH then Lexed(EscapeState, action, utf8Bytes, reread)
    else if 192 <= c < 224 then Lexed(Utf8State, action, 1, reread)
    else if 224 <= c < 240 then Lexed(Utf8State, action, 2, reread)
    else if 240 <= c < 247 then Lexed(Utf8State, action, 3, reread)
    else if 128 <= c < 192 then Rejected
    else Lexed(state, action, utf8Bytes, reread)
  }

  /**
   * The switch on the lexer state. A literal ends at a delimiter, which is
   * then read again between values; the literal's bytes, the delimiter
   * included, also go through the string checks, so a literal ended by a tab
   * or a line break is rejected, and a '"' inside a literal ends it.
   */
  function Lex(state: LexState, c: byte, utf8Bytes: int): (r: Lexed)
    ensures r.Lexed? && r.reread ==> state == LiteralState && r.state == ValueState && r.action == EndValue
    ensures state == ValueState ==> (r.Rejected? <==> !(IsWhitespace(c) || c == COMMA || c == COLON || c == QUOTE || c == 123 || c == 91 || c == 125 || c == 93 || StartsLiteral(c)))
  {
    match state
    case ValueState =>
      if IsWhitespace(c) || c == COMMA || c == COLON then Lexed(ValueState, NoAction, utf8Bytes, false)
      else if c == QUOTE then Lexed(StringState, StartValue, utf8Bytes, false)
      else if c == 123 || c == 91 then Lexed(ValueState, StartStruct, utf8Bytes, false)
      else if c == 125 || c == 93 then Lexed(ValueState, EndStruct, utf8Bytes, false)
      else if StartsLiteral(c) then Lexed(LiteralState, StartValue, utf8Bytes, false)
      else Rejected
    case LiteralState =>
      if EndsLiteral(c) then StringChecks(ValueState, EndValue, c, utf8Bytes, true)
      else if c < 32 || c > 126 then Rejected
      else StringChecks(LiteralState, NoAction, c, utf8Bytes, false)
    case StringState =>
      StringChecks(StringState, NoAction, c, utf8Bytes, false)
    case EscapeState =>
      if IsEscapeLetter(c) then Lexed(StringState, NoAction, utf8Bytes, false) else Rejected
    case Utf8State =>
      if c < 128 || c > 191 then Rejected
      else Lexed(if utf8Bytes - 1 == 0 then StringState else Utf8State, NoAction, utf8Bytes - 1, false)
  }

  /**
   * The scanner's variables: the lexer state, the position of the next byte,
   * the start of the key being read (k), the index still to skip, the
   * nesting depth, the pending UTF-8 bytes and the start of the value found.
   */
  datatype Scanner = Scanner(state: LexState, pos: nat, k: Option<nat>, index: int, depth: int, utf8Bytes: int, value: Option<nat>)

  /** The pointers lie before the next byte, and a literal has at least one byte behind it. */
  predicate WellFormed(s: seq<byte>, m: Scanner) {
    && m.pos <= |s|
    && (m.k.Some? ==> m.k.value < m.pos)
    && (m.value.Some? ==> m.value.value < m.pos)
    && (m.state == LiteralState ==> m.pos >= 1)
  }

  /** One iteration: fail, report the value found (its start and size), or go on. */
  datatype StepResult = Fail | Found(start: nat, size: nat) | Next(next: Scanner)

  /**
   * One iteration of json_parse_c's loop. At depth 1 a value or structure
   * that starts is the value sought when the index has reached 0, the key
   * when a key is sought and the index is 1, and otherwise counts down the
   * index; one that ends completes the value found, or compares the key just
   * read with the one sought (index 0 on a match, 2 otherwise).
   */
  function Step(s: seq<byte>, key: seq<byte>, m: Scanner): (r: StepResult)
    requires WellFormed(s, m) && m.pos < |s|
    ensures r.Found? ==> 1 <= r.size && r.start + r.size <= |s|
    ensures r.Next? ==> WellFormed(s, r.next)
    ensures r.Next? ==> r.next.pos == m.pos + 1 || (r.next.pos == m.pos && m.state == LiteralState && r.next.state == ValueState)
  {
    match Lex(m.state, s[m.pos], m.utf8Bytes)
    case Rejected => Fail
    case Lexed(state, action, utf8Bytes, reread) =>
      var at := if reread then m.pos - 1 else m.pos;
      var depth := if action == EndStruct then m.depth - 1 else m.depth;
      var next := Scanner(state, if reread then m.pos else m.pos + 1, m.k, m.index, depth, utf8Bytes, m.value);
      if depth == 1 && (action == StartValue || action == StartStruct) then
        var next :=
          if m.index == 0 then next.(value := Some(at))
          else if |key| > 0 && m.index == 1 then next.(k := Some(at))
          else next.(index := m.index - 1);
        Next(if action == StartStruct then next.(depth := depth + 1) else next)
      else if depth == 1 && (action == EndValue || action == EndStruct) then
        if m.value.Some? && m.index == 0 then Found(m.value.value, at + 1 - m.value.value)
        else if |key| > 0 && m.k.Some? then
          var matched := |key| == at - m.k.value - 1 && s[m.k.value + 1..at] == key;
          Next(next.(index := if matched then 0 else 2, k := None))
        else Next(next)
      else Next(if action == StartStruct then next.(depth := depth + 1) else next)
  }

  /** What json_parse_c reports: 0 or -1, and the start and size of the value. */
  datatype ParseResult = ParseResult(code: int, value: Option<nat>, size: nat)

  /** A well-formed result: on 0 the value lies inside the text; on -1 its size is 0. */
  predicate InText(s: seq<byte>, r: ParseResult) {
    && (r.code == 0 || r.code == -1)
    && (r.value.Some? ==> r.value.value < |s|)
    && (r.code == 0 ==> r.value.Some? && 1 <= r.size && r.value.value + r.size <= |s|)
    && (r.code == -1 ==> r.size == 0)
  }

  /** The loop from a given scanner to the end of the text. */
  function Run(s: seq<byte>, key: seq<byte>, m: Scanner): (r: ParseResult)
    requires WellFormed(s, m)
    ensures InText(s, r)
    decreases |s| - m.pos, if m.state == LiteralState then 1 else 0
  {
    if m.pos == |s| then ParseResult(-1, m.value, 0)
    else
      match Step(s, key, m)
      case Fail => ParseResult(-1, m.value, 0)
      case Found(start, size) => ParseResult(0, Some(start), size)
      case Next(next) => Run(s, key, next)
  }

  /** The scanner before the first byte; without a key, the index to look up is given instead. */
  function Initial(key: Option<seq<byte>>, index: int): Scanner {
    Scanner(ValueState, 0, None, if key.Some? then 1 else index, 0, 0, None)
  }

  /** The key's bytes; a null key has size 0. */
  function KeyBytes(key: Option<seq<byte>>): seq<byte> {
    if key.Some? then key.value else []
  }

  /** json_parse_c: the value under `key`, or at `index` when there is no key. */
  function ScanValue(s: seq<byte>, key: Option<seq<byte>>, index: int): (r: ParseResult)
    ensures InText(s, r)
  {
    Run(s, KeyBytes(key), Initial(key, index))
  }

  /** At the end of the text the scan fails, keeping the value it may have started. */
  lemma EndOfInputFails(s: seq<byte>, key: seq<byte>, m: Scanner)
    requires WellFormed(s, m) && m.pos == |s|
    ensures Run(s, key, m) == ParseResult(-1, m.value, 0)
  {
  }

  /** Between values, a byte that cannot start or separate a value fails the scan. */
  lemma RejectedBetweenValues(s: seq<byte>, key: seq<byte>, m: Scanner)
    requires WellFormed(s, m) && m.pos < |s| && m.state == ValueState
    requires var c := s[m.pos]; !(IsWhitespace(c) || c == COMMA || c == COLON || c == QUOTE || c == 123 || c == 91 || c == 125 || c == 93 || StartsLiteral(c))
    ensures Run(s, key, m) == ParseResult(-1, m.value, 0)
  {
  }

  /** A literal ended by a tab, a line feed or a carriage return fails the scan. */
  lemma LiteralEndedByControlFails(s: seq<byte>, key: seq<byte>, m: Scanner)
    requires WellFormed(s, m) && m.pos < |s| && m.state == LiteralState
    requires s[m.pos] == 9 || s[m.pos] == 10 || s[m.pos] == 13
    ensures Run(s, key, m) == ParseResult(-1, m.value, 0)
  {
  }

  /** Empty text gives -1 and no value. */
  lemma EmptyTextFails(key: Option<seq<byte>>, index: int)
    ensures ScanValue([], key, index) == ParseResult(-1, None, 0)
  {
  }

  /** The method's loop: json_parse_c with its variables. */
  method JsonParseC(s: seq<byte>, key: Option<seq<byte>>, index: int) returns (r: int, value: Option<nat>, valueSize: nat)
    ensures ParseResult(r, value, valueSize) == ScanValue(s, key, index)
  {
    var state := ValueState;
    var k: Option<nat> := None;
    var idx := 1;
    var depth := 0;
    var utf8Bytes := 0;
    var keyBytes: seq<byte> := [];
    if key.None? {
      idx := index;
    } else {
      keyBytes := key.value;
    }
    value, valueSize := None, 0;
    var pos := 0;
    while pos < |s|
      invariant WellFormed(s, Scanner(state, pos, k, idx, depth, utf8Bytes, value))
      invariant Run(s, keyBytes, Scanner(state, pos, k, idx, depth, utf8Bytes, value)) == ScanValue(s, key, index)
      decreases |s| - pos, if state == LiteralState then 1 else 0
    {
      var step := ScanByte(s, keyBytes, Scanner(state, pos, k, idx, depth, utf8Bytes, value));
      match step
      case Fail =>
        return -1, value, 0;
      case Found(start, size) =>
        return 0, Some(start), size;
      case Next(m) =>
        state, pos, k, idx, depth, utf8Bytes, value := m.state, m.pos, m.k, m.index, m.depth, m.utf8Bytes, m.value;
    }
    return -1, value, 0;
  }

  /** The body of json_parse_c's loop, on the byte at the scanner's position. */
  method ScanByte(s: seq<byte>, key: seq<byte>, m: Scanner) returns (r: StepResult)
    requires WellFormed(s, m) && m.pos < |s|
    ensures r == Step(s, key, m)
  {
    var Scanner(state, pos, k, idx, depth, utf8Bytes, value) := m;
    var lexed := Lex(state, s[pos], utf8Bytes);
    if lexed.Rejected? {
      return Fail;
    }
    var action := lexed.action;
    var at := if lexed.reread then pos - 1 else pos;
    state, utf8Bytes := lexed.state, lexed.utf8Bytes;
    if action == EndStruct {
      depth := depth - 1;
    }
    if depth == 1 {
      if action == StartValue || action == StartStruct {
        if idx == 0 {
          value := Some(at);
        } else if |key| > 0 && idx == 1 {
          k := Some(at);
        } else {
          idx := idx - 1;
        }
      } else if action == EndValue || action == EndStruct {
        if value.Some? && idx == 0 {
          return Found(value.value, at + 1 - value.value);
        } else if |key| > 0 && k.Some? {
          if |key| == at - k.value - 1 && s[k.value + 1..at] == key {
            idx := 0;
          } else {
            idx := 2;
          }
          k := None;
        }
      }
    }
    if action == StartStruct {
      depth := depth + 1;
    }
    if !lexed.reread {
      pos := pos + 1;
    }
    r := Next(Scanner(state, pos, k, idx, depth, utf8Bytes, value));
  }

  /** The byte a backslash escape stands for; \u and every other letter are not decoded. */
  function EscapedByte(c: byte): Option<byte> {
    if c == 98 then Some(8)              // \b
    else if c == 102 then Some(12)       // \f
    else if c == 110 then Some(10)       // \n
    else if c == 114 then Some(13)       // \r
    else if c == 116 then Some(9)        // \t
    else if c == BACKSLASH then Some(BACKSLASH)
    else if c == 47 then Some(47)        // \/
    else if c == QUOTE then Some(QUOTE)
    else None
  }

  /** What json_unescape writes out, and whether it succeeds (a count) or fails (-1). */
  datatype Decoded = Decoded(bytes: seq<byte>, ok: bool)

  function Prepend(c: byte, d: Decoded): Decoded {
    Decoded([c] + d.bytes, d.ok)
  }

  /**
   * The loop of json_unescape from position i with n bytes left: while more
   * than two remain, a byte is copied or a backslash and its letter are
   * decoded; then the byte reached must be the closing quote.
   */
  function UnescapeFrom(m: seq<byte>, i: nat, n: int): (r: Decoded)
    requires i < |m| && i + n <= |m|
    ensures |r.bytes| <= if n > 2 then n - 2 else 0
    decreases n
  {
    if n > 2 then
      if m[i] == BACKSLASH then
        match EscapedByte(m[i + 1])
        case None => Decoded([], false)
        case Some(c) => Prepend(c, UnescapeFrom(m, i + 2, n - 2))
      else Prepend(m[i], UnescapeFrom(m, i + 1, n - 1))
    else Decoded([], m[i] == QUOTE)
  }

  /**
   * json_unescape on the memory `m` from the value's first byte, with `n`
   * its size: the memory must hold the n bytes and the one after them (the
   * text's terminating NUL at the latest).
   */
  function Unescape(m: seq<byte>, n: int): (r: Decoded)
    requires 2 <= |m| && n < |m|
    ensures m[0] != QUOTE ==> r == Decoded([], false)
  {
    if m[0] != QUOTE then Decoded([], false) else UnescapeFrom(m, 1, n)
  }

  /** json_unescape's return value: the number of bytes decoded, or -1. */
  function UnescapeCount(d: Decoded): int {
    if d.ok then |d.bytes| else -1
  }

  /** The count is at most n - 2, and -1 when the opening quote is missing. */
  lemma UnescapeCountBound(m: seq<byte>, n: int)
    requires 2 <= |m| && n < |m|
    ensures UnescapeCount(Unescape(m, n)) <= if n > 2 then n - 2 else 0
    ensures m[0] != QUOTE ==> UnescapeCount(Unescape(m, n)) == -1
  {
  }

  /**
   * Without backslashes, the bytes between the quotes are copied, and the
   * call succeeds exactly when the last of the n bytes is a quote.
   */
  lemma {:induction false} UnescapePlain(m: seq<byte>, i: nat, n: int)
    requires 2 <= n && i + n <= |m|
    requires forall j | i <= j < i + n - 2 :: m[j] != BACKSLASH
    ensures UnescapeFrom(m, i, n) == Decoded(m[i..i + n - 2], m[i + n - 2] == QUOTE)
    decreases n
  {
    if n > 2 {
      UnescapePlain(m, i + 1, n - 1);
      assert m[i..i + n - 2] == [m[i]] + m[i + 1..i + n - 2];
    }
  }

  /** An escape that is not decoded (\u among them) makes the call fail. */
  lemma {:induction false} UnknownEscapeFails(m: seq<byte>, i: nat, n: int, j: nat)
    requires i < |m| && i + n <= |m|
    requires i <= j < i + n - 2 && m[j] == BACKSLASH && EscapedByte(m[j + 1]).None?
    requires forall l | i <= l < j :: m[l] != BACKSLASH
    ensures !UnescapeFrom(m, i, n).ok
    decreases n
  {
    if i < j {
      UnknownEscapeFails(m, i + 1, n - 1, j);
    }
  }

  lemma UnescapeMore(written: seq<byte>, c: byte, rest: seq<byte>)
    ensures written + ([c] + rest) == (written + [c]) + rest
  {
  }

  /** json_escape: the text between double quotes; nothing inside is escaped. */
  function JsonEscape(s: seq<byte>): (r: seq<byte>)
    ensures |r| == |s| + 2 && r[0] == QUOTE && r[|r| - 1] == QUOTE && r[1..|r| - 1] == s
  {
    [QUOTE] + s + [QUOTE]
  }

  /**
   * Unescaping what json_escape made gives the text back, as long as the
   * text holds no backslash (quotes inside it are copied through).
   */
  lemma EscapeRoundTrip(s: seq<byte>, after: byte)
    requires forall j | 0 <= j < |s| :: s[j] != BACKSLASH
    ensures var e := JsonEscape(s);
      Unescape(e + [after], |e|) == Decoded(s, true)
  {
    var e := JsonEscape(s);
    var m := e + [after];
    assert forall j | 1 <= j < 1 + |s| :: m[j] == s[j - 1];
    UnescapePlain(m, 1, |e|);
    assert m[1..1 + |s|] == s;
  }

  /**
   * json_unescape with an output buffer or without one (null): both give the
   * same count, and the buffer receives the decoded bytes and a NUL after
   * them. The buffer must hold every byte written.
   */
  method JsonUnescape(m: seq<byte>, n: int, out: array?<byte>) returns (r: int)
    requires 2 <= |m| && n < |m|
    requires out != null ==> out.Length >= |Unescape(m, n).bytes| + (if Unescape(m, n).ok then 1 else 0)
    modifies out
    ensures r == UnescapeCount(Unescape(m, n))
    ensures out != null ==> out[..|Unescape(m, n).bytes|] == Unescape(m, n).bytes
    ensures out != null && r >= 0 ==> out[r] == 0
  {
    ghost var total := Unescape(m, n);
    if m[0] != QUOTE {
      return -1;
    }
    var i, left := 1, n;
    var count := 0;
    ghost var written: seq<byte> := [];
    while left > 2
      invariant 1 <= i < |m| && i + left == 1 + n
      invariant total.bytes == written + UnescapeFrom(m, i, left).bytes && total.ok == UnescapeFrom(m, i, left).ok
      invariant count == |written|
      invariant out != null ==> out[..count] == written
      decreases left
    {
      var c, width := DecodeAt(m, i);
      if c.None? {
        return -1;
      }
      UnescapeMore(written, c.value, UnescapeFrom(m, i + width, left - width).bytes);
      if out != null {
        out[count] := c.value;
        assert out[..count + 1] == out[..count] + [c.value];
      }
      written := written + [c.value];
      i, left := i + width, left - width;
      count := count + 1;
    }
    if m[i] != QUOTE {
      return -1;
    }
    if out != null {
      out[count] := 0;
    }
    r := count;
  }

  /**
   * One byte of the loop: a backslash and its letter are read together and
   * decoded (nothing when the letter is unknown); any other byte stands for itself.
   */
  method DecodeAt(m: seq<byte>, i: nat) returns (c: Option<byte>, width: nat)
    requires i + 1 < |m|
    ensures m[i] == BACKSLASH ==> c == EscapedByte(m[i + 1]) && width == 2
    ensures m[i] != BACKSLASH ==> c == Some(m[i]) && width == 1
  {
    c, width := Some(m[i]), 1;
    if m[i] == BACKSLASH {
      c, width := EscapedByte(m[i + 1]), 2;
    }
  }

  /** The memory json_unescape reads for a value at v: the rest of the text and its terminating NUL. */
  function Memory(s: seq<byte>, v: nat): (m: seq<byte>)
    requires v < |s|
    ensures |m| == |s| - v + 1 && m[0] == s[v] && m[..|s| - v] == s[v..]
  {
    s[v..] + [0]
  }

  /**
   * json_parse: with an empty key the value at `index`, otherwise the value
   * under `key`. A string is unescaped and anything else returned verbatim;
   * nothing found, or a string that does not decode to at least one byte,
   * gives the empty string.
   */
  function ParsedValue(s: seq<byte>, key: seq<byte>, index: int): seq<byte> {
    var r := if |key| == 0 then ScanValue(s, None, index) else ScanValue(s, Some(key), 0);
    if r.value.None? then []
    else
      var v := r.value.value;
      if s[v] != QUOTE then s[v..v + r.size]
      else
        var d := Unescape(Memory(s, v), r.size);
        if UnescapeCount(d) > 0 then d.bytes else []
  }

  /** A value found as a string of plain bytes parses to the bytes between its quotes. */
  lemma ParsedPlainString(s: seq<byte>, key: seq<byte>, index: int, v: nat, size: nat)
    requires (if |key| == 0 then ScanValue(s, None, index) else ScanValue(s, Some(key), 0)) == ParseResult(0, Some(v), size)
    requires 2 <= size && PlainString(s, v, v + size - 1)
    ensures ParsedValue(s, key, index) == s[v + 1..v + size - 1]
  {
    var m := Memory(s, v);
    assert forall j | 1 <= j < size - 1 :: m[j] == s[v + j] && IsPlain(s[v + j]);
    UnescapePlain(m, 1, size);
    assert m[1..size - 1] == s[v + 1..v + size - 1];
  }

  /** json_parse: one scan, then a counting call and a decoding call of json_unescape. */
  method JsonParse(s: seq<byte>, key: seq<byte>, index: int) returns (result: seq<byte>)
    ensures result == ParsedValue(s, key, index)
  {
    var code, value, valueSize;
    if |key| == 0 {
      code, value, valueSize := JsonParseC(s, None, index);
    } else {
      code, value, valueSize := JsonParseC(s, Some(key), 0);
    }
    if value.Some? {
      var v := value.value;
      if s[v] != QUOTE {
        return s[v..v + valueSize];
      }
      var n := JsonUnescape(Memory(s, v), valueSize, null);
      if n > 0 {
        var decoded := new byte[n + 1];
        var _ := JsonUnescape(Memory(s, v), valueSize, decoded);
        return decoded[..n];
      }
    }
    return [];
  }

  /** A byte that stands for itself inside a string: printable ASCII other than '"' and '\\'. */
  predicate IsPlain(c: byte) {
    32 <= c <= 126 && c != QUOTE && c != BACKSLASH
  }

  /** Inside a string, plain bytes are passed over without any other change. */
  lemma {:induction false} SkipStringBody(s: seq<byte>, key: seq<byte>, m: Scanner, q: nat)
    requires WellFormed(s, m) && m.state == StringState && m.pos <= q <= |s|
    requires forall j | m.pos <= j < q :: IsPlain(s[j])
    ensures Run(s, key, m) == Run(s, key, m.(pos := q))
    decreases q - m.pos
  {
    if m.pos < q {
      assert Step(s, key, m) == Next(m.(pos := m.pos + 1));
      SkipStringBody(s, key, m.(pos := m.pos + 1), q);
    }
  }

  /** Without a key, a negative index never reaches 0: nothing is found. */
  lemma {:induction false} NegativeIndexFindsNothing(s: seq<byte>, m: Scanner)
    requires WellFormed(s, m) && m.index < 0 && m.value.None? && m.k.None?
    ensures Run(s, [], m).value.None?
    decreases |s| - m.pos, if m.state == LiteralState then 1 else 0
  {
    if m.pos < |s| {
      match Step(s, [], m)
      case Fail =>
      case Found(_, _) =>
      case Next(next) =>
        NegativeIndexFindsNothing(s, next);
    }
  }

  /** json_parse with an empty key and a negative index gives the empty string, whatever the text. */
  lemma NegativeIndexGivesEmpty(s: seq<byte>, index: int)
    requires index < 0
    ensures ParsedValue(s, [], index) == []
  {
    NegativeIndexFindsNothing(s, Initial(None, index));
  }

  /** Empty text gives the empty string. */
  lemma EmptyTextGivesEmpty(key: seq<byte>, index: int)
    ensures ParsedValue([], key, index) == []
  {
  }

  /** Between values, whitespace, ',' and ':' are passed over. */
  lemma SeparatorSkipped(s: seq<byte>, key: seq<byte>, m: Scanner)
    requires WellFormed(s, m) && m.pos < |s| && m.state == ValueState
    requires IsWhitespace(s[m.pos]) || s[m.pos] == COMMA || s[m.pos] == COLON
    ensures Run(s, key, m) == Run(s, key, m.(pos := m.pos + 1))
  {
    assert Step(s, key, m) == Next(m.(pos := m.pos + 1));
  }

  /** The outermost '{' or '[' enters depth 1. */
  lemma OuterOpened(s: seq<byte>, key: seq<byte>, m: Scanner)
    requires WellFormed(s, m) && m.pos < |s| && m.state == ValueState && m.depth == 0
    requires s[m.pos] == 123 || s[m.pos] == 91
    ensures Run(s, key, m) == Run(s, key, m.(pos := m.pos + 1, depth := 1))
  {
    assert Step(s, key, m) == Next(m.(pos := m.pos + 1, depth := 1));
  }

  /** The outermost '}' or ']' leaves depth 1 without reporting anything. */
  lemma OuterClosed(s: seq<byte>, key: seq<byte>, m: Scanner)
    requires WellFormed(s, m) && m.pos < |s| && m.state == ValueState && m.depth == 1
    requires s[m.pos] == 125 || s[m.pos] == 93
    ensures Run(s, key, m) == Run(s, key, m.(pos := m.pos + 1, depth := 0))
  {
    assert Step(s, key, m) == Next(m.(pos := m.pos + 1, depth := 0));
  }

  /** A string of plain bytes: an opening quote at p, a closing one at q. */
  predicate PlainString(s: seq<byte>, p: nat, q: nat) {
    p < q < |s| && s[p] == QUOTE && s[q] == QUOTE && forall j | p < j < q :: IsPlain(s[j])
  }

  /** The scanner just inside a string that starts at its position. */
  lemma StringOpened(s: seq<byte>, key: seq<byte>, m: Scanner, q: nat, inside: Scanner)
    requires WellFormed(s, m) && m.state == ValueState && m.depth == 1 && PlainString(s, m.pos, q)
    requires Step(s, key, m) == Next(inside)
    ensures inside.state == StringState && inside.pos == m.pos + 1
    ensures Run(s, key, m) == Run(s, key, inside.(pos := q))
  {
    SkipStringBody(s, key, inside, q);
  }

  /** At depth 1 with the index at 0, a string is the value found: its quotes included. */
  lemma StringValueFound(s: seq<byte>, key: seq<byte>, m: Scanner, q: nat)
    requires WellFormed(s, m) && m.state == ValueState && m.depth == 1 && m.index == 0 && PlainString(s, m.pos, q)
    ensures Run(s, key, m) == ParseResult(0, Some(m.pos), q + 1 - m.pos)
  {
    var inside := m.(state := StringState, pos := m.pos + 1, value := Some(m.pos));
    assert Step(s, key, m) == Next(inside);
    StringOpened(s, key, m, q, inside);
    assert Step(s, key, inside.(pos := q)) == Found(m.pos, q + 1 - m.pos);
  }

  /**
   * At depth 1 with index 1 and a key sought, a string is read as a key: the
   * index becomes 0 when it equals the key sought, and 2 otherwise.
   */
  lemma StringKeyRead(s: seq<byte>, key: seq<byte>, m: Scanner, q: nat)
    requires WellFormed(s, m) && m.state == ValueState && m.depth == 1 && m.index == 1 && |key| > 0
    requires PlainString(s, m.pos, q)
    ensures Run(s, key, m) == Run(s, key, m.(pos := q + 1, index := if s[m.pos + 1..q] == key then 0 else 2, k := None))
  {
    var inside := m.(state := StringState, pos := m.pos + 1, k := Some(m.pos));
    assert Step(s, key, m) == Next(inside);
    StringOpened(s, key, m, q, inside);
    assert |key| == q - m.pos - 1 && s[m.pos + 1..q] == key <==> s[m.pos + 1..q] == key;
    assert Step(s, key, inside.(pos := q)) == Next(m.(pos := q + 1, index := if s[m.pos + 1..q] == key then 0 else 2, k := None));
  }

  /** At depth 1 with no key sought and no value found, a string counts the index down. */
  lemma StringSkipped(s: seq<byte>, m: Scanner, q: nat)
    requires WellFormed(s, m) && m.state == ValueState && m.depth == 1 && m.index != 0 && m.value.None? && m.k.None?
    requires PlainString(s, m.pos, q)
    ensures Run(s, [], m) == Run(s, [], m.(pos := q + 1, index := m.index - 1))
  {
    var inside := m.(state := StringState, pos := m.pos + 1, index := m.index - 1);
    assert Step(s, [], m) == Next(inside);
    StringOpened(s, [], m, q, inside);
    assert Step(s, [], inside.(pos := q)) == Next(m.(pos := q + 1, index := m.index - 1));
  }

  /** Below depth 1, a plain string changes nothing but the position. */
  lemma InnerStringSkipped(s: seq<byte>, key: seq<byte>, m: Scanner, q: nat)
    requires WellFormed(s, m) && m.state == ValueState && m.depth >= 2 && PlainString(s, m.pos, q)
    ensures Run(s, key, m) == Run(s, key, m.(pos := q + 1))
  {
    var inside := m.(state := StringState, pos := m.pos + 1);
    assert Step(s, key, m) == Next(inside);
    SkipStringBody(s, key, inside, q);
    assert Step(s, key, inside.(pos := q)) == Next(m.(pos := q + 1));
  }

  /** A byte that may continue a literal: printable ASCII that is not a delimiter, '"' or '\\'. */
  predicate IsLiteralByte(c: byte) {
    IsPlain(c) && !EndsLiteral(c)
  }

  /** Inside a literal, its bytes are passed over. */
  lemma {:induction false} SkipLiteralBody(s: seq<byte>, key: seq<byte>, m: Scanner, q: nat)
    requires WellFormed(s, m) && m.state == LiteralState && m.pos <= q <= |s|
    requires forall j | m.pos <= j < q :: IsLiteralByte(s[j])
    ensures Run(s, key, m) == Run(s, key, m.(pos := q))
    decreases q - m.pos
  {
    if m.pos < q {
      assert Step(s, key, m) == Next(m.(pos := m.pos + 1));
      SkipLiteralBody(s, key, m.(pos := m.pos + 1), q);
    }
  }

  /**
   * Below depth 1, a literal from p up to a delimiter at q (other than a tab
   * or a line break) changes nothing but the position: the delimiter is then
   * read again between values.
   */
  lemma InnerLiteralSkipped(s: seq<byte>, key: seq<byte>, m: Scanner, q: nat)
    requires WellFormed(s, m) && m.state == ValueState && m.depth >= 2 && m.pos < q < |s|
    requires StartsLiteral(s[m.pos]) && forall j | m.pos < j < q :: IsLiteralByte(s[j])
    requires EndsLiteral(s[q]) && s[q] >= 32
    ensures Run(s, key, m) == Run(s, key, m.(pos := q))
  {
    var inside := m.(state := LiteralState, pos := m.pos + 1);
    assert Step(s, key, m) == Next(inside);
    SkipLiteralBody(s, key, inside, q);
    assert Step(s, key, inside.(pos := q)) == Next(m.(pos := q));
  }

  /** At depth 1 with the index at 0, an object or array starts the value found and enters depth 2. */
  lemma StructValueStarts(s: seq<byte>, key: seq<byte>, m: Scanner)
    requires WellFormed(s, m) && m.pos < |s| && m.state == ValueState && m.depth == 1 && m.index == 0
    requires s[m.pos] == 123 || s[m.pos] == 91
    ensures Run(s, key, m) == Run(s, key, m.(pos := m.pos + 1, depth := 2, value := Some(m.pos)))
  {
    assert Step(s, key, m) == Next(m.(pos := m.pos + 1, depth := 2, value := Some(m.pos)));
  }

  /** Back at depth 1, the '}' or ']' that closes the value found completes it, brackets included. */
  lemma StructValueEnds(s: seq<byte>, key: seq<byte>, m: Scanner)
    requires WellFormed(s, m) && m.pos < |s| && m.state == ValueState && m.depth == 2 && m.index == 0 && m.value.Some?
    requires s[m.pos] == 125 || s[m.pos] == 93
    ensures Run(s, key, m) == ParseResult(0, m.value, m.pos + 1 - m.value.value)
  {
    assert Step(s, key, m) == Found(m.value.value, m.pos + 1 - m.value.value);
  }

  /** The key "foo". */
  const Foo: seq<byte> := [102, 111, 111]

  /** The text {"foo":"bar"}. */
  const FooBarObject: seq<byte> := [123, 34, 102, 111, 111, 34, 58, 34, 98, 97, 114, 34, 125]

  /** The bytes of {"foo":"bar"}, one by one. */
  lemma FooBarBytes(s: seq<byte>)
    requires s == FooBarObject
    ensures |s| == 13 && s[0] == 123 && s[1] == QUOTE && s[5] == QUOTE && s[6] == COLON && s[7] == QUOTE && s[11] == QUOTE
    ensures s[2..5] == Foo && IsPlain(s[2]) && IsPlain(s[3]) && IsPlain(s[4]) && IsPlain(s[8]) && IsPlain(s[9]) && IsPlain(s[10])
    ensures s[8..11] == [98, 97, 114]
  {
  }

  /** The scan finds the quoted "bar", five bytes from position 7. */
  lemma ScanObjectMember(s: seq<byte>, key: seq<byte>)
    requires s == FooBarObject && key == Foo
    ensures ScanValue(s, Some(key), 0) == ParseResult(0, Some(7), 5)
  {
    FooBarBytes(s);
    var m := Initial(Some(key), 0);
    OuterOpened(s, key, m);
    var m1 := m.(pos := 1, depth := 1);
    StringKeyRead(s, key, m1, 5);
    var m6 := m1.(pos := 6, index := 0, k := None);
    SeparatorSkipped(s, key, m6);
    StringValueFound(s, key, m6.(pos := 7), 11);
  }

  /** {"foo":"bar"} has "bar" under "foo". */
  lemma ParseObjectMember(s: seq<byte>, key: seq<byte>)
    requires s == FooBarObject && key == Foo
    ensures ParsedValue(s, key, -1) == [98, 97, 114]
  {
    ScanObjectMember(s, key);
    FooBarBytes(s);
    assert PlainString(s, 7, 11);
    ParsedPlainString(s, key, -1, 7, 5);
  }

  /** The text ["foo", "bar", "baz"]. */
  const FooBarBazArray: seq<byte> := [91, 34, 102, 111, 111, 34, 44, 32, 34, 98, 97, 114, 34, 44, 32, 34, 98, 97, 122, 34, 93]

  /** The bytes of ["foo", "bar", "baz"], one by one. */
  lemma FooBarBazBytes(s: seq<byte>)
    requires s == FooBarBazArray
    ensures |s| == 21 && s[0] == 91 && s[6] == COMMA && s[7] == 32 && s[13] == COMMA && s[14] == 32
    ensures PlainString(s, 1, 5) && PlainString(s, 8, 12) && PlainString(s, 15, 19)
    ensures s[16..19] == [98, 97, 122]
  {
  }

  /** Index 2 of ["foo", "bar", "baz"] is the quoted "baz", five bytes from position 15. */
  lemma ScanArrayElement(s: seq<byte>)
    requires s == FooBarBazArray
    ensures ScanValue(s, None, 2) == ParseResult(0, Some(15), 5)
  {
    FooBarBazBytes(s);
    var m := Initial(None, 2);
    OuterOpened(s, [], m);
    var m1 := m.(pos := 1, depth := 1);
    StringSkipped(s, m1, 5);
    var m6 := m1.(pos := 6, index := 1);
    SeparatorSkipped(s, [], m6);
    SeparatorSkipped(s, [], m6.(pos := 7));
    StringSkipped(s, m6.(pos := 8), 12);
    var m13 := m6.(pos := 13, index := 0);
    SeparatorSkipped(s, [], m13);
    SeparatorSkipped(s, [], m13.(pos := 14));
    StringValueFound(s, [], m13.(pos := 15), 19);
  }

  /** json_parse gives "baz" for index 2 of ["foo", "bar", "baz"]. */
  lemma ParseArrayElement(s: seq<byte>)
    requires s == FooBarBazArray
    ensures ParsedValue(s, [], 2) == [98, 97, 122]
  {
    ScanArrayElement(s);
    FooBarBazBytes(s);
    ParsedPlainString(s, [], 2, 15, 5);
  }

  /** The text {"foo": {"bar": 1}}. */
  const NestedObject: seq<byte> := [123, 34, 102, 111, 111, 34, 58, 32, 123, 34, 98, 97, 114, 34, 58, 32, 49, 125, 125]

  /** The bytes of {"foo": {"bar": 1}}, one by one. */
  lemma NestedObjectBytes(s: seq<byte>)
    requires s == NestedObject
    ensures |s| == 19 && s[0] == 123 && s[6] == COLON && s[7] == 32 && s[8] == 123 && s[14] == COLON && s[15] == 32
    ensures s[16] == 49 && s[17] == 125 && s[2..5] == Foo
    ensures PlainString(s, 1, 5) && PlainString(s, 9, 13)
  {
  }

  /** The inner object of {"foo": {"bar": 1}}, bytes 8 to 17. */
  lemma NestedInnerObject(s: seq<byte>)
    requires s == NestedObject
    ensures s[8..18] == [123, 34, 98, 97, 114, 34, 58, 32, 49, 125]
  {
  }

  /** Under "foo" of {"foo": {"bar": 1}} the scan finds the inner object, ten bytes from position 8. */
  lemma ScanNestedObject(s: seq<byte>, key: seq<byte>)
    requires s == NestedObject && key == Foo
    ensures ScanValue(s, Some(key), 0) == ParseResult(0, Some(8), 10)
  {
    NestedObjectBytes(s);
    var m := Initial(Some(key), 0);
    OuterOpened(s, key, m);
    var m1 := m.(pos := 1, depth := 1);
    StringKeyRead(s, key, m1, 5);
    var m6 := m1.(pos := 6, index := 0, k := None);
    SeparatorSkipped(s, key, m6);
    SeparatorSkipped(s, key, m6.(pos := 7));
    StructValueStarts(s, key, m6.(pos := 8));
    var m9 := m6.(pos := 9, depth := 2, value := Some(8));
    InnerStringSkipped(s, key, m9, 13);
    SeparatorSkipped(s, key, m9.(pos := 14));
    SeparatorSkipped(s, key, m9.(pos := 15));
    InnerLiteralSkipped(s, key, m9.(pos := 16), 17);
    StructValueEnds(s, key, m9.(pos := 17));
  }

  /** json_parse returns the nested object {"bar": 1} verbatim. */
  lemma ParseNestedObject(s: seq<byte>, key: seq<byte>)
    requires s == NestedObject && key == Foo
    ensures ParsedValue(s, key, -1) == [123, 34, 98, 97, 114, 34, 58, 32, 49, 125]
  {
    ScanNestedObject(s, key);
    NestedObjectBytes(s);
    NestedInnerObject(s);
  }

  /** The text ["foo"]. */
  const FooArray: seq<byte> := [91, 34, 102, 111, 111, 34, 93]

  /** Index 1234 of ["foo"] is out of range: nothing is found. */
  lemma ScanIndexOutOfRange(s: seq<byte>)
    requires s == FooArray
    ensures ScanValue(s, None, 1234) == ParseResult(-1, None, 0)
  {
    assert |s| == 7 && s[0] == 91 && s[6] == 93 && PlainString(s, 1, 5);
    var m := Initial(None, 1234);
    OuterOpened(s, [], m);
    var m1 := m.(pos := 1, depth := 1);
    StringSkipped(s, m1, 5);
    OuterClosed(s, [], m1.(pos := 6, index := 1233));
  }

  /** json_parse gives the empty string for an index past the end. */
  lemma ParseIndexOutOfRange(s: seq<byte>)
    requires s == FooArray
    ensures ParsedValue(s, [], 1234) == []
  {
    ScanIndexOutOfRange(s);
  }
}

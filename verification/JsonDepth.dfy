/**
 * The nesting check that runs before a message is parsed
 * (internal/codec/jsonc/decoder.go, checkDepth), against the JSON grammar of
 * RFC 8259.
 *
 * The scanner knows nothing of the grammar: it counts brackets and toggles a
 * flag at quotes.  The grammar is given independently, as concrete syntax
 * trees together with the bytes each of them is written as.
 */
module JsonDepth {
  newtype byte = b: int | 0 <= b < 256
  type Bytes = seq<byte>

  const QUOTE: byte := 0x22
  const BACKSLASH: byte := 0x5C
  const COMMA: byte := 0x2C
  const COLON: byte := 0x3A
  const OPEN_BRACKET: byte := 0x5B
  const CLOSE_BRACKET: byte := 0x5D
  const OPEN_BRACE: byte := 0x7B
  const CLOSE_BRACE: byte := 0x7D
  const LETTER_U: byte := 0x75

  /******* The scanner *******/

  datatype Scan = Scan(depth: int, maxSeen: int, inStr: bool, esc: bool)

  const START: Scan := Scan(0, 0, false, false)

  predicate Opens(b: byte) { b == OPEN_BRACE || b == OPEN_BRACKET }

  predicate Closes(b: byte) { b == CLOSE_BRACE || b == CLOSE_BRACKET }

  /** One turn of the loop, without the early return. */
  function Step(s: Scan, b: byte): Scan
  {
    if s.esc then s.(esc := false)
    else if s.inStr && b == BACKSLASH then s.(esc := true)
    else if b == QUOTE then s.(inStr := !s.inStr)
    else if s.inStr then s
    else if Opens(b) then s.(depth := s.depth + 1, maxSeen := Max(s.maxSeen, s.depth + 1))
    else if Closes(b) then s.(depth := s.depth - 1)
    else s
  }

  function Max(a: int, b: int): int { if a > b then a else b }

  function ScanAll(s: Scan, text: Bytes): Scan
  {
    if text == [] then s else Step(ScanAll(s, text[..|text| - 1]), text[|text| - 1])
  }

  /** The largest number of brackets the scanner ever sees open at once. */
  function Peak(text: Bytes): int { ScanAll(START, text).maxSeen }

  lemma {:induction false} PeakMonotone(text: Bytes, i: nat)
    requires i <= |text|
    ensures ScanAll(START, text[..i]).maxSeen <= Peak(text)
    decreases |text| - i
  {
    if i < |text| {
      PeakMonotone(text, i + 1);
      assert text[..i + 1][..i] == text[..i];
    } else {
      assert text[..i] == text;
    }
  }

  /** The payload is a JSON text: white space, one valid value, white space. */
  ghost predicate IsText(payload: Bytes, before: Bytes, j: Json, after: Bytes)
  {
    AllSpace(before) && Valid(j) && AllSpace(after) && payload == before + Write(j) + after
  }

  /**
   * checkDepth.  Configuration admits positive limits only.  A JSON text is
   * accepted exactly when its value nests no deeper than the limit.
   */
  method CheckDepth(payload: Bytes, max: int) returns (ok: bool)
    ensures 0 <= max ==> (ok <==> Peak(payload) <= max)
    ensures 0 <= max ==> forall before, j, after :: IsText(payload, before, j, after) ==> (ok <==> Depth(j) <= max)
  {
    forall before, j, after | IsText(payload, before, j, after) ensures Peak(payload) == Depth(j) {
      PeakIsDepth(before, j, after);
    }
    var depth, maxSeen, inStr, esc := 0, 0, false, false;
    for i := 0 to |payload|
      invariant Scan(depth, maxSeen, inStr, esc) == ScanAll(START, payload[..i])
      invariant 0 <= max ==> maxSeen <= max
    {
      var b := payload[i];
      assert payload[..i + 1][..i] == payload[..i];
      PeakMonotone(payload, i + 1);
      if esc {
        esc := false;
      } else if inStr && b == BACKSLASH {
        esc := true;
      } else if b == QUOTE {
        inStr := !inStr;
      } else if inStr {
      } else if b == OPEN_BRACE || b == OPEN_BRACKET {
        depth := depth + 1;
        if depth > maxSeen { maxSeen := depth; }
        if maxSeen > max { return false; }
      } else if b == CLOSE_BRACE || b == CLOSE_BRACKET {
        depth := depth - 1;
      }
    }
    assert payload[..|payload|] == payload;
    return true;
  }

  /******* The grammar *******/

  /** One item of a string, section 7 of RFC 8259: a byte as it is, or an escape. */
  datatype StringItem = Plain(b: byte) | Escape(b: byte) | Unicode(h0: byte, h1: byte, h2: byte, h3: byte)

  /** A value as it is written.  `Items` is a non-empty run of elements or members. */
  datatype Json =
    | Scalar(token: Bytes)
    | Text(chars: seq<StringItem>)
    | EmptyArray(space: Bytes)
    | EmptyObject(space: Bytes)
    | Array(elements: Items)
    | Object(members: Items)

  datatype Name = Absent | Named(chars: seq<StringItem>, beforeColon: Bytes, afterColon: Bytes)

  datatype Items =
    | Last(before: Bytes, name: Name, value: Json, after: Bytes)
    | More(before: Bytes, name: Name, value: Json, after: Bytes, rest: Items)

  predicate IsSpace(b: byte) { b == 0x20 || b == 0x09 || b == 0x0A || b == 0x0D }

  predicate AllSpace(s: Bytes) { forall i :: 0 <= i < |s| ==> IsSpace(s[i]) }

  predicate IsDigit(b: byte) { 0x30 <= b <= 0x39 }

  predicate IsLetter(b: byte) { 0x41 <= b <= 0x5A || 0x61 <= b <= 0x7A }

  predicate IsHex(b: byte) { IsDigit(b) || 0x41 <= b <= 0x46 || 0x61 <= b <= 0x66 }

  /** The bytes of `null`, `true`, `false` and of numbers. */
  predicate TokenByte(b: byte) { IsDigit(b) || IsLetter(b) || b == 0x2B || b == 0x2D || b == 0x2E }

  predicate ValidItem(c: StringItem)
  {
    match c
    case Plain(b) => b >= 0x20 && b != QUOTE && b != BACKSLASH
    case Escape(b) => b in {QUOTE, BACKSLASH, 0x2F, 0x62, 0x66, 0x6E, 0x72, 0x74}
    case Unicode(h0, h1, h2, h3) => IsHex(h0) && IsHex(h1) && IsHex(h2) && IsHex(h3)
  }

  predicate ValidChars(chars: seq<StringItem>) { forall i :: 0 <= i < |chars| ==> ValidItem(chars[i]) }

  predicate ValidName(n: Name)
  {
    n.Named? ==> ValidChars(n.chars) && AllSpace(n.beforeColon) && AllSpace(n.afterColon)
  }

  /** Every value of RFC 8259 is written as a valid tree; scalars are admitted more liberally. */
  predicate Valid(j: Json)
  {
    match j
    case Scalar(token) => token != [] && forall i :: 0 <= i < |token| ==> TokenByte(token[i])
    case Text(chars) => ValidChars(chars)
    case EmptyArray(space) => AllSpace(space)
    case EmptyObject(space) => AllSpace(space)
    case Array(elements) => ValidItems(elements, false)
    case Object(members) => ValidItems(members, true)
  }

  predicate ValidItems(l: Items, named: bool)
  {
    && AllSpace(l.before) && AllSpace(l.after)
    && l.name.Named? == named && ValidName(l.name)
    && Valid(l.value)
    && (l.More? ==> ValidItems(l.rest, named))
  }

  function WriteItem(c: StringItem): Bytes
  {
    match c
    case Plain(b) => [b]
    case Escape(b) => [BACKSLASH, b]
    case Unicode(h0, h1, h2, h3) => [BACKSLASH, LETTER_U, h0, h1, h2, h3]
  }

  function WriteChars(chars: seq<StringItem>): Bytes
  {
    if chars == [] then [] else WriteChars(chars[..|chars| - 1]) + WriteItem(chars[|chars| - 1])
  }

  function WriteString(chars: seq<StringItem>): Bytes { [QUOTE] + WriteChars(chars) + [QUOTE] }

  function WriteName(n: Name): Bytes
  {
    match n
    case Absent => []
    case Named(chars, beforeColon, afterColon) => WriteString(chars) + (beforeColon + [COLON] + afterColon)
  }

  function Write(j: Json): Bytes
  {
    match j
    case Scalar(token) => token
    case Text(chars) => WriteString(chars)
    case EmptyArray(space) => [OPEN_BRACKET] + space + [CLOSE_BRACKET]
    case EmptyObject(space) => [OPEN_BRACE] + space + [CLOSE_BRACE]
    case Array(elements) => [OPEN_BRACKET] + WriteItems(elements) + [CLOSE_BRACKET]
    case Object(members) => [OPEN_BRACE] + WriteItems(members) + [CLOSE_BRACE]
  }

  function WriteItems(l: Items): Bytes
  {
    var first := l.before + WriteName(l.name) + Write(l.value) + l.after;
    match l
    case Last(_, _, _, _) => first
    case More(_, _, _, _, rest) => first + [COMMA] + WriteItems(rest)
  }

  /** How deep objects and arrays nest, by the tree. */
  function Depth(j: Json): nat
  {
    match j
    case Scalar(_) => 0
    case Text(_) => 0
    case EmptyArray(_) => 1
    case EmptyObject(_) => 1
    case Array(elements) => 1 + ItemsDepth(elements)
    case Object(members) => 1 + ItemsDepth(members)
  }

  function ItemsDepth(l: Items): nat
  {
    if l.Last? then Depth(l.value) else Max(Depth(l.value), ItemsDepth(l.rest))
  }

  /******* The scanner follows the grammar *******/

  lemma {:induction false} ScanConcat(s: Scan, a: Bytes, b: Bytes)
    ensures ScanAll(s, a + b) == ScanAll(ScanAll(s, a), b)
  {
    if b == [] {
      assert a + b == a;
    } else {
      ScanConcat(s, a, b[..|b| - 1]);
      assert (a + b)[..|a + b| - 1] == a + b[..|b| - 1];
    }
  }

  lemma {:induction false} ScanOne(s: Scan, b: byte)
    ensures ScanAll(s, [b]) == Step(s, b)
  {
  }

  /** Outside strings, bytes that are neither quotes nor brackets change nothing. */
  lemma {:induction false} ScanQuiet(s: Scan, text: Bytes)
    requires !s.inStr && !s.esc
    requires forall i :: 0 <= i < |text| ==> text[i] != QUOTE && !Opens(text[i]) && !Closes(text[i])
    ensures ScanAll(s, text) == s
  {
    if text != [] { ScanQuiet(s, text[..|text| - 1]); }
  }

  lemma {:induction false} ScanItem(s: Scan, c: StringItem)
    requires s.inStr && !s.esc && ValidItem(c)
    ensures ScanAll(s, WriteItem(c)) == s
  {
    match c
    case Plain(b) => ScanOne(s, b);
    case Escape(b) =>
      ScanConcat(s, [BACKSLASH], [b]);
      ScanOne(s, BACKSLASH);
      ScanOne(s.(esc := true), b);
      assert [BACKSLASH] + [b] == [BACKSLASH, b];
    case Unicode(h0, h1, h2, h3) =>
      ScanConcat(s, [BACKSLASH], [LETTER_U]);
      ScanOne(s, BACKSLASH);
      ScanOne(s.(esc := true), LETTER_U);
      ScanConcat(s, [BACKSLASH] + [LETTER_U], [h0, h1, h2, h3]);
      ScanHex(s, [h0, h1, h2, h3]);
      assert [BACKSLASH] + [LETTER_U] + [h0, h1, h2, h3] == WriteItem(c);
  }

  lemma {:induction false} ScanHex(s: Scan, digits: Bytes)
    requires s.inStr && !s.esc && forall i :: 0 <= i < |digits| ==> IsHex(digits[i])
    ensures ScanAll(s, digits) == s
  {
    if digits != [] { ScanHex(s, digits[..|digits| - 1]); }
  }

  lemma {:induction false} ScanChars(s: Scan, chars: seq<StringItem>)
    requires s.inStr && !s.esc && ValidChars(chars)
    ensures ScanAll(s, WriteChars(chars)) == s
  {
    if chars != [] {
      var front, last := chars[..|chars| - 1], chars[|chars| - 1];
      ScanChars(s, front);
      ScanConcat(s, WriteChars(front), WriteItem(last));
      ScanItem(s, last);
    }
  }

  lemma {:induction false} ScanString(s: Scan, chars: seq<StringItem>)
    requires !s.inStr && !s.esc && ValidChars(chars)
    ensures ScanAll(s, WriteString(chars)) == s
  {
    var inside := s.(inStr := true);
    ScanOne(s, QUOTE);
    ScanChars(inside, chars);
    ScanConcat(s, [QUOTE], WriteChars(chars));
    ScanOne(inside, QUOTE);
    ScanConcat(s, [QUOTE] + WriteChars(chars), [QUOTE]);
  }

  lemma {:induction false} ScanName(s: Scan, n: Name)
    requires !s.inStr && !s.esc && ValidName(n)
    ensures ScanAll(s, WriteName(n)) == s
  {
    if n.Named? {
      var colon := n.beforeColon + [COLON] + n.afterColon;
      ScanString(s, n.chars);
      ScanQuiet(s, colon);
      ScanConcat(s, WriteString(n.chars), colon);
    }
  }

  /** The scanner's state after a run of nesting depth n that started at depth d. */
  function After(s: Scan, n: int): Scan
  {
    s.(maxSeen := Max(s.maxSeen, s.depth + n))
  }

  lemma {:induction false} ScanBracketed(s: Scan, open: byte, body: Bytes, close: byte, n: nat)
    requires !s.inStr && !s.esc && Opens(open) && Closes(close)
    requires var s' := Step(s, open); ScanAll(s', body) == After(s', n)
    ensures ScanAll(s, [open] + body + [close]) == After(s, 1 + n)
  {
    ScanOne(s, open);
    ScanConcat(s, [open], body);
    var s' := ScanAll(s, [open] + body);
    ScanOne(s', close);
    ScanConcat(s, [open] + body, [close]);
  }

  lemma {:induction false} ScanJson(s: Scan, j: Json)
    requires !s.inStr && !s.esc && s.depth <= s.maxSeen && Valid(j)
    ensures ScanAll(s, Write(j)) == After(s, Depth(j))
    decreases j
  {
    match j
    case Scalar(token) => ScanQuiet(s, token);
    case Text(chars) => ScanString(s, chars);
    case EmptyArray(space) =>
      ScanQuiet(Step(s, OPEN_BRACKET), space);
      ScanBracketed(s, OPEN_BRACKET, space, CLOSE_BRACKET, 0);
    case EmptyObject(space) =>
      ScanQuiet(Step(s, OPEN_BRACE), space);
      ScanBracketed(s, OPEN_BRACE, space, CLOSE_BRACE, 0);
    case Array(elements) =>
      ScanItems(Step(s, OPEN_BRACKET), elements, false);
      ScanBracketed(s, OPEN_BRACKET, WriteItems(elements), CLOSE_BRACKET, ItemsDepth(elements));
    case Object(members) =>
      ScanItems(Step(s, OPEN_BRACE), members, true);
      ScanBracketed(s, OPEN_BRACE, WriteItems(members), CLOSE_BRACE, ItemsDepth(members));
  }

  lemma {:induction false} ScanItems(s: Scan, l: Items, named: bool)
    requires !s.inStr && !s.esc && s.depth <= s.maxSeen && ValidItems(l, named)
    ensures ScanAll(s, WriteItems(l)) == After(s, ItemsDepth(l))
    decreases l
  {
    var first := l.before + WriteName(l.name) + Write(l.value) + l.after;
    var s' := After(s, Depth(l.value));
    assert ScanAll(s, first) == s' by {
      ScanQuiet(s, l.before);
      ScanName(s, l.name);
      ScanConcat(s, l.before, WriteName(l.name));
      ScanJson(s, l.value);
      ScanConcat(s, l.before + WriteName(l.name), Write(l.value));
      ScanQuiet(s', l.after);
      ScanConcat(s, l.before + WriteName(l.name) + Write(l.value), l.after);
    }
    if l.More? {
      ScanQuiet(s', [COMMA]);
      ScanConcat(s, first, [COMMA]);
      ScanItems(s', l.rest, named);
      ScanConcat(s, first + [COMMA], WriteItems(l.rest));
    }
  }

  /** On every valid JSON text the scanner's peak is the true nesting depth. */
  lemma {:induction false} PeakIsDepth(before: Bytes, j: Json, after: Bytes)
    requires AllSpace(before) && Valid(j) && AllSpace(after)
    ensures Peak(before + Write(j) + after) == Depth(j)
  {
    ScanQuiet(START, before);
    ScanJson(START, j);
    ScanConcat(START, before, Write(j));
    ScanQuiet(After(START, Depth(j)), after);
    ScanConcat(START, before + Write(j), after);
  }
}

/**
 Extraction of an embedded JSON object from an escaped page: one level of string escaping is undone and the
 balanced object at the front is cut out. Text is a sequence of Unicode scalar values.
 */
module RscText {
  import opened Basics

  // ---- sequences ----

  lemma Associates<T>(a: seq<T>, b: seq<T>, c: seq<T>)
    ensures (a + b) + c == a + (b + c)
  {
  }

  lemma Appends<T>(x: T, s: seq<T>)
    ensures ([x] + s)[0] == x && ([x] + s)[1..] == s
  {
  }

  lemma SliceSplits<T>(s: seq<T>, i: nat, k: nat, j: nat)
    requires i <= k <= j <= |s|
    ensures s[i..j] == s[i..k] + s[k..j]
  {
  }

  lemma TakeOfConcat<T>(s: seq<T>, t: seq<T>, k: nat)
    requires k <= |t|
    ensures (s + t)[..|s| + k] == s + t[..k] && (s + t)[|s|..] == t
  {
  }

  lemma TakeAfterFirst<T>(s: seq<T>, k: nat)
    requires 0 < k <= |s|
    ensures s[..k][0] == s[0] && s[..k][1..] == s[1..][..k - 1]
  {
  }

  lemma TailOfConcat<T>(s: seq<T>, t: seq<T>)
    requires s != []
    ensures (s + t)[0] == s[0] && (s + t)[1..] == s[1..] + t
  {
  }

  lemma TakeWithin<T>(s: seq<T>, t: seq<T>, k: nat)
    requires k < |s|
    ensures (s + t)[..k] == s[..k] && s[..k] <= s && s[..k] != s
  {
  }

  // ---- undoing one level of escaping ----

  const BACKSPACE: char := 8 as char
  const FORM_FEED: char := 12 as char

  /** The value of a hexadecimal digit. */
  function Digit(c: char): (d: Option<nat>)
    ensures d.Some? ==> d.value < 16
  {
    if '0' <= c <= '9' then Some(c as nat - '0' as nat)
    else if 'a' <= c <= 'f' then Some(c as nat - 'a' as nat + 10)
    else if 'A' <= c <= 'F' then Some(c as nat - 'A' as nat + 10)
    else None
  }

  function Digits(s: string): Option<nat> {
    if s == "" then Some(0)
    else
      var high, low := Digits(s[..|s| - 1]), Digit(s[|s| - 1]);
      if high.Some? && low.Some? then Some(high.value * 16 + low.value) else None
  }

  /** `u32::from_str_radix(_, 16)`, which takes a leading plus sign, on at most four characters. */
  function FromHex(s: string): Option<nat> {
    var body := if |s| > 0 && s[0] == '+' then s[1..] else s;
    if body == "" then None else Digits(body)
  }

  /** `char::from_u32`: surrogates are no characters. */
  function FromU32(n: nat): Option<char> {
    if n < 0xD800 || 0xE000 <= n < 0x11_0000 then Some(n as char) else None
  }

  function HexChar(hex: string): string {
    var n := FromHex(hex);
    if n.Some? && FromU32(n.value).Some? then [FromU32(n.value).value] else ""
  }

  /** What a backslash and the character after it stand for, `\u` aside. */
  function ShortEscape(c: char): string {
    match c
    case '"' => "\""
    case '\\' => "\\"
    case '/' => "/"
    case 'n' => "\n"
    case 't' => "\t"
    case 'r' => "\r"
    case 'b' => [BACKSPACE]
    case 'f' => [FORM_FEED]
    case _ => ['\\', c]
  }

  function Take(s: string, n: nat): (t: string)
    ensures |t| == Min(|s|, n)
  {
    if |s| <= n then s else s[..n]
  }

  function Unescape(s: string): string
    decreases |s|
  {
    if s == "" then ""
    else if s[0] != '\\' then [s[0]] + Unescape(s[1..])
    else if |s| == 1 then ""
    else if s[1] == 'u' then HexChar(Take(s[2..], 4)) + Unescape(s[2 + |Take(s[2..], 4)|..])
    else ShortEscape(s[1]) + Unescape(s[2..])
  }

  method UnescapeRsc(s: string) returns (out: string)
    ensures out == Unescape(s)
  {
    out := "";
    var i := 0;
    while i < |s|
      invariant i <= |s| && out + Unescape(s[i..]) == Unescape(s)
    {
      hide *;
      UnescapeStep(s, i, out);
      var c := s[i];
      if c != '\\' {
        out := out + [c];
        i := i + 1;
      } else if i + 1 == |s| {
        i := i + 1;
      } else if s[i + 1] == 'u' {
        var hex := Take(s[i + 2..], 4);
        out := out + HexChar(hex);
        i := i + 2 + |hex|;
      } else {
        out := out + ShortEscape(s[i + 1]);
        i := i + 2;
      }
    }
    assert out + Unescape(s[|s|..]) == out;
  }

  lemma UnescapeStep(s: string, i: nat, out: string)
    requires i < |s|
    ensures out + Unescape(s[i..]) ==
            if s[i] != '\\' then out + [s[i]] + Unescape(s[i + 1..])
            else if i + 1 == |s| then out + Unescape(s[i + 1..])
            else if s[i + 1] == 'u' then
              out + HexChar(Take(s[i + 2..], 4)) + Unescape(s[i + 2 + |Take(s[i + 2..], 4)|..])
            else out + ShortEscape(s[i + 1]) + Unescape(s[i + 2..])
  {
    hide HexChar, ShortEscape, Take;
    assert s[i..][1..] == s[i + 1..];
    if i + 1 < |s| {
      var hex := Take(s[i + 2..], 4);
      assert s[i..][2..] == s[i + 2..] && s[i..][2 + |hex|..] == s[i + 2 + |hex|..];
    }
  }

  // ---- escaping, as any encoder of section 7 of RFC 8259 may do it ----

  /** One character of a text as it is written inside a string literal. */
  datatype Unit =
    | Plain(c: char)
    | Short(c: char, letter: char)
    | Hex(c: char, digits: string)
    | Pair(c: char, high: string, low: string)

  predicate FourDigits(s: string) { |s| == 4 && forall i :: 0 <= i < 4 ==> Digit(s[i]).Some? }

  predicate WellFormed(u: Unit) {
    match u
    case Plain(c) => c != '\\' && c != '"'
    case Short(c, letter) => letter in {'"', '\\', '/', 'n', 't', 'r', 'b', 'f'} && ShortEscape(letter) == [c]
    case Hex(c, digits) => FourDigits(digits) && Digits(digits) == Some(c as nat)
    case Pair(c, high, low) =>
      FourDigits(high) && FourDigits(low) && c as nat >= 0x1_0000 &&
      Digits(high) == Some(0xD800 + (c as nat - 0x1_0000) / 0x400) &&
      Digits(low) == Some(0xDC00 + (c as nat - 0x1_0000) % 0x400)
  }

  function WireOf(u: Unit): string {
    match u
    case Plain(c) => [c]
    case Short(_, letter) => ['\\', letter]
    case Hex(_, digits) => "\\u" + digits
    case Pair(_, high, low) => "\\u" + high + "\\u" + low
  }

  function Wire(units: seq<Unit>): string { if units == [] then "" else WireOf(units[0]) + Wire(units[1..]) }

  function Text(units: seq<Unit>): string { if units == [] then "" else [units[0].c] + Text(units[1..]) }

  /** The text without the characters that were written as surrogate pairs. */
  function Survivors(units: seq<Unit>): string {
    if units == [] then "" else (if units[0].Pair? then "" else [units[0].c]) + Survivors(units[1..])
  }

  predicate AllWellFormed(units: seq<Unit>) { forall u :: u in units ==> WellFormed(u) }

  lemma FourDigitsFromHex(digits: string)
    requires FourDigits(digits)
    ensures FromHex(digits) == Digits(digits)
  {
    assert Digit(digits[0]).Some?;
  }

  /** Undoing a `\u` escape of four digits at the front of a text. */
  lemma UnescapeHex(digits: string, rest: string)
    requires FourDigits(digits)
    ensures Unescape("\\u" + digits + rest) == HexChar(digits) + Unescape(rest)
  {
    var s := "\\u" + digits + rest;
    assert s[2..] == digits + rest;
    assert Take(s[2..], 4) == digits;
    assert s[2 + |Take(s[2..], 4)|..] == rest;
    hide HexChar, ShortEscape;
  }

  lemma SurrogatesVanish(c: char, high: string, low: string)
    requires WellFormed(Pair(c, high, low))
    ensures HexChar(high) == "" && HexChar(low) == ""
  {
    FourDigitsFromHex(high);
    FourDigitsFromHex(low);
  }

  /** One unit decodes to its character whatever follows, unless it is a surrogate pair, which decodes to nothing. */
  lemma UnitDecodes(u: Unit, rest: string)
    requires WellFormed(u)
    ensures Unescape(WireOf(u) + rest) == (if u.Pair? then "" else [u.c]) + Unescape(rest)
  {
    match u
    case Plain(c) => Appends(c, rest);
    case Short(c, letter) => ShortDecodes(letter, rest);
    case Hex(c, digits) =>
      UnescapeHex(digits, rest);
      FourDigitsFromHex(digits);
      hide Unescape, Digits;
    case Pair(c, high, low) =>
      SurrogatesVanish(c, high, low);
      hide Unescape, HexChar, Digits;
      Associates("\\u" + high, "\\u" + low, rest);
      UnescapeHex(high, "\\u" + low + rest);
      UnescapeHex(low, rest);
      Associates("\\u" + high, "\\u", low);
  }

  lemma ShortDecodes(letter: char, rest: string)
    requires letter != 'u'
    ensures Unescape(['\\', letter] + rest) == ShortEscape(letter) + Unescape(rest)
  {
    hide ShortEscape;
    assert (['\\', letter] + rest)[2..] == rest;
  }

  lemma {:induction false} UnitsDecode(units: seq<Unit>, tail: string)
    requires AllWellFormed(units)
    ensures Unescape(Wire(units) + tail) == Survivors(units) + Unescape(tail)
  {
    hide *;
    if units == [] {
      NoUnits(tail);
      NoUnits(Unescape(tail));
    } else {
      FirstIsWellFormed(units);
      UnitsDecode(units[1..], tail);
      UnitDecodes(units[0], Wire(units[1..]) + tail);
      UnitsSplit(units, tail, Unescape(tail));
    }
  }

  lemma NoUnits(tail: string)
    ensures Wire([]) + tail == tail && Survivors([]) + tail == tail
  {
  }

  lemma FirstIsWellFormed(units: seq<Unit>)
    requires AllWellFormed(units) && units != []
    ensures WellFormed(units[0]) && AllWellFormed(units[1..])
  {
  }

  lemma UnitsSplit(units: seq<Unit>, tail: string, rest: string)
    requires units != []
    ensures Wire(units) + tail == WireOf(units[0]) + (Wire(units[1..]) + tail)
    ensures Survivors(units) + rest == (if units[0].Pair? then "" else [units[0].c]) + (Survivors(units[1..]) + rest)
  {
    hide WireOf;
    Associates(WireOf(units[0]), Wire(units[1..]), tail);
    Associates(if units[0].Pair? then "" else [units[0].c], Survivors(units[1..]), rest);
  }

  lemma {:induction false} SurvivorsLength(units: seq<Unit>)
    ensures |Survivors(units)| <= |Text(units)| == |units|
    ensures Survivors(units) == Text(units) <==> forall u :: u in units ==> !u.Pair?
  {
    if units != [] {
      SurvivorsLength(units[1..]);
      assert forall u :: u in units <==> u == units[0] || u in units[1..];
      if !units[0].Pair? {
        assert Survivors(units)[1..] == Survivors(units[1..]) && Text(units)[1..] == Text(units[1..]);
      }
    }
  }

  /** Escaped text, whatever follows it, decodes to itself exactly when no character was written as a surrogate pair. */
  lemma EscapingRoundTrips(units: seq<Unit>, tail: string)
    requires AllWellFormed(units)
    ensures Unescape(Wire(units) + tail) == Text(units) + Unescape(tail) <==> forall u :: u in units ==> !u.Pair?
  {
    UnitsDecode(units, tail);
    SurvivorsLength(units);
    if Survivors(units) + Unescape(tail) == Text(units) + Unescape(tail) {
      assert |Survivors(units)| == |Text(units)|;
      assert (Survivors(units) + Unescape(tail))[..|units|] == (Text(units) + Unescape(tail))[..|units|];
      assert Survivors(units) == Text(units);
    }
  }

  /** The smallest loss: U+1F600 written as its surrogate pair is gone, and what follows it is not. */
  lemma PairIsLost()
    ensures Unescape("\\ud83d" + "\\ude00" + "!") == "!"
  {
    var u := Pair(0x1_F600 as char, "d83d", "de00");
    HexD83d();
    assert WireOf(u) == "\\u" + "d83d" + "\\u" + "de00" == "\\ud83d" + "\\ude00";
    UnitDecodes(u, "!");
    ShortText('!');
  }

  lemma ShortText(c: char)
    requires c != '\\'
    ensures Unescape([c]) == [c]
  {
    assert [c][1..] == "";
  }

  lemma HexD83d()
    ensures Digits("d83d") == Some(0xD83D) && Digits("de00") == Some(0xDE00)
  {
    assert "d83d"[..3] == "d83" && "d83"[..2] == "d8" && "d8"[..1] == "d" && "d"[..0] == "";
    assert "de00"[..3] == "de0" && "de0"[..2] == "de";
    assert Digits("d") == Some(13) && Digits("d8") == Some(216) && Digits("d83") == Some(3459);
    assert Digits("de") == Some(222) && Digits("de0") == Some(3552);
  }

  /** The short escapes of section 7 of RFC 8259 and what they stand for; any other letter keeps its backslash. */
  lemma ShortEscapesStandFor(letter: char, rest: string)
    requires letter != 'u'
    ensures Unescape(['\\', letter] + rest) ==
            (match letter
             case '"' => "\""
             case '\\' => "\\"
             case '/' => "/"
             case 'n' => [0x0A as char]
             case 't' => [0x09 as char]
             case 'r' => [0x0D as char]
             case 'b' => [0x08 as char]
             case 'f' => [0x0C as char]
             case other => ['\\', other]) + Unescape(rest)
  {
    ShortDecodes(letter, rest);
  }

  /** A plus sign among the four characters of a `\\u` escape is skipped where it comes first. */
  lemma PlusIsSkipped(rest: string)
    ensures Unescape("\\u+041" + rest) == "A" + Unescape(rest)
  {
    var s := "\\u+041" + rest;
    assert s[2..] == "+041" + rest && Take(s[2..], 4) == "+041" && s[6..] == rest && "+041"[1..] == "041";
    assert "041"[..2] == "04" && "04"[..1] == "0" && "0"[..0] == "";
    assert Digits("0") == Some(0) && Digits("04") == Some(4) && Digits("041") == Some(65);
    assert HexChar("+041") == "A";
    hide HexChar, ShortEscape, Digits;
  }

  /** Hexadecimal digits in either case. */
  lemma DigitsHaveValues(i: nat)
    requires i < 16
    ensures Digit("0123456789abcdef"[i]) == Digit("0123456789ABCDEF"[i]) == Some(i)
  {
  }

  // ---- the balanced object at the front of a text ----

  datatype Mode = Outside | InString | Escaped

  function NextMode(mode: Mode, c: char): Mode {
    match mode
    case Outside => if c == '"' then InString else Outside
    case InString => if c == '\\' then Escaped else if c == '"' then Outside else InString
    case Escaped => InString
  }

  function ModeOf(inStr: bool, escaped: bool): Mode { if escaped then Escaped else if inStr then InString else Outside }

  /** Where the object closes, scanning from `i` with `depth` braces open. */
  function Close(s: string, i: nat, depth: nat, mode: Mode): (end: Option<nat>)
    requires i <= |s| && depth > 0
    ensures end.Some? ==> i < end.value <= |s|
    decreases |s| - i
  {
    if i == |s| then None
    else if mode == Outside && s[i] == '}' then
      if depth == 1 then Some(i + 1) else Close(s, i + 1, depth - 1, Outside)
    else Close(s, i + 1, if mode == Outside && s[i] == '{' then depth + 1 else depth, NextMode(mode, s[i]))
  }

  function Balanced(s: string): Option<string>
    requires s != "" && s[0] == '{'
  {
    var end := Close(s, 1, 1, Outside);
    if end.Some? then Some(s[..end.value]) else None
  }

  /** The depth counter cannot underflow when the scan starts at an opening brace. */
  method BalancedObject(s: string, start: nat) returns (obj: Option<string>)
    requires start < |s| && s[start] == '{'
    ensures var end := Close(s, start + 1, 1, Outside);
            obj == if end.Some? then Some(s[start..end.value]) else None
  {
    var depth: nat, inStr, escaped := 0, false, false;
    for i := start to |s|
      invariant i == start ==> depth == 0 && !inStr && !escaped
      invariant i > start ==> depth > 0 && (escaped ==> inStr)
      invariant i > start ==> Close(s, i, depth, ModeOf(inStr, escaped)) == Close(s, start + 1, 1, Outside)
    {
      var b := s[i];
      if inStr {
        if escaped {
          escaped := false;
        } else if b == '\\' {
          escaped := true;
        } else if b == '"' {
          inStr := false;
        }
      } else if b == '"' {
        inStr := true;
      } else if b == '{' {
        depth := depth + 1;
      } else if b == '}' {
        depth := depth - 1;
        if depth == 0 {
          return Some(s[start..i + 1]);
        }
      }
    }
    obj := None;
  }

  // ---- what a balanced object is ----

  /** A character of a string: written as itself, or a backslash and what follows it. */
  datatype Piece = Char(c: char) | Backslash(c: char)

  datatype Token = Open | Shut | Str(body: seq<Piece>) | Other(c: char)

  predicate ProperPiece(p: Piece) { p.Char? ==> p.c != '"' && p.c != '\\' }

  predicate Proper(t: Token) {
    match t
    case Str(body) => forall p :: p in body ==> ProperPiece(p)
    case Other(c) => c != '"' && c != '{' && c != '}'
    case _ => true
  }

  function PieceText(p: Piece): string { if p.Char? then [p.c] else ['\\', p.c] }

  function BodyText(body: seq<Piece>): string { if body == [] then "" else PieceText(body[0]) + BodyText(body[1..]) }

  function TokenText(t: Token): string {
    match t
    case Open => "{"
    case Shut => "}"
    case Str(body) => "\"" + BodyText(body) + "\""
    case Other(c) => [c]
  }

  function TextOf(ts: seq<Token>): string { if ts == [] then "" else TokenText(ts[0]) + TextOf(ts[1..]) }

  predicate AllProper(ts: seq<Token>) { forall t :: t in ts ==> Proper(t) }

  /** From `depth` open braces the tokens close the last of them at their very end and not before. */
  predicate Closes(ts: seq<Token>, depth: nat) {
    ts != [] && depth > 0 &&
    match ts[0]
    case Open => Closes(ts[1..], depth + 1)
    case Shut => if depth == 1 then |ts| == 1 else Closes(ts[1..], depth - 1)
    case _ => Closes(ts[1..], depth)
  }

  /** A brace-balanced object: it opens a brace, and its last token is the first to close it. */
  predicate IsObject(ts: seq<Token>) { ts != [] && ts[0] == Open && AllProper(ts) && Closes(ts[1..], 1) }

  predicate OccursAt(s: string, t: string, i: nat) { i + |t| <= |s| && s[i..i + |t|] == t }

  lemma OccursSplits(s: string, t: string, u: string, i: nat)
    requires OccursAt(s, t + u, i)
    ensures OccursAt(s, t, i) && OccursAt(s, u, i + |t|)
  {
    var w := s[i..i + |t + u|];
    assert s[i..i + |t|] == w[..|t|] == t;
    assert s[i + |t|..i + |t| + |u|] == w[|t|..] == u;
  }

  lemma OccursFirst(s: string, t: string, i: nat)
    requires OccursAt(s, t, i) && t != ""
    ensures s[i] == t[0]
  {
    assert s[i..i + |t|][0] == s[i];
  }

  lemma PieceScans(s: string, i: nat, p: Piece, depth: nat)
    requires OccursAt(s, PieceText(p), i) && ProperPiece(p) && depth > 0
    ensures Close(s, i, depth, InString) == Close(s, i + |PieceText(p)|, depth, InString)
  {
    OccursFirst(s, PieceText(p), i);
    if p.Backslash? {
      assert Close(s, i, depth, InString) == Close(s, i + 1, depth, Escaped) == Close(s, i + 2, depth, InString);
    }
  }

  lemma {:induction false} BodyScans(s: string, i: nat, body: seq<Piece>, depth: nat)
    requires OccursAt(s, BodyText(body), i) && depth > 0 && forall p :: p in body ==> ProperPiece(p)
    ensures Close(s, i, depth, InString) == Close(s, i + |BodyText(body)|, depth, InString)
    decreases |body|
  {
    if body != [] {
      OccursSplits(s, PieceText(body[0]), BodyText(body[1..]), i);
      PieceScans(s, i, body[0], depth);
      BodyScans(s, i + |PieceText(body[0])|, body[1..], depth);
    }
  }

  lemma StringScans(s: string, i: nat, body: seq<Piece>, depth: nat)
    requires OccursAt(s, TokenText(Str(body)), i) && depth > 0 && Proper(Str(body))
    ensures Close(s, i, depth, Outside) == Close(s, i + |TokenText(Str(body))|, depth, Outside)
  {
    var text := BodyText(body);
    var end := i + 1 + |text|;
    OccursSplits(s, "\"" + text, "\"", i);
    OccursSplits(s, "\"", text, i);
    OccursFirst(s, "\"", i);
    OccursFirst(s, "\"", end);
    BodyScans(s, i + 1, body, depth);
    assert Close(s, i, depth, Outside) == Close(s, i + 1, depth, InString);
    assert Close(s, end, depth, InString) == Close(s, end + 1, depth, Outside);
  }

  function DepthAfter(t: Token, depth: nat): nat {
    match t
    case Open => depth + 1
    case Shut => SatSub(depth, 1)
    case _ => depth
  }

  /** A token that does not close the last brace moves the scan past its text. */
  lemma TokenScans(s: string, i: nat, t: Token, depth: nat)
    requires OccursAt(s, TokenText(t), i) && depth > 0 && Proper(t) && DepthAfter(t, depth) > 0
    ensures Close(s, i, depth, Outside) == Close(s, i + |TokenText(t)|, DepthAfter(t, depth), Outside)
  {
    OccursFirst(s, TokenText(t), i);
    if t.Str? {
      StringScans(s, i, t.body, depth);
    }
  }

  lemma {:induction false} TokensScan(s: string, i: nat, ts: seq<Token>, depth: nat)
    requires OccursAt(s, TextOf(ts), i) && AllProper(ts) && Closes(ts, depth)
    ensures Close(s, i, depth, Outside) == Some(i + |TextOf(ts)|)
    decreases |ts|
  {
    hide *;
    ClosesStep(ts, depth);
    if DepthAfter(ts[0], depth) == 0 {
      LastBraceScans(s, i);
    } else {
      TextSplits(ts);
      OccursSplits(s, TokenText(ts[0]), TextOf(ts[1..]), i);
      TokenScans(s, i, ts[0], depth);
      TokensScan(s, i + |TokenText(ts[0])|, ts[1..], DepthAfter(ts[0], depth));
    }
  }

  lemma ClosesStep(ts: seq<Token>, depth: nat)
    requires AllProper(ts) && Closes(ts, depth)
    ensures ts != [] && depth > 0 && Proper(ts[0]) && AllProper(ts[1..])
    ensures if DepthAfter(ts[0], depth) == 0 then ts == [Shut] && depth == 1
            else Closes(ts[1..], DepthAfter(ts[0], depth))
  {
    assert ts[0] in ts;
  }

  lemma TextSplits(ts: seq<Token>)
    requires ts != []
    ensures TextOf(ts) == TokenText(ts[0]) + TextOf(ts[1..]) && |TextOf(ts)| == |TokenText(ts[0])| + |TextOf(ts[1..])|
  {
  }

  lemma LastBraceScans(s: string, i: nat)
    requires OccursAt(s, TextOf([Shut]), i)
    ensures Close(s, i, 1, Outside) == Some(i + |TextOf([Shut])|)
  {
    assert TextOf([Shut]) == "}";
    OccursFirst(s, "}", i);
  }

  /** A balanced object at the front of a text is found, whatever follows it. */
  lemma ObjectIsFound(ts: seq<Token>, tail: string)
    requires IsObject(ts)
    ensures TextOf(ts) != "" && TextOf(ts)[0] == '{' && Balanced(TextOf(ts) + tail) == Some(TextOf(ts))
  {
    var s := TextOf(ts) + tail;
    assert TextOf(ts) == "{" + TextOf(ts[1..]);
    assert OccursAt(s, TextOf(ts), 0);
    OccursSplits(s, "{", TextOf(ts[1..]), 0);
    hide Closes, Proper, Close;
    TokensScan(s, 1, ts[1..], 1);
    assert s[..|TextOf(ts)|] == TextOf(ts);
  }

  /** What the scan has read when it finds the end, as tokens. */
  lemma {:induction false} FoundIsTokens(s: string, i: nat, depth: nat) returns (ts: seq<Token>)
    requires i <= |s| && depth > 0 && Close(s, i, depth, Outside).Some?
    ensures AllProper(ts) && Closes(ts, depth) && TextOf(ts) == s[i..Close(s, i, depth, Outside).value]
    decreases |s| - i
  {
    var t, next := FoundIsToken(s, i, depth);
    hide *;
    if DepthAfter(t, depth) == 0 {
      ts := [Shut];
      LastToken();
    } else {
      var rest := FoundIsTokens(s, next, DepthAfter(t, depth));
      ts := [t] + rest;
      TokenAhead(t, rest, depth);
      SliceSplits(s, i, next, Close(s, next, DepthAfter(t, depth), Outside).value);
    }
  }

  lemma LastToken()
    ensures AllProper([Shut]) && Closes([Shut], 1) && TextOf([Shut]) == TokenText(Shut)
  {
    assert TextOf([Shut]) == TokenText(Shut) + TextOf([]);
  }

  lemma TokenAhead(t: Token, rest: seq<Token>, depth: nat)
    requires Proper(t) && depth > 0 && DepthAfter(t, depth) > 0 && AllProper(rest) && Closes(rest, DepthAfter(t, depth))
    ensures AllProper([t] + rest) && Closes([t] + rest, depth) && TextOf([t] + rest) == TokenText(t) + TextOf(rest)
  {
    assert ([t] + rest)[1..] == rest;
    hide TokenText, Proper;
  }

  /** The first token of what the scan reads. */
  lemma FoundIsToken(s: string, i: nat, depth: nat) returns (t: Token, next: nat)
    requires i <= |s| && depth > 0 && Close(s, i, depth, Outside).Some?
    ensures i < next <= |s| && Proper(t) && TokenText(t) == s[i..next]
    ensures if DepthAfter(t, depth) == 0 then t == Shut && Close(s, i, depth, Outside) == Some(next)
            else Close(s, i, depth, Outside) == Close(s, next, DepthAfter(t, depth), Outside)
  {
    t, next := Other(s[i]), i + 1;
    if s[i] == '}' {
      t := Shut;
    } else if s[i] == '{' {
      t := Open;
    } else if s[i] == '"' {
      var body, close := FoundIsString(s, i + 1, depth);
      t, next := Str(body), close;
      assert s[i..close] == "\"" + s[i + 1..close];
      assert TokenText(t) == "\"" + (BodyText(body) + "\"");
    }
  }

  /** What the scan has read when a string ends, as the pieces of its body. */
  lemma {:induction false} FoundIsString(s: string, i: nat, depth: nat) returns (body: seq<Piece>, close: nat)
    requires i <= |s| && depth > 0 && Close(s, i, depth, InString).Some?
    ensures i < close <= |s| && Proper(Str(body)) && BodyText(body) + "\"" == s[i..close]
    ensures Close(s, i, depth, InString) == Close(s, close, depth, Outside)
    decreases |s| - i
  {
    if s[i] == '"' {
      body, close := [], i + 1;
      assert s[i..close] == "\"";
    } else {
      var p := if s[i] == '\\' then Backslash(s[i + 1]) else Char(s[i]);
      var next := if s[i] == '\\' then i + 2 else i + 1;
      assert Close(s, i, depth, InString) == Close(s, next, depth, InString);
      var rest;
      rest, close := FoundIsString(s, next, depth);
      body := [p] + rest;
      assert body[1..] == rest && s[i..next] == PieceText(p);
      SliceSplits(s, i, next, close);
    }
  }

  /**
   The result is the balanced object at the front: a text is returned exactly when it is a prefix of the input
   and a balanced object. Two balanced prefixes cannot differ, so it is also the shortest.
   */
  lemma BalancedIffObject(s: string, obj: string)
    requires s != "" && s[0] == '{'
    ensures Balanced(s) == Some(obj) <==> obj <= s && exists ts :: IsObject(ts) && TextOf(ts) == obj
  {
    hide *;
    if Balanced(s) == Some(obj) {
      var ts := ReturnedIsObject(s, obj);
    }
    if obj <= s && exists ts :: IsObject(ts) && TextOf(ts) == obj {
      var ts :| IsObject(ts) && TextOf(ts) == obj;
      ObjectIsFound(ts, s[|obj|..]);
      PrefixAndRest(s, obj);
    }
  }

  lemma PrefixAndRest<T>(s: seq<T>, p: seq<T>)
    requires p <= s
    ensures p + s[|p|..] == s
  {
  }

  lemma ReturnedIsObject(s: string, obj: string) returns (ts: seq<Token>)
    requires s != "" && s[0] == '{' && Balanced(s) == Some(obj)
    ensures obj <= s && IsObject(ts) && TextOf(ts) == obj
  {
    var rest := FoundIsTokens(s, 1, 1);
    SliceSplits(s, 0, 1, |obj|);
    OpenAhead(rest);
    ts := [Open] + rest;
    assert s[0..1] == "{";
    hide IsObject, TextOf, Close;
  }

  lemma OpenAhead(rest: seq<Token>)
    requires AllProper(rest) && Closes(rest, 1)
    ensures IsObject([Open] + rest) && TextOf([Open] + rest) == "{" + TextOf(rest)
  {
    Appends(Open, rest);
    hide Closes;
  }

  // ---- every JSON object is such an object ----

  /** A JSON value; `Word` stands for numbers, `true`, `false` and `null`. */
  datatype Json = Word(text: string) | Quoted(body: seq<Piece>) | Array(items: seq<Json>) | Object(members: seq<Member>)
  datatype Member = Member(name: seq<Piece>, value: Json)

  function Symbols(s: string): seq<Token> { if s == "" then [] else [Other(s[0])] + Symbols(s[1..]) }

  function Print(v: Json): seq<Token>
    decreases v
  {
    hide Closes;
    match v
    case Word(text) => Symbols(text)
    case Quoted(body) => [Str(body)]
    case Array(items) => Symbols("[") + PrintItems(items) + Symbols("]")
    case Object(members) => [Open] + PrintMembers(members) + [Shut]
  }

  function PrintItems(items: seq<Json>): seq<Token>
    decreases items
  {
    if items == [] then []
    else Print(items[0]) + (if |items| == 1 then [] else Symbols(", ") + PrintItems(items[1..]))
  }

  function PrintMembers(members: seq<Member>): seq<Token>
    decreases members
  {
    if members == [] then []
    else
      [Str(members[0].name)] + Symbols(": ") + Print(members[0].value) +
      (if |members| == 1 then [] else Symbols(", ") + PrintMembers(members[1..]))
  }

  lemma {:induction false} SymbolsKeepDepth(s: string, rest: seq<Token>, depth: nat)
    requires depth > 0
    ensures Closes(Symbols(s) + rest, depth) == Closes(rest, depth)
  {
    if s == "" {
      assert Symbols(s) + rest == rest;
    } else {
      assert (Symbols(s) + rest)[1..] == Symbols(s[1..]) + rest;
      SymbolsKeepDepth(s[1..], rest, depth);
    }
  }

  lemma StringKeepsDepth(body: seq<Piece>, rest: seq<Token>, depth: nat)
    requires depth > 0
    ensures Closes([Str(body)] + rest, depth) == Closes(rest, depth)
  {
    assert ([Str(body)] + rest)[1..] == rest;
  }

  lemma BracesKeepDepth(inside: seq<Token>, rest: seq<Token>, depth: nat)
    requires depth > 0 && Closes(inside, depth + 1) == Closes([Shut] + rest, depth + 1)
    ensures Closes([Open] + inside, depth) == Closes(rest, depth)
  {
    assert ([Open] + inside)[1..] == inside && ([Shut] + rest)[1..] == rest;
  }

  lemma AssociatesTwice<T>(a: seq<T>, b: seq<T>, c: seq<T>, d: seq<T>)
    ensures a + b + c + d == a + (b + (c + d))
  {
    Associates(a + b, c, d);
    Associates(a, b, c + d);
  }

  /** A printed value leaves the depth as it found it. */
  lemma {:induction false} ValueKeepsDepth(v: Json, rest: seq<Token>, depth: nat)
    requires depth > 0
    ensures Closes(Print(v) + rest, depth) == Closes(rest, depth)
    decreases v
  {
    hide Closes;
    match v
    case Word(text) => SymbolsKeepDepth(text, rest, depth);
    case Quoted(body) => StringKeepsDepth(body, rest, depth);
    case Array(items) =>
      hide Symbols;
      AssociatesTwice(Symbols("["), PrintItems(items), Symbols("]"), rest);
      SymbolsKeepDepth("[", PrintItems(items) + (Symbols("]") + rest), depth);
      ItemsKeepDepth(items, Symbols("]") + rest, depth);
      SymbolsKeepDepth("]", rest, depth);
    case Object(members) =>
      AssociatesTwice([Open], PrintMembers(members), [Shut], rest);
      MembersKeepDepth(members, [Shut] + rest, depth + 1);
      BracesKeepDepth(PrintMembers(members) + ([Shut] + rest), rest, depth);
  }

  lemma {:induction false} ItemsKeepDepth(items: seq<Json>, rest: seq<Token>, depth: nat)
    requires depth > 0
    ensures Closes(PrintItems(items) + rest, depth) == Closes(rest, depth)
    decreases items
  {
    if items == [] {
      assert PrintItems(items) + rest == rest;
    } else {
      var more := if |items| == 1 then rest else Symbols(", ") + (PrintItems(items[1..]) + rest);
      assert PrintItems(items) + rest == Print(items[0]) + more;
      ValueKeepsDepth(items[0], more, depth);
      if |items| > 1 {
        SymbolsKeepDepth(", ", PrintItems(items[1..]) + rest, depth);
        ItemsKeepDepth(items[1..], rest, depth);
      }
    }
  }

  lemma {:induction false} MembersKeepDepth(members: seq<Member>, rest: seq<Token>, depth: nat)
    requires depth > 0
    ensures Closes(PrintMembers(members) + rest, depth) == Closes(rest, depth)
    decreases members
  {
    if members == [] {
      assert PrintMembers(members) + rest == rest;
    } else {
      var m := members[0];
      var others := if |members| == 1 then [] else Symbols(", ") + PrintMembers(members[1..]);
      var more := others + rest;
      assert PrintMembers(members) == [Str(m.name)] + Symbols(": ") + Print(m.value) + others;
      hide Symbols, Print, PrintMembers, Closes;
      Associates([Str(m.name)] + Symbols(": ") + Print(m.value), others, rest);
      AssociatesTwice([Str(m.name)], Symbols(": "), Print(m.value), more);
      StringKeepsDepth(m.name, Symbols(": ") + (Print(m.value) + more), depth);
      SymbolsKeepDepth(": ", Print(m.value) + more, depth);
      ValueKeepsDepth(m.value, more, depth);
      if |members| == 1 {
        assert more == rest;
      } else {
        Associates(Symbols(", "), PrintMembers(members[1..]), rest);
        SymbolsKeepDepth(", ", PrintMembers(members[1..]) + rest, depth);
        MembersKeepDepth(members[1..], rest, depth);
      }
    }
  }

  /** Every printed JSON object whose words and strings are proper is a balanced object. */
  lemma PrintedObjectIsObject(members: seq<Member>)
    requires AllProper(Print(Object(members)))
    ensures IsObject(Print(Object(members)))
  {
    var inner := PrintMembers(members) + [Shut];
    assert Print(Object(members)) == [Open] + inner && ([Open] + inner)[1..] == inner;
    MembersKeepDepth(members, [Shut], 1);
    assert Closes([Shut], 1);
  }

  // ---- extraction ----

  const WINDOW: nat := 98_304
  const ANCHOR: string := "\\\"model\\\":{"

  method Find(s: string, t: string) returns (at: Option<nat>)
    ensures at.Some? ==> OccursAt(s, t, at.value) && forall j :: 0 <= j < at.value ==> !OccursAt(s, t, j)
    ensures at.None? ==> forall j :: 0 <= j <= |s| ==> !OccursAt(s, t, j)
  {
    for i := 0 to |s| + 1
      invariant forall j :: 0 <= j < i ==> !OccursAt(s, t, j)
    {
      if OccursAt(s, t, i) {
        return Some(i);
      }
    }
    at := None;
  }

  // The page is cut in bytes of its UTF-8 form (section 3 of RFC 3629).

  function Width(c: char): (n: nat)
    ensures 1 <= n <= 4
  {
    if c as nat < 0x80 then 1 else if c as nat < 0x800 then 2 else if c as nat < 0x1_0000 then 3 else 4
  }

  /** The four ranges of section 3 of RFC 3629. */
  lemma WidthIsUtf8(c: char)
    ensures var n := c as nat;
            Width(c) == if n <= 0x7F then 1 else if n <= 0x7FF then 2 else if n <= 0xFFFF then 3 else 4
  {
  }

  function Bytes(s: string): nat { if s == "" then 0 else Width(s[0]) + Bytes(s[1..]) }

  /** How many characters the first `n` bytes are, when they end between two characters. */
  function Boundary(s: string, n: nat): (k: Option<nat>)
    ensures k.Some? ==> k.value <= |s| && (k.value == 0 <==> n == 0)
  {
    if n == 0 then Some(0)
    else if s == "" || Width(s[0]) > n then None
    else
      var rest := Boundary(s[1..], n - Width(s[0]));
      if rest.Some? then Some(rest.value + 1) else None
  }

  /** `str::get` of the first `n` bytes, or of all of a shorter text: nothing when the cut is inside a character. */
  function FirstBytes(s: string, n: nat): Option<string> {
    if Bytes(s) <= n then Some(s)
    else if Boundary(s, n).Some? then Some(s[..Boundary(s, n).value])
    else None
  }

  lemma {:induction false} BytesConcat(s: string, t: string)
    ensures Bytes(s + t) == Bytes(s) + Bytes(t)
  {
    if s == "" {
      assert s + t == t;
    } else {
      hide Width;
      TailOfConcat(s, t);
      BytesConcat(s[1..], t);
    }
  }

  /** A boundary within the first of two texts is where that text has it. */
  lemma {:induction false} BoundaryWithin(s: string, t: string, n: nat)
    requires n < Bytes(s)
    ensures Boundary(s + t, n) == Boundary(s, n) && (Boundary(s, n).Some? ==> Boundary(s, n).value < |s|)
  {
    hide Width;
    TailOfConcat(s, t);
    if n >= Width(s[0]) {
      BoundaryWithin(s[1..], t, n - Width(s[0]));
    }
  }

  /** A boundary past the first of two texts is where the second has it. */
  lemma {:induction false} BoundaryBeyond(s: string, t: string, n: nat)
    requires n >= Bytes(s)
    ensures Boundary(s + t, n) == var k := Boundary(t, n - Bytes(s)); if k.Some? then Some(|s| + k.value) else None
  {
    hide Width;
    if s == "" {
      assert s + t == t;
    } else {
      TailOfConcat(s, t);
      BoundaryBeyond(s[1..], t, n - Width(s[0]));
    }
  }

  lemma {:induction false} BoundaryIsExact(s: string, n: nat)
    requires Boundary(s, n).Some?
    ensures Bytes(s[..Boundary(s, n).value]) == n
  {
    hide Width;
    if n > 0 {
      BoundaryIsExact(s[1..], n - Width(s[0]));
      TakeAfterFirst(s, Boundary(s, n).value);
    }
  }

  lemma {:induction false} PrefixEndsAtBoundary(s: string, k: nat)
    requires k <= |s|
    ensures Boundary(s, Bytes(s[..k])) == Some(k)
  {
    hide Width;
    if k > 0 {
      TakeAfterFirst(s, k);
      PrefixEndsAtBoundary(s[1..], k - 1);
    }
  }

  /** There is a boundary after `n` bytes if and only if some prefix has exactly that many, and it is that prefix. */
  lemma BoundaryIff(s: string, n: nat, k: nat)
    requires k <= |s|
    ensures Boundary(s, n) == Some(k) <==> Bytes(s[..k]) == n
  {
    hide Boundary, Bytes;
    PrefixEndsAtBoundary(s, k);
    if Boundary(s, n).Some? {
      BoundaryIsExact(s, n);
    }
  }

  /** Behind an anchor the page goes on with the opening brace, and so does any window. */
  lemma BraceBehind(body: string, at: nat)
    requires OccursAt(body, ANCHOR, at)
    ensures at + |ANCHOR| <= |body|
    ensures var window := FirstBytes(body[at + |ANCHOR| - 1..], WINDOW);
            window.Some? ==> window.value != "" && window.value[0] == '{' && Unescape(window.value) != "" &&
                             Unescape(window.value)[0] == '{'
  {
    var rest := body[at + |ANCHOR| - 1..];
    assert rest[0] == body[at..at + |ANCHOR|][|ANCHOR| - 1] == '{';
    hide Bytes, Boundary;
    var window := FirstBytes(rest, WINDOW);
    if window.Some? {
      BraceDecodes(window.value);
    }
  }

  lemma BraceDecodes(s: string)
    requires s != "" && s[0] == '{'
    ensures Unescape(s) != "" && Unescape(s)[0] == '{'
  {
  }

  /** What the extraction yields when the anchor is first found at `at`. */
  function Extracted(body: string, at: nat): Option<string>
    requires OccursAt(body, ANCHOR, at)
  {
    BraceBehind(body, at);
    var window := FirstBytes(body[at + |ANCHOR| - 1..], WINDOW);
    if window.None? then None else Balanced(Unescape(window.value))
  }

  method Extract(body: string) returns (obj: Option<string>)
    ensures (forall i :: 0 <= i <= |body| ==> !OccursAt(body, ANCHOR, i)) ==> obj.None?
    ensures forall i ::
            0 <= i <= |body| && OccursAt(body, ANCHOR, i) && (forall j :: 0 <= j < i ==> !OccursAt(body, ANCHOR, j)) ==>
              obj == Extracted(body, i)
  {
    var at := Find(body, ANCHOR);
    hide OccursAt, FirstBytes, Unescape, Close;
    if at.None? {
      return None;
    }
    BraceBehind(body, at.value);
    var window := FirstBytes(body[at.value + |ANCHOR| - 1..], WINDOW);
    if window.None? {
      return None;
    }
    var decoded := UnescapeRsc(window.value);
    obj := BalancedObject(decoded, 0);
  }

  // ---- an object that is cut short, or has lost a character, is never taken for the whole ----

  lemma {:induction false} ClosesEndShut(ts: seq<Token>, depth: nat)
    requires Closes(ts, depth)
    ensures TextOf(ts) != "" && TextOf(ts)[|TextOf(ts)| - 1] == '}'
    decreases |ts|
  {
    hide TokenText;
    TextSplits(ts);
    if DepthAfter(ts[0], depth) == 0 {
      LastToken();
      ShutText();
    } else {
      ClosesEndShut(ts[1..], DepthAfter(ts[0], depth));
    }
  }

  lemma ShutText()
    ensures TokenText(Shut) == "}"
  {
  }

  lemma DigitsAppend(s: string, c: char)
    requires Digits(s).Some? && Digit(c).Some?
    ensures Digits(s + [c]) == Some(Digits(s).value * 16 + Digit(c).value)
  {
    assert (s + [c])[..|s + [c]| - 1] == s;
  }

  /** Digits that stand for a closing brace start with two zeros and a seven. */
  lemma BraceDigits(a: char, b: char, c: char, d: char)
    requires Digit(a).Some? && Digit(b).Some? && Digit(c).Some? && Digit(d).Some?
    ensures Digits([a] + [b] + [c] + [d]) == Some('}' as nat) ==>
              Digits([a]) == Some(0) && Digits([a] + [b]) == Some(0) && Digits([a] + [b] + [c]) == Some(7)
  {
    assert Digits("") == Some(0) && "" + [a] == [a];
    hide Digits, Digit;
    DigitsAppend("", a);
    DigitsAppend([a], b);
    DigitsAppend([a] + [b], c);
    DigitsAppend([a] + [b] + [c], d);
    DigitBounds(a);
    DigitBounds(b);
    DigitBounds(c);
    DigitBounds(d);
  }

  lemma DigitBounds(c: char)
    ensures Digit(c).Some? ==> Digit(c).value < 16 && c != '+'
  {
  }

  /** A `\u` escape cut short still yields at most one character, and never a closing brace it would have stood for. */
  lemma PartialHex(digits: string, m: nat)
    requires FourDigits(digits) && m < 4
    ensures Unescape("\\u" + digits[..m]) == HexChar(digits[..m])
    ensures Digits(digits) == Some('}' as nat) ==> HexChar(digits[..m]) != "}"
  {
    var s := "\\u" + digits[..m];
    assert s[2..] == digits[..m] && s[2 + m..] == "";
    var a, b, c, d := digits[0], digits[1], digits[2], digits[3];
    assert digits == [a] + [b] + [c] + [d];
    assert digits[..m] == if m == 0 then "" else if m == 1 then [a] else if m == 2 then [a] + [b] else [a] + [b] + [c];
    BraceDigits(a, b, c, d);
    DigitBounds(a);
    hide Digits, Digit;
  }

  /** A pair cut short yields at most what its second half, cut short, does. */
  lemma PartialPair(high: string, low: string, n: nat)
    requires FourDigits(high) && FourDigits(low) && HexChar(high) == "" && n < 12
    ensures |Unescape(("\\u" + high + "\\u" + low)[..n])| <= 1
  {
    var whole := "\\u" + high + "\\u" + low;
    if n >= 6 {
      var rest := ("\\u" + low)[..n - 6];
      assert whole[..n] == "\\u" + high + rest;
      UnescapeHex(high, rest);
      if n >= 8 {
        assert rest == "\\u" + low[..n - 8];
        PartialHex(low, n - 8);
      } else {
        assert rest == if n == 6 then "" else "\\";
      }
    } else if n >= 2 {
      assert whole[..n] == "\\u" + high[..n - 2];
      PartialHex(high, n - 2);
    }
  }

  lemma PartialUnit(u: Unit, p: string)
    requires WellFormed(u) && p <= WireOf(u) && p != WireOf(u)
    ensures |Unescape(p)| <= 1 && (u.c == '}' ==> Unescape(p) != "}")
  {
    if u.Pair? {
      SurrogatesVanish(u.c, u.high, u.low);
      assert p == WireOf(u)[..|p|];
      PartialPair(u.high, u.low, |p|);
    } else if |p| >= 2 {
      assert u.Hex?;
      assert p == "\\u" + u.digits[..|p| - 2];
      PartialHex(u.digits, |p| - 2);
    }
  }

  lemma PrefixAfterFirst(c: char, s: string, t: string)
    ensures [c] + s <= [c] + t ==> s <= t
  {
    if [c] + s <= [c] + t {
      assert forall i :: 0 <= i < |s| ==> s[i] == ([c] + s)[i + 1] && t[i] == ([c] + t)[i + 1];
    }
  }

  /** The first unit of an escaped text and the rest, and where a prefix ends. */
  lemma FirstUnit(units: seq<Unit>, p: string)
    requires AllWellFormed(units) && units != [] && p <= Wire(units)
    ensures Wire(units) == WireOf(units[0]) + Wire(units[1..]) && Text(units) == [units[0].c] + Text(units[1..])
    ensures WellFormed(units[0]) && AllWellFormed(units[1..])
    ensures var u := units[0];
            if |p| < |WireOf(u)| then p <= WireOf(u) && p != WireOf(u)
            else p == WireOf(u) + p[|WireOf(u)|..] && p[|WireOf(u)|..] <= Wire(units[1..]) &&
                 (p != Wire(units) ==> p[|WireOf(u)|..] != Wire(units[1..]))
  {
    hide WellFormed, WireOf;
    assert units[0] in units;
    PrefixOfConcat(p, WireOf(units[0]), Wire(units[1..]));
  }

  /** A part of an escaped text decodes to no more characters than were written. */
  lemma {:induction false} DecodesToNoMore(units: seq<Unit>, p: string)
    requires AllWellFormed(units) && p <= Wire(units)
    ensures |Unescape(p)| <= |units|
  {
    if units != [] {
      var u, rest := units[0], units[1..];
      FirstUnit(units, p);
      hide Unescape, AllWellFormed, WellFormed, WireOf, Wire, Text;
      if |p| < |WireOf(u)| {
        PartialUnit(u, p);
      } else {
        var q := p[|WireOf(u)|..];
        UnitDecodes(u, q);
        DecodesToNoMore(rest, q);
      }
    }
  }

  lemma {:induction false} TruncatedIsNotWhole(units: seq<Unit>, p: string)
    requires AllWellFormed(units) && units != []
    requires p <= Wire(units) && p != Wire(units) && units[|units| - 1].c == '}'
    ensures !(Text(units) <= Unescape(p))
  {
    var u, rest := units[0], units[1..];
    FirstUnit(units, p);
    TextLength(rest);
    assert rest == [] ==> !u.Pair? && Text(rest) == "";
    hide Unescape, AllWellFormed, WellFormed, WireOf, Wire, Text;
    if |p| < |WireOf(u)| {
      PartialUnit(u, p);
    } else {
      var q := p[|WireOf(u)|..];
      UnitDecodes(u, q);
      if u.Pair? {
        DecodesToNoMore(rest, q);
      } else {
        TruncatedIsNotWhole(rest, q);
        PrefixAfterFirst(u.c, Text(rest), Unescape(q));
      }
    }
  }

  /**
   A text that has lost a character to a surrogate pair is not found again in what is left of it, whatever
   follows: `lost` are the characters by which the two are out of step, and none of them can be the last one.
   */
  lemma {:induction false} LostIsNotFound(units: seq<Unit>, lost: string, x: string)
    requires AllWellFormed(units) && units != [] && units[|units| - 1].c == '}'
    requires '}' !in lost && (lost != "" || exists u :: u in units && u.Pair?)
    ensures !(lost + Text(units) <= Survivors(units) + x)
  {
    var u, rest := units[0], units[1..];
    assert u in units && (u.Pair? ==> u.c != '}') && (rest == [] ==> u.c == '}');
    assert forall v :: v in units ==> v == u || v in rest;
    hide WellFormed;
    if lost + Text(units) <= Survivors(units) + x {
      LostSteps(units, lost, x);
      if !u.Pair? && lost != "" {
        assert lost[0] == u.c;
      }
      if rest != [] {
        LostIsNotFound(rest, if u.Pair? then lost + [u.c] else (lost + [u.c])[1..], x);
      }
    }
  }

  /** Both sides without their first character, or, at a pair, the left side as it stands. */
  lemma LostSteps(units: seq<Unit>, lost: string, x: string)
    requires units != [] && lost + Text(units) <= Survivors(units) + x
    ensures var u, rest := units[0], units[1..];
            if u.Pair? then lost + [u.c] + Text(rest) <= Survivors(rest) + x
            else (lost + [u.c])[0] == u.c && (lost + [u.c])[1..] + Text(rest) <= Survivors(rest) + x
  {
    var u, rest := units[0], units[1..];
    var text, survivors := Text(rest), Survivors(rest);
    hide Text, Survivors;
    assert Text(units) == [u.c] + text by { TextSplit(units); }
    assert Survivors(units) == (if u.Pair? then "" else [u.c]) + survivors by { TextSplit(units); }
    Associates(lost, [u.c], text);
    if u.Pair? {
      assert "" + survivors == survivors;
    } else {
      Associates([u.c], survivors, x);
      QueueStep(lost + [u.c], text, u.c, survivors + x);
    }
  }

  lemma TextSplit(units: seq<Unit>)
    requires units != []
    ensures Text(units) == [units[0].c] + Text(units[1..])
    ensures Survivors(units) == (if units[0].Pair? then "" else [units[0].c]) + Survivors(units[1..])
  {
  }

  lemma QueueStep(queue: string, text: string, c: char, after: string)
    requires queue != "" && queue + text <= [c] + after
    ensures queue[0] == c && queue[1..] + text <= after
  {
    assert queue + text == [queue[0]] + (queue[1..] + text);
    assert (queue + text)[0] == ([c] + after)[0];
    PrefixAfterFirst(c, queue[1..] + text, after);
  }

  lemma PrefixOfConcat<T>(p: seq<T>, s: seq<T>, t: seq<T>)
    requires p <= s + t
    ensures |p| <= |s| ==> p <= s
    ensures |p| >= |s| ==> p == s + p[|s|..] && p[|s|..] <= t
  {
    if |p| >= |s| {
      assert p[|s|..] == (s + t)[..|p|][|s|..] == t[..|p| - |s|];
    }
  }

  lemma {:induction false} TextLength(units: seq<Unit>)
    ensures |Text(units)| == |units|
  {
    if units != [] {
      TextLength(units[1..]);
    }
  }

  lemma {:induction false} LastOfText(units: seq<Unit>)
    requires units != []
    ensures |Text(units)| == |units| && Text(units)[|units| - 1] == units[|units| - 1].c
  {
    TextLength(units);
    if |units| > 1 {
      LastOfText(units[1..]);
    }
  }

  // ---- the round trip of a page ----

  /** The window is the whole rest of the page, or ends between two characters of the tail. */
  predicate CleanCut(wire: string, tail: string)
    requires Bytes(wire) <= WINDOW
  {
    Bytes(wire + tail) <= WINDOW || Boundary(tail, WINDOW - Bytes(wire)).Some?
  }

  /** The part of the tail that is in the window. */
  function TailInWindow(wire: string, tail: string): string
    requires Bytes(wire) <= WINDOW && CleanCut(wire, tail)
  {
    if Bytes(wire + tail) <= WINDOW then tail else tail[..Boundary(tail, WINDOW - Bytes(wire)).value]
  }

  function PageOf(before: string, wire: string, tail: string): string { before + ANCHOR[..|ANCHOR| - 1] + wire + tail }

  lemma PageParts(before: string, wire: string, tail: string)
    requires wire != "" && wire[0] == '{'
    ensures var page := PageOf(before, wire, tail);
            OccursAt(page, ANCHOR, |before|) && page[|before| + |ANCHOR| - 1..] == wire + tail
  {
    var page := PageOf(before, wire, tail);
    assert page[|before|..|before| + |ANCHOR|] == ANCHOR[..|ANCHOR| - 1] + ['{'];
    assert ANCHOR[..|ANCHOR| - 1] + ['{'] == ANCHOR;
  }

  /** A wire that fits is in the window with its part of the tail, or there is no window. */
  lemma WindowOfFitting(wire: string, tail: string)
    requires Bytes(wire) <= WINDOW
    ensures FirstBytes(wire + tail, WINDOW) ==
            if CleanCut(wire, tail) then Some(wire + TailInWindow(wire, tail)) else None
  {
    BytesConcat(wire, tail);
    BoundaryBeyond(wire, tail, WINDOW);
    hide Bytes, Boundary;
    var k := Boundary(tail, WINDOW - Bytes(wire));
    if k.Some? {
      TakeOfConcat(wire, tail, k.value);
    }
  }

  /** A wire that does not fit leaves a proper part of itself in the window, if anything. */
  lemma WindowOfLarge(wire: string, tail: string)
    requires Bytes(wire) > WINDOW
    ensures var window := FirstBytes(wire + tail, WINDOW);
            window.Some? ==> window.value <= wire && window.value != wire
  {
    BytesConcat(wire, tail);
    BoundaryWithin(wire, tail, WINDOW);
    hide Bytes, Boundary;
    var k := Boundary(wire, WINDOW);
    if k.Some? {
      TakeWithin(wire, tail, k.value);
    }
  }

  /** An object that the surviving characters make up is returned whenever the wire form is in the window whole. */
  lemma SurvivingObject(ts: seq<Token>, units: seq<Unit>, before: string, tail: string)
    requires IsObject(ts) && AllWellFormed(units) && Survivors(units) == TextOf(ts)
    requires units != [] && units[0] == Plain('{') && Bytes(Wire(units)) <= WINDOW && CleanCut(Wire(units), tail)
    ensures var page := PageOf(before, Wire(units), tail);
            OccursAt(page, ANCHOR, |before|) && Extracted(page, |before|) == Some(TextOf(ts))
  {
    assert Wire(units)[0] == '{';
    PageParts(before, Wire(units), tail);
    hide Unescape, AllWellFormed, CleanCut, TailInWindow, FirstBytes, PageOf, Bytes, Wire, Survivors;
    WindowOfFitting(Wire(units), tail);
    UnitsDecode(units, TailInWindow(Wire(units), tail));
    ObjectIsFound(ts, Unescape(TailInWindow(Wire(units), tail)));
  }

  /**
   The round trip of a page: an object written behind the first anchor, in any escaping and whatever surrounds it,
   is what the extraction returns if and only if no character of it is written as a surrogate pair, its wire form
   fits the window in bytes, and the window does not end inside a character.
   */
  lemma ExtractionRoundTrips(ts: seq<Token>, units: seq<Unit>, before: string, tail: string)
    requires IsObject(ts) && AllWellFormed(units) && Text(units) == TextOf(ts) && units != [] && units[0].Plain?
    ensures var page := PageOf(before, Wire(units), tail);
            OccursAt(page, ANCHOR, |before|) &&
            (Extracted(page, |before|) == Some(TextOf(ts)) <==>
             (forall u :: u in units ==> !u.Pair?) && Bytes(Wire(units)) <= WINDOW && CleanCut(Wire(units), tail)) &&
            (Bytes(Wire(units)) <= WINDOW && !CleanCut(Wire(units), tail) ==> Extracted(page, |before|) == None)
  {
    ObjectIsFound(ts, "");
    assert units[0] == Plain('{') by { assert Text(units)[0] == units[0].c; }
    assert Wire(units)[0] == '{';
    PageParts(before, Wire(units), tail);
    LastOfObject(ts, units);
    hide Unescape, AllWellFormed, CleanCut, TailInWindow, FirstBytes, PageOf, Bytes, Wire, Text, Survivors, IsObject;
    if Bytes(Wire(units)) > WINDOW {
      WindowOfLarge(Wire(units), tail);
      var window := FirstBytes(Wire(units) + tail, WINDOW);
      if window.Some? {
        TruncatedIsNotWhole(units, window.value);
      }
    } else {
      WindowOfFitting(Wire(units), tail);
      if CleanCut(Wire(units), tail) {
        var rest := TailInWindow(Wire(units), tail);
        UnitsDecode(units, rest);
        if exists u :: u in units && u.Pair? {
          LostIsNotFound(units, "", Unescape(rest));
          assert "" + Text(units) == Text(units);
        } else {
          SurvivorsLength(units);
          SurvivingObject(ts, units, before, tail);
        }
      }
    }
  }

  lemma LastOfObject(ts: seq<Token>, units: seq<Unit>)
    requires IsObject(ts) && Text(units) == TextOf(ts) && units != []
    ensures units[|units| - 1].c == '}'
  {
    ClosesEndShut(ts[1..], 1);
    TextSplits(ts);
    LastOfText(units);
  }

  lemma {:induction false} BytesOfAscii(s: string)
    requires forall i :: 0 <= i < |s| ==> s[i] as nat < 0x80
    ensures Bytes(s) == |s|
  {
    if s != "" {
      BytesOfAscii(s[1..]);
    }
  }

  const FILLER: string := seq(WINDOW - 3, _ => 'a')

  /** A page whose window ends inside a two-byte character: the two-character object at its front is not returned. */
  lemma CutInsideCharacter()
    ensures var page := PageOf("", "{}", FILLER + "\U{e9}");
            OccursAt(page, ANCHOR, 0) && Extracted(page, 0) == None && Bytes("{}" + FILLER) == 98_303
  {
    var ts, units := [Open, Shut], [Plain('{'), Plain('}')];
    BracesAreObject();
    BytesOfAscii("{}");
    BytesOfAscii(FILLER);
    FillerIsCut();
    hide Bytes, Boundary, IsObject, Wire, Text, TextOf, PageOf, Extracted, OccursAt;
    BytesConcat("{}", FILLER + "\U{e9}");
    BytesConcat("{}", FILLER);
    ExtractionRoundTrips(ts, units, "", FILLER + "\U{e9}");
  }

  lemma BracesAreObject()
    ensures var ts, units := [Open, Shut], [Plain('{'), Plain('}')];
            IsObject(ts) && TextOf(ts) == Text(units) == Wire(units) == "{}"
  {
    var ts, units := [Open, Shut], [Plain('{'), Plain('}')];
    assert ts[1..] == [Shut] && [Shut][1..] == [];
    assert TextOf(ts) == "{" + ("}" + TextOf([])) == "{}";
    assert units[1..] == [Plain('}')] && [Plain('}')][1..] == [];
  }

  lemma FillerIsCut()
    ensures Bytes(FILLER + "\U{e9}") == WINDOW - 1 && Boundary(FILLER + "\U{e9}", WINDOW - 2) == None
  {
    BytesOfAscii(FILLER);
    BytesConcat(FILLER, "\U{e9}");
    BoundaryBeyond(FILLER, "\U{e9}", WINDOW - 2);
    assert "\U{e9}"[1..] == "" && Bytes("\U{e9}") == 2 && Boundary("\U{e9}", 1) == None;
  }

  const EMOJI: Unit := Pair(0x1_F600 as char, "d83d", "de00")

  function EmojiObject(): seq<Unit> { [Plain('{'), Short('"', '"'), EMOJI, Short('"', '"'), Plain('}')] }

  /** A page whose object loses the character written as a pair: what is returned is an object, but another one. */
  lemma PairInPage()
    ensures var page := PageOf("", "{\\\"\\ud83d\\ude00\\\"}", "");
            OccursAt(page, ANCHOR, 0) && Extracted(page, 0) == Some("{\"\"}")
  {
    PairUnits();
    EmojiIsWellFormed();
    EmptyStringObject();
    ShortFits(Wire(EmojiObject()));
    assert EmojiObject() != [] && EmojiObject()[0] == Plain('{');
    hide *;
    SurvivingObject([Open, Str([]), Shut], EmojiObject(), "", "");
  }

  lemma EmojiIsWellFormed()
    ensures AllWellFormed(EmojiObject())
  {
    HexD83d();
    hide Digits;
  }

  lemma {:induction false} BytesAtMost(s: string)
    ensures Bytes(s) <= 4 * |s|
  {
    if s != "" {
      BytesAtMost(s[1..]);
    }
  }

  lemma ShortFits(wire: string)
    requires |wire| <= 1_000
    ensures Bytes(wire) <= WINDOW && CleanCut(wire, "")
  {
    BytesAtMost(wire);
    assert wire + "" == wire;
    hide Bytes;
  }

  lemma UnitAhead(u: Unit, rest: seq<Unit>)
    ensures Wire([u] + rest) == WireOf(u) + Wire(rest)
    ensures Survivors([u] + rest) == (if u.Pair? then "" else [u.c]) + Survivors(rest)
  {
    assert ([u] + rest)[1..] == rest;
  }

  lemma PairUnits()
    ensures Wire(EmojiObject()) == "{\\\"\\ud83d\\ude00\\\"}" && Survivors(EmojiObject()) == "{\"\"}"
  {
    var quote, shut := Short('"', '"'), Plain('}');
    hide Wire, Survivors;
    UnitAhead(shut, []);
    UnitAhead(quote, [shut] + []);
    UnitAhead(EMOJI, [quote] + ([shut] + []));
    UnitAhead(quote, [EMOJI] + ([quote] + ([shut] + [])));
    UnitAhead(Plain('{'), [quote] + ([EMOJI] + ([quote] + ([shut] + []))));
    assert EmojiObject() == [Plain('{')] + ([quote] + ([EMOJI] + ([quote] + ([shut] + []))));
    assert Wire([]) == "" && Survivors([]) == "" by { NoUnits(""); }
    assert WireOf(EMOJI) == "\\ud83d\\ude00";
  }

  lemma EmptyStringObject()
    ensures var ts := [Open, Str([]), Shut];
            IsObject(ts) && TextOf(ts) == "{\"\"}"
  {
    var ts := [Open, Str([]), Shut];
    assert ts[1..] == [Str([]), Shut] && [Str([]), Shut][1..] == [Shut] && [Shut][1..] == [];
  }
}

/**
 Percent-decoding of text (section 2.1 of RFC 3986): each run of ASCII characters is decoded
 to bytes, and those are read as UTF-8 with U+FFFD for every malformed part.
 */
module PercentDecoding {

  type Byte = b: int | 0 <= b < 256

  const REPLACEMENT: char := '\U{FFFD}'

  // ---- UTF-8 ---------------------------------------------------------------------

  predicate IsContinuation(b: Byte) {
    0x80 <= b < 0xC0
  }

  /** The second bytes that may follow a lead byte of three or four. */
  predicate IsSecond(lead: Byte, b: Byte) {
    && IsContinuation(b)
    && (lead == 0xE0 ==> b >= 0xA0) && (lead == 0xED ==> b < 0xA0)
    && (lead == 0xF0 ==> b >= 0x90) && (lead == 0xF4 ==> b < 0x90)
  }

  /** The six payload bits of a continuation byte. */
  function Six(b: Byte): (bits: int)
    requires IsContinuation(b)
    ensures 0 <= bits < 64
  {
    b as int - 0x80
  }

  /** The first character of a nonempty byte string, and how many bytes it takes. */
  function First(bytes: seq<Byte>): (r: (char, nat))
    requires bytes != []
    ensures 1 <= r.1 <= |bytes|
    ensures bytes[0] < 0x80 ==> r == (bytes[0] as char, 1)
  {
    var n, lead: int := |bytes|, bytes[0];
    if lead < 0x80 then (lead as char, 1)
    else if 0xC2 <= lead < 0xE0 then
      if n > 1 && IsContinuation(bytes[1]) then (((lead - 0xC0) * 64 + Six(bytes[1])) as char, 2)
      else (REPLACEMENT, 1)
    else if 0xE0 <= lead < 0xF0 then
      if n == 1 || !IsSecond(lead, bytes[1]) then (REPLACEMENT, 1)
      else if n == 2 || !IsContinuation(bytes[2]) then (REPLACEMENT, 2)
      else (((lead - 0xE0) * 4096 + Six(bytes[1]) * 64 + Six(bytes[2])) as char, 3)
    else if 0xF0 <= lead < 0xF5 then
      if n == 1 || !IsSecond(lead, bytes[1]) then (REPLACEMENT, 1)
      else if n == 2 || !IsContinuation(bytes[2]) then (REPLACEMENT, 2)
      else if n == 3 || !IsContinuation(bytes[3]) then (REPLACEMENT, 3)
      else (((lead - 0xF0) * 262144 + Six(bytes[1]) * 4096 + Six(bytes[2]) * 64 + Six(bytes[3])) as char, 4)
    else (REPLACEMENT, 1)
  }

  function FromUtf8(bytes: seq<Byte>): (text: string)
    ensures |text| <= |bytes|
  {
    if bytes == [] then "" else [First(bytes).0] + FromUtf8(bytes[First(bytes).1..])
  }

  // ---- Percent-encoding ----------------------------------------------------------

  predicate IsAscii(c: char) {
    c as int < 0x80
  }

  predicate IsHexDigit(c: char) {
    '0' <= c <= '9' || 'a' <= c <= 'f' || 'A' <= c <= 'F'
  }

  function HexValue(c: char): (v: int)
    requires IsHexDigit(c)
    ensures 0 <= v < 16
  {
    if c <= '9' then c as int - '0' as int
    else if c <= 'F' then c as int - 'A' as int + 10
    else c as int - 'a' as int + 10
  }

  predicate IsEscape(text: string, i: nat) {
    i + 2 < |text| && text[i] == '%' && IsHexDigit(text[i + 1]) && IsHexDigit(text[i + 2])
  }

  function CodeOf(c: char): Byte
    requires IsAscii(c)
  {
    c as int
  }

  function ToBytes(run: string): (bytes: seq<Byte>)
    requires forall c :: c in run ==> IsAscii(c)
    ensures |bytes| <= |run|
  {
    if run == "" then []
    else if IsEscape(run, 0) then [HexValue(run[1]) * 16 + HexValue(run[2])] + ToBytes(run[3..])
    else
      assert run[0] in run && IsAscii(run[0]);
      [CodeOf(run[0])] + ToBytes(run[1..])
  }

  /** How many characters at the start of the text are ASCII. */
  function AsciiPrefix(text: string): (n: nat)
    ensures n <= |text| && forall c :: c in text[..n] ==> IsAscii(c)
    ensures n < |text| ==> text[n] in text && !IsAscii(text[n])
  {
    if text == "" || !IsAscii(text[0]) then 0
    else
      assert text[..1 + AsciiPrefix(text[1..])] == [text[0]] + text[1..][..AsciiPrefix(text[1..])];
      1 + AsciiPrefix(text[1..])
  }

  function DecodeRun(run: string): (text: string)
    requires forall c :: c in run ==> IsAscii(c)
    ensures |text| <= |run|
  {
    FromUtf8(ToBytes(run))
  }

  function Unquote(text: string): (decoded: string)
    ensures |decoded| <= |text|
  {
    var n := AsciiPrefix(text);
    if n == |text| then DecodeRun(text)
    else DecodeRun(text[..n]) + [text[n]] + Unquote(text[n + 1..])
  }

  // ---- A decoding that changes anything shortens ----------------------------------

  lemma {:induction false} RunStaysOrShrinks(run: string)
    requires forall c :: c in run ==> IsAscii(c)
    ensures DecodeRun(run) == run || |ToBytes(run)| < |run|
  {
    if run != "" && !IsEscape(run, 0) {
      RunStaysOrShrinks(run[1..]);
      assert ToBytes(run)[1..] == ToBytes(run[1..]);
      if DecodeRun(run[1..]) == run[1..] {
        assert run[0] in run;
        assert DecodeRun(run) == [run[0]] + run[1..];
      }
    }
  }

  lemma PlainHeadStays(run: string)
    requires (forall c :: c in run ==> IsAscii(c)) && run != "" && !IsEscape(run, 0)
    ensures DecodeRun(run) == [run[0]] + DecodeRun(run[1..])
  {
    assert run[0] in run;
    assert ToBytes(run)[1..] == ToBytes(run[1..]);
  }

  lemma SameTail(c: char, a: string, b: string)
    ensures [c] + a == [c] + b <==> a == b
  {
    if [c] + a == [c] + b {
      assert a == ([c] + a)[1..] && b == ([c] + b)[1..];
    }
  }

  lemma EscapeShortens(run: string)
    requires (forall c :: c in run ==> IsAscii(c)) && IsEscape(run, 0)
    ensures |DecodeRun(run)| < |run|
  {
  }

  lemma CutHead(run: string)
    requires run != ""
    ensures run == [run[0]] + run[1..] && run[..0] == "" && !HasEscape("")
  {
  }

  /** A run is left alone exactly when it holds no escape. */
  lemma {:induction false} RunStaysIff(run: string)
    requires forall c :: c in run ==> IsAscii(c)
    ensures DecodeRun(run) == run <==> !HasEscape(run)
  {
    if run == "" {
    } else if IsEscape(run, 0) {
      EscapeShortens(run);
    } else {
      var rest := run[1..];
      RunStaysIff(rest);
      EscapesSplit(run, 0);
      PlainHeadStays(run);
      CutHead(run);
      SameTail(run[0], DecodeRun(rest), rest);
    }
  }

  ghost predicate HasEscape(text: string) {
    exists i: nat :: IsEscape(text, i)
  }

  /** An escape lies before or after a place that is not inside any. */
  lemma EscapesSplit(text: string, n: nat)
    requires n < |text| && (!IsAscii(text[n]) || (n == 0 && !IsEscape(text, 0)))
    ensures HasEscape(text) <==> HasEscape(text[..n]) || HasEscape(text[n + 1..])
  {
    var left, right := text[..n], text[n + 1..];
    if i: nat :| IsEscape(text, i) {
      if i < n {
        assert IsEscape(left, i);
      } else {
        assert IsEscape(right, i - n - 1);
      }
    }
    if i: nat :| IsEscape(left, i) {
      assert IsEscape(text, i);
    }
    if i: nat :| IsEscape(right, i) {
      assert IsEscape(text, n + 1 + i);
    }
  }

  /** Two texts that were decoded part by part, with a character between the parts. */
  lemma PartsAgree(a: string, b: string, c: char, x: string, y: string)
    requires |a| <= |x| && |b| <= |y|
    ensures a + [c] + b == x + [c] + y <==> a == x && b == y
    ensures |a + [c] + b| < |x + [c] + y| <==> |a| < |x| || |b| < |y|
  {
    var left, right := a + [c] + b, x + [c] + y;
    if left == right {
      assert |left| == |a| + 1 + |b| && |right| == |x| + 1 + |y|;
      assert a == left[..|a|] && x == right[..|x|];
      assert b == left[|a| + 1..] && y == right[|x| + 1..];
    }
  }

  lemma CutAt(text: string, n: nat)
    requires n < |text|
    ensures text == text[..n] + [text[n]] + text[n + 1..]
  {
  }

  lemma UnquoteParts(text: string, n: nat)
    requires n == AsciiPrefix(text) < |text|
    ensures Unquote(text) == DecodeRun(text[..n]) + [text[n]] + Unquote(text[n + 1..])
  {
  }

  /** Decoding leaves a text alone exactly when it holds no escape, and otherwise shortens it. */
  lemma {:induction false} UnquoteStaysIff(text: string)
    ensures Unquote(text) == text <==> !HasEscape(text)
    ensures Unquote(text) == text || |Unquote(text)| < |text|
    decreases |text|
  {
    var n := AsciiPrefix(text);
    var run := text[..n];
    RunStaysOrShrinks(run);
    RunStaysIff(run);
    if n == |text| {
      assert run == text;
    } else {
      var rest := text[n + 1..];
      UnquoteStaysIff(rest);
      EscapesSplit(text, n);
      UnquoteParts(text, n);
      CutAt(text, n);
      PartsAgree(DecodeRun(run), Unquote(rest), text[n], run, rest);
    }
  }

  // ---- Decoding undoes encoding ---------------------------------------------------

  function Lead(x: int): (b: Byte)
    requires 0 <= x < 256
  {
    x
  }

  function Trail(x: int): (b: Byte)
    requires 0 <= x
    ensures IsContinuation(b) && Six(b) == x % 64
  {
    0x80 + x % 64
  }

  function Utf8Of(c: char): (bytes: seq<Byte>)
    ensures bytes != []
  {
    var x := c as int;
    if x < 0x80 then [Lead(x)]
    else if x < 0x800 then [Lead(0xC0 + x / 64), Trail(x)]
    else if x < 0x1_0000 then [Lead(0xE0 + x / 4096), Trail(x / 64), Trail(x)]
    else [Lead(0xF0 + x / 262144), Trail(x / 4096), Trail(x / 64), Trail(x)]
  }

  function ToUtf8(text: string): seq<Byte> {
    if text == "" then [] else Utf8Of(text[0]) + ToUtf8(text[1..])
  }

  /** A hex digit, in lower or in upper case. */
  function HexDigit(v: int, lower: bool): (c: char)
    requires 0 <= v < 16
    ensures IsHexDigit(c) && HexValue(c) == v && IsAscii(c)
  {
    if v < 10 then ('0' as int + v) as char
    else ((if lower then 'a' else 'A') as int + v - 10) as char
  }

  /** How a character is spelled: plainly, or as escapes with a case chosen for each digit.
      Digits without a choice are in upper case. */
  datatype Spelling = Plain | Escaped(lower: seq<bool>)

  predicate IsLower(lower: seq<bool>, i: nat) {
    i < |lower| && lower[i]
  }

  function Escape(b: Byte, lower: seq<bool>, at: nat): string {
    ['%', HexDigit(b as int / 16, IsLower(lower, at)), HexDigit(b as int % 16, IsLower(lower, at + 1))]
  }

  function Escapes(bytes: seq<Byte>, lower: seq<bool>, at: nat): (run: string)
    ensures forall c :: c in run ==> IsAscii(c)
  {
    if bytes == [] then "" else Escape(bytes[0], lower, at) + Escapes(bytes[1..], lower, at + 2)
  }

  /** A percent sign is never spelled plainly. */
  function Piece(c: char, spelling: Spelling): string {
    match spelling
    case Plain => if c == '%' then Escapes(Utf8Of(c), [], 0) else [c]
    case Escaped(lower) => Escapes(Utf8Of(c), lower, 0)
  }

  /** A text with each character spelled its own way. */
  function Spell(text: string, spellings: seq<Spelling>): string
    requires |spellings| == |text|
  {
    if text == "" then "" else Piece(text[0], spellings[0]) + Spell(text[1..], spellings[1..])
  }

  lemma SixtyFours(x: int)
    requires 0 <= x < 0x11_0000
    ensures x == x / 64 * 64 + x % 64
    ensures x == x / 4096 * 4096 + x / 64 % 64 * 64 + x % 64
    ensures x == x / 262144 * 262144 + x / 4096 % 64 * 4096 + x / 64 % 64 * 64 + x % 64
  {
    assert x / 64 / 64 == x / 4096;
    assert x / 4096 / 64 == x / 262144;
  }

  lemma FirstOfEncoded(c: char, rest: seq<Byte>)
    ensures First(Utf8Of(c) + rest) == (c, |Utf8Of(c)|)
  {
    SixtyFours(c as int);
  }

  /** Two byte strings that begin alike. */
  predicate BeginAlike(a: seq<Byte>, b: seq<Byte>, k: nat) {
    k <= |a| && k <= |b| && a[..k] == b[..k]
  }

  lemma AlikeAt(a: seq<Byte>, b: seq<Byte>, k: nat, i: nat)
    requires BeginAlike(a, b, k) && i < k
    ensures a[i] == b[i]
  {
    assert a[..k][i] == b[..k][i];
  }

  lemma DividesBack(q: int, r: int)
    requires 0 <= q
    ensures 0 <= r < 64 ==> (q * 64 + r) / 64 == q && (q * 64 + r) % 64 == r
    ensures 0 <= r < 4096 ==> (q * 4096 + r) / 4096 == q
    ensures 0 <= r < 262144 ==> (q * 262144 + r) / 262144 == q
  {
  }

  lemma OfTwo(a: int, b: int)
    requires 2 <= a < 32 && 0 <= b < 64
    ensures Utf8Of((a * 64 + b) as char) == [Lead(0xC0 + a), Lead(0x80 + b)]
  {
    DividesBack(a, b);
  }

  lemma OfThree(a: int, b: int, c: int)
    requires 0 <= a < 16 && 0 <= b < 64 && 0 <= c < 64 && (a == 0 ==> b >= 32) && (a == 13 ==> b < 32)
    ensures Utf8Of((a * 4096 + b * 64 + c) as char) == [Lead(0xE0 + a), Lead(0x80 + b), Lead(0x80 + c)]
  {
    DividesBack(a, b * 64 + c);
    DividesBack(a * 64 + b, c);
    DividesBack(a, b);
  }

  lemma OfFour(a: int, b: int, c: int, d: int)
    requires 0 <= a < 5 && 0 <= b < 64 && 0 <= c < 64 && 0 <= d < 64 && (a == 0 ==> b >= 16) && (a == 4 ==> b < 16)
    ensures Utf8Of((a * 262144 + b * 4096 + c * 64 + d) as char) == [Lead(0xF0 + a), Lead(0x80 + b), Lead(0x80 + c), Lead(0x80 + d)]
  {
    var x := a * 262144 + b * 4096 + c * 64 + d;
    DividesBack(a, b * 4096 + c * 64 + d);
    DividesBack(a * 64 + b, c * 64 + d);
    DividesBack(a * 4096 + b * 64 + c, d);
    DividesBack(a, b);
    DividesBack(a * 64 + b, c);
    assert x / 262144 == a && x / 4096 == a * 64 + b && x / 64 == (a * 64 + b) * 64 + c;
  }

  /** A character is read only where its own bytes stand; the rest is malformed. */
  lemma FirstIsItsEncoding(bytes: seq<Byte>)
    requires bytes != []
    ensures var (c, n) := First(bytes); c == REPLACEMENT || bytes[..n] == Utf8Of(c)
  {
    var (c, n) := First(bytes);
    var lead: int := bytes[0];
    if n == 2 && c != REPLACEMENT {
      OfTwo(lead - 0xC0, Six(bytes[1]));
    } else if n == 3 && c != REPLACEMENT {
      OfThree(lead - 0xE0, Six(bytes[1]), Six(bytes[2]));
    } else if n == 4 {
      OfFour(lead - 0xF0, Six(bytes[1]), Six(bytes[2]), Six(bytes[3]));
    }
  }

  /** A malformed part is as long as what it has in common with any character's bytes ... */
  lemma MalformedIsLongest(bytes: seq<Byte>, d: char, k: nat)
    requires bytes != [] && BeginAlike(bytes, Utf8Of(d), k)
    ensures First(bytes).1 >= k
  {
    SixtyFours(d as int);
    if k > 1 {
      AlikeAt(bytes, Utf8Of(d), k, 0);
      AlikeAt(bytes, Utf8Of(d), k, 1);
      if k > 2 {
        AlikeAt(bytes, Utf8Of(d), k, 2);
        if k > 3 {
          AlikeAt(bytes, Utf8Of(d), k, 3);
        }
      }
    }
  }

  lemma BeginsThree(lead: Byte, second: Byte, third: Byte) returns (d: char)
    requires 0xE0 <= lead < 0xF0 && IsSecond(lead, second) && IsContinuation(third)
    ensures Utf8Of(d) == [lead, second, third]
  {
    OfThree(lead - 0xE0, Six(second), Six(third));
    d := ((lead - 0xE0) * 4096 + Six(second) * 64 + Six(third)) as char;
  }

  lemma BeginsFour(lead: Byte, second: Byte, third: Byte) returns (d: char)
    requires 0xF0 <= lead < 0xF5 && IsSecond(lead, second) && IsContinuation(third)
    ensures Utf8Of(d) == [lead, second, third, 0x80]
  {
    OfFour(lead - 0xF0, Six(second), Six(third), 0);
    d := ((lead - 0xF0) * 262144 + Six(second) * 4096 + Six(third) * 64) as char;
  }

  /** ... and no longer: a part of several bytes is the beginning of some character's. */
  lemma MalformedIsBeginning(bytes: seq<Byte>) returns (d: char)
    requires bytes != [] && First(bytes).1 > 1
    ensures BeginAlike(bytes, Utf8Of(d), First(bytes).1)
  {
    var (c, n) := First(bytes);
    if c != REPLACEMENT {
      FirstIsItsEncoding(bytes);
      d := c;
      assert Utf8Of(c)[..n] == bytes[..n];
    } else if bytes[0] < 0xF0 {
      d := BeginsThree(bytes[0], bytes[1], if n == 3 then bytes[2] else 0x80);
      assert BeginAlike(bytes, Utf8Of(d), n);
    } else {
      d := BeginsFour(bytes[0], bytes[1], if n == 3 then bytes[2] else 0x80);
      assert BeginAlike(bytes, Utf8Of(d), n);
    }
  }

  lemma {:induction false} Utf8RoundTrip(text: string)
    ensures FromUtf8(ToUtf8(text)) == text
  {
    if text != "" {
      var rest := ToUtf8(text[1..]);
      FirstOfEncoded(text[0], rest);
      Utf8RoundTrip(text[1..]);
      assert (Utf8Of(text[0]) + rest)[|Utf8Of(text[0])|..] == rest;
    }
  }

  lemma EscapeIsByte(b: Byte, lower: seq<bool>, at: nat, rest: string)
    requires forall c :: c in rest ==> IsAscii(c)
    ensures forall c :: c in Escape(b, lower, at) + rest ==> IsAscii(c)
    ensures ToBytes(Escape(b, lower, at) + rest) == [b] + ToBytes(rest)
  {
    var run := Escape(b, lower, at) + rest;
    assert IsEscape(run, 0) && run[3..] == rest;
    assert HexValue(run[1]) * 16 + HexValue(run[2]) == b as int;
  }

  lemma Associate<T>(a: seq<T>, b: seq<T>, c: seq<T>)
    ensures (a + b) + c == a + (b + c)
  {
  }

  lemma {:induction false} EscapesAreBytes(bytes: seq<Byte>, lower: seq<bool>, at: nat, rest: string)
    requires forall c :: c in rest ==> IsAscii(c)
    ensures forall c :: c in Escapes(bytes, lower, at) + rest ==> IsAscii(c)
    ensures ToBytes(Escapes(bytes, lower, at) + rest) == bytes + ToBytes(rest)
  {
    if bytes == [] {
      assert "" + rest == rest;
      assert bytes + ToBytes(rest) == ToBytes(rest);
    } else {
      var tail := Escapes(bytes[1..], lower, at + 2);
      EscapesAreBytes(bytes[1..], lower, at + 2, rest);
      EscapeIsByte(bytes[0], lower, at, tail + rest);
      Associate(Escape(bytes[0], lower, at), tail, rest);
      Associate([bytes[0]], bytes[1..], ToBytes(rest));
      assert [bytes[0]] + bytes[1..] == bytes;
    }
  }

  lemma FirstOfText(c: char, bytes: seq<Byte>)
    ensures FromUtf8(Utf8Of(c) + bytes) == [c] + FromUtf8(bytes)
  {
    FirstOfEncoded(c, bytes);
    assert (Utf8Of(c) + bytes)[|Utf8Of(c)|..] == bytes;
  }

  lemma PlainIsByte(c: char, rest: string)
    requires IsAscii(c) && c != '%' && forall d :: d in rest ==> IsAscii(d)
    ensures forall d :: d in [c] + rest ==> IsAscii(d)
    ensures ToBytes([c] + rest) == Utf8Of(c) + ToBytes(rest)
  {
    assert ([c] + rest)[1..] == rest;
  }

  /** At the head of a run, a spelled character decodes to itself. */
  lemma PieceOfRun(c: char, spelling: Spelling, rest: string)
    requires (forall d :: d in rest ==> IsAscii(d)) && (spelling.Plain? ==> IsAscii(c))
    ensures forall d :: d in Piece(c, spelling) + rest ==> IsAscii(d)
    ensures DecodeRun(Piece(c, spelling) + rest) == [c] + DecodeRun(rest)
  {
    FirstOfText(c, ToBytes(rest));
    if spelling.Plain? && c != '%' {
      PlainIsByte(c, rest);
    } else {
      EscapesAreBytes(Utf8Of(c), if spelling.Plain? then [] else spelling.lower, 0, rest);
    }
  }

  lemma {:induction false} PrefixGrows(piece: string, rest: string)
    requires forall c :: c in piece ==> IsAscii(c)
    ensures AsciiPrefix(piece + rest) == |piece| + AsciiPrefix(rest)
  {
    if piece == "" {
      assert piece + rest == rest;
    } else {
      assert piece[0] in piece && (piece + rest)[1..] == piece[1..] + rest;
      PrefixGrows(piece[1..], rest);
    }
  }

  lemma WholeRun(text: string)
    requires AsciiPrefix(text) == |text|
    ensures (forall c :: c in text ==> IsAscii(c)) && Unquote(text) == DecodeRun(text)
  {
    assert text[..|text|] == text;
  }

  /** The first character of a text that is not ASCII is c, between `run` and `tail`. */
  ghost predicate IsCut(text: string, run: string, c: char, tail: string) {
    var n := AsciiPrefix(text);
    n < |text| && text[..n] == run && text[n] == c && text[n + 1..] == tail && forall d :: d in run ==> IsAscii(d)
  }

  lemma CutDecodes(text: string, run: string, c: char, tail: string)
    requires IsCut(text, run, c, tail)
    ensures Unquote(text) == DecodeRun(run) + [c] + Unquote(tail)
  {
    UnquoteParts(text, |run|);
  }

  lemma CutGrows(piece: string, rest: string, run: string, c: char, tail: string)
    requires IsCut(rest, run, c, tail) && forall d :: d in piece ==> IsAscii(d)
    ensures IsCut(piece + rest, piece + run, c, tail)
  {
    PrefixGrows(piece, rest);
    var whole, k := piece + rest, |piece| + |run|;
    assert whole[..k] == piece + run && whole[k] == c && whole[k + 1..] == tail;
  }

  lemma MoveHead(c: char, a: string, b: string, d: string)
    ensures ([c] + a) + b + d == [c] + (a + b + d)
  {
  }

  lemma PieceBeforeCut(piece: string, c: char, rest: string, run: string, d: char, tail: string)
    requires IsCut(rest, run, d, tail) && forall x :: x in piece + run ==> IsAscii(x)
    requires (forall x :: x in piece ==> IsAscii(x)) && DecodeRun(piece + run) == [c] + DecodeRun(run)
    ensures Unquote(piece + rest) == [c] + Unquote(rest)
  {
    CutGrows(piece, rest, run, d, tail);
    CutDecodes(rest, run, d, tail);
    CutDecodes(piece + rest, piece + run, d, tail);
    MoveHead(c, DecodeRun(run), [d], Unquote(tail));
  }

  lemma AsciiPiece(piece: string, c: char, rest: string)
    requires forall d :: d in piece ==> IsAscii(d)
    requires var n := AsciiPrefix(rest);
             (forall d :: d in piece + rest[..n] ==> IsAscii(d)) && DecodeRun(piece + rest[..n]) == [c] + DecodeRun(rest[..n])
    ensures Unquote(piece + rest) == [c] + Unquote(rest)
  {
    var n := AsciiPrefix(rest);
    if n == |rest| {
      PrefixGrows(piece, rest);
      assert rest[..n] == rest;
      WholeRun(rest);
      WholeRun(piece + rest);
    } else {
      PieceBeforeCut(piece, c, rest, rest[..n], rest[n], rest[n + 1..]);
    }
  }

  lemma PieceDecodes(c: char, spelling: Spelling, rest: string)
    ensures Unquote(Piece(c, spelling) + rest) == [c] + Unquote(rest)
  {
    if spelling.Plain? && !IsAscii(c) {
      var whole := [c] + rest;
      assert AsciiPrefix(whole) == 0 && whole[..0] == "" && whole[1..] == rest;
      UnquoteParts(whole, 0);
      assert DecodeRun("") + [c] == [c];
    } else {
      PieceOfRun(c, spelling, rest[..AsciiPrefix(rest)]);
      PieceOfRun(c, spelling, "");
      assert Piece(c, spelling) + "" == Piece(c, spelling);
      AsciiPiece(Piece(c, spelling), c, rest);
    }
  }

  /** Decoding undoes every spelling of a text, whatever its characters, whichever of them are
      escaped and whatever the case of each digit. */
  lemma {:induction false} DecodingUndoesEncoding(text: string, spellings: seq<Spelling>)
    requires |spellings| == |text|
    ensures Unquote(Spell(text, spellings)) == text
  {
    if text == "" {
      WholeRun("");
    } else {
      PieceDecodes(text[0], spellings[0], Spell(text[1..], spellings[1..]));
      DecodingUndoesEncoding(text[1..], spellings[1..]);
      assert text == [text[0]] + text[1..];
    }
  }

  // ---- The case of the digits -------------------------------------------------------

  /** Position i is one of the two digits of an escape. */
  predicate InEscape(text: string, i: nat) {
    (i >= 1 && IsEscape(text, i - 1)) || (i >= 2 && IsEscape(text, i - 2))
  }

  predicate SameDigit(c: char, d: char) {
    IsHexDigit(c) && IsHexDigit(d) && HexValue(c) == HexValue(d)
  }

  /** The texts differ in the case of digits of escapes at most. */
  ghost predicate SameButCase(a: string, b: string) {
    |a| == |b| && forall i: nat :: i < |a| ==> a[i] == b[i] || (InEscape(a, i) && SameDigit(a[i], b[i]))
  }

  lemma DigitsAreAscii(c: char, d: char)
    requires c == d || SameDigit(c, d)
    ensures IsAscii(c) <==> IsAscii(d)
    ensures IsHexDigit(c) <==> IsHexDigit(d)
    ensures c == '%' <==> d == '%'
  {
  }

  lemma SameTailCase(a: string, b: string, k: nat)
    requires SameButCase(a, b) && 1 <= k <= |a|
    requires if k == 3 then IsEscape(a, 0) else k == 1 && !IsEscape(a, 0)
    ensures SameButCase(a[k..], b[k..])
  {
    var c, d := a[k..], b[k..];
    forall i: nat | i < |c| ensures c[i] == d[i] || (InEscape(c, i) && SameDigit(c[i], d[i])) {
      assert a[i + k] == c[i] && b[i + k] == d[i];
      if a[i + k] != b[i + k] {
        if IsEscape(a, i + k - 1) {
          assert i >= 1 && IsEscape(c, i - 1);
        } else {
          assert IsEscape(a, i + k - 2) && i >= 2 && IsEscape(c, i - 2);
        }
      }
    }
  }

  lemma HeadEscapes(a: string, b: string)
    requires SameButCase(a, b) && a != ""
    ensures IsEscape(a, 0) <==> IsEscape(b, 0)
    ensures a[0] == b[0]
    ensures IsEscape(a, 0) ==> HexValue(a[1]) == HexValue(b[1]) && HexValue(a[2]) == HexValue(b[2])
  {
    if |a| >= 3 {
      DigitsAreAscii(a[1], b[1]);
      DigitsAreAscii(a[2], b[2]);
    }
  }

  lemma {:induction false} SameBytes(a: string, b: string)
    requires SameButCase(a, b) && (forall c :: c in a ==> IsAscii(c)) && (forall c :: c in b ==> IsAscii(c))
    ensures ToBytes(a) == ToBytes(b)
    decreases |a|
  {
    if a != "" {
      HeadEscapes(a, b);
      var k := if IsEscape(a, 0) then 3 else 1;
      SameTailCase(a, b, k);
      SameBytes(a[k..], b[k..]);
    }
  }

  lemma {:induction false} SamePrefix(a: string, b: string)
    requires |a| == |b| && forall i: nat :: i < |a| ==> a[i] == b[i] || SameDigit(a[i], b[i])
    ensures AsciiPrefix(a) == AsciiPrefix(b)
  {
    if a != "" {
      DigitsAreAscii(a[0], b[0]);
      SamePrefix(a[1..], b[1..]);
    }
  }

  lemma CutCase(a: string, b: string, n: nat)
    requires SameButCase(a, b) && n < |a| && !IsAscii(a[n])
    ensures SameButCase(a[..n], b[..n]) && a[n] == b[n] && SameButCase(a[n + 1..], b[n + 1..])
  {
    var c, d, e, f := a[..n], b[..n], a[n + 1..], b[n + 1..];
    forall i: nat | i < n ensures c[i] == d[i] || (InEscape(c, i) && SameDigit(c[i], d[i])) {
      assert a[i] == c[i] && b[i] == d[i];
      if a[i] != b[i] {
        if i >= 1 && IsEscape(a, i - 1) {
          assert IsEscape(c, i - 1);
        } else {
          assert IsEscape(c, i - 2);
        }
      }
    }
    forall i: nat | i < |e| ensures e[i] == f[i] || (InEscape(e, i) && SameDigit(e[i], f[i])) {
      assert a[n + 1 + i] == e[i] && b[n + 1 + i] == f[i];
      if e[i] != f[i] {
        if IsEscape(a, n + i) {
          assert IsEscape(e, i - 1);
        } else {
          assert IsEscape(a, n + i - 1) && IsEscape(e, i - 2);
        }
      }
    }
  }

  /** Changing the case of digits of escapes changes nothing of what a text decodes to. */
  lemma {:induction false} CaseDoesNotMatter(a: string, b: string)
    requires SameButCase(a, b)
    ensures Unquote(a) == Unquote(b)
    decreases |a|
  {
    SamePrefix(a, b);
    var n := AsciiPrefix(a);
    if n == |a| {
      WholeRun(a);
      WholeRun(b);
      SameBytes(a, b);
    } else {
      CutCase(a, b, n);
      UnquoteParts(a, n);
      UnquoteParts(b, n);
      SameBytes(a[..n], b[..n]);
      CaseDoesNotMatter(a[n + 1..], b[n + 1..]);
    }
  }
}

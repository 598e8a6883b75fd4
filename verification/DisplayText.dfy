/** The bounded display text of a title, an artist or a playlist. */
module DisplayText {
  import opened Common
  import opened PercentDecoding

  const TITLE_MAX_LENGTH := 128

  predicate IsSpace(c: char) {
    var code := c as int;
    || 0x09 <= code <= 0x0D || 0x1C <= code <= 0x20 || code == 0x85 || code == 0xA0 || code == 0x1680
    || 0x2000 <= code <= 0x200A || code == 0x2028 || code == 0x2029 || code == 0x202F || code == 0x205F || code == 0x3000
  }

  function StripStart(text: string): (r: string)
    ensures |r| <= |text| && r == text[|text| - |r|..] && (r != "" ==> !IsSpace(r[0]))
    ensures forall i :: 0 <= i < |text| - |r| ==> IsSpace(text[i])
  {
    if text == "" || !IsSpace(text[0]) then text else StripStart(text[1..])
  }

  function StripEnd(text: string): (r: string)
    ensures r <= text && (r != "" ==> !IsSpace(r[|r| - 1]))
    ensures forall i :: |r| <= i < |text| ==> IsSpace(text[i])
  {
    if text == "" || !IsSpace(text[|text| - 1]) then text else StripEnd(text[..|text| - 1])
  }

  function Strip(text: string): string {
    StripEnd(StripStart(text))
  }

  /** What may be shown of a value: the beginning of it, without space around it. */
  function Shown(value: string): (shown: string)
    ensures |shown| <= TITLE_MAX_LENGTH && shown <= Strip(value)
  {
    var cleaned := Strip(value);
    if |cleaned| <= TITLE_MAX_LENGTH then cleaned else cleaned[..TITLE_MAX_LENGTH]
  }

  predicate HasAt(text: string, part: string, i: nat) {
    i <= |text| - |part| && part <= text[i..]
  }

  predicate Contains(text: string, part: string) {
    exists i :: 0 <= i < |text| && HasAt(text, part, i)
  }

  /** A letter for a pattern that ignores case: besides the ASCII letters these are the two
      Turkish letters i, the long s and the Kelvin sign. */
  predicate IsLetter(c: char) {
    || 'a' <= c <= 'z' || 'A' <= c <= 'Z'
    || c as int == 0x130 || c as int == 0x131 || c as int == 0x17F || c as int == 0x212A
  }

  predicate IsSchemeChar(c: char) {
    IsLetter(c) || '0' <= c <= '9' || c == '+' || c == '.' || c == '-'
  }

  /** The text begins with a URI scheme of i characters, a colon and something not space. */
  predicate HasSchemeOf(text: string, i: nat) {
    && 1 <= i < |text| - 1 && IsLetter(text[0]) && text[i] == ':' && !IsSpace(text[i + 1])
    && forall j :: 1 <= j < i ==> IsSchemeChar(text[j])
  }

  predicate HasScheme(text: string) {
    exists i :: 0 <= i < |text| && HasSchemeOf(text, i)
  }

  predicate IsControl(c: char) {
    c as int < 32 || 0x7F <= c as int <= 0x9F
  }

  predicate HasControl(text: string) {
    exists i :: 0 <= i < |text| && IsControl(text[i])
  }

  // ---- Decoding to any depth -----------------------------------------------------

  type Decoder = string -> string

  /** Every change that the decoder makes shortens the text. */
  ghost predicate Shortens(decode: Decoder) {
    forall text :: decode(text) == text || |decode(text)| < |text|
  }

  function Decoded(decode: Decoder, text: string, depth: nat): string {
    if depth == 0 then text else decode(Decoded(decode, text, depth - 1))
  }

  /** The text decoded until nothing changes. */
  ghost function FullyDecoded(decode: Decoder, text: string): (full: string)
    requires Shortens(decode)
    ensures decode(full) == full
    decreases |text|
  {
    if decode(text) == text then text else FullyDecoded(decode, decode(text))
  }

  lemma {:induction false} DecodedShift(decode: Decoder, text: string, depth: nat)
    ensures Decoded(decode, decode(text), depth) == Decoded(decode, text, depth + 1)
  {
    if depth > 0 {
      DecodedShift(decode, text, depth - 1);
    }
  }

  lemma {:induction false} StaysFrom(decode: Decoder, text: string, depth: nat, k: nat)
    requires decode(Decoded(decode, text, depth)) == Decoded(decode, text, depth) && k >= depth
    ensures Decoded(decode, text, k) == Decoded(decode, text, depth)
    decreases k
  {
    if k > depth {
      StaysFrom(decode, text, depth, k - 1);
    }
  }

  /** Decoding settles within as many rounds as the text has characters. */
  lemma {:induction false} DecodingSettles(decode: Decoder, text: string, depth: nat)
    requires Shortens(decode) && depth >= |text|
    ensures Decoded(decode, text, depth) == FullyDecoded(decode, text)
    decreases |text|
  {
    if decode(text) == text {
      StaysFrom(decode, text, 0, depth);
    } else {
      DecodingSettles(decode, decode(text), depth - 1);
      DecodedShift(decode, text, depth - 1);
    }
  }

  lemma ReachedIsFull(decode: Decoder, text: string, depth: nat)
    requires Shortens(decode) && decode(Decoded(decode, text, depth)) == Decoded(decode, text, depth)
    ensures FullyDecoded(decode, text) == Decoded(decode, text, depth)
    ensures forall k: nat :: k >= depth ==> Decoded(decode, text, k) == Decoded(decode, text, depth)
  {
    forall k: nat | k >= depth ensures Decoded(decode, text, k) == Decoded(decode, text, depth) {
      StaysFrom(decode, text, depth, k);
    }
    DecodingSettles(decode, text, depth + |text|);
  }

  lemma UnquoteShortens()
    ensures Shortens(Unquote)
  {
    forall text ensures Unquote(text) == text || |Unquote(text)| < |text| {
      UnquoteStaysIff(text);
    }
  }

  /** What a text is fully decoded to holds no escape: there is nothing left to decode. */
  lemma FullHoldsNoEscape(text: string)
    ensures Shortens(Unquote) && !HasEscape(FullyDecoded(Unquote, text))
  {
    UnquoteShortens();
    UnquoteStaysIff(FullyDecoded(Unquote, text));
  }

  // ---- The filter ----------------------------------------------------------------

  /** Safe to show: nothing that decoding can make of it, at any depth, holds an authority
      separator, and the full decoding is no URI and holds no control character. */
  ghost predicate IsSafe(decode: Decoder, text: string)
    requires Shortens(decode)
  {
    && (forall depth: nat :: !Contains(Decoded(decode, text, depth), "://"))
    && !HasScheme(FullyDecoded(decode, text))
    && !HasControl(FullyDecoded(decode, text))
  }

  method ContainsSeparator(text: string) returns (found: bool)
    ensures found == Contains(text, "://")
  {
    var i := 0;
    while i < |text|
      invariant 0 <= i <= |text|
      invariant forall k :: 0 <= k < i ==> !HasAt(text, "://", k)
    {
      if "://" <= text[i..] {
        assert HasAt(text, "://", i);
        return true;
      }
      i := i + 1;
    }
    found := false;
  }

  /** The text to show for a value, or none. A value is shown if and only if something of it
      is left after stripping and cutting and that is safe at every decoding depth. */
  method Display(value: string, decode: Decoder) returns (r: Option<string>)
    requires Shortens(decode)
    ensures r.Some? <==> Shown(value) != "" && IsSafe(decode, Shown(value))
    ensures r.Some? ==> r.value == Shown(value)
  {
    var shown := Shown(value);
    var decoded := shown;
    ghost var depth: nat := 0;
    while true
      invariant decoded == Decoded(decode, shown, depth)
      invariant forall k: nat :: k < depth ==> !Contains(Decoded(decode, shown, k), "://")
      decreases |decoded|
    {
      var separator := ContainsSeparator(decoded);
      if separator {
        return None;
      }
      var next := decode(decoded);
      if next == decoded {
        break;
      }
      decoded := next;
      depth := depth + 1;
    }
    ReachedIsFull(decode, shown, depth);
    if shown == "" || HasScheme(decoded) || HasControl(decoded) {
      return None;
    }
    r := Some(shown);
  }

  method Text(value: string) returns (r: Option<string>)
    ensures Shortens(Unquote)
    ensures r.Some? <==> Shown(value) != "" && IsSafe(Unquote, Shown(value))
    ensures r.Some? ==> r.value == Shown(value)
  {
    UnquoteShortens();
    r := Display(value, Unquote);
  }

  // ---- Spelling hides nothing ------------------------------------------------------

  /** However the characters of a text are spelled, it fully decodes to the same. */
  lemma SpelledDecodesFully(text: string, spellings: seq<Spelling>)
    requires |spellings| == |text|
    ensures Shortens(Unquote) && FullyDecoded(Unquote, Spell(text, spellings)) == FullyDecoded(Unquote, text)
  {
    UnquoteShortens();
    DecodingUndoesEncoding(text, spellings);
  }

  /** A text that may not be shown may not be shown in any spelling either, and so on for
      spellings of spellings. */
  lemma SpellingHidesNothing(text: string, spellings: seq<Spelling>)
    requires |spellings| == |text|
    ensures Shortens(Unquote) && (IsSafe(Unquote, Spell(text, spellings)) ==> IsSafe(Unquote, text))
  {
    SpelledDecodesFully(text, spellings);
    var spelled := Spell(text, spellings);
    if IsSafe(Unquote, spelled) {
      forall depth: nat ensures !Contains(Decoded(Unquote, text, depth), "://") {
        DecodingUndoesEncoding(text, spellings);
        DecodedShift(Unquote, spelled, depth);
        assert !Contains(Decoded(Unquote, spelled, depth + 1), "://");
      }
    }
  }

  /** An address with an authority may not be shown, nor then in any spelling. */
  lemma UriIsNeverShown(before: string, after: string)
    ensures Shortens(Unquote) && !IsSafe(Unquote, before + "://" + after)
  {
    UnquoteShortens();
    var text := before + "://" + after;
    assert text[|before|..] == "://" + after;
    assert HasAt(text, "://", |before|);
    assert Decoded(Unquote, text, 0) == text;
  }

  /** A scheme followed by anything but space is seen as one. */
  lemma SchemeIsSeen(scheme: string, c: char, after: string)
    requires scheme != "" && IsLetter(scheme[0]) && (forall d :: d in scheme ==> IsSchemeChar(d)) && !IsSpace(c)
    ensures HasScheme(scheme + ":" + [c] + after)
  {
    var text := scheme + ":" + [c] + after;
    assert forall j :: 1 <= j < |scheme| ==> text[j] == scheme[j] && scheme[j] in scheme;
    assert HasSchemeOf(text, |scheme|);
  }

  lemma EscapeNeedsPercent(text: string)
    ensures HasEscape(text) ==> '%' in text
  {
    if i: nat :| IsEscape(text, i) {
      assert text[i] in text;
    }
  }

  lemma UriNeedsColon(text: string)
    ensures Contains(text, "://") || HasScheme(text) ==> ':' in text
  {
    if i: nat :| i < |text| && HasAt(text, "://", i) {
      assert text[i..][0] == ':' && text[i] in text;
    }
    if i: nat :| i < |text| && HasSchemeOf(text, i) {
      assert text[i] in text;
    }
  }

  /** An ASCII scheme may not be shown before a colon and something visible, in any spelling. */
  lemma SchemeIsNeverShown(scheme: string, c: char, after: string, spellings: seq<Spelling>)
    requires scheme != "" && ('a' <= scheme[0] <= 'z' || 'A' <= scheme[0] <= 'Z') && '!' <= c <= '~'
    requires forall d :: d in scheme ==> 'a' <= d <= 'z' || 'A' <= d <= 'Z' || '0' <= d <= '9' || d == '+' || d == '-' || d == '.'
    requires '%' !in after && c != '%' && |spellings| == |scheme + ":" + [c] + after|
    ensures Shortens(Unquote) && !IsSafe(Unquote, Spell(scheme + ":" + [c] + after, spellings))
  {
    var text := scheme + ":" + [c] + after;
    SchemeIsSeen(scheme, c, after);
    PlainIsFull(text);
    SpelledDecodesFully(text, spellings);
  }

  lemma PlainIsFull(text: string)
    requires '%' !in text
    ensures Shortens(Unquote) && FullyDecoded(Unquote, text) == text
  {
    UnquoteShortens();
    EscapeNeedsPercent(text);
    UnquoteStaysIff(text);
  }

  /** A control character of either block may not be shown, in any spelling. */
  lemma ControlIsNeverShown(text: string, c: char, spellings: seq<Spelling>)
    requires c in text && (c as int < 0x20 || 0x7F <= c as int < 0xA0) && '%' !in text && |spellings| == |text|
    ensures Shortens(Unquote) && !IsSafe(Unquote, Spell(text, spellings))
  {
    var i :| 0 <= i < |text| && text[i] == c;
    assert HasControl(text);
    PlainIsFull(text);
    SpelledDecodesFully(text, spellings);
  }

  /** The spaces that stripping takes away, and no others. */
  lemma SpacesAre(c: char)
    ensures IsSpace(c) <==> c as int in {9, 10, 11, 12, 13, 28, 29, 30, 31, 32, 133, 160, 5760, 8192, 8193, 8194, 8195,
      8196, 8197, 8198, 8199, 8200, 8201, 8202, 8232, 8233, 8239, 8287, 12288}
  {
  }

  lemma {:induction false} StripStartSkips(left: string, text: string)
    requires (forall c :: c in left ==> IsSpace(c)) && (text != "" ==> !IsSpace(text[0]))
    ensures StripStart(left + text) == text
  {
    if left == "" {
      assert left + text == text;
    } else {
      assert left[0] in left && (left + text)[1..] == left[1..] + text;
      StripStartSkips(left[1..], text);
    }
  }

  lemma {:induction false} StripEndSkips(text: string, right: string)
    requires (forall c :: c in right ==> IsSpace(c)) && (text != "" ==> !IsSpace(text[|text| - 1]))
    ensures StripEnd(text + right) == text
  {
    if right == "" {
      assert text + right == text;
    } else {
      var n := |right| - 1;
      assert right[n] in right && (text + right)[..|text| + n] == text + right[..n];
      StripEndSkips(text, right[..n]);
    }
  }

  /** A text between spaces is shown as it is up to 128 characters, and cut there if longer. */
  lemma SpaceAroundIsDropped(left: string, text: string, right: string)
    requires text != "" && !IsSpace(text[0]) && !IsSpace(text[|text| - 1])
    requires (forall c :: c in left ==> IsSpace(c)) && (forall c :: c in right ==> IsSpace(c))
    ensures Shown(left + text + right) == if |text| <= 128 then text else text[..128]
  {
    assert left + text + right == left + (text + right);
    StripStartSkips(left, text + right);
    StripEndSkips(text, right);
  }

  /** And nothing is hidden without need: a text with no percent sign, no colon and no control
      character may be shown. */
  lemma PlainTextIsSafe(text: string)
    requires '%' !in text && ':' !in text && !HasControl(text)
    ensures Shortens(Unquote) && IsSafe(Unquote, text)
  {
    UnquoteShortens();
    UnquoteStaysIff(text);
    EscapeNeedsPercent(text);
    UriNeedsColon(text);
    forall depth: nat ensures !Contains(Decoded(Unquote, text, depth), "://") {
      StaysFrom(Unquote, text, 0, depth);
    }
    assert FullyDecoded(Unquote, text) == text;
  }

  // ---- Showing twice -------------------------------------------------------------

  /** What is shown begins where the value begins, and does not begin with space. */
  lemma ShownStart(value: string)
    ensures Shown(value) != "" ==> !IsSpace(Shown(value)[0])
  {
  }

  /** A shown text is shown again as it is if and only if it does not end in space, which it
      can do only when it was cut. */
  lemma ShownAgainIff(value: string)
    requires Shown(value) != ""
    ensures Shown(Shown(value)) == Shown(value) <==> !IsSpace(Shown(value)[|Shown(value)| - 1])
    ensures IsSpace(Shown(value)[|Shown(value)| - 1]) ==> |Strip(value)| > TITLE_MAX_LENGTH
  {
    var shown := Shown(value);
    ShownStart(value);
    assert StripStart(shown) == shown;
    assert |StripEnd(shown)| <= |shown|;
  }
}

/** Capping a tool result on a code point boundary. Text is its UTF-8 bytes, and what counts as
    text is section 4 of RFC 3629, not the boundary test the code uses. */
module Truncate {
  import opened Wrappers
  import Messages

  newtype byte = x: int | 0 <= x < 0x100

  const MAX_TOOL_RESULT_BYTES: nat := 96_000

  // ---- UTF-8, section 4 of RFC 3629 ------------------------------------------------------

  predicate In(b: byte, lo: byte, hi: byte) { lo <= b <= hi }

  predicate TailByte(b: byte) { In(b, 0x80, 0xBF) }

  /** The length of the UTF-8 sequence of one code point that `s` starts with; 0 if none. */
  function CharLen(s: seq<byte>): (k: nat)
    ensures k <= 4 && k <= |s|
    ensures k > 0 ==> !TailByte(s[0]) && forall i :: 1 <= i < k ==> TailByte(s[i])
  {
    if s == [] then 0
    else if s[0] <= 0x7F then 1
    else if |s| >= 2 && In(s[0], 0xC2, 0xDF) && TailByte(s[1]) then 2
    else if |s| >= 3 && TailByte(s[2])
            && (|| (s[0] == 0xE0 && In(s[1], 0xA0, 0xBF))
                || (In(s[0], 0xE1, 0xEC) && TailByte(s[1]))
                || (s[0] == 0xED && In(s[1], 0x80, 0x9F))
                || (In(s[0], 0xEE, 0xEF) && TailByte(s[1]))) then 3
    else if |s| >= 4 && TailByte(s[2]) && TailByte(s[3])
            && (|| (s[0] == 0xF0 && In(s[1], 0x90, 0xBF))
                || (In(s[0], 0xF1, 0xF3) && TailByte(s[1]))
                || (s[0] == 0xF4 && In(s[1], 0x80, 0x8F))) then 4
    else 0
  }

  /** A sequence of whole code points. */
  predicate Utf8(s: seq<byte>)
    decreases |s|
  {
    s == [] || (CharLen(s) > 0 && Utf8(s[CharLen(s)..]))
  }

  /** The standard library's test, one byte at a time. */
  predicate IsCharBoundary(s: seq<byte>, i: nat) {
    i == 0 || i == |s| || (i < |s| && (s[i] < 0x80 || s[i] >= 0xC0))
  }

  lemma CharLenPrefix(s: seq<byte>, i: nat)
    requires CharLen(s) > 0 && i <= |s|
    ensures CharLen(s[..i]) == if CharLen(s) <= i then CharLen(s) else 0
  {}

  /** In UTF-8 text the boundary test finds exactly the ends of the prefixes that are text. */
  lemma {:induction false} BoundaryIffPrefix(s: seq<byte>, i: nat)
    requires Utf8(s) && i <= |s|
    ensures IsCharBoundary(s, i) <==> Utf8(s[..i])
    ensures IsCharBoundary(s, i) ==> Utf8(s[i..])
    decreases |s|
  {
    if s != [] && i > 0 {
      var k := CharLen(s);
      CharLenPrefix(s, i);
      if i >= k {
        BoundaryIffPrefix(s[k..], i - k);
        assert s[..i][k..] == s[k..][..i - k];
        assert s[k..][i - k..] == s[i..];
        assert i < |s| ==> s[k..][i - k] == s[i];
        assert i == k < |s| ==> CharLen(s[k..]) > 0;
      }
    }
  }

  /** No code point is longer than four bytes. */
  lemma {:induction false} BoundaryNear(s: seq<byte>, i: nat) returns (j: nat)
    requires Utf8(s) && i <= |s|
    ensures j <= i <= j + 3 && Utf8(s[..j])
    decreases |s|
  {
    var k := CharLen(s);
    if i < k || s == [] {
      j := 0;
    } else {
      var j1 := BoundaryNear(s[k..], i - k);
      j := k + j1;
      CharLenPrefix(s, j);
      assert s[..j][k..] == s[k..][..j1];
    }
  }

  lemma CharLenExtends(a: seq<byte>, b: seq<byte>)
    requires CharLen(a) > 0
    ensures CharLen(a + b) == CharLen(a)
  {
    assert forall i :: 0 <= i < |a| ==> (a + b)[i] == a[i];
  }

  lemma {:induction false} Utf8Concat(a: seq<byte>, b: seq<byte>)
    requires Utf8(a) && Utf8(b)
    ensures Utf8(a + b)
    decreases |a|
  {
    if a == [] {
      assert a + b == b;
    } else {
      assert (a + b)[CharLen(a)..] == a[CharLen(a)..] + b;
      CharLenExtends(a, b);
      Utf8Concat(a[CharLen(a)..], b);
    }
  }

  // ---- text as code points ---------------------------------------------------------------

  function EncodeChar(c: char): (s: seq<byte>)
    ensures 1 <= |s| <= 4
  {
    var n := c as int;
    if n < 0x80 then [n as byte]
    else if n < 0x800 then [(0xC0 + n / 0x40) as byte, (0x80 + n % 0x40) as byte]
    else if n < 0x1_0000 then
      [(0xE0 + n / 0x1000) as byte, (0x80 + n / 0x40 % 0x40) as byte, (0x80 + n % 0x40) as byte]
    else
      [(0xF0 + n / 0x4_0000) as byte, (0x80 + n / 0x1000 % 0x40) as byte,
       (0x80 + n / 0x40 % 0x40) as byte, (0x80 + n % 0x40) as byte]
  }

  function Encode(text: string): seq<byte> {
    if text == "" then [] else EncodeChar(text[0]) + Encode(text[1..])
  }

  /** Every code point is encoded to a well-formed sequence, and read off at its exact length. */
  lemma CharLenOfChar(c: char, rest: seq<byte>)
    ensures CharLen(EncodeChar(c) + rest) == |EncodeChar(c)|
  {}

  lemma {:induction false} EncodeIsText(text: string)
    ensures Utf8(Encode(text))
  {
    if text != "" {
      CharLenOfChar(text[0], Encode(text[1..]));
      assert Encode(text)[|EncodeChar(text[0])|..] == Encode(text[1..]);
      EncodeIsText(text[1..]);
    }
  }

  lemma {:induction false} EncodeGrows(text: string)
    ensures |Encode(text)| >= |text|
  {
    if text != "" { EncodeGrows(text[1..]); }
  }

  /** The byte prefixes of an encoded text that are text again are its code point prefixes. */
  lemma {:induction false} PrefixIsText(text: string, j: nat) returns (k: nat)
    requires j <= |Encode(text)| && Utf8(Encode(text)[..j])
    ensures k <= |text| && Encode(text[..k]) == Encode(text)[..j]
  {
    if j == 0 { return 0; }
    var c, rest := text[0], Encode(text[1..]);
    var n := |EncodeChar(c)|;
    CharLenOfChar(c, rest);
    CharLenPrefix(Encode(text), j);
    assert Encode(text)[..j][n..] == rest[..j - n];
    k := PrefixIsText(text[1..], j - n);
    k := k + 1;
    assert text[..k][1..] == text[1..][..k - 1];
    assert EncodeChar(c) + rest[..j - n] == Encode(text)[..j];
  }

  // ---- truncation ------------------------------------------------------------------------

  /** The longest prefix of `s` that is text of at most `max` bytes. */
  predicate LongestTextPrefix(head: seq<byte>, s: seq<byte>, max: nat) {
    && head <= s && |head| <= max && Utf8(head)
    && forall k :: |head| < k <= max && k <= |s| ==> !Utf8(s[..k])
  }

  /** The last boundary not beyond `max` ends the longest prefix. */
  lemma LastBoundary(s: seq<byte>, max: nat, end: nat)
    requires Utf8(s) && end <= max <= |s| && IsCharBoundary(s, end)
    requires forall k :: end < k <= max ==> !IsCharBoundary(s, k)
    ensures LongestTextPrefix(s[..end], s, max)
    ensures max - end <= 3
  {
    BoundaryIffPrefix(s, end);
    forall k | end < k <= max ensures !Utf8(s[..k]) { BoundaryIffPrefix(s, k); }
    var near := BoundaryNear(s, max);
    BoundaryIffPrefix(s, near);
  }

  method TruncateOnCharBoundary(s: seq<byte>, max: nat) returns (head: seq<byte>, truncated: bool)
    requires Utf8(s)
    ensures LongestTextPrefix(head, s, max)
    ensures truncated <==> max < |s|
    ensures truncated <==> head != s
    ensures truncated ==> max - |head| <= 3
  {
    if |s| <= max { return s, false; }
    var end: nat := max;
    while end > 0 && !IsCharBoundary(s, end)
      invariant end <= max
      invariant forall k :: end < k <= max ==> !IsCharBoundary(s, k)
    {
      end := end - 1;
    }
    LastBoundary(s, max, end);
    return s[..end], true;
  }

  /** Truncation drops whole code points, and no more of them than it must: the next one would
      not have fitted. */
  lemma TruncatesCodePoints(text: string, head: seq<byte>, max: nat) returns (k: nat)
    requires LongestTextPrefix(head, Encode(text), max)
    ensures k <= |text| && head == Encode(text[..k])
    ensures k < |text| ==> |Encode(text[..k + 1])| > max
  {
    assert Encode(text)[..|head|] == head;
    k := PrefixIsText(text, |head|);
    if k < |text| {
      EncodeSplit(text, k);
      EncodeSplit(text, k + 1);
      EncodeSplit(text[..k + 1], k);
      assert text[..k + 1][..k] == text[..k];
      EncodeIsText(text[..k + 1]);
      var n := |Encode(text[..k + 1])|;
      assert Encode(text)[..n] == Encode(text[..k + 1]);
      EncodeGrows(text[..k + 1][k..]);
    }
  }

  lemma {:induction false} EncodeSplit(text: string, k: nat)
    requires k <= |text|
    ensures Encode(text) == Encode(text[..k]) + Encode(text[k..])
  {
    if k > 0 {
      EncodeSplit(text[1..], k - 1);
      assert text[..k][1..] == text[1..][..k - 1] && text[1..][k - 1..] == text[k..];
    } else {
      assert text[0..] == text;
    }
  }

  lemma LongestIsUnique(a: seq<byte>, b: seq<byte>, s: seq<byte>, max: nat)
    requires LongestTextPrefix(a, s, max) && LongestTextPrefix(b, s, max)
    ensures a == b
  {
    assert a == s[..|a|] && b == s[..|b|];
  }

  // ---- the capped result -----------------------------------------------------------------

  function Notice(length: nat): string {
    "\n\U{2026} (tool result truncated to " + Messages.Decimal(MAX_TOOL_RESULT_BYTES) + " bytes of "
    + Messages.Decimal(length) + (" \U{2014} " + "narrow the query or read a specific range)")
  }

  function Marker(length: nat): seq<byte> { Encode(Notice(length)) }

  /** `text` itself if it fits; else its longest fitting prefix and a marker. */
  ghost predicate Capped(text: seq<byte>, capped: seq<byte>) {
    if |text| <= MAX_TOOL_RESULT_BYTES then capped == text
    else exists head :: LongestTextPrefix(head, text, MAX_TOOL_RESULT_BYTES) && capped == head + Marker(|text|)
  }

  method CapToolResult(text: seq<byte>) returns (capped: seq<byte>)
    requires Utf8(text)
    ensures Capped(text, capped) && Utf8(capped)
  {
    var head, truncated := TruncateOnCharBoundary(text, MAX_TOOL_RESULT_BYTES);
    if !truncated { return text; }
    EncodeIsText(Notice(|text|));
    Utf8Concat(head, Marker(|text|));
    capped := head + Marker(|text|);
  }

  lemma CappedIsBounded(text: seq<byte>, a: seq<byte>, b: seq<byte>)
    requires Capped(text, a) && Capped(text, b)
    ensures a == b && |a| <= 96_000 + |Marker(|text|)| && (|text| <= 96_000 ==> a == text)
  {
    if |text| > MAX_TOOL_RESULT_BYTES {
      var h1 :| LongestTextPrefix(h1, text, MAX_TOOL_RESULT_BYTES) && a == h1 + Marker(|text|);
      var h2 :| LongestTextPrefix(h2, text, MAX_TOOL_RESULT_BYTES) && b == h2 + Marker(|text|);
      LongestIsUnique(h1, h2, text, MAX_TOOL_RESULT_BYTES);
    }
  }

  predicate Digit(c: char) { '0' <= c <= '9' }

  /** Words that neither start nor end with a digit. */
  predicate Words(s: string) { s != "" && !Digit(s[0]) && !Digit(s[|s| - 1]) }

  /** A shortened result says so: behind the kept prefix it names the cap and then the full
      length, each as a number of its own. */
  lemma TruncationIsTold(text: seq<byte>, capped: seq<byte>) returns (head: seq<byte>, notice: seq<string>)
    requires Capped(text, capped) && |text| > MAX_TOOL_RESULT_BYTES
    ensures LongestTextPrefix(head, text, MAX_TOOL_RESULT_BYTES)
    ensures |notice| == 3 && Words(notice[0]) && Words(notice[1]) && Words(notice[2])
    ensures capped == head + Encode(notice[0] + Messages.Decimal(MAX_TOOL_RESULT_BYTES)
                                    + notice[1] + Messages.Decimal(|text|) + notice[2])
  {
    head :| LongestTextPrefix(head, text, MAX_TOOL_RESULT_BYTES) && capped == head + Marker(|text|);
    notice := ["\n\U{2026} (tool result truncated to ", " bytes of ",
               " \U{2014} " + "narrow the query or read a specific range)"];
    hide Encode, LongestTextPrefix, Messages.Decimal;
  }

  /** A tool outcome, as bytes. */
  datatype Outcome = Outcome(ok: bool, output: seq<byte>, error: Option<seq<byte>>)

  const NO_OUTPUT: seq<byte> := Encode("(no output)")
  const TOOL_FAILED: seq<byte> := Encode("tool failed")

  function ErrorText(outcome: Outcome): seq<byte> {
    if outcome.error.Some? then outcome.error.value else TOOL_FAILED
  }

  /** What the reply to a tool call contains; `payload` prints the error object as JSON. */
  ghost predicate IsContent(outcome: Outcome, payload: (seq<byte>, seq<byte>) -> seq<byte>, content: seq<byte>) {
    if outcome.ok then
      if outcome.output == [] then content == NO_OUTPUT else Capped(outcome.output, content)
    else exists text :: Capped(outcome.output, text) && content == payload(ErrorText(outcome), text)
  }

  method ToolContent(outcome: Outcome, payload: (seq<byte>, seq<byte>) -> seq<byte>)
    returns (content: seq<byte>)
    requires Utf8(outcome.output)
    ensures IsContent(outcome, payload, content)
  {
    if outcome.ok && outcome.output == [] {
      content := NO_OUTPUT;
    } else {
      var capped := CapToolResult(outcome.output);
      var error := if outcome.error.Some? then outcome.error.value else TOOL_FAILED;
      content := if outcome.ok then capped else payload(error, capped);
    }
  }

  /** A JSON printer of two strings: at most six bytes for one, a constant for what surrounds
      them, and never fewer bytes than the strings have (section 7 of RFC 8259). */
  ghost predicate Escapes(payload: (seq<byte>, seq<byte>) -> seq<byte>, k: nat) {
    forall error, text ::
      |error| + |text| <= |payload(error, text)| <= k + 6 * (|error| + |text|)
  }

  /** The reply of a successful call is never empty, and bounded by the cap and its marker. */
  lemma SuccessIsBounded(outcome: Outcome, payload: (seq<byte>, seq<byte>) -> seq<byte>, content: seq<byte>)
    requires outcome.ok && IsContent(outcome, payload, content)
    ensures 0 < |content| <= MAX_TOOL_RESULT_BYTES + |Marker(|outcome.output|)|
  {
    if |outcome.output| > MAX_TOOL_RESULT_BYTES {
      CappedIsBounded(outcome.output, content, content);
      var head, notice := TruncationIsTold(outcome.output, content);
      EncodeGrows(notice[0] + Messages.Decimal(MAX_TOOL_RESULT_BYTES) + notice[1]
                  + Messages.Decimal(|outcome.output|) + notice[2]);
    } else if outcome.output == [] {
      EncodeShort("(no output)");
      EncodeGrows("(no output)");
    }
  }

  lemma {:induction false} EncodeShort(text: string)
    ensures |Encode(text)| <= 4 * |text|
  {
    if text != "" { EncodeShort(text[1..]); }
  }

  /** The reply of a failed call is at least as long as its error text, and longer by no more than
      the printer's constant, the escapes and the capped output. */
  lemma FailureBounds(outcome: Outcome, payload: (seq<byte>, seq<byte>) -> seq<byte>, k: nat, content: seq<byte>)
    requires Escapes(payload, k) && !outcome.ok && IsContent(outcome, payload, content)
    ensures exists text :: Capped(outcome.output, text)
                           && |ErrorText(outcome)| <= |content| <= k + 6 * (|ErrorText(outcome)| + |text|)
    ensures |ErrorText(outcome)| <= |content|
    ensures |content| <= k + 6 * (|ErrorText(outcome)| + MAX_TOOL_RESULT_BYTES + |Marker(|outcome.output|)|)
  {
    var text :| Capped(outcome.output, text) && content == payload(ErrorText(outcome), text);
    CappedIsBounded(outcome.output, text, text);
  }

  // ---- when failed replies are bounded ---------------------------------------------------

  function Pow10(n: nat): nat { if n == 0 then 1 else 10 * Pow10(n - 1) }

  lemma {:induction false} DecimalLength(n: nat, digits: nat)
    requires digits > 0 && n < Pow10(digits)
    ensures |Messages.Decimal(n)| <= digits
  {
    if n >= 10 {
      DecimalLength(n / 10, digits - 1);
    }
  }

  const MARKER_MAX: nat := 4 * 160

  /** A length that fits a machine word has at most twenty digits. */
  lemma MarkerIsShort(length: nat)
    requires length <= Messages.USIZE_MAX
    ensures |Marker(length)| <= MARKER_MAX
  {
    assert Pow10(5) == 100_000;
    assert Pow10(10) == 100_000 * Pow10(5);
    assert Pow10(15) == 100_000 * Pow10(10);
    assert Pow10(20) == 100_000 * Pow10(15);
    DecimalLength(length, 20);
    DecimalLength(MAX_TOOL_RESULT_BYTES, 5);
    EncodeShort(Notice(length));
  }

  lemma {:induction false} LongestExists(s: seq<byte>, max: nat, end: nat) returns (head: seq<byte>)
    requires Utf8(s) && end <= max <= |s| && forall k :: end < k <= max ==> !IsCharBoundary(s, k)
    ensures LongestTextPrefix(head, s, max)
  {
    if IsCharBoundary(s, end) {
      LastBoundary(s, max, end);
      head := s[..end];
    } else {
      head := LongestExists(s, max, end - 1);
    }
  }

  lemma ContentExists(outcome: Outcome, payload: (seq<byte>, seq<byte>) -> seq<byte>) returns (content: seq<byte>)
    requires Utf8(outcome.output) && !outcome.ok
    ensures IsContent(outcome, payload, content)
  {
    var text := outcome.output;
    if |text| > MAX_TOOL_RESULT_BYTES {
      var head := LongestExists(outcome.output, MAX_TOOL_RESULT_BYTES, MAX_TOOL_RESULT_BYTES);
      text := head + Marker(|outcome.output|);
    }
    assert Capped(outcome.output, text);
    content := payload(ErrorText(outcome), text);
  }

  /** No reply to a call of the family is longer than `bound`. */
  ghost predicate RepliesWithin(family: iset<Outcome>, payload: (seq<byte>, seq<byte>) -> seq<byte>, bound: nat) {
    forall o, content :: o in family && IsContent(o, payload, content) ==> |content| <= bound
  }

  ghost predicate ErrorsWithin(family: iset<Outcome>, bound: nat) {
    forall o :: o in family ==> |ErrorText(o)| <= bound
  }

  /** The replies to a family of failed calls have a common bound if and only if their error
      texts have one; the cap on the output contributes a constant. */
  lemma FailuresBoundedIff(family: iset<Outcome>, payload: (seq<byte>, seq<byte>) -> seq<byte>, k: nat)
    requires Escapes(payload, k)
    requires forall o :: o in family ==> !o.ok && Utf8(o.output) && |o.output| <= Messages.USIZE_MAX
    ensures (exists bound :: RepliesWithin(family, payload, bound)) <==> (exists bound :: ErrorsWithin(family, bound))
    ensures forall bound: nat :: RepliesWithin(family, payload, bound) ==> ErrorsWithin(family, bound)
    ensures forall bound: nat :: ErrorsWithin(family, bound) ==>
              RepliesWithin(family, payload, k + 6 * (bound + MAX_TOOL_RESULT_BYTES + MARKER_MAX))
  {
    forall bound: nat | RepliesWithin(family, payload, bound) ensures ErrorsWithin(family, bound) {
      forall o | o in family ensures |ErrorText(o)| <= bound {
        var content := ContentExists(o, payload);
        FailureBounds(o, payload, k, content);
      }
    }
    forall bound: nat | ErrorsWithin(family, bound)
      ensures RepliesWithin(family, payload, k + 6 * (bound + MAX_TOOL_RESULT_BYTES + MARKER_MAX))
    {
      forall o, content | o in family && IsContent(o, payload, content)
        ensures |content| <= k + 6 * (bound + MAX_TOOL_RESULT_BYTES + MARKER_MAX)
      {
        FailureBounds(o, payload, k, content);
        MarkerIsShort(|o.output|);
      }
    }
  }

  /** What the cap does not reach: the error text of a failed call goes back whole, so for every
      bound some failed call's reply exceeds it. */
  lemma FailedResultIsUncapped(payload: (seq<byte>, seq<byte>) -> seq<byte>, k: nat, bound: nat)
    returns (outcome: Outcome)
    requires Escapes(payload, k)
    ensures Utf8(outcome.output) && !outcome.ok && outcome.error == Some(outcome.output)
    ensures forall content :: IsContent(outcome, payload, content) ==> |content| > bound
  {
    var text := seq(bound + 1, _ => 'x');
    EncodeIsText(text);
    EncodeGrows(text);
    outcome := Outcome(false, Encode(text), Some(Encode(text)));
    forall content | IsContent(outcome, payload, content) ensures |content| > bound {
      FailureBounds(outcome, payload, k, content);
    }
  }
}

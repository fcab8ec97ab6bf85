/** Truncation of the result message of a trace span, on the bytes of a UTF-8 string.
 *
 * `Encode` is the encoding of section 3 of RFC 3629; `Decode` and `DecodeLast` are what Go's
 * utf8 package does with any bytes, valid or not.
 */
module Truncation {

  type Byte = b: int | 0 <= b < 256

  /** A Unicode scalar value: a code point that is not a surrogate. */
  type Rune = r: int | 0 <= r < 0xD800 || 0xE000 <= r < 0x11_0000

  /** A continuation byte with the lowest six bits of a number. */
  function Low(n: nat): Byte {
    0x80 + n % 64
  }

  function Encode(r: Rune): (s: seq<Byte>)
    ensures 1 <= |s| <= 4
  {
    if r < 0x80 then [r]
    else if r < 0x800 then [0xC0 + r / 64, Low(r)]
    else if r < 0x1_0000 then [0xE0 + r / 64 / 64, Low(r / 64), Low(r)]
    else [0xF0 + r / 64 / 64 / 64, Low(r / 64 / 64), Low(r / 64), Low(r)]
  }

  function EncodeAll(runes: seq<Rune>): seq<Byte> {
    if runes == [] then [] else Encode(runes[0]) + EncodeAll(runes[1..])
  }

  const REPLACEMENT: Rune := 0xFFFD

  datatype Decoded = Decoded(rune: Rune, size: nat)

  /** What the decoder reports for bytes that do not start with a valid encoding. A literal
      replacement character has the same rune, but size 3. */
  const ERROR := Decoded(REPLACEMENT, 1)

  predicate Continuation(b: Byte) {
    0x80 <= b <= 0xBF
  }

  /** The bytes that may follow a lead byte: section 4 of RFC 3629 excludes overlong encodings,
      surrogates and what is beyond the last code point. */
  predicate Second(lead: Byte, b: Byte) {
    && Continuation(b)
    && (lead == 0xE0 ==> b >= 0xA0)
    && (lead == 0xED ==> b <= 0x9F)
    && (lead == 0xF0 ==> b >= 0x90)
    && (lead == 0xF4 ==> b <= 0x8F)
  }

  /** The length that a lead byte announces; 0 for a byte that cannot start an encoding. */
  function Announced(lead: Byte): nat {
    if lead < 0x80 then 1
    else if 0xC2 <= lead <= 0xDF then 2
    else if 0xE0 <= lead <= 0xEF then 3
    else if 0xF0 <= lead <= 0xF4 then 4
    else 0
  }

  predicate Complete(s: seq<Byte>) {
    && s != []
    && var n := Announced(s[0]);
       && 0 < n <= |s|
       && (n >= 2 ==> Second(s[0], s[1]))
       && (n >= 3 ==> Continuation(s[2]))
       && (n >= 4 ==> Continuation(s[3]))
  }

  /** Six more bits from a continuation byte. */
  function Join(bits: int, b: Byte): int {
    bits * 64 + (b as int - 0x80)
  }

  /** utf8.DecodeRune. */
  function Decode(s: seq<Byte>): (d: Decoded)
    ensures s != [] ==> 1 <= d.size <= |s|
  {
    if s == [] then Decoded(REPLACEMENT, 0)
    else if !Complete(s) then ERROR
    else
      match Announced(s[0])
      case 1 => Decoded(s[0], 1)
      case 2 => Decoded(Join(s[0] as int - 0xC0, s[1]), 2)
      case 3 => Decoded(Join(Join(s[0] as int - 0xE0, s[1]), s[2]), 3)
      case _ => Decoded(Join(Join(Join(s[0] as int - 0xF0, s[1]), s[2]), s[3]), 4)
  }

  lemma JoinLow(n: nat)
    ensures Join(n / 64, Low(n)) == n && Continuation(Low(n))
  {
  }

  /** The encoding of a rune is complete and announces its length. */
  lemma EncodedIsComplete(r: Rune, s: seq<Byte>)
    requires Encode(r) <= s
    ensures Complete(s) && Announced(s[0]) == |Encode(r)|
  {
    var e := Encode(r);
    assert forall k | 0 <= k < |e| :: s[k] == e[k];
  }

  /** Decoding undoes encoding. */
  lemma DecodeEncoded(r: Rune, s: seq<Byte>)
    requires Encode(r) <= s
    ensures Decode(s) == Decoded(r, |Encode(r)|)
  {
    var e := Encode(r);
    EncodedIsComplete(r, s);
    assert forall k | 0 <= k < |e| :: s[k] == e[k];
    hide Complete, Announced, Low, Join;
    JoinLow(r);
    JoinLow(r / 64);
    JoinLow(r / 64 / 64);
  }

  lemma JoinSplits(bits: nat, b: Byte)
    requires Continuation(b)
    ensures bits * 64 <= Join(bits, b) < bits * 64 + 64
    ensures Join(bits, b) / 64 == bits && Low(Join(bits, b)) == b
  {
  }

  /** The second byte keeps longer encodings out of the range of shorter ones, and of what is not
      a rune. */
  lemma SecondBounds(lead: Byte, b: Byte)
    requires Second(lead, b)
    ensures Announced(lead) == 3 ==> 0x20 <= Join(lead - 0xE0, b) < 0x400
    ensures Announced(lead) == 4 ==> 0x10 <= Join(lead - 0xF0, b) < 0x110
  {
  }

  lemma EncodeJoined(s: seq<Byte>)
    requires Complete(s) && Announced(s[0]) == 3
    ensures Encode(Decode(s).rune) == s[..3]
  {
    hide Join, Low, Second;
    SecondBounds(s[0], s[1]);
    var high := Join(s[0] - 0xE0, s[1]);
    assert Continuation(s[1]) by { SecondContinues(s[0], s[1]); }
    JoinSplits(s[0] - 0xE0, s[1]);
    JoinSplits(high, s[2]);
    hide Continuation;
  }

  lemma SecondContinues(lead: Byte, b: Byte)
    requires Second(lead, b)
    ensures Continuation(b)
  {
  }

  lemma EncodeLongJoined(s: seq<Byte>)
    requires Complete(s) && Announced(s[0]) == 4
    ensures Encode(Decode(s).rune) == s[..4]
  {
    hide Join, Low, Second;
    SecondBounds(s[0], s[1]);
    var high := Join(s[0] - 0xF0, s[1]);
    var middle := Join(high, s[2]);
    assert Continuation(s[1]) by { SecondContinues(s[0], s[1]); }
    JoinSplits(s[0] - 0xF0, s[1]);
    JoinSplits(high, s[2]);
    JoinSplits(middle, s[3]);
    hide Continuation;
  }

  /** And the other way round: whatever decodes without an error is the encoding of its rune. */
  lemma EncodeDecoded(s: seq<Byte>)
    requires Complete(s)
    ensures Encode(Decode(s).rune) == s[..Decode(s).size]
  {
    match Announced(s[0])
    case 3 => EncodeJoined(s);
    case 4 => EncodeLongJoined(s);
    case 2 =>
      JoinSplits(s[0] - 0xC0, s[1]);
      hide Low;
    case _ =>
  }

  predicate StartsRune(b: Byte) {
    !Continuation(b)
  }

  /** The position, from `i` down, where a rune may start; one below `limit` if there is none. */
  function ScanBack(s: seq<Byte>, i: int, limit: nat): (start: int)
    requires limit - 1 <= i < |s|
    ensures limit - 1 <= start <= i
    ensures start >= limit ==> StartsRune(s[start])
    ensures forall k | start < k <= i :: Continuation(s[k])
    decreases i - limit
  {
    if i < limit || StartsRune(s[i]) then i else ScanBack(s, i - 1, limit)
  }

  /** utf8.DecodeLastRune. */
  function DecodeLast(s: seq<Byte>): (d: Decoded)
    ensures s != [] ==> 1 <= d.size <= |s|
  {
    if s == [] then Decoded(REPLACEMENT, 0)
    else if s[|s| - 1] < 0x80 then Decoded(s[|s| - 1], 1)
    else
      var limit: nat := if |s| < 4 then 0 else |s| - 4;
      var found := ScanBack(s, |s| - 2, limit);
      var start: nat := if found < 0 then 0 else found;
      var d := Decode(s[start..]);
      if start + d.size != |s| then ERROR else d
  }

  lemma EncodedShape(r: Rune)
    ensures StartsRune(Encode(r)[0])
    ensures forall k | 1 <= k < |Encode(r)| :: Continuation(Encode(r)[k])
    ensures Encode(r)[0] < 0x80 <==> |Encode(r)| == 1
    ensures Decoded(r, |Encode(r)|) != ERROR
  {
  }

  /** Text that ends with a whole rune: the last rune is found, whatever precedes it. */
  lemma DecodeLastWhole(before: seq<Byte>, r: Rune)
    ensures DecodeLast(before + Encode(r)) == Decoded(r, |Encode(r)|)
  {
    var e := Encode(r);
    var s := before + e;
    EncodedShape(r);
    assert s[|before|..] == e;
    assert forall k | 0 <= k < |e| :: s[|before| + k] == e[k];
    DecodeEncoded(r, e);
    hide Encode, Decode;
  }

  lemma DecodedEndsInContinuation(s: seq<Byte>)
    requires s != [] && Decode(s).size > 1
    ensures Continuation(s[Decode(s).size - 1])
  {
  }

  /** A lead byte at the end is an error, because a rune of several bytes ends with a continuation. */
  lemma DecodeLastLead(s: seq<Byte>)
    requires s != [] && Announced(s[|s| - 1]) > 1
    ensures DecodeLast(s) == ERROR
  {
    var limit: nat := if |s| < 4 then 0 else |s| - 4;
    var found := ScanBack(s, |s| - 2, limit);
    var start: nat := if found < 0 then 0 else found;
    var d := Decode(s[start..]);
    if start + d.size == |s| && d.size > 1 {
      DecodedEndsInContinuation(s[start..]);
      assert false;
    }
    if |s| == 1 {
      assert !Complete(s[start..]);
    }
    hide Decode, ScanBack;
  }

  /** So is a run of continuation bytes that is too short for the lead byte before it. */
  lemma DecodeLastShort(s: seq<Byte>, p: nat)
    requires p + 1 < |s| && |s| - p < Announced(s[p])
    requires forall k | p < k < |s| :: Continuation(s[k])
    ensures DecodeLast(s) == ERROR
  {
    var limit: nat := if |s| < 4 then 0 else |s| - 4;
    assert StartsRune(s[p]);
    assert ScanBack(s, |s| - 2, limit) == p by {
      hide ScanBack;
    }
    assert !Complete(s[p..]);
    hide ScanBack, Announced;
  }

  /** Text that ends in the middle of a rune: the last byte is an error of its own. */
  lemma DecodeLastBroken(before: seq<Byte>, r: Rune, j: nat)
    requires 0 < j < |Encode(r)|
    ensures DecodeLast(before + Encode(r)[..j]) == ERROR
  {
    var s := before + Encode(r)[..j];
    EncodedShape(r);
    EncodedIsComplete(r, Encode(r));
    hide Encode, DecodeLast, Announced;
    assert forall k | |before| <= k < |s| :: s[k] == Encode(r)[k - |before|];
    if j == 1 {
      DecodeLastLead(s);
    } else {
      DecodeLastShort(s, |before|);
    }
  }

  const MAX_RESULT_MESSAGE_LEN: nat := 1024

  /** "...[truncated]" */
  function Suffix(): (s: seq<Byte>)
    ensures |s| == 14
  {
    [46, 46, 46, 91, 116, 114, 117, 110, 99, 97, 116, 101, 100, 93]
  }

  predicate EndsWhole(head: seq<Byte>) {
    head == [] || DecodeLast(head) != ERROR
  }

  /** The longest prefix of at most `n` bytes that is empty or ends with a whole rune. */
  function LongestGood(msg: seq<Byte>, n: nat): (m: nat)
    requires n <= |msg|
    ensures m <= n && EndsWhole(msg[..m])
    ensures forall k | m < k <= n :: !EndsWhole(msg[..k])
  {
    hide DecodeLast;
    if EndsWhole(msg[..n]) then n else LongestGood(msg, n - 1)
  }

  function Truncated(msg: seq<Byte>): seq<Byte> {
    if |msg| <= MAX_RESULT_MESSAGE_LEN then msg
    else msg[..LongestGood(msg, MAX_RESULT_MESSAGE_LEN - |Suffix()|)] + Suffix()
  }

  /** The head ends with a whole rune, or is empty, and no longer one within the budget does. */
  predicate LongestHead(msg: seq<Byte>, n: nat) {
    && n <= 1010 && n <= |msg|
    && (n > 0 ==> DecodeLast(msg[..n]) != Decoded(0xFFFD, 1))
    && forall m | n < m <= 1010 && m <= |msg| :: DecodeLast(msg[..m]) == Decoded(0xFFFD, 1)
  }

  method TruncateResultMessage(msg: seq<Byte>) returns (r: seq<Byte>)
    ensures r == Truncated(msg)
    ensures |r| <= 1024
    ensures |msg| <= 1024 ==> r == msg
    ensures |msg| > 1024 ==>
              && |r| >= 14
              && r == msg[..|r| - 14] + [46, 46, 46, 91, 116, 114, 117, 110, 99, 97, 116, 101, 100, 93]
              && LongestHead(msg, |r| - 14)
  {
    if |msg| <= MAX_RESULT_MESSAGE_LEN {
      return msg;
    }
    var keep := MAX_RESULT_MESSAGE_LEN - |Suffix()|;
    var head := msg[..keep];
    while |head| > 0
      invariant |head| <= keep && head == msg[..|head|]
      invariant LongestGood(msg, keep) == LongestGood(msg, |head|)
    {
      var d := DecodeLast(head);
      if d.rune != REPLACEMENT || d.size > 1 {
        break;
      }
      head := head[..|head| - d.size];
      assert head == msg[..|head|];
    }
    return head + Suffix();
  }

  /** How many leading runes fit into a budget of bytes. */
  function Fitting(runes: seq<Rune>, budget: nat): (k: nat)
    ensures k <= |runes|
  {
    if runes == [] || |Encode(runes[0])| > budget then 0
    else 1 + Fitting(runes[1..], budget - |Encode(runes[0])|)
  }

  lemma {:induction false} EncodeAllConcat(a: seq<Rune>, b: seq<Rune>)
    ensures EncodeAll(a + b) == EncodeAll(a) + EncodeAll(b)
  {
    if a == [] {
      assert a + b == b;
    } else {
      EncodeAllConcat(a[1..], b);
      assert (a + b)[0] == a[0] && (a + b)[1..] == a[1..] + b;
    }
  }

  lemma EncodeOneMore(runes: seq<Rune>, k: nat)
    requires k < |runes|
    ensures EncodeAll(runes[..k + 1]) == EncodeAll(runes[..k]) + Encode(runes[k])
  {
    assert EncodeAll([runes[k]]) == Encode(runes[k]) by {
      assert [runes[k]][1..] == [];
    }
    hide Encode;
    assert runes[..k + 1] == runes[..k] + [runes[k]];
    EncodeAllConcat(runes[..k], [runes[k]]);
  }

  /** The encoding of a text starts with those of its first runes. */
  lemma EncodePrefix(runes: seq<Rune>, k: nat)
    requires k <= |runes|
    ensures EncodeAll(runes[..k]) <= EncodeAll(runes)
  {
    assert runes == runes[..k] + runes[k..];
    EncodeAllConcat(runes[..k], runes[k..]);
  }

  /** `Fitting` is what it says: those runes fit, and one more does not. */
  lemma {:induction false} FittingIsMaximal(runes: seq<Rune>, budget: nat)
    ensures var k := Fitting(runes, budget);
            && |EncodeAll(runes[..k])| <= budget
            && (k < |runes| ==> |EncodeAll(runes[..k + 1])| > budget)
  {
    var k := Fitting(runes, budget);
    if k > 0 {
      FittingIsMaximal(runes[1..], budget - |Encode(runes[0])|);
      assert runes[..k][1..] == runes[1..][..k - 1];
      if k < |runes| {
        assert runes[..k + 1][1..] == runes[1..][..k];
      }
    } else if runes != [] {
      assert runes[..1][1..] == [];
      assert EncodeAll(runes[..1]) == Encode(runes[0]);
    }
  }

  /** No other number of runes is maximal. */
  lemma {:induction false} FittingIsUnique(runes: seq<Rune>, budget: nat, k: nat)
    requires k < |runes| && |EncodeAll(runes[..k])| <= budget < |EncodeAll(runes[..k + 1])|
    ensures Fitting(runes, budget) == k
  {
    assert runes[..k + 1][1..] == runes[1..][..k];
    if k > 0 {
      assert runes[..k][1..] == runes[1..][..k - 1];
      FittingIsUnique(runes[1..], budget - |Encode(runes[0])|, k - 1);
    }
  }

  lemma BoundaryEndsWhole(runes: seq<Rune>, k: nat)
    requires k <= |runes|
    ensures |EncodeAll(runes[..k])| <= |EncodeAll(runes)|
    ensures EndsWhole(EncodeAll(runes)[..|EncodeAll(runes[..k])|])
  {
    EncodePrefix(runes, k);
    assert EncodeAll(runes)[..|EncodeAll(runes[..k])|] == EncodeAll(runes[..k]);
    if k > 0 {
      hide Encode, EncodeAll, DecodeLast;
      EncodeOneMore(runes, k - 1);
      DecodeLastWhole(EncodeAll(runes[..k - 1]), runes[k - 1]);
      EncodedShape(runes[k - 1]);
    }
  }

  lemma InsideEndsBadly(runes: seq<Rune>, k: nat, n: nat)
    requires k < |runes| && |EncodeAll(runes[..k])| < n < |EncodeAll(runes[..k + 1])|
    ensures |EncodeAll(runes[..k + 1])| <= |EncodeAll(runes)|
    ensures !EndsWhole(EncodeAll(runes)[..n])
  {
    hide Encode, EncodeAll, DecodeLast;
    var before := EncodeAll(runes[..k]);
    EncodeOneMore(runes, k);
    EncodePrefix(runes, k + 1);
    assert EncodeAll(runes)[..n] == before + Encode(runes[k])[..n - |before|];
    DecodeLastBroken(before, runes[k], n - |before|);
  }

  /** In a valid text, the prefixes that end well are those that end at a rune boundary. */
  lemma {:induction false} LongestGoodIsFitting(runes: seq<Rune>, n: nat)
    requires n < |EncodeAll(runes)|
    ensures LongestGood(EncodeAll(runes), n) == |EncodeAll(runes[..Fitting(runes, n)])|
  {
    var s := EncodeAll(runes);
    var k := Fitting(runes, n);
    assert LongestGood(s, n) == if EndsWhole(s[..n]) then n else LongestGood(s, n - 1);
    hide LongestGood, Encode, EncodeAll, Fitting, EndsWhole;
    FittingIsMaximal(runes, n);
    assert runes[..|runes|] == runes;
    BoundaryEndsWhole(runes, k);
    if |EncodeAll(runes[..k])| < n {
      InsideEndsBadly(runes, k, n);
      FittingIsUnique(runes, n - 1, k);
      LongestGoodIsFitting(runes, n - 1);
    }
  }

  function SuffixText(): seq<Rune> {
    [46, 46, 46, 91, 116, 114, 117, 110, 99, 97, 116, 101, 100, 93]
  }

  lemma {:induction false} EncodeAscii(runes: seq<Rune>)
    requires forall i | 0 <= i < |runes| :: runes[i] < 0x80
    ensures |EncodeAll(runes)| == |runes|
    ensures forall i | 0 <= i < |runes| :: EncodeAll(runes)[i] == runes[i]
  {
    if runes != [] {
      EncodeAscii(runes[1..]);
    }
  }

  lemma CutAtRune(runes: seq<Rune>, budget: nat)
    requires budget < |EncodeAll(runes)|
    ensures var k := Fitting(runes, budget);
            && EncodeAll(runes)[..LongestGood(EncodeAll(runes), budget)] == EncodeAll(runes[..k])
            && k < |runes|
            && budget - 3 <= |EncodeAll(runes[..k])| <= budget < |EncodeAll(runes[..k + 1])|
  {
    var k := Fitting(runes, budget);
    hide Encode, EncodeAll, Fitting, LongestGood;
    FittingIsMaximal(runes, budget);
    assert runes[..|runes|] == runes;
    EncodeOneMore(runes, k);
    EncodePrefix(runes, k);
    LongestGoodIsFitting(runes, budget);
  }

  /** An over-long valid text keeps as many whole runes as fit into the budget, so that at most
      three bytes of it are given away, and the result is valid again; replacement characters in
      the text make no difference. */
  lemma TruncationKeepsRunes(runes: seq<Rune>)
    requires |EncodeAll(runes)| > MAX_RESULT_MESSAGE_LEN
    ensures var k := Fitting(runes, MAX_RESULT_MESSAGE_LEN - |Suffix()|);
            && Truncated(EncodeAll(runes)) == EncodeAll(runes[..k]) + Suffix()
            && Truncated(EncodeAll(runes)) == EncodeAll(runes[..k] + SuffixText())
            && k < |runes|
            && |EncodeAll(runes[..k])| <= MAX_RESULT_MESSAGE_LEN - |Suffix()| < |EncodeAll(runes[..k + 1])|
            && MAX_RESULT_MESSAGE_LEN - 3 <= |Truncated(EncodeAll(runes))| <= MAX_RESULT_MESSAGE_LEN
  {
    hide Encode, EncodeAll, Fitting, LongestGood, Suffix, SuffixText;
    var k := Fitting(runes, MAX_RESULT_MESSAGE_LEN - |Suffix()|);
    CutAtRune(runes, MAX_RESULT_MESSAGE_LEN - |Suffix()|);
    SuffixStaysValid(runes[..k]);
  }

  lemma SuffixStaysValid(runes: seq<Rune>)
    ensures EncodeAll(runes + SuffixText()) == EncodeAll(runes) + Suffix()
  {
    hide EncodeAll, Suffix, SuffixText;
    SuffixIsAscii();
    EncodeAllConcat(runes, SuffixText());
  }

  lemma SuffixIsAscii()
    ensures EncodeAll(SuffixText()) == Suffix()
  {
    EncodeAscii(SuffixText());
    hide EncodeAll;
  }
}

/** Fitting one message into a byte budget: an excerpt keeps a head and a tail of the
    text around an omission marker, and a binary search looks for the longest that fits. */
module Excerpt {
  import opened Wrappers
  import opened Decimal

  /** A Unicode code point, as string iteration yields it (a lone surrogate is one too). */
  type Point = nat

  /** Bytes of a code point inside a JSON string encoded as UTF-8 (section 7 of RFC 8259,
      section 3 of RFC 3629; a lone surrogate is written as a six-byte escape). */
  function PointBytes(p: Point): (n: nat)
    ensures 1 <= n <= 6
  {
    if p == 0x22 || p == 0x5C || p == 0x08 || p == 0x09 || p == 0x0A || p == 0x0C || p == 0x0D then 2
    else if p < 0x20 || 0xD800 <= p <= 0xDFFF then 6
    else if p < 0x80 then 1
    else if p < 0x800 then 2
    else if p < 0x10000 then 3
    else 4
  }

  function Bytes(text: seq<Point>): nat {
    if text == [] then 0 else Bytes(text[..|text| - 1]) + PointBytes(text[|text| - 1])
  }

  function Ascii(s: string): seq<Point> {
    if s == [] then [] else Ascii(s[..|s| - 1]) + [s[|s| - 1] as int]
  }

  const ELLIPSIS: Point := 0x2026

  function OmissionMarker(omitted: nat): seq<Point> {
    [ELLIPSIS] + Ascii("[" + Show(omitted) + " chars omitted]") + [ELLIPSIS]
  }

  function HeadOf(keep: nat): nat {
    (keep + 2) / 3
  }

  /** `keep` code points of the text, a third of them (rounded up) from its start. */
  function Kept(text: seq<Point>, keep: nat): seq<Point>
    requires keep <= |text|
  {
    if keep == |text| then text
    else text[..HeadOf(keep)] + OmissionMarker(|text| - keep) + text[|text| - (keep - HeadOf(keep))..]
  }

  predicate Fits(text: seq<Point>, keep: nat, overhead: nat, budget: nat)
    requires keep <= |text|
  {
    overhead + Bytes(Kept(text, keep)) <= budget
  }

  // ----- Sizes -----

  lemma {:induction false} BytesConcat(a: seq<Point>, b: seq<Point>)
    ensures Bytes(a + b) == Bytes(a) + Bytes(b)
  {
    hide PointBytes;
    if b == [] {
      assert a + b == a;
    } else {
      assert (a + b)[..|a + b| - 1] == a + b[..|b| - 1];
      BytesConcat(a, b[..|b| - 1]);
    }
  }

  predicate Plain(s: string) {
    forall i :: 0 <= i < |s| ==> ' ' <= s[i] <= '~' && s[i] != '"' && s[i] != '\\'
  }

  lemma {:induction false} PlainBytes(s: string)
    requires Plain(s)
    ensures Bytes(Ascii(s)) == |s|
  {
    if s != [] {
      PlainBytes(s[..|s| - 1]);
      assert Ascii(s)[..|Ascii(s)| - 1] == Ascii(s[..|s| - 1]);
    }
  }

  const MARKER_BYTES := 22

  /** The marker's only variable part is the digits of its count. */
  lemma MarkerBytes(omitted: nat)
    ensures Bytes(OmissionMarker(omitted)) == MARKER_BYTES + |Show(omitted)|
  {
    var inner := "[" + Show(omitted) + " chars omitted]";
    ShowIsDigits(omitted);
    hide Show;
    assert Plain(inner);
    PlainBytes(inner);
    BytesConcat([ELLIPSIS] + Ascii(inner), [ELLIPSIS]);
    BytesConcat([ELLIPSIS], Ascii(inner));
    assert Bytes([ELLIPSIS]) == 3 by { assert [ELLIPSIS][..0] == []; }
  }

  lemma {:induction false} ShowGrows(n: nat)
    ensures |Show(n)| <= |Show(n + 1)| <= |Show(n)| + 1
  {
    if n >= 10 {
      if n % 10 == 9 {
        ShowGrows(n / 10);
        assert (n + 1) / 10 == n / 10 + 1;
      } else {
        assert (n + 1) / 10 == n / 10;
      }
    }
  }

  lemma KeptBytes(text: seq<Point>, keep: nat)
    requires keep < |text|
    ensures Bytes(Kept(text, keep)) == Bytes(text[..HeadOf(keep)]) + (MARKER_BYTES + |Show(|text| - keep)|)
                                       + Bytes(text[|text| - (keep - HeadOf(keep))..])
  {
    var head, marker, tail := text[..HeadOf(keep)], OmissionMarker(|text| - keep), text[|text| - (keep - HeadOf(keep))..];
    hide Bytes, Show, OmissionMarker;
    assert Kept(text, keep) == head + marker + tail;
    hide Kept;
    MarkerBytes(|text| - keep);
    BytesConcat(head + marker, tail);
    BytesConcat(head, marker);
  }

  /** One more kept code point costs at least the byte its marker digit may save. */
  lemma OneMoreCostsMore(text: seq<Point>, keep: nat)
    requires keep + 1 < |text|
    ensures Bytes(Kept(text, keep)) <= Bytes(Kept(text, keep + 1))
  {
    hide Show, Kept, PointBytes, OmissionMarker;
    var n := |text|;
    KeptBytes(text, keep);
    KeptBytes(text, keep + 1);
    ShowGrows(n - keep - 1);
    var h, h' := HeadOf(keep), HeadOf(keep + 1);
    var t, t' := keep - h, keep + 1 - h';
    if h' == h + 1 {
      assert t' == t;
      HeadGrows(text, h);
    } else {
      assert h' == h && t' == t + 1;
      TailGrows(text, t);
    }
  }

  lemma HeadGrows(text: seq<Point>, h: nat)
    requires h < |text|
    ensures Bytes(text[..h + 1]) >= Bytes(text[..h]) + 1
  {
    assert text[..h + 1][..h] == text[..h];
  }

  lemma TailGrows(text: seq<Point>, t: nat)
    requires t < |text|
    ensures Bytes(text[|text| - (t + 1)..]) >= Bytes(text[|text| - t..]) + 1
  {
    var n := |text|;
    assert text[n - (t + 1)..] == [text[n - t - 1]] + text[n - t..];
    BytesConcat([text[n - t - 1]], text[n - t..]);
    assert [text[n - t - 1]][..0] == [];
  }

  /** Short of the whole text, fitting is downward closed. */
  lemma {:induction false} FitsDownward(text: seq<Point>, low: nat, high: nat, overhead: nat, budget: nat)
    requires low <= high < |text| && Fits(text, high, overhead, budget)
    ensures Fits(text, low, overhead, budget)
    decreases high - low
  {
    hide Kept;
    if low < high {
      OneMoreCostsMore(text, high - 1);
      FitsDownward(text, low, high - 1, overhead, budget);
    }
  }

  // ----- What an excerpt shows -----

  lemma {:induction false} AsciiSpells(s: string)
    ensures |Ascii(s)| == |s| && forall i :: 0 <= i < |s| ==> Ascii(s)[i] == s[i] as int
  {
    if s != [] {
      AsciiSpells(s[..|s| - 1]);
    }
  }

  /** The middle of an excerpt is this text between two ellipses. */
  predicate Spells(middle: seq<Point>, s: string) {
    && |middle| == |s| + 2 && middle[0] == 0x2026 && middle[|s| + 1] == 0x2026
    && forall i :: 0 <= i < |s| ==> middle[i + 1] == s[i] as int
  }

  lemma MarkerSpells(omitted: nat)
    ensures Spells(OmissionMarker(omitted), "[" + Show(omitted) + " chars omitted]")
  {
    AsciiSpells("[" + Show(omitted) + " chars omitted]");
    hide Show, Ascii;
  }

  /** An excerpt is a start of the text, a marker, and an end of it, `keep` code points of
      the text in all, a third of them (rounded up) at the start; and the number between
      the marker's brackets is how many are left out. The whole text is its own excerpt. */
  lemma ExcerptShows(text: seq<Point>, keep: nat) returns (head: nat, tail: nat, digits: string, middle: seq<Point>)
    requires keep <= |text|
    ensures keep == |text| ==> Kept(text, keep) == text
    ensures keep < |text| ==>
              && head + tail == keep && 3 * head >= keep && 3 * head <= keep + 2
              && Kept(text, keep) == text[..head] + middle + text[|text| - tail..]
              && Spells(middle, "[" + digits + " chars omitted]")
              && (forall i :: 0 <= i < |digits| ==> IsDigit(digits[i])) && Value(digits) == |text| - keep
  {
    hide Value, Show, OmissionMarker, Spells;
    head := (keep + 2) / 3;
    tail, digits, middle := keep - head, Show(|text| - keep), OmissionMarker(|text| - keep);
    ShowReadsBack(|text| - keep);
    MarkerSpells(|text| - keep);
  }

  // ----- The search -----

  /** `keep` is the largest that fits, or there is none. */
  predicate IsLargest(text: seq<Point>, overhead: nat, budget: nat, best: Option<nat>) {
    && (best.None? ==> forall k :: 0 <= k <= |text| ==> !Fits(text, k, overhead, budget))
    && (best.Some? ==>
          && best.value <= |text| && Fits(text, best.value, overhead, budget)
          && forall k :: best.value < k <= |text| ==> !Fits(text, k, overhead, budget))
  }

  /** What the search finds: the longest excerpt short of the whole text - and the whole
      only when the excerpt one short of it fits as well. */
  predicate IsFound(text: seq<Point>, overhead: nat, budget: nat, best: Option<nat>) {
    && (best.None? <==> forall k :: 0 <= k < |text| ==> !Fits(text, k, overhead, budget))
    && (best.Some? ==>
          && best.value <= |text| && Fits(text, best.value, overhead, budget)
          && forall k :: best.value < k < |text| ==> !Fits(text, k, overhead, budget))
    && (best == Some(|text|) <==>
          |text| > 0 && Fits(text, |text|, overhead, budget) && Fits(text, |text| - 1, overhead, budget))
  }

  method TruncateToBudget(text: seq<Point>, overhead: nat, budget: nat) returns (best: Option<nat>)
    ensures IsFound(text, overhead, budget, best)
  {
    hide Kept;
    var n := |text|;
    if n == 0 {
      return None;
    }
    best := None;
    var low, high := 0, n;
    while low <= high
      invariant 0 <= low <= high + 1 <= n + 1
      invariant best.None? ==> low == 0
      invariant best.Some? ==> low == best.value + 1 <= n + 1 && Fits(text, best.value, overhead, budget)
      invariant low > 0 ==> Fits(text, Min(low, n) - 1, overhead, budget)
      invariant forall k :: high < k < n ==> !Fits(text, k, overhead, budget)
      invariant high == n - 1 ==> !Fits(text, n, overhead, budget)
    {
      var keep := (low + high) / 2;
      if Fits(text, keep, overhead, budget) {
        best, low := Some(keep), keep + 1;
      } else {
        forall k | keep < k < n ensures !Fits(text, k, overhead, budget) {
          if Fits(text, k, overhead, budget) { FitsDownward(text, keep, k, overhead, budget); }
        }
        high := keep - 1;
      }
    }
  }

  /** The search returns the largest fitting `keep` exactly when the whole text does not
      fit, or the excerpt one short of it does; an empty text has none, and nothing is
      returned for it even when it fits. */
  lemma LargestExactly(text: seq<Point>, overhead: nat, budget: nat, best: Option<nat>)
    requires IsFound(text, overhead, budget, best)
    ensures IsLargest(text, overhead, budget, best)
            <==> !Fits(text, |text|, overhead, budget) || (text != [] && Fits(text, |text| - 1, overhead, budget))
  {
    hide Fits;
  }

  /** The marker costs more than it saves on short texts: one letter fits, its excerpt
      does not, and the search gives up on it. */
  lemma ShortTextIsMissed()
    ensures var text: seq<Point> := [0x61];
            && Fits(text, 1, 0, 1) && IsFound(text, 0, 1, None) && !IsLargest(text, 0, 1, None)
  {
    var text: seq<Point> := [0x61];
    assert text[..0] == [];
    assert Bytes(text) == 1;
    KeptBytes(text, 0);
    assert Fits(text, 1, 0, 1) && !Fits(text, 0, 0, 1);
  }
}

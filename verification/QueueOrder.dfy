/** Queue keys and their storage order: why entries drain first-in first-out, and why
    replacing a mixed entry by its split children leaves the message order alone. */
module QueueOrder {
  import opened Decimal

  // ----- Storage order -----

  /** Storage lists keys in lexicographic order. */
  predicate Below(a: string, b: string) {
    b != [] && (a == [] || a[0] < b[0] || (a[0] == b[0] && Below(a[1..], b[1..])))
  }

  lemma {:induction false} BelowIsAsymmetric(a: string, b: string)
    ensures !(Below(a, b) && Below(b, a))
  {
    if a != [] && b != [] {
      BelowIsAsymmetric(a[1..], b[1..]);
    }
  }

  lemma {:induction false} BelowAfterCommonPrefix(p: string, a: string, b: string)
    ensures Below(p + a, p + b) <==> Below(a, b)
  {
    if p == [] {
      assert p + a == a && p + b == b;
    } else {
      assert (p + a)[1..] == p[1..] + a && (p + b)[1..] == p[1..] + b;
      BelowAfterCommonPrefix(p[1..], a, b);
    }
  }

  /** A proper extension of a key comes right after it. */
  lemma BelowExtension(a: string, x: string)
    requires x != []
    ensures Below(a, a + x)
  {
    BelowAfterCommonPrefix(a, [], x);
    assert a + [] == a;
  }

  /** Between keys of one length, what is appended does not matter. */
  lemma {:induction false} BelowWhateverFollows(a: string, b: string, x: string, y: string)
    requires |a| == |b| && a != b
    ensures Below(a + x, b + y) <==> Below(a, b)
    ensures Below(a, b) || Below(b, a)
  {
    assert (a + x)[1..] == a[1..] + x && (b + y)[1..] == b[1..] + y;
    if a[0] == b[0] {
      assert a == [a[0]] + a[1..] && b == [b[0]] + b[1..];
      BelowWhateverFollows(a[1..], b[1..], x, y);
    }
  }

  predicate Ascending(ks: seq<string>) {
    forall i, j :: 0 <= i < j < |ks| ==> Below(ks[i], ks[j])
  }

  /** What `storage.list` returns: every key once, in ascending order. */
  ghost predicate IsListing<V>(ks: seq<string>, m: map<string, V>) {
    Ascending(ks) && forall k :: k in m <==> k in ks
  }

  lemma {:induction false} BelowIsTransitive(a: string, b: string, c: string)
    requires Below(a, b) && Below(b, c)
    ensures Below(a, c)
  {
    if a != [] && a[0] == b[0] == c[0] {
      BelowIsTransitive(a[1..], b[1..], c[1..]);
    }
  }

  /** An ascending list starts with its least key. */
  lemma HeadIsLeast(ks: seq<string>, k: string)
    requires Ascending(ks) && k in ks
    ensures k == ks[0] || Below(ks[0], k)
  {
    var i :| 0 <= i < |ks| && ks[i] == k;
    if i > 0 {
      assert Below(ks[0], ks[i]);
    }
  }

  lemma HeadIsMember(ks: seq<string>)
    ensures ks == [] || ks[0] in ks
  {
  }

  lemma TailKeys(ks: seq<string>, k: string)
    requires Ascending(ks) && ks != []
    ensures Ascending(ks[1..])
    ensures k in ks[1..] <==> k in ks && k != ks[0]
  {
    BelowIsAsymmetric(ks[0], ks[0]);
    assert forall i :: 0 <= i < |ks[1..]| ==> Below(ks[0], ks[1..][i]);
  }

  /** A table has one listing. */
  lemma {:induction false} ListingUnique(ks: seq<string>, ls: seq<string>)
    requires Ascending(ks) && Ascending(ls) && forall k :: k in ks <==> k in ls
    ensures ks == ls
    decreases |ks|
  {
    if ks == [] {
      HeadIsMember(ls);
    } else {
      assert ks[0] in ls;
      assert ls[0] in ks;
      HeadIsLeast(ks, ls[0]);
      HeadIsLeast(ls, ks[0]);
      BelowIsAsymmetric(ks[0], ls[0]);
      forall k ensures k in ks[1..] <==> k in ls[1..] {
        TailKeys(ks, k);
        TailKeys(ls, k);
      }
      TailKeys(ks, ks[0]);
      TailKeys(ls, ls[0]);
      ListingUnique(ks[1..], ls[1..]);
    }
  }

  lemma {:induction false} BelowIsTotal(a: string, b: string)
    requires a != b
    ensures Below(a, b) || Below(b, a)
  {
    if a != [] && b != [] && a[0] == b[0] {
      assert a == [a[0]] + a[1..] && b == [b[0]] + b[1..];
      BelowIsTotal(a[1..], b[1..]);
    }
  }

  function Insert(ks: seq<string>, k: string): seq<string> {
    if ks == [] || Below(k, ks[0]) then [k] + ks else [ks[0]] + Insert(ks[1..], k)
  }

  lemma {:induction false} InsertHolds(ks: seq<string>, k: string)
    ensures forall x :: x in Insert(ks, k) <==> x == k || x in ks
  {
    hide Below;
    if ks != [] {
      InsertHolds(ks[1..], k);
    }
  }

  lemma {:induction false} InsertAscends(ks: seq<string>, k: string)
    requires Ascending(ks) && k !in ks
    ensures Ascending(Insert(ks, k))
  {
    hide Below;
    InsertHolds(ks, k);
    if ks == [] {
    } else if Below(k, ks[0]) {
      forall j | 0 <= j < |ks| ensures Below(k, ks[j]) {
        if j > 0 { BelowIsTransitive(k, ks[0], ks[j]); }
      }
    } else {
      BelowIsTotal(k, ks[0]);
      InsertAscends(ks[1..], k);
      InsertHolds(ks[1..], k);
      assert forall x :: x in ks[1..] ==> Below(ks[0], x);
      assert forall i :: 0 <= i < |Insert(ks[1..], k)| ==> Insert(ks[1..], k)[i] in Insert(ks[1..], k);
    }
  }

  lemma {:induction false} ListingExists<V>(m: map<string, V>)
    ensures exists ks :: IsListing(ks, m)
    decreases |m|
  {
    if m.Keys == {} {
      assert IsListing([], m);
    } else {
      var k :| k in m;
      var rest := m - {k};
      assert rest.Keys == m.Keys - {k};
      ListingExists(rest);
      var ks :| IsListing(ks, rest);
      InsertAscends(ks, k);
      InsertHolds(ks, k);
      assert IsListing(Insert(ks, k), m);
    }
  }

  // ----- Keys -----

  const SEQ_WIDTH := 10
  const SUFFIX_WIDTH := 8
  const SPLIT_WIDTH := 4
  const ROOT_LENGTH := 2 + SEQ_WIDTH + 1 + SUFFIX_WIDTH

  function RootKey(seqNo: nat, suffix: string): string {
    "q:" + (PadStart(Show(seqNo), SEQ_WIDTH) + ("-" + suffix))
  }

  function ChildKey(key: string, index: nat): string {
    key + (":split:" + PadStart(Show(index), SPLIT_WIDTH))
  }

  /** A key the enqueue code can have minted while `qseq` stood at `limit`. */
  ghost predicate IsRoot(key: string, limit: nat) {
    exists n: nat, suffix: string ::
      n <= limit && n < Pow10(SEQ_WIDTH) && |suffix| == SUFFIX_WIDTH && key == RootKey(n, suffix)
  }

  lemma RootLength(n: nat, suffix: string)
    requires n < Pow10(SEQ_WIDTH) && |suffix| == SUFFIX_WIDTH
    ensures |RootKey(n, suffix)| == ROOT_LENGTH
    ensures RootKey(n, suffix) == "q:" + (Fixed(SEQ_WIDTH, n) + ("-" + suffix))
  {
    PadIsFixed(SEQ_WIDTH, n);
    FixedLength(SEQ_WIDTH, n);
    hide Fixed, PadStart, Show, Pow10;
  }

  lemma {:induction false} FixedOrder(w: nat, m: nat, n: nat, x: string, y: string)
    requires m < n < Pow10(w)
    ensures Below(Fixed(w, m) + x, Fixed(w, n) + y)
  {
    var dm, dn := [Digit(m % 10)], [Digit(n % 10)];
    assert Fixed(w, m) + x == Fixed(w - 1, m / 10) + (dm + x);
    assert Fixed(w, n) + y == Fixed(w - 1, n / 10) + (dn + y);
    DigitInjective(m % 10, n % 10);
    if m / 10 == n / 10 {
      BelowAfterCommonPrefix(Fixed(w - 1, m / 10), dm + x, dn + y);
    } else {
      FixedOrder(w - 1, m / 10, n / 10, dm + x, dn + y);
    }
  }

  /** A later sequence number lists later, whatever the random suffixes. */
  lemma RootOrder(m: nat, x: string, n: nat, y: string)
    requires m < n < Pow10(SEQ_WIDTH) && |x| == SUFFIX_WIDTH == |y|
    ensures Below(RootKey(m, x), RootKey(n, y))
  {
    RootLength(m, x);
    RootLength(n, y);
    FixedOrder(SEQ_WIDTH, m, n, "-" + x, "-" + y);
    BelowAfterCommonPrefix("q:", Fixed(SEQ_WIDTH, m) + ("-" + x), Fixed(SEQ_WIDTH, n) + ("-" + y));
    hide *;
  }

  /** Split children list in segment order, up to the four digits of their index. */
  lemma ChildOrder(key: string, i: nat, j: nat)
    requires i < j < Pow10(SPLIT_WIDTH)
    ensures Below(ChildKey(key, i), ChildKey(key, j))
  {
    PadIsFixed(SPLIT_WIDTH, i);
    PadIsFixed(SPLIT_WIDTH, j);
    var di, dj := Fixed(SPLIT_WIDTH, i), Fixed(SPLIT_WIDTH, j);
    FixedOrder(SPLIT_WIDTH, i, j, "", "");
    assert di + "" == di && dj + "" == dj;
    BelowAfterCommonPrefix(":split:", di, dj);
    BelowAfterCommonPrefix(key, ":split:" + di, ":split:" + dj);
    hide Fixed, PadStart, Show, Pow10, Below;
  }
}

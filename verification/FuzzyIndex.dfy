/** Spelling repair over the corpus vocabulary: the index bucketed by first letter
    and length, cached once, and the lookup that must agree with a plain filter. */
module FuzzyIndex {
  import opened EditDistance

  const MIN_TOKEN := 4
  const MAX_REPAIRS := 6

  datatype Key = Key(first: char, length: nat)

  function KeyOf(token: string): Key
    requires token != []
  {
    Key(token[0], |token|)
  }

  // ----- What the index and the lookup mean -----

  /** The distinct tokens worth indexing, in order of first appearance. */
  function Kept(corpus: seq<string>): seq<string> {
    if corpus == [] then []
    else
      var kept := Kept(Init(corpus));
      var token := Last(corpus);
      if |token| < MIN_TOKEN || token in kept then kept else kept + [token]
  }

  /** The tokens of one bucket, in the same order. */
  function InBucket(tokens: seq<string>, key: Key): seq<string> {
    if tokens == [] then []
    else
      var rest := InBucket(Init(tokens), key);
      var token := Last(tokens);
      if token != [] && KeyOf(token) == key then rest + [token] else rest
  }

  function MaxEdits(term: string): nat {
    if |term| >= 7 then 2 else 1
  }

  /** A plain test of one corpus token as a repair of `term`. */
  predicate Repairs(term: string, token: string) {
    token != [] && term != [] && token != term && token[0] == term[0] && Lev(term, token) <= MaxEdits(term)
  }

  function Repairing(term: string, tokens: seq<string>): seq<string> {
    if tokens == [] then []
    else
      var rest := Repairing(term, Init(tokens));
      if Repairs(term, Last(tokens)) then rest + [Last(tokens)] else rest
  }

  /** The repairs found among the buckets of lengths `lo` up to `hi`. */
  function Scan(corpus: seq<string>, term: string, lo: nat, hi: nat): seq<string>
    requires term != [] && lo <= hi
    decreases hi
  {
    if lo == hi then []
    else Scan(corpus, term, lo, hi - 1) + Repairing(term, InBucket(Kept(corpus), Key(term[0], hi - 1)))
  }

  /** Everything the lookup could return, before it stops at six. */
  function AllRepairs(corpus: seq<string>, term: string): seq<string> {
    if |term| < 5 then [] else Scan(corpus, term, |term| - MaxEdits(term), |term| + MaxEdits(term) + 1)
  }

  function FirstSix(found: seq<string>): seq<string> {
    if |found| <= MAX_REPAIRS then found else found[..MAX_REPAIRS]
  }

  // ----- The index loses nothing -----

  predicate Distinct(s: seq<string>) {
    forall i, j :: 0 <= i < j < |s| ==> s[i] != s[j]
  }

  lemma {:induction false} KeptMeaning(corpus: seq<string>, token: string)
    ensures token in Kept(corpus) <==> token in corpus && |token| >= MIN_TOKEN
    ensures Distinct(Kept(corpus))
  {
    if corpus != [] {
      KeptMeaning(Init(corpus), token);
      assert corpus == Init(corpus) + [Last(corpus)];
    }
  }

  lemma {:induction false} InBucketMeaning(tokens: seq<string>, key: Key, token: string)
    ensures token in InBucket(tokens, key) <==> token in tokens && token != [] && KeyOf(token) == key
    ensures Distinct(tokens) ==> Distinct(InBucket(tokens, key))
  {
    if tokens != [] {
      InBucketMeaning(Init(tokens), key, token);
      InBucketMeaning(Init(tokens), key, Last(tokens));
      assert tokens == Init(tokens) + [Last(tokens)];
    }
  }

  lemma {:induction false} RepairingMeaning(term: string, tokens: seq<string>, token: string)
    ensures token in Repairing(term, tokens) <==> token in tokens && Repairs(term, token)
    ensures Distinct(tokens) ==> Distinct(Repairing(term, tokens))
  {
    if tokens != [] {
      RepairingMeaning(term, Init(tokens), token);
      RepairingMeaning(term, Init(tokens), Last(tokens));
      assert tokens == Init(tokens) + [Last(tokens)];
    }
  }

  lemma {:induction false} ScanMeaning(corpus: seq<string>, term: string, lo: nat, hi: nat, token: string)
    requires term != [] && lo <= hi
    ensures token in Scan(corpus, term, lo, hi)
            <==> token in corpus && |token| >= MIN_TOKEN && lo <= |token| < hi && Repairs(term, token)
    decreases hi
  {
    if lo < hi {
      ScanMeaning(corpus, term, lo, hi - 1, token);
      KeptMeaning(corpus, token);
      InBucketMeaning(Kept(corpus), Key(term[0], hi - 1), token);
      RepairingMeaning(term, InBucket(Kept(corpus), Key(term[0], hi - 1)), token);
    }
  }

  lemma {:induction false} ScanDistinct(corpus: seq<string>, term: string, lo: nat, hi: nat)
    requires term != [] && lo <= hi
    ensures Distinct(Scan(corpus, term, lo, hi))
    decreases hi
  {
    if lo < hi {
      ScanDistinct(corpus, term, lo, hi - 1);
      var before := Scan(corpus, term, lo, hi - 1);
      var bucket := InBucket(Kept(corpus), Key(term[0], hi - 1));
      var after := Repairing(term, bucket);
      KeptMeaning(corpus, []);
      InBucketMeaning(Kept(corpus), Key(term[0], hi - 1), []);
      RepairingMeaning(term, bucket, []);
      forall i, j | 0 <= i < |before| && 0 <= j < |after| ensures before[i] != after[j] {
        ScanMeaning(corpus, term, lo, hi - 1, before[i]);
        RepairingMeaning(term, bucket, after[j]);
        InBucketMeaning(Kept(corpus), Key(term[0], hi - 1), after[j]);
      }
    }
  }

  /** The token is another word with the same first letter, one edit from the term, or two
      from a term of seven letters or more. */
  predicate Misspells(term: string, token: string) {
    && token != term && token != "" && term != "" && token[0] == term[0]
    && (Lev(term, token) <= 1 || (Lev(term, token) == 2 && |term| > 6))
  }

  lemma MisspellsExactly(term: string, token: string)
    ensures Misspells(term, token) <==> Repairs(term, token)
  {
    hide Lev;
  }

  /** The bucketed, windowed, short-token-free scan finds exactly what filtering the
      whole corpus would, each repair once. */
  lemma IndexAgreesWithFilter(corpus: seq<string>, term: string, token: string)
    ensures Distinct(AllRepairs(corpus, term))
    ensures |term| >= 5 ==> (token in AllRepairs(corpus, term) <==> token in corpus && Misspells(term, token))
    ensures |term| < 5 ==> AllRepairs(corpus, term) == []
  {
    MisspellsExactly(term, token);
    hide Misspells;
    if |term| >= 5 {
      var lo, hi := |term| - MaxEdits(term), |term| + MaxEdits(term) + 1;
      ScanMeaning(corpus, term, lo, hi, token);
      ScanDistinct(corpus, term, lo, hi);
      LengthGap(term, token);
    }
  }

  /** Fewer than six answers are all of them; six are a prefix of all of them. */
  lemma ShortAnswersAreComplete(corpus: seq<string>, term: string, token: string)
    requires |term| >= 5
    ensures var out := FirstSix(AllRepairs(corpus, term));
            && Distinct(out)
            && (token in out ==> token in corpus && Misspells(term, token))
            && |out| <= 6 && (|out| < 6 ==> (token in out <==> token in corpus && Misspells(term, token)))
  {
    IndexAgreesWithFilter(corpus, term, token);
    hide AllRepairs, Misspells;
  }

  // ----- The program -----

  ghost predicate IsIndexOf(buckets: map<Key, seq<string>>, tokens: seq<string>) {
    forall key :: (if key in buckets then buckets[key] else []) == InBucket(tokens, key)
  }

  lemma AddToIndex(buckets: map<Key, seq<string>>, tokens: seq<string>, token: string)
    requires IsIndexOf(buckets, tokens) && token != []
    ensures var key := KeyOf(token);
            IsIndexOf(buckets[key := (if key in buckets then buckets[key] else []) + [token]], tokens + [token])
  {
    assert Init(tokens + [token]) == tokens;
  }

  lemma RepairingNext(term: string, tokens: seq<string>, i: nat)
    requires i < |tokens|
    ensures Repairing(term, tokens[..i + 1])
            == Repairing(term, tokens[..i]) + (if Repairs(term, tokens[i]) then [tokens[i]] else [])
  {
    assert Init(tokens[..i + 1]) == tokens[..i];
  }

  lemma {:induction false} RepairingGrows(term: string, tokens: seq<string>, i: nat)
    requires i <= |tokens|
    ensures Repairing(term, tokens[..i]) <= Repairing(term, tokens)
    decreases |tokens| - i
  {
    if i == |tokens| {
      assert tokens[..i] == tokens;
    } else {
      RepairingGrows(term, tokens, i + 1);
      RepairingNext(term, tokens, i);
    }
  }

  lemma {:induction false} ScanGrows(corpus: seq<string>, term: string, lo: nat, mid: nat, hi: nat)
    requires term != [] && lo <= mid <= hi
    ensures Scan(corpus, term, lo, mid) <= Scan(corpus, term, lo, hi)
    decreases hi
  {
    if mid < hi {
      ScanGrows(corpus, term, lo, mid, hi - 1);
    }
  }

  /** What the lookup has found once every bucket shorter than `length` is scanned. */
  function Found(corpus: seq<string>, term: string, length: nat): seq<string> {
    if 5 <= |term| <= length + MaxEdits(term) then Scan(corpus, term, |term| - MaxEdits(term), length) else []
  }

  lemma FoundAtStart(corpus: seq<string>, term: string)
    requires |term| >= 5
    ensures Found(corpus, term, |term| - MaxEdits(term)) == []
  {
  }

  lemma SixOfPrefix(found: seq<string>, all: seq<string>)
    requires found <= all && |found| >= MAX_REPAIRS
    ensures FirstSix(found) == FirstSix(all) && |FirstSix(found)| == MAX_REPAIRS
  {
  }

  /** One more bucket: the answer is settled as soon as six are found. */
  lemma FoundNext(corpus: seq<string>, term: string, length: nat, bucket: seq<string>)
    requires |term| >= 5 && |term| - MaxEdits(term) <= length <= |term| + MaxEdits(term)
    requires bucket == InBucket(Kept(corpus), Key(term[0], length))
    ensures var found := Found(corpus, term, length) + Repairing(term, bucket);
            && (|FirstSix(found)| < MAX_REPAIRS ==> FirstSix(found) == Found(corpus, term, length + 1))
            && (|FirstSix(found)| >= MAX_REPAIRS ==> FirstSix(found) == FirstSix(AllRepairs(corpus, term)))
  {
    hide Repairing, InBucket, Kept, FirstSix;
    var lo := |term| - MaxEdits(term);
    var found := Found(corpus, term, length) + Repairing(term, bucket);
    assert found == Scan(corpus, term, lo, length + 1);
    ScanGrows(corpus, term, lo, length + 1, |term| + MaxEdits(term) + 1);
    hide Scan;
    if |found| >= MAX_REPAIRS {
      SixOfPrefix(found, AllRepairs(corpus, term));
    } else {
      FewAreFirst(found);
    }
  }

  lemma FewAreFirst(found: seq<string>)
    requires |found| < MAX_REPAIRS
    ensures FirstSix(found) == found
  {
  }

  lemma FoundAtEnd(corpus: seq<string>, term: string)
    requires |term| >= 5 && |Found(corpus, term, |term| + MaxEdits(term) + 1)| < MAX_REPAIRS
    ensures Found(corpus, term, |term| + MaxEdits(term) + 1) == FirstSix(AllRepairs(corpus, term))
  {
  }

  predicate AllStartWith(tokens: seq<string>, first: char) {
    forall t :: t in tokens ==> t != [] && t[0] == first
  }

  /** The per-isolate vocabulary: built on first use from the static corpus. */
  class Vocabulary {
    const corpus: seq<string>
    var built: bool
    var buckets: map<Key, seq<string>>

    constructor (corpus: seq<string>)
      ensures this.corpus == corpus && Valid() && !built
    {
      this.corpus := corpus;
      built, buckets := false, map[];
    }

    ghost predicate Valid()
      reads this
    {
      built ==> IsIndexOf(buckets, Kept(corpus))
    }

    method Build()
      requires Valid()
      modifies this
      ensures Valid() && built
      ensures old(built) ==> buckets == old(buckets)
    {
      if built { return; }
      var index: map<Key, seq<string>> := map[];
      var seen: set<string> := {};
      for i := 0 to |corpus|
        invariant IsIndexOf(index, Kept(corpus[..i]))
        invariant seen == set t | t in Kept(corpus[..i])
      {
        var token := corpus[i];
        assert Init(corpus[..i + 1]) == corpus[..i] && Last(corpus[..i + 1]) == token;
        if |token| >= MIN_TOKEN && token !in seen {
          seen := seen + {token};
          AddToIndex(index, Kept(corpus[..i]), token);
          var key := KeyOf(token);
          index := index[key := (if key in index then index[key] else []) + [token]];
        }
      }
      assert corpus[..|corpus|] == corpus;
      built, buckets := true, index;
    }

    method BucketAt(key: Key) returns (tokens: seq<string>)
      requires Valid() && built
      ensures tokens == InBucket(Kept(corpus), key) && AllStartWith(tokens, key.first)
    {
      tokens := if key in buckets then buckets[key] else [];
      assert tokens == InBucket(Kept(corpus), key);
      forall t | t in tokens ensures t != [] && t[0] == key.first {
        InBucketMeaning(Kept(corpus), key, t);
      }
    }

    /** One length of the window: its bucket is scanned, and the answer is complete for
        the lengths so far, or for good. */
    method AddLength(term: string, length: nat, before: seq<string>) returns (out: seq<string>, full: bool)
      requires Valid() && built
      requires |term| >= 5 && |term| - MaxEdits(term) <= length <= |term| + MaxEdits(term)
      requires before == Found(corpus, term, length) && |before| < MAX_REPAIRS
      ensures !full ==> out == Found(corpus, term, length + 1) && |out| < MAX_REPAIRS
      ensures full ==> out == FirstSix(AllRepairs(corpus, term))
    {
      hide Lev, Repairing, InBucket, Kept, Found, FirstSix, AllRepairs, Valid, AllStartWith;
      var bucket := BucketAt(Key(term[0], length));
      FoundNext(corpus, term, length, bucket);
      out, full := ScanBucket(term, bucket, before);
    }

    /** Up to six corpus words within the edit limit of `term`. */
    method FuzzyMatches(term: string) returns (out: seq<string>)
      requires Valid()
      modifies this
      ensures Valid()
      ensures out == FirstSix(AllRepairs(corpus, term))
    {
      hide Lev;
      out := [];
      if |term| < 5 { return; }
      Build();
      FoundAtStart(corpus, term);
      hide Found, FirstSix, AllRepairs, Valid;
      for length := |term| - MaxEdits(term) to |term| + MaxEdits(term) + 1
        invariant Valid() && built
        invariant out == Found(corpus, term, length) && |out| < MAX_REPAIRS
      {
        var more, full := AddLength(term, length, out);
        out := more;
        if full { return; }
      }
      FoundAtEnd(corpus, term);
    }
  }

  /** The inner loop: append this bucket's repairs until six are found. */
  method ScanBucket(term: string, bucket: seq<string>, before: seq<string>) returns (out: seq<string>, full: bool)
    requires |term| >= 5 && |before| < MAX_REPAIRS
    requires AllStartWith(bucket, term[0])
    ensures out == FirstSix(before + Repairing(term, bucket))
    ensures full <==> |out| >= MAX_REPAIRS
  {
    var max := MaxEdits(term);
    out := before;
    for i := 0 to |bucket|
      invariant out == before + Repairing(term, bucket[..i]) && |out| < MAX_REPAIRS
    {
      RepairingNext(term, bucket, i);
      var candidate := bucket[i];
      if candidate != term {
        var d := BoundedDistance(term, candidate, max);
        if d <= max {
          out := out + [candidate];
        }
        if |out| >= MAX_REPAIRS {
          RepairingGrows(term, bucket, i + 1);
          return out, true;
        }
      }
    }
    assert bucket[..|bucket|] == bucket;
    full := false;
  }
}

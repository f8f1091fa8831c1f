/**
  Longest-suffix-match drafting over the live token stream
  (src/spec/suffix_index.h).  The gram hash is an arbitrary function, so every
  collision pattern is covered.
 */
module SuffixIndex {
  type Token = int
  type Hash = nat
  type HashFn = (Token, Token, Token) -> Hash

  const H := 3

  function Min(a: nat, b: nat): nat { if a <= b then a else b }

  function Max(a: nat, b: nat): nat { if a <= b then b else a }

  /** Hash of the gram that ends at e. */
  function HashAt(hash: HashFn, toks: seq<Token>, e: nat): Hash
    requires H - 1 <= e < |toks|
  {
    hash(toks[e - 2], toks[e - 1], toks[e])
  }

  /** e ends a gram with hash h. */
  predicate EndsGram(hash: HashFn, toks: seq<Token>, h: Hash, e: int) {
    H - 1 <= e < |toks| && HashAt(hash, toks, e) == h
  }

  /** Gram ends below bound with hash h, most recent first. */
  function SameHash(hash: HashFn, toks: seq<Token>, h: Hash, bound: nat): seq<nat>
    requires bound <= |toks|
  {
    if bound == 0 then []
    else if EndsGram(hash, toks, h, bound - 1) then [bound - 1] + SameHash(hash, toks, h, bound - 1)
    else SameHash(hash, toks, h, bound - 1)
  }

  lemma {:induction false} SameHashIs(hash: HashFn, toks: seq<Token>, h: Hash, bound: nat)
    requires bound <= |toks|
    ensures var r := SameHash(hash, toks, h, bound);
            |r| <= bound && (forall e :: e in r <==> e < bound && EndsGram(hash, toks, h, e))
  {
    if bound > 0 { SameHashIs(hash, toks, h, bound - 1); }
  }

  /** Tokens on which the stream up to e and the whole stream agree, backwards from the first k. */
  function Extend(toks: seq<Token>, e: nat, k: nat): (r: nat)
    requires e < |toks| && k <= e + 1
    ensures k <= r <= e + 1
    decreases e + 1 - k
  {
    if k < e + 1 && toks[e - k] == toks[|toks| - 1 - k] then Extend(toks, e, k + 1) else k
  }

  /** Length of the longest suffix of the stream that also ends at e. */
  function Match(toks: seq<Token>, e: nat): nat
    requires e < |toks|
  {
    Extend(toks, e, 0)
  }

  predicate SuffixAt(toks: seq<Token>, e: nat, len: nat)
    requires e < |toks| && len <= e + 1
  {
    toks[e + 1 - len..e + 1] == toks[|toks| - len..]
  }

  lemma SuffixToken(toks: seq<Token>, e: nat, len: nat, k: nat)
    requires e < |toks| && k < len <= e + 1 && SuffixAt(toks, e, len)
    ensures toks[e - k] == toks[|toks| - 1 - k]
  {
    assert toks[e + 1 - len..e + 1][len - 1 - k] == toks[|toks| - len..][len - 1 - k];
  }

  lemma {:induction false} ExtendMeans(toks: seq<Token>, e: nat, k: nat, len: nat)
    requires e < |toks| && k <= e + 1 && len <= e + 1 && SuffixAt(toks, e, k)
    ensures k <= len ==> (SuffixAt(toks, e, len) <==> len <= Extend(toks, e, k))
    decreases e + 1 - k
  {
    if k < e + 1 && toks[e - k] == toks[|toks| - 1 - k] {
      assert toks[e - k..e + 1] == [toks[e - k]] + toks[e + 1 - k..e + 1];
      assert toks[|toks| - k - 1..] == [toks[|toks| - 1 - k]] + toks[|toks| - k..];
      ExtendMeans(toks, e, k + 1, len);
    } else if k < len && SuffixAt(toks, e, len) {
      SuffixToken(toks, e, len, k);
    }
  }

  /** Match is the longest agreeing suffix: a length agrees exactly when it is no longer than Match. */
  lemma MatchIsLongest(toks: seq<Token>, e: nat, len: nat)
    requires e < |toks| && len <= e + 1
    ensures SuffixAt(toks, e, len) <==> len <= Match(toks, e)
  {
    ExtendMeans(toks, e, 0, len);
  }

  /** gram_eq of the gram ending at e with the tail gram. */
  predicate GramEq(toks: seq<Token>, e: nat)
    requires H - 1 <= e < |toks|
  {
    toks[e - 2] == toks[|toks| - 3] && toks[e - 1] == toks[|toks| - 2] && toks[e] == toks[|toks| - 1]
  }

  lemma GramIsMatch(toks: seq<Token>, e: nat)
    requires H - 1 <= e < |toks|
    ensures GramEq(toks, e) <==> Match(toks, e) >= H
    ensures GramEq(toks, e) ==> Extend(toks, e, H) == Match(toks, e)
  {
    assert Extend(toks, e, 0) >= 1 ==> Extend(toks, e, 0) == Extend(toks, e, 1);
    assert Extend(toks, e, 1) >= 2 ==> Extend(toks, e, 1) == Extend(toks, e, 2);
    assert Extend(toks, e, 2) >= 3 ==> Extend(toks, e, 2) == Extend(toks, e, 3);
  }

  // --------------------------------------------------------- what draft means

  /** e is the best of the ends in s: longest match, ties to the most recent. */
  ghost predicate Best(toks: seq<Token>, s: set<nat>, e: nat)
    requires forall x :: x in s ==> x < |toks|
  {
    e in s && forall x :: x in s ==> Match(toks, x) < Match(toks, e) || (Match(toks, x) == Match(toks, e) && x <= e)
  }

  /** Every earlier end whose match reaches the threshold. */
  ghost function AllMatches(toks: seq<Token>, threshold: nat): set<nat> {
    set e: nat | e < |toks| - 1 && Match(toks, e) >= threshold
  }

  /** Those among the cap most recent ends with the tail gram's hash (the tail itself counts towards cap). */
  ghost function CappedMatches(hash: HashFn, toks: seq<Token>, cap: nat, threshold: nat): (s: set<nat>)
    ensures s <= AllMatches(toks, threshold)
  {
    if |toks| < H then {}
    else
      var ends := SameHash(hash, toks, HashAt(hash, toks, |toks| - 1), |toks|);
      set e: nat | e in ends[..Min(cap, |ends|)] && e < |toks| - 1 && Match(toks, e) >= threshold
  }

  /** The continuation after end e, at most nMax tokens, never past the stream. */
  function Continuation(toks: seq<Token>, e: nat, nMax: nat): seq<Token>
    requires e < |toks|
  {
    toks[e + 1..Min(|toks|, e + 1 + nMax)]
  }

  /** Two best ends are the same end. */
  lemma BestIsUnique(toks: seq<Token>, s: set<nat>, e: nat, f: nat)
    requires forall x :: x in s ==> x < |toks|
    requires Best(toks, s, e) && Best(toks, s, f)
    ensures e == f
  {}

  /** What the index proposes for a stream: the continuation of the best capped match, or nothing. */
  ghost function DraftOf(hash: HashFn, toks: seq<Token>, cap: nat, minMatch: nat, nMax: int): seq<Token> {
    var s := CappedMatches(hash, toks, cap, Max(H, minMatch));
    if nMax > 0 && exists e :: Best(toks, s, e) then var e :| Best(toks, s, e); Continuation(toks, e, nMax) else []
  }

  /** The proposal is the one continuation a best match can have, and there is none without a match. */
  lemma DraftMeans(hash: HashFn, toks: seq<Token>, cap: nat, minMatch: nat, nMax: int, e: nat)
    requires nMax > 0 && Best(toks, CappedMatches(hash, toks, cap, Max(H, minMatch)), e)
    ensures DraftOf(hash, toks, cap, minMatch, nMax) == Continuation(toks, e, nMax) != []
  {
    var s := CappedMatches(hash, toks, cap, Max(H, minMatch));
    forall f: nat | Best(toks, s, f) ensures f == e { BestIsUnique(toks, s, e, f); }
  }

  /** A chain cap no smaller than the stream loses nothing, whatever the hash. */
  lemma FullCapIsBruteForce(hash: HashFn, toks: seq<Token>, cap: nat, threshold: nat)
    requires |toks| <= cap && H <= threshold
    ensures CappedMatches(hash, toks, cap, threshold) == AllMatches(toks, threshold)
  {
    forall e: nat | e in AllMatches(toks, threshold) ensures e in CappedMatches(hash, toks, cap, threshold) {
      assert Match(toks, e) <= e + 1;
      GramIsMatch(toks, e);
      SameHashIs(hash, toks, HashAt(hash, toks, |toks| - 1), |toks|);
      var ends := SameHash(hash, toks, HashAt(hash, toks, |toks| - 1), |toks|);
      assert ends[..Min(cap, |ends|)] == ends;
    }
  }

  // ------------------------------------------------------------------ chains

  /** Ends of hash h from e down, where e is one of them or there are none left. */
  ghost predicate Chain(hash: HashFn, toks: seq<Token>, h: Hash, e: int, rest: seq<nat>) {
    if e < 0 then rest == [] else EndsGram(hash, toks, h, e) && rest == SameHash(hash, toks, h, e + 1)
  }

  /** The recency chain: prev[e] is the next older end with e's hash. */
  ghost predicate Linked(hash: HashFn, toks: seq<Token>, prev: seq<int>, e: nat)
    requires H - 1 <= e < |toks| == |prev|
  {
    -1 <= prev[e] < e && Chain(hash, toks, HashAt(hash, toks, e), prev[e],
        SameHash(hash, toks, HashAt(hash, toks, e), e))
  }

  lemma {:induction false} SameHashPrefix(hash: HashFn, toks: seq<Token>, t: Token, h: Hash, bound: nat)
    requires bound <= |toks|
    ensures SameHash(hash, toks + [t], h, bound) == SameHash(hash, toks, h, bound)
    decreases bound
  {
    if bound > 0 { SameHashPrefix(hash, toks, t, h, bound - 1); }
  }

  ghost predicate Chained(hash: HashFn, toks: seq<Token>, prev: seq<int>) {
    && |prev| == |toks|
    && forall e: nat {:trigger Linked(hash, toks, prev, e)} :: H - 1 <= e < |toks| ==> Linked(hash, toks, prev, e)
  }

  function HeadOf(head: map<Hash, nat>, h: Hash): int { if h in head then head[h] else -1 }

  /** head[h] is the latest end with hash h. */
  ghost predicate Latest(hash: HashFn, toks: seq<Token>, head: map<Hash, nat>, h: Hash) {
    Chain(hash, toks, h, HeadOf(head, h), SameHash(hash, toks, h, |toks|))
  }

  ghost predicate Headed(hash: HashFn, toks: seq<Token>, head: map<Hash, nat>) {
    forall h: Hash {:trigger Latest(hash, toks, head, h)} :: Latest(hash, toks, head, h)
  }

  lemma LinkedStays(hash: HashFn, toks: seq<Token>, t: Token, prev: seq<int>, prev': seq<int>, e: nat)
    requires H - 1 <= e < |toks| == |prev| && Linked(hash, toks, prev, e)
    requires |prev'| == |toks| + 1 && prev'[e] == prev[e]
    ensures Linked(hash, toks + [t], prev', e)
  {
    var h := HashAt(hash, toks, e);
    SameHashPrefix(hash, toks, t, h, e);
    if prev[e] >= 0 { SameHashPrefix(hash, toks, t, h, prev[e] + 1); }
  }

  /** The new end is linked to the end its hash had at the head of the chain. */
  lemma PushLinks(hash: HashFn, toks: seq<Token>, t: Token, head: map<Hash, nat>, prev': seq<int>)
    requires H - 1 <= |toks| && |prev'| == |toks| + 1
    requires var h := HashAt(hash, toks + [t], |toks|);
             Latest(hash, toks, head, h) && prev'[|toks|] == HeadOf(head, h)
    ensures Linked(hash, toks + [t], prev', |toks|)
  {
    var h := HashAt(hash, toks + [t], |toks|);
    SameHashPrefix(hash, toks, t, h, |toks|);
    if h in head { SameHashPrefix(hash, toks, t, h, head[h] + 1); }
  }

  lemma PushHead(hash: HashFn, toks: seq<Token>, t: Token, head: map<Hash, nat>, h: Hash)
    requires Latest(hash, toks, head, h)
    ensures |toks| + 1 < H ==> Latest(hash, toks + [t], head, h)
    ensures |toks| + 1 >= H ==> Latest(hash, toks + [t], head[HashAt(hash, toks + [t], |toks|) := |toks|], h)
  {
    SameHashPrefix(hash, toks, t, h, |toks|);
    if h in head { SameHashPrefix(hash, toks, t, h, head[h] + 1); }
  }

  lemma PushHeads(hash: HashFn, toks: seq<Token>, t: Token, head: map<Hash, nat>)
    requires Headed(hash, toks, head)
    ensures |toks| + 1 < H ==> Headed(hash, toks + [t], head)
    ensures |toks| + 1 >= H ==> Headed(hash, toks + [t], head[HashAt(hash, toks + [t], |toks|) := |toks|])
  {
    var toks' := toks + [t];
    var head' := if |toks'| < H then head else head[HashAt(hash, toks', |toks|) := |toks|];
    forall h: Hash ensures Latest(hash, toks', head', h) {
      assert Latest(hash, toks, head, h);
      PushHead(hash, toks, t, head, h);
    }
  }

  /** An unfinished search: what the ends seen so far (most recent first) say. */
  ghost predicate BestSoFar(toks: seq<Token>, seen: seq<nat>, bestEnd: int, bestLen: nat) {
    if bestLen == 0 then bestEnd == -1 && forall x :: x in seen && x < |toks| - 1 ==> Match(toks, x) < H
    else
      && H <= bestLen && 0 <= bestEnd < |toks| - 1 && bestEnd in seen && Match(toks, bestEnd) == bestLen
      && forall x :: x in seen && x < |toks| - 1 ==>
           Match(toks, x) < bestLen || (Match(toks, x) == bestLen && x <= bestEnd)
  }

  lemma SeeOne(toks: seq<Token>, seen: seq<nat>, bestEnd: int, bestLen: nat, e: nat)
    requires forall x :: x in seen ==> e < x < |toks|
    requires H - 1 <= e < |toks| && BestSoFar(toks, seen, bestEnd, bestLen)
    ensures if e == |toks| - 1 || !GramEq(toks, e) || Match(toks, e) <= bestLen
            then BestSoFar(toks, seen + [e], bestEnd, bestLen)
            else BestSoFar(toks, seen + [e], e, Match(toks, e))
  {
    GramIsMatch(toks, e);
  }

  class Index {
    const hash: HashFn
    const chainCap: nat
    const minMatch: nat
    var toks: seq<Token>
    var prev: seq<int>
    var head: map<Hash, nat>

    ghost predicate Valid()
      reads this
    {
      Chained(hash, toks, prev) && Headed(hash, toks, head)
    }

    constructor (hash: HashFn, chainCap: nat, minMatch: nat)
      ensures Valid() && toks == []
      ensures this.hash == hash && this.chainCap == chainCap && this.minMatch == minMatch
    {
      this.hash, this.chainCap, this.minMatch := hash, chainCap, minMatch;
      toks, prev, head := [], [], map[];
    }

    method Reset()
      modifies this
      ensures Valid() && toks == []
    {
      toks, prev, head := [], [], map[];
    }

    /** Appends a token and indexes the gram that ends with it. */
    method Push(t: Token)
      requires Valid()
      modifies this
      ensures Valid() && toks == old(toks) + [t]
    {
      ghost var was, before := toks, prev;
      PushHeads(hash, toks, t, head);
      toks := toks + [t];
      prev := prev + [-1];
      var n := |toks|;
      if n >= H {
        var h := HashAt(hash, toks, n - 1);
        if h in head {
          assert Latest(hash, was, head, h);
          prev := prev[n - 1 := head[h]];
        }
        PushLinks(hash, was, t, head, prev);
        head := head[h := n - 1];
      }
      forall e: nat | H - 1 <= e < n - 1 ensures Linked(hash, toks, prev, e) {
        assert Linked(hash, was, before, e);
        LinkedStays(hash, was, t, before, prev, e);
      }
    }

    /**
      The continuation of the longest earlier match, ties to the most recent,
      among the capped candidates; nothing if no match is long enough.
     */
    method Draft(nMax: int) returns (out: seq<Token>, ghost bestEnd: int)
      requires Valid()
      ensures var s := CappedMatches(hash, toks, chainCap, Max(H, minMatch));
              if nMax <= 0 || s == {} then out == []
              else 0 <= bestEnd && Best(toks, s, bestEnd) && out == Continuation(toks, bestEnd, nMax) && out != []
      ensures out == DraftOf(hash, toks, chainCap, minMatch, nMax)
    {
      bestEnd := -1;
      var n := |toks|;
      if n < H || nMax <= 0 { return [], -1; }
      var h := HashAt(hash, toks, n - 1);
      assert Latest(hash, toks, head, h);
      SameHashIs(hash, toks, h, n);
      if h !in head { return [], -1; }
      var end, len := Search(h);
      SearchMeans(hash, toks, chainCap, Max(H, minMatch), end, len);
      if end < 0 || len < minMatch { return [], -1; }
      bestEnd := end;
      out := [];
      var p := end + 1;
      while p < n && |out| < nMax
        invariant end + 1 <= p <= n && |out| == p - (end + 1) <= nMax && out == toks[end + 1..p]
      {
        out := out + [toks[p]];
        p := p + 1;
      }
      DraftMeans(hash, toks, chainCap, minMatch, nMax, end);
    }

    /** Extends a gram match backwards. */
    method MatchLength(e: nat) returns (len: nat)
      requires H - 1 <= e < |toks| - 1 && GramEq(toks, e)
      ensures len == Match(toks, e)
    {
      var n := |toks|;
      GramIsMatch(toks, e);
      len := H;
      while len < e + 1 && len < n - 1 && toks[e - len] == toks[n - 1 - len]
        invariant H <= len <= e + 1 && Extend(toks, e, len) == Match(toks, e)
      {
        len := len + 1;
      }
    }

    /** The chain walk. */
    method Search(h: Hash) returns (bestEnd: int, bestLen: nat)
      requires Valid() && |toks| >= H && h in head && h == HashAt(hash, toks, |toks| - 1)
      ensures var ends := SameHash(hash, toks, h, |toks|);
              BestSoFar(toks, ends[..Min(chainCap, |ends|)], bestEnd, bestLen)
    {
      ghost var ends := SameHash(hash, toks, h, |toks|);
      SameHashIs(hash, toks, h, |toks|);
      assert Latest(hash, toks, head, h);
      bestEnd, bestLen := -1, 0;
      var e: int := head[h];
      var walked := 0;
      assert ends[0..] == ends;
      while e >= 0 && walked < chainCap
        invariant walked <= chainCap && Walking(hash, toks, h, ends, e, walked, bestEnd, bestLen)
        decreases |ends| - walked
      {
        WalkOne(hash, toks, prev, h, ends, e, walked, bestEnd, bestLen);
        if e != |toks| - 1 && GramEq(toks, e) {
          var len := MatchLength(e);
          if len > bestLen {
            bestLen, bestEnd := len, e;
          }
        }
        e := prev[e];
        walked := walked + 1;
      }
    }
  }

  /** The state of a chain walk at end e after `walked` steps. */
  ghost predicate Walking(hash: HashFn, toks: seq<Token>, h: Hash, ends: seq<nat>, e: int, walked: nat, bestEnd: int,
                          bestLen: nat) {
    && walked <= |ends| && e < |toks| && Chain(hash, toks, h, e, ends[walked..])
    && (forall x :: x in ends[..walked] ==> e < x < |toks|)
    && BestSoFar(toks, ends[..walked], bestEnd, bestLen)
  }

  lemma WalkOne(hash: HashFn, toks: seq<Token>, prev: seq<int>, h: Hash, ends: seq<nat>, e: nat, walked: nat,
                bestEnd: int, bestLen: nat)
    requires Chained(hash, toks, prev) && Walking(hash, toks, h, ends, e, walked, bestEnd, bestLen)
    ensures H - 1 <= e && walked < |ends| && -1 <= prev[e] < e
    ensures var better := e != |toks| - 1 && GramEq(toks, e) && Match(toks, e) > bestLen;
            Walking(hash, toks, h, ends, prev[e], walked + 1,
                    if better then e else bestEnd, if better then Match(toks, e) else bestLen)
  {
    ChainStep(hash, toks, prev, h, e, ends, walked);
    SeeOne(toks, ends[..walked], bestEnd, bestLen, e);
  }

  /** The head of the remaining chain, and what follows it. */
  lemma ChainStep(hash: HashFn, toks: seq<Token>, prev: seq<int>, h: Hash, e: nat, ends: seq<nat>, walked: nat)
    requires e < |toks| && Chained(hash, toks, prev) && walked <= |ends| && Chain(hash, toks, h, e, ends[walked..])
    ensures H - 1 <= e && walked < |ends| && ends[..walked + 1] == ends[..walked] + [e]
    ensures -1 <= prev[e] < e && Chain(hash, toks, h, prev[e], ends[walked + 1..])
  {
    assert Linked(hash, toks, prev, e);
    assert ends[walked..] == [e] + SameHash(hash, toks, h, e);
    assert ends[walked + 1..] == ends[walked..][1..];
    assert ends[walked] == ends[walked..][0];
  }

  /** What a finished walk says about the candidates. */
  lemma SearchMeans(hash: HashFn, toks: seq<Token>, cap: nat, threshold: nat, bestEnd: int, bestLen: nat)
    requires |toks| >= H && H <= threshold
    requires var ends := SameHash(hash, toks, HashAt(hash, toks, |toks| - 1), |toks|);
             BestSoFar(toks, ends[..Min(cap, |ends|)], bestEnd, bestLen)
    ensures var s := CappedMatches(hash, toks, cap, threshold);
            if bestLen < threshold then s == {} else 0 <= bestEnd && Best(toks, s, bestEnd)
  {
    var ends := SameHash(hash, toks, HashAt(hash, toks, |toks| - 1), |toks|);
    var s := CappedMatches(hash, toks, cap, threshold);
    if bestLen < threshold {
      forall x: nat ensures x !in s {
        if x < |toks| - 1 && x in ends[..Min(cap, |ends|)] { assert Match(toks, x) < H || Match(toks, x) <= bestLen; }
      }
    }
  }
}

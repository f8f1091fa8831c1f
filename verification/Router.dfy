/** Expert selection: top-k by weight, ties to the lower index (src/runtime/decode_params.h, fl_op_router_sel). */
module Router {

  /** i ranks before j: larger weight, or equal weight and lower index. */
  predicate Better(w: seq<real>, i: nat, j: nat)
    requires i < |w| && j < |w|
  {
    w[i] > w[j] || (w[i] == w[j] && i < j)
  }

  /** ids are the first |ids| indices in rank order. */
  ghost predicate Ranked(w: seq<real>, ids: seq<nat>) {
    && (forall a :: 0 <= a < |ids| ==> ids[a] < |w|)
    && (forall a, b :: 0 <= a < b < |ids| ==> Better(w, ids[a], ids[b]))
    && (forall a, x: nat :: 0 <= a < |ids| && x < |w| && x !in ids ==> Better(w, ids[a], x))
  }

  lemma BetterIsTotal(w: seq<real>, i: nat, j: nat)
    requires i < |w| && j < |w|
    ensures i != j ==> (Better(w, i, j) <==> !Better(w, j, i))
  {}

  /** The selection is determined: it is the prefix of the one stable ranking. */
  lemma {:induction false} RankedIsUnique(w: seq<real>, a: seq<nat>, b: seq<nat>)
    requires Ranked(w, a) && Ranked(w, b) && |a| == |b|
    ensures a == b
    decreases |a|
  {
    if a != [] {
      var n := |a| - 1;
      RankedPrefix(w, a);
      RankedPrefix(w, b);
      RankedIsUnique(w, a[..n], b[..n]);
      NextIsBest(w, a, b);
      NextIsBest(w, b, a);
      BetterIsTotal(w, a[n], b[n]);
    }
  }

  lemma RankedPrefix(w: seq<real>, a: seq<nat>)
    requires Ranked(w, a) && a != []
    ensures Ranked(w, a[..|a| - 1])
  {
    var n := |a| - 1;
    forall i, x: nat | 0 <= i < n && x < |w| && x !in a[..n] ensures Better(w, a[i], x) {
      if x in a { assert x == a[n]; }
    }
  }

  lemma NextIsBest(w: seq<real>, a: seq<nat>, b: seq<nat>)
    requires Ranked(w, a) && Ranked(w, b) && |a| == |b| > 0
    requires a[..|a| - 1] == b[..|a| - 1]
    ensures a[|a| - 1] != b[|a| - 1] ==> Better(w, a[|a| - 1], b[|a| - 1])
  {
    var n := |a| - 1;
    forall i | 0 <= i < |a| ensures i < n ==> a[i] != b[n] {
      if i < n {
        assert a[i] == a[..n][i] == b[..n][i] == b[i];
        assert Better(w, b[i], b[n]);
      }
    }
    assert a[n] != b[n] ==> b[n] !in a;
  }

  function Min(a: nat, b: nat): nat { if a <= b then a else b }

  /** The weight of the k-th choice; -1 once no expert is left. */
  function Raw(w: seq<real>, ids: seq<nat>): (r: seq<real>)
    requires forall k :: 0 <= k < |ids| && k < |w| ==> ids[k] < |w|
    ensures |r| == |ids|
  {
    seq(|ids|, k requires 0 <= k < |ids| => if k < |w| then w[ids[k]] else -1.0)
  }

  function Total(g: seq<real>): real { if g == [] then 0.0 else Total(g[..|g| - 1]) + g[|g| - 1] }

  function Scaled(g: seq<real>, f: real): (r: seq<real>)
    ensures |r| == |g|
  {
    seq(|g|, k requires 0 <= k < |g| => g[k] * f)
  }

  /** Each divided by t; the divisor is never used for an empty sequence. */
  function Normed(g: seq<real>, t: real): (r: seq<real>)
    requires g != [] ==> t != 0.0
    ensures |r| == |g|
  {
    seq(|g|, k requires 0 <= k < |g| => g[k] / t)
  }

  lemma {:induction false} TotalNormed(g: seq<real>, t: real)
    requires t != 0.0
    ensures Total(Normed(g, t)) == Total(g) / t
    decreases |g|
  {
    if g != [] {
      var n := |g| - 1;
      assert Normed(g, t)[..n] == Normed(g[..n], t);
      TotalNormed(g[..n], t);
      AddQuotients(Total(g[..n]), g[n], t);
    }
  }

  lemma AddQuotients(a: real, b: real, t: real)
    requires t != 0.0
    ensures a / t + b / t == (a + b) / t
  {}

  lemma {:induction false} TotalScaled(g: seq<real>, f: real)
    ensures Total(Scaled(g, f)) == Total(g) * f
    decreases |g|
  {
    if g != [] {
      var n := |g| - 1;
      forall k | 0 <= k < n ensures Scaled(g, f)[..n][k] == Scaled(g[..n], f)[k] { assert g[..n][k] == g[k]; }
      assert Scaled(g, f)[..n] == Scaled(g[..n], f);
      TotalScaled(g[..n], f);
      AddProducts(Total(g[..n]), g[n], f);
    }
  }

  lemma AddProducts(a: real, b: real, f: real)
    ensures a * f + b * f == (a + b) * f
  {}

  lemma {:induction false} TotalPositive(g: seq<real>)
    requires forall k :: 0 <= k < |g| ==> g[k] > 0.0
    ensures g != [] ==> Total(g) > 0.0
    decreases |g|
  {
    if |g| > 1 { TotalPositive(g[..|g| - 1]); }
  }

  lemma NormedTotal(raw: seq<real>)
    requires Total(raw) != 0.0
    ensures Total(Normed(raw, Total(raw))) == 1.0
  {
    TotalNormed(raw, Total(raw));
    Self(Total(raw));
  }

  lemma Self(t: real)
    requires t != 0.0
    ensures t / t == 1.0
  {}

  lemma ScaledTotal(g: seq<real>, scale: real)
    requires Total(g) == 1.0
    ensures Total(Scaled(g, scale)) == scale
  {
    TotalScaled(g, scale);
  }

  /** Normalised and scaled, they sum to the scale. */
  lemma NormedGates(raw: seq<real>, scale: real)
    requires Total(raw) != 0.0
    ensures Total(Scaled(Normed(raw, Total(raw)), scale)) == scale
  {
    NormedTotal(raw);
    ScaledTotal(Normed(raw, Total(raw)), scale);
  }

  /** Repeated maximum scan over the experts not yet taken; once none is left, index 0 again. */
  method Select(w: seq<real>, topK: nat) returns (ids: seq<nat>, gates: seq<real>)
    requires forall i :: 0 <= i < |w| ==> w[i] >= 0.0
    ensures |ids| == topK && Ranked(w, ids[..Min(topK, |w|)])
    ensures forall k :: |w| <= k < topK ==> ids[k] == 0
    ensures (forall k :: 0 <= k < topK && k < |w| ==> ids[k] < |w|) && gates == Raw(w, ids)
  {
    ids, gates := [], [];
    for k: nat := 0 to topK
      invariant |ids| == k == |gates| && Ranked(w, ids[..Min(k, |w|)])
      invariant forall j :: 0 <= j < k && j < |w| ==> ids[j] < |w| && gates[j] == w[ids[j]]
      invariant forall j :: |w| <= j < k ==> ids[j] == 0 && gates[j] == -1.0
    {
      var next, bw := Scan(w, ids);
      if k < |w| {
        assert ids[..Min(k, |w|)] == ids;
        assert (ids + [next])[..Min(k + 1, |w|)] == ids + [next];
      } else {
        assert (ids + [next])[..Min(k + 1, |w|)] == ids[..Min(k, |w|)];
      }
      ids, gates := ids + [next], gates + [bw];
    }
  }

  /** The gates; Undefined when they are quotients by zero, which no real number is. */
  datatype Gates = Gates(g: seq<real>) | Undefined

  /**
    The whole selection: choose, then normalise over the chosen weights and
    scale.  Weights come from a softmax, so they are positive; normalised gates
    sum to the scale.  Only a selection of more experts than there are, each
    missing one counting -1, can have a zero sum to divide by.
   */
  method Route(w: seq<real>, topK: nat, norm: bool, scale: real) returns (ids: seq<nat>, r: Gates)
    requires forall i :: 0 <= i < |w| ==> w[i] > 0.0
    ensures |ids| == topK && Ranked(w, ids[..Min(topK, |w|)]) && forall k :: |w| <= k < topK ==> ids[k] == 0
    ensures forall k :: 0 <= k < topK && k < |w| ==> ids[k] < |w|
    ensures r.Undefined? <==> norm && topK > 0 && Total(Raw(w, ids)) == 0.0
    ensures topK <= |w| ==> r.Gates?
    ensures r.Gates? && (!norm || topK == 0) ==> r.g == Scaled(Raw(w, ids), scale)
    ensures r.Gates? && norm && topK > 0 ==> r.g == Scaled(Normed(Raw(w, ids), Total(Raw(w, ids))), scale)
    ensures r.Gates? && norm && topK > 0 ==> Total(r.g) == scale
  {
    var raw;
    ids, raw := Select(w, topK);
    var tsum := Sum(raw);
    if 0 < topK <= |w| {
      forall k | 0 <= k < topK ensures raw[k] > 0.0 { assert ids[k] < |w|; }
      TotalPositive(raw);
    }
    if norm && topK > 0 {
      if tsum == 0.0 { return ids, Undefined; }
      NormedGates(raw, scale);
    }
    var gates := Scale(raw, norm && topK > 0, tsum, scale);
    r := Gates(gates);
  }

  /** The last loop: divide if asked to, then scale. */
  method Scale(raw: seq<real>, norm: bool, tsum: real, scale: real) returns (gates: seq<real>)
    requires norm && raw != [] ==> tsum != 0.0
    ensures gates == Scaled(if norm then Normed(raw, tsum) else raw, scale)
  {
    gates := [];
    for k: nat := 0 to |raw|
      invariant |gates| == k
      invariant forall j :: 0 <= j < k ==> gates[j] == (if norm then raw[j] / tsum else raw[j]) * scale
    {
      var gate := raw[k];
      if norm { gate := gate / tsum; }
      gates := gates + [gate * scale];
    }
    var all := Scaled(if norm then Normed(raw, tsum) else raw, scale);
    assert |gates| == |all| && forall j :: 0 <= j < |all| ==> gates[j] == all[j];
  }

  method Sum(g: seq<real>) returns (t: real)
    ensures t == Total(g)
  {
    t := 0.0;
    for k := 0 to |g|
      invariant t == Total(g[..k])
    {
      assert g[..k + 1][..k] == g[..k];
      t := t + g[k];
    }
    assert g[..|g|] == g;
  }

  /** The inner scan. */
  method Scan(w: seq<real>, ids: seq<nat>) returns (best: nat, bw: real)
    requires (forall i :: 0 <= i < |w| ==> w[i] >= 0.0) && Ranked(w, ids[..Min(|ids|, |w|)])
    ensures |ids| < |w| ==> Ranked(w, ids + [best]) && best < |w| && bw == w[best]
    ensures |ids| >= |w| ==> best == 0 && bw == -1.0
  {
    best, bw := 0, -1.0;
    for i: nat := 0 to |w|
      invariant bw == -1.0 ==> best == 0 && forall x: nat :: x < i ==> x in ids
      invariant bw != -1.0 ==> best < i && best !in ids && bw == w[best]
      invariant bw != -1.0 ==> forall x: nat :: x < i && x !in ids && x != best ==> Better(w, best, x)
      invariant bw >= -1.0
    {
      var taken := i in ids;
      if !taken && w[i] > bw {
        bw, best := w[i], i;
      }
    }
    if |ids| < |w| {
      assert ids[..|ids|] == ids;
      Untaken(w, ids);
    } else {
      AllTaken(w, ids[..|w|]);
      forall x: nat | x < |w| ensures x in ids { assert x in ids[..|w|]; }
    }
  }

  /** A full ranking leaves nothing out. */
  lemma AllTaken(w: seq<real>, ids: seq<nat>)
    requires |ids| == |w| && Ranked(w, ids)
    ensures forall x: nat :: x < |w| ==> x in ids
  {
    forall x: nat | x < |w| ensures x in ids {
      if x !in ids { TooMany(|w|, ids + [x]); }
    }
  }

  /** Distinct numbers below n are at most n. */
  lemma {:induction false} TooMany(n: nat, ids: seq<nat>)
    requires (forall i :: 0 <= i < |ids| ==> ids[i] < n) && forall i, j :: 0 <= i < j < |ids| ==> ids[i] != ids[j]
    ensures |ids| <= n
    decreases n
  {
    assert ids != [] ==> ids[0] < n;
    if i :| 0 <= i < |ids| && ids[i] == n - 1 {
      TooMany(n - 1, ids[..i] + ids[i + 1..]);
    } else if n > 0 {
      TooMany(n - 1, ids);
    }
  }

  lemma Untaken(w: seq<real>, ids: seq<nat>)
    requires |ids| < |w| && Ranked(w, ids)
    ensures exists x: nat :: x < |w| && x !in ids
  {
    if forall x: nat :: x < |w| ==> x in ids {
      Pigeonhole(|w|, ids);
    }
  }

  lemma {:induction false} Pigeonhole(n: nat, ids: seq<nat>)
    requires forall x: nat :: x < n ==> x in ids
    ensures n <= |ids|
    decreases n
  {
    if n > 0 {
      assert n - 1 in ids;
      var i :| 0 <= i < |ids| && ids[i] == n - 1;
      var rest := ids[..i] + ids[i + 1..];
      forall x: nat | x < n - 1 ensures x in rest {
        assert x in ids;
        var j :| 0 <= j < |ids| && ids[j] == x;
        assert rest[if j < i then j else j - 1] == x;
      }
      Pigeonhole(n - 1, rest);
    }
  }
}

/**
  Generation loops over the decoder (tools/decode_main.cpp, run_once): the plain
  loop, chunked prefill and the draft / verify / rewind loop.
 */
module Speculation {
  import opened Decoder
  import opened Results
  import S = SuffixIndex

  /** The greedy choice after a history. */
  ghost function Next(w: Model, hist: seq<Token>): Token
    requires hist != []
  {
    Out(w, hist, |hist| - 1)
  }

  /** The first n tokens of greedy decoding. */
  ghost function Greedy(w: Model, prompt: seq<Token>, n: nat): (r: seq<Token>)
    requires prompt != []
    ensures |r| == n
  {
    if n == 0 then [] else var g := Greedy(w, prompt, n - 1); g + [Next(w, prompt + g)]
  }

  lemma {:induction false} GreedyPrefix(w: Model, prompt: seq<Token>, k: nat, n: nat)
    requires prompt != [] && k <= n
    ensures Greedy(w, prompt, k) == Greedy(w, prompt, n)[..k]
    decreases n
  {
    if k < n { GreedyPrefix(w, prompt, k, n - 1); }
  }

  /** Verifying position k of a pass is greedy decoding of the tokens fed up to it. */
  lemma VerifyIsNext(w: Model, before: seq<Token>, toks: seq<Token>, k: nat)
    requires k < |toks|
    ensures Out(w, before + toks, |before| + k) == Next(w, before + toks[..k + 1])
  {
    BatchIsSingles(w, before, toks, k, 0);
  }

  /** What the cache holds before a pass: everything but the last emitted token. */
  function Before(prompt: seq<Token>, out: seq<Token>): seq<Token>
    requires out != []
  {
    prompt + out[..|out| - 1]
  }

  function Fed(out: seq<Token>, draft: seq<Token>): seq<Token>
    requires out != []
  {
    [out[|out| - 1]] + draft
  }

  lemma FedUpTo(prompt: seq<Token>, out: seq<Token>, draft: seq<Token>, k: nat)
    requires out != [] && k <= |draft|
    ensures Before(prompt, out) + Fed(out, draft)[..k + 1] == prompt + (out + draft[..k])
    ensures (Before(prompt, out) + Fed(out, draft))[..|prompt| + |out| + k] == prompt + (out + draft[..k])
  {}

  /** The outputs of a verify pass. */
  ghost predicate Verified(w: Model, prompt: seq<Token>, out: seq<Token>, draft: seq<Token>, outs: seq<Token>)
    requires out != []
  {
    |outs| == |draft| + 1 && forall k :: 0 <= k < |outs| ==>
      outs[k] == Out(w, Before(prompt, out) + Fed(out, draft), |Before(prompt, out)| + k)
  }

  lemma VerifiedAt(w: Model, prompt: seq<Token>, out: seq<Token>, draft: seq<Token>, outs: seq<Token>, k: nat)
    requires prompt != [] && out != [] && Verified(w, prompt, out, draft, outs) && k <= |draft|
    ensures outs[k] == Next(w, prompt + (out + draft[..k]))
  {
    VerifyIsNext(w, Before(prompt, out), Fed(out, draft), k);
    FedUpTo(prompt, out, draft, k);
  }

  lemma OneMore(s: seq<Token>, draft: seq<Token>, k: nat)
    requires 0 < k <= |draft|
    ensures s + draft[..k] == (s + draft[..k - 1]) + [draft[k - 1]]
  {}

  /** Tokens each of which is the greedy choice after those before it continue the greedy stream. */
  lemma {:induction false} NextsAreGreedy(w: Model, prompt: seq<Token>, out: seq<Token>, draft: seq<Token>, a: nat)
    requires prompt != [] && out == Greedy(w, prompt, |out|) && a <= |draft|
    requires forall k {:trigger draft[..k]} :: 0 <= k < a ==> draft[k] == Next(w, prompt + (out + draft[..k]))
    ensures out + draft[..a] == Greedy(w, prompt, |out| + a)
    decreases a
  {
    if a > 0 {
      NextsAreGreedy(w, prompt, out, draft, a - 1);
      OneMore(out, draft, a);
      GreedyNext(w, prompt, out + draft[..a - 1], draft[a - 1]);
    } else {
      assert out + draft[..0] == out;
    }
  }

  /** If the first a drafts are what the pass verified, they are greedy tokens. */
  lemma AcceptedAreGreedy(w: Model, prompt: seq<Token>, out: seq<Token>, draft: seq<Token>, outs: seq<Token>, a: nat)
    requires prompt != [] && out != [] && out == Greedy(w, prompt, |out|)
    requires a <= |draft| && Verified(w, prompt, out, draft, outs)
    requires forall k :: 0 <= k < a ==> outs[k] == draft[k]
    ensures out + draft[..a] == Greedy(w, prompt, |out| + a)
  {
    forall k {:trigger draft[..k]} | 0 <= k < a ensures draft[k] == Next(w, prompt + (out + draft[..k])) {
      VerifiedAt(w, prompt, out, draft, outs, k);
    }
    NextsAreGreedy(w, prompt, out, draft, a);
  }

  lemma GreedyNext(w: Model, prompt: seq<Token>, s: seq<Token>, t: Token)
    requires prompt != [] && s == Greedy(w, prompt, |s|) && t == Next(w, prompt + s)
    ensures s + [t] == Greedy(w, prompt, |s| + 1)
  {}

  lemma NextIs(w: Model, prompt: seq<Token>, s: seq<Token>, t: Token)
    requires prompt != [] && s + [t] == Greedy(w, prompt, |s| + 1)
    ensures s == Greedy(w, prompt, |s|) && t == Next(w, prompt + s)
  {
    assert (s + [t])[..|s|] == s;
    GreedyPrefix(w, prompt, |s|, |s| + 1);
    assert (s + [t])[|s|] == t;
  }

  // ------------------------------------------------------------- prompt pass

  /** Feeds the prompt in chunks of at most max_batch; keeps only the last position's choice. */
  method Prefill(dec: Decoder, prompt: seq<Token>) returns (r: Result<Token>)
    requires dec.Valid() && dec.hist == [] && prompt != [] && 1 <= dec.maxBatch
    modifies dec, dec.cache
    ensures dec.Valid()
    ensures r.Ok? <==> |prompt| <= dec.maxKv
    ensures r.Ok? ==> dec.hist == prompt && r.value == Next(dec.model, prompt)
  {
    var i := 0;
    var next := 0;
    while i < |prompt|
      invariant 0 <= i <= |prompt| && i <= dec.maxKv && dec.Valid() && dec.hist == prompt[..i]
      invariant i > 0 ==> next == Next(dec.model, prompt[..i])
    {
      var m := if |prompt| - i < dec.maxBatch then |prompt| - i else dec.maxBatch;
      var outs := dec.StepBatch(prompt[i..i + m]);
      if outs.Died? { return Died(outs.why); }
      assert prompt[..i] + prompt[i..i + m] == prompt[..i + m];
      next := outs.value[m - 1];
      i := i + m;
    }
    assert prompt[..i] == prompt;
    r := Ok(next);
  }

  // --------------------------------------------------------------- plain loop

  /** Feeds the prompt one token at a time. */
  method FeedPrompt(dec: Decoder, prompt: seq<Token>) returns (r: Result<Token>)
    requires dec.Valid() && dec.hist == [] && prompt != [] && 1 <= dec.maxBatch
    modifies dec, dec.cache
    ensures dec.Valid()
    ensures r.Ok? <==> |prompt| <= dec.maxKv
    ensures r.Ok? ==> dec.hist == prompt && r.value == Next(dec.model, prompt)
  {
    var next := 0;
    for i := 0 to |prompt|
      invariant dec.Valid() && dec.hist == prompt[..i] && i <= dec.maxKv
      invariant i > 0 ==> next == Next(dec.model, prompt[..i])
    {
      var t := dec.Step(prompt[i]);
      if t.Died? { return Died(t.why); }
      assert prompt[..i + 1] == prompt[..i] + [prompt[i]];
      next := t.value;
    }
    assert prompt[..|prompt|] == prompt;
    r := Ok(next);
  }

  /** Emit, feed, repeat. */
  method Generate(dec: Decoder, ghost prompt: seq<Token>, nGen: nat, first: Token) returns (r: Result<seq<Token>>)
    requires dec.Valid() && prompt != [] && dec.hist == prompt && first == Next(dec.model, prompt) && 1 <= dec.maxBatch
    modifies dec, dec.cache
    ensures dec.Valid()
    ensures r.Ok? <==> |prompt| + nGen <= dec.maxKv
    ensures r.Ok? ==> r.value == Greedy(dec.model, prompt, nGen)
  {
    var out, next := [], first;
    assert prompt + out == prompt;
    for i := 0 to nGen
      invariant dec.Valid() && out == Greedy(dec.model, prompt, i) && dec.hist == prompt + out
      invariant |prompt| + i <= dec.maxKv && next == Next(dec.model, prompt + out)
    {
      var t := dec.Step(next);
      if t.Died? { return Died(t.why); }
      assert prompt + (out + [next]) == (prompt + out) + [next];
      GreedyNext(dec.model, prompt, out, next);
      out, next := out + [next], t.value;
    }
    r := Ok(out);
  }

  /** One token at a time. */
  method Plain(dec: Decoder, prompt: seq<Token>, nGen: nat) returns (r: Result<seq<Token>>)
    requires dec.Valid() && prompt != [] && 1 <= dec.maxBatch
    modifies dec, dec.cache
    ensures dec.Valid()
    ensures r.Ok? <==> |prompt| + nGen <= dec.maxKv
    ensures r.Ok? ==> r.value == Greedy(dec.model, prompt, nGen)
  {
    dec.Reset();
    var first := FeedPrompt(dec, prompt);
    if first.Died? { return Died(first.why); }
    r := Generate(dec, prompt, nGen, first.value);
  }

  // --------------------------------------------------------- speculative loop

  /** How many drafts the pass confirmed. */
  method Accept(outs: seq<Token>, draft: seq<Token>) returns (a: nat)
    requires |draft| < |outs|
    ensures a <= |draft| && (forall k :: 0 <= k < a ==> outs[k] == draft[k])
    ensures a < |draft| ==> outs[a] != draft[a]
  {
    a := 0;
    while a < |draft| && outs[a] == draft[a]
      invariant a <= |draft| && forall k :: 0 <= k < a ==> outs[k] == draft[k]
    {
      a := a + 1;
    }
  }

  // ------------------------------------------------------------- margin gate

  /** Some accepted position after the first decided by a margin of at most tau. */
  predicate Fires(margins: seq<real>, tau: real, a: nat) {
    tau > 0.0 && exists p :: 1 <= p < a && p < |margins| && margins[p] <= tau
  }

  /** The gate reads the margins of positions 1 .. a - 1, and none when it is off. */
  predicate Readable(margins: seq<real>, tau: real, a: nat) { tau > 0.0 && a > 1 ==> a <= |margins| }

  /** How many of `a` accepted drafts the gate keeps: those before the first thin margin, position 0 aside. */
  function Kept(margins: seq<real>, tau: real, a: nat): nat
    requires Readable(margins, tau, a)
  {
    if tau > 0.0 && a > 1 then FirstThin(margins, tau, 1, a) else a
  }

  function FirstThin(margins: seq<real>, tau: real, p: nat, a: nat): nat
    requires p <= a <= |margins|
    decreases a - p
  {
    if p == a || margins[p] <= tau then p else FirstThin(margins, tau, p + 1, a)
  }

  lemma {:induction false} FirstThinIs(margins: seq<real>, tau: real, p: nat, a: nat)
    requires p <= a <= |margins|
    ensures var k := FirstThin(margins, tau, p, a);
            p <= k <= a && (k < a ==> margins[k] <= tau) && forall q :: p <= q < k ==> margins[q] > tau
    decreases a - p
  {
    if p < a && margins[p] > tau { FirstThinIs(margins, tau, p + 1, a); }
  }

  /** Something is cut exactly when the gate fires, and then from the first thin position on. */
  lemma KeptIs(margins: seq<real>, tau: real, a: nat)
    requires Readable(margins, tau, a)
    ensures var k := Kept(margins, tau, a);
            k <= a && (k < a <==> Fires(margins, tau, a)) && !Fires(margins, tau, k)
            && (k < a ==> 1 <= k && margins[k] <= tau)
  {
    if tau > 0.0 && a > 1 { FirstThinIs(margins, tau, 1, a); }
  }

  /** Cuts acceptance at the first such position; position 0 is never cut. */
  method Gate(margins: seq<real>, tau: real, accepted: nat) returns (a: nat, trunc: bool)
    requires Readable(margins, tau, accepted)
    ensures trunc <==> Fires(margins, tau, accepted)
    ensures trunc ==> 1 <= a < accepted && margins[a] <= tau && !Fires(margins, tau, a)
    ensures !trunc ==> a == accepted
  {
    a, trunc := accepted, false;
    if tau > 0.0 && a > 0 {
      for p: nat := 1 to accepted
        invariant !trunc && a == accepted && forall q :: 1 <= q < p ==> margins[q] > tau
      {
        if margins[p] <= tau { return p, true; }
      }
    }
  }

  /** The gate's result is the only one its contract allows. */
  lemma GatedIsKept(margins: seq<real>, tau: real, accepted: nat, a: nat)
    requires Readable(margins, tau, accepted) && a <= accepted && (a < accepted <==> Fires(margins, tau, accepted))
    requires a < accepted ==> 1 <= a && margins[a] <= tau && !Fires(margins, tau, a)
    ensures a == Kept(margins, tau, accepted)
  {
    KeptIs(margins, tau, accepted);
  }

  /**
    A pass between its verification and its rewind: the first `accepted` drafts are
    greedy, the whole batch is in the cache.
   */
  ghost predicate Fresh(dec: Decoder, prompt: seq<Token>, emitted: seq<Token>, draft: seq<Token>, accepted: nat)
    requires emitted != []
    reads dec, dec.cache
  {
    && dec.Valid() && prompt != [] && accepted <= |draft| && dec.hist == Before(prompt, emitted) + Fed(emitted, draft)
    && emitted + draft[..accepted] == Greedy(dec.model, prompt, |emitted| + accepted)
  }

  /** Drafts are accepted as long as they are the greedy choices, and no longer. */
  ghost predicate MostAccepted(w: Model, prompt: seq<Token>, emitted: seq<Token>, draft: seq<Token>, accepted: nat) {
    && prompt != [] && accepted <= |draft| && emitted + draft[..accepted] == Greedy(w, prompt, |emitted| + accepted)
    && (accepted < |draft| ==> draft[accepted] != Next(w, prompt + (emitted + draft[..accepted])))
  }

  /** Counts the leading drafts, from the a-th on, that are greedy choices. */
  ghost function Accepted(w: Model, prompt: seq<Token>, emitted: seq<Token>, draft: seq<Token>, a: nat): (r: nat)
    requires prompt != [] && a <= |draft|
    ensures a <= r <= |draft|
    decreases |draft| - a
  {
    if a < |draft| && draft[a] == Next(w, prompt + (emitted + draft[..a])) then
      Accepted(w, prompt, emitted, draft, a + 1)
    else a
  }

  lemma {:induction false} AcceptedUpTo(w: Model, prompt: seq<Token>, emitted: seq<Token>, draft: seq<Token>,
                                        accepted: nat, k: nat)
    requires MostAccepted(w, prompt, emitted, draft, accepted) && k <= accepted
    ensures Accepted(w, prompt, emitted, draft, k) == accepted
    decreases accepted - k
  {
    if k < accepted {
      EmittedAreGreedy(w, prompt, emitted, draft, accepted, k + 1);
      OneMore(emitted, draft, k + 1);
      NextIs(w, prompt, emitted + draft[..k], draft[k]);
      AcceptedUpTo(w, prompt, emitted, draft, accepted, k + 1);
    }
  }

  /** What a pass confirms is a function of what it was given. */
  lemma MostIsAccepted(w: Model, prompt: seq<Token>, emitted: seq<Token>, draft: seq<Token>, accepted: nat)
    requires MostAccepted(w, prompt, emitted, draft, accepted)
    ensures accepted == Accepted(w, prompt, emitted, draft, 0)
  {
    AcceptedUpTo(w, prompt, emitted, draft, accepted, 0);
  }

  /** The first k drafts continue the greedy stream. */
  ghost predicate GreedyTo(w: Model, prompt: seq<Token>, emitted: seq<Token>, draft: seq<Token>, k: nat)
    requires prompt != []
  {
    k <= |draft| && emitted + draft[..k] == Greedy(w, prompt, |emitted| + k)
  }

  lemma GreedyStep(w: Model, prompt: seq<Token>, emitted: seq<Token>, draft: seq<Token>, k: nat)
    requires prompt != [] && GreedyTo(w, prompt, emitted, draft, k) && k < |draft|
    requires draft[k] == Next(w, prompt + (emitted + draft[..k]))
    ensures GreedyTo(w, prompt, emitted, draft, k + 1)
  {
    OneMore(emitted, draft, k + 1);
    GreedyNext(w, prompt, emitted + draft[..k], draft[k]);
  }

  lemma GreedyDown(w: Model, prompt: seq<Token>, emitted: seq<Token>, draft: seq<Token>, a: nat, k: nat)
    requires prompt != [] && GreedyTo(w, prompt, emitted, draft, a) && k <= a
    ensures GreedyTo(w, prompt, emitted, draft, k)
  {
    EmittedAreGreedy(w, prompt, emitted, draft, a, k);
  }

  lemma GreedyAtStart(w: Model, prompt: seq<Token>, emitted: seq<Token>, draft: seq<Token>)
    requires prompt != [] && emitted == Greedy(w, prompt, |emitted|)
    ensures GreedyTo(w, prompt, emitted, draft, 0)
  {
    assert emitted + draft[..0] == emitted;
  }

  lemma {:induction false} AcceptedGreedy(w: Model, prompt: seq<Token>, emitted: seq<Token>, draft: seq<Token>, a: nat)
    requires prompt != [] && GreedyTo(w, prompt, emitted, draft, a)
    ensures GreedyTo(w, prompt, emitted, draft, Accepted(w, prompt, emitted, draft, a))
    decreases |draft| - a
  {
    if a < |draft| && draft[a] == Next(w, prompt + (emitted + draft[..a])) {
      GreedyStep(w, prompt, emitted, draft, a);
      AcceptedGreedy(w, prompt, emitted, draft, a + 1);
    }
  }

  /** As many drafts as are accepted, or fewer, continue a greedy stream. */
  lemma FewerGreedy(w: Model, prompt: seq<Token>, emitted: seq<Token>, draft: seq<Token>, k: nat)
    requires prompt != [] && emitted == Greedy(w, prompt, |emitted|) && k <= Accepted(w, prompt, emitted, draft, 0)
    ensures GreedyTo(w, prompt, emitted, draft, k)
  {
    GreedyAtStart(w, prompt, emitted, draft);
    AcceptedGreedy(w, prompt, emitted, draft, 0);
    GreedyDown(w, prompt, emitted, draft, Accepted(w, prompt, emitted, draft, 0), k);
  }

  /**
    Feeds the last emitted token and the drafts.  On entry the cache holds
    everything emitted but that token, so n_past == prompt + emitted - 1.
   */
  method Verify(dec: Decoder, ghost prompt: seq<Token>, ghost emitted: seq<Token>, last: Token, draft: seq<Token>)
    returns (outs: seq<Token>, accepted: nat)
    requires dec.Valid() && prompt != [] && emitted != [] && emitted == Greedy(dec.model, prompt, |emitted|)
    requires dec.hist == Before(prompt, emitted) && last == emitted[|emitted| - 1]
    requires |draft| < dec.maxBatch && |prompt| + |emitted| + |draft| <= dec.maxKv
    modifies dec, dec.cache
    ensures Fresh(dec, prompt, emitted, draft, accepted) && MostAccepted(dec.model, prompt, emitted, draft, accepted)
    ensures Verified(dec.model, prompt, emitted, draft, outs)
  {
    var r := dec.StepBatch([last] + draft);
    outs := r.value;
    assert Verified(dec.model, prompt, emitted, draft, outs);
    accepted := Accept(outs, draft);
    AcceptedAreGreedy(dec.model, prompt, emitted, draft, outs, accepted);
    VerifiedAt(dec.model, prompt, emitted, draft, outs, accepted);
  }

  /**
    Where a pass leaves the decoder: ready to feed `next`, which is new, or after a cut
    the last emitted token again.
   */
  ghost predicate Poised(dec: Decoder, prompt: seq<Token>, stream: seq<Token>, next: Token, cut: bool)
    requires prompt != [] && (cut ==> stream != [])
    reads dec, dec.cache
  {
    && dec.Valid() && stream == Greedy(dec.model, prompt, |stream|)
    && if cut then dec.hist == Before(prompt, stream) && next == stream[|stream| - 1]
       else dec.hist == prompt + stream && next == Next(dec.model, dec.hist)
  }

  /** Keeps all that was accepted: the correction becomes the next token, not yet fed. */
  method Keep(dec: Decoder, ghost prompt: seq<Token>, ghost emitted: seq<Token>, base: nat, draft: seq<Token>,
              outs: seq<Token>, a: nat)
    returns (next: Token)
    requires emitted != [] && Fresh(dec, prompt, emitted, draft, a) && Verified(dec.model, prompt, emitted, draft, outs)
    requires base == |Before(prompt, emitted)|
    modifies dec
    ensures Poised(dec, prompt, emitted + draft[..a], next, false)
  {
    VerifiedAt(dec.model, prompt, emitted, draft, outs, a);
    FedUpTo(prompt, emitted, draft, a);
    next := outs[a];
    var w := dec.RewindTo(base + a + 1);
    assert w.Ok?;
  }

  /**
    The gate cut acceptance at a.  The cache is left as a pass over the first a
    drafts expects it on entry, the last of them not fed; but the next token is
    that very draft, which the caller has already emitted.
   */
  method Truncate(dec: Decoder, ghost prompt: seq<Token>, ghost emitted: seq<Token>, base: nat, draft: seq<Token>,
                  ghost accepted: nat, a: nat)
    returns (next: Token)
    requires emitted != [] && Fresh(dec, prompt, emitted, draft, accepted) && 1 <= a <= accepted
    requires base == |Before(prompt, emitted)|
    modifies dec
    ensures Poised(dec, prompt, emitted + draft[..a], next, true)
  {
    EmittedAreGreedy(dec.model, prompt, emitted, draft, accepted, a);
    FedUpTo(prompt, emitted, draft, a - 1);
    assert (emitted + draft[..a])[..|emitted| + a - 1] == emitted + draft[..a - 1];
    next := draft[a - 1];
    var w := dec.RewindTo(base + a);
    assert w.Ok?;
  }

  /** One pass: verify, accept, gate, rewind. */
  method Pass(dec: Decoder, ghost prompt: seq<Token>, ghost emitted: seq<Token>, last: Token, draft: seq<Token>,
              margins: seq<real>, tau: real)
    returns (a: nat, next: Token, cut: bool, ghost accepted: nat)
    requires dec.Valid() && prompt != [] && emitted != [] && emitted == Greedy(dec.model, prompt, |emitted|)
    requires dec.hist == Before(prompt, emitted) && last == emitted[|emitted| - 1] && Readable(margins, tau, |draft|)
    requires |draft| < dec.maxBatch && |prompt| + |emitted| + |draft| <= dec.maxKv
    modifies dec, dec.cache
    ensures MostAccepted(dec.model, prompt, emitted, draft, accepted)
    ensures cut <==> Fires(margins, tau, accepted)
    ensures if cut then 1 <= a < accepted && margins[a] <= tau && !Fires(margins, tau, a) else a == accepted
    ensures Poised(dec, prompt, emitted + draft[..a], next, cut)
  {
    var base := dec.nPast;
    var outs, most := Verify(dec, prompt, emitted, last, draft);
    accepted := most;
    a, cut := Gate(margins, tau, most);
    if cut {
      next := Truncate(dec, prompt, emitted, base, draft, most, a);
    } else {
      next := Keep(dec, prompt, emitted, base, draft, outs, a);
    }
  }

  /** Emits the accepted drafts, up to n_gen tokens in all; the draft index sees them too. */
  method Emit(idx: S.Index, emitted: seq<Token>, draft: seq<Token>, a: nat, nGen: nat) returns (out: seq<Token>)
    requires a <= |draft| && |emitted| <= nGen && idx.Valid()
    modifies idx
    ensures var more := draft[..S.Min(a, nGen - |emitted|)];
            out == emitted + more && idx.Valid() && idx.toks == old(idx.toks) + more
  {
    out := emitted;
    var i := 0;
    while i < a && |out| < nGen
      invariant i <= a && |out| <= nGen && out == emitted + draft[..i]
      invariant idx.Valid() && idx.toks == old(idx.toks) + draft[..i]
    {
      out := out + [draft[i]];
      idx.Push(draft[i]);
      i := i + 1;
    }
  }

  /** Emission may stop early at n_gen; what was emitted is still greedy. */
  lemma EmittedAreGreedy(w: Model, prompt: seq<Token>, emitted: seq<Token>, draft: seq<Token>, a: nat, k: nat)
    requires prompt != [] && k <= a <= |draft| && emitted + draft[..a] == Greedy(w, prompt, |emitted| + a)
    ensures emitted + draft[..k] == Greedy(w, prompt, |emitted| + k)
  {
    GreedyPrefix(w, prompt, |emitted| + k, |emitted| + a);
    assert (emitted + draft[..a])[..|emitted| + k] == emitted + draft[..k];
  }

  // ---------------------------------------------------------- stuttered streams

  /** at[i] is the index of the token emitted i-th: each step goes on by one or stays. */
  predicate Stutters(at: seq<nat>) {
    (at != [] ==> at[0] == 0) && forall i :: 0 < i < |at| ==> at[i] == at[i - 1] || at[i] == at[i - 1] + 1
  }

  /** out shows g through at. */
  predicate Shows(g: seq<Token>, at: seq<nat>, out: seq<Token>) {
    |out| == |at| && forall i :: 0 <= i < |at| ==> at[i] < |g| && out[i] == g[at[i]]
  }

  predicate RepeatsAt(at: seq<nat>, i: nat) { 0 < i < |at| && at[i] == at[i - 1] }

  /** i is the first position that repeats its predecessor, or the length when none does. */
  ghost predicate FirstRepeat(at: seq<nat>, i: nat) {
    i <= |at| && (i < |at| ==> RepeatsAt(at, i)) && forall j :: 0 <= j < i ==> !RepeatsAt(at, j)
  }

  predicate ConstantFrom(g: seq<Token>, k: nat) { forall i :: k <= i < |g| ==> g[i] == g[k] }

  lemma {:induction false} UpToRepeat(at: seq<nat>, f: nat, i: nat)
    requires Stutters(at) && FirstRepeat(at, f) && i < f
    ensures at[i] == i
  {
    if i > 0 {
      UpToRepeat(at, f, i - 1);
      assert !RepeatsAt(at, i);
    }
  }

  lemma {:induction false} AfterRepeat(at: seq<nat>, f: nat, i: nat)
    requires Stutters(at) && FirstRepeat(at, f) && 0 < f <= i < |at|
    ensures f - 1 <= at[i] < i
  {
    if i == f { UpToRepeat(at, f, f - 1); } else { AfterRepeat(at, f, i - 1); }
  }

  lemma {:induction false} ShownConstant(g: seq<Token>, at: seq<nat>, f: nat, i: nat)
    requires Stutters(at) && FirstRepeat(at, f) && 0 < f && |at| == |g| && Shows(g, at, g) && f - 1 <= i < |g|
    ensures g[i] == g[f - 1]
    decreases i
  {
    if i >= f {
      AfterRepeat(at, f, i);
      ShownConstant(g, at, f, at[i]);
    }
  }

  /**
    A stuttered stream is the stream itself exactly when nothing repeats, or all is one
    token from the first repeat on.
   */
  lemma StutterIsExact(g: seq<Token>, at: seq<nat>, out: seq<Token>, f: nat)
    requires Stutters(at) && FirstRepeat(at, f) && |at| == |g| && Shows(g, at, out)
    ensures out == g <==> f == |at| || ConstantFrom(g, f - 1)
  {
    forall i: nat | i < |at| && (f == |at| || ConstantFrom(g, f - 1)) ensures out[i] == g[i] {
      if i < f { UpToRepeat(at, f, i); } else { AfterRepeat(at, f, i); }
    }
    if out == g && f < |at| {
      assert RepeatsAt(at, f);
      forall i: nat | f - 1 <= i < |g| ensures g[i] == g[f - 1] { ShownConstant(g, at, f, i); }
    }
  }

  // ------------------------------------------------------ what a run computes

  /** Proposes drafts: the pass number and the stream so far, prompt and output. */
  type Drafter = (nat, seq<Token>) -> seq<Token>

  /** The margin a pass reports at each of its positions. */
  type Margins = (nat, nat) -> real

  datatype Params = Params(nGen: nat, specMax: nat, tau: real, margins: Margins)

  /** All that the output of the loop depends on. */
  datatype Job = Job(w: Model, prompt: seq<Token>, o: Params, drafter: Drafter)

  /**
    The loop between turns: `stream` is what has been decoded, out[i] == stream[at[i]] is
    what has been emitted, and after a cut the next turn emits the last token again.
   */
  datatype Gen = Gen(stream: seq<Token>, at: seq<nat>, out: seq<Token>, cut: bool, pass: nat)

  ghost predicate Started(j: Job, g: Gen) { j.prompt != [] && (g.cut ==> g.stream != []) && |g.out| <= j.o.nGen }

  /** The token a turn emits first: a new one, or after a cut the last one. */
  ghost function NextOf(j: Job, g: Gen): Token
    requires Started(j, g)
  {
    if g.cut then g.stream[|g.stream| - 1] else Next(j.w, j.prompt + g.stream)
  }

  ghost function EmitOf(j: Job, g: Gen): (r: Gen)
    requires Started(j, g) && |g.out| < j.o.nGen
    ensures Started(j, r) && r.stream != [] && |r.out| == |g.out| + 1
  {
    var s := if g.cut then g.stream else g.stream + [NextOf(j, g)];
    Gen(s, g.at + [|s| - 1], g.out + [NextOf(j, g)], false, g.pass)
  }

  function Capped(draft: seq<Token>, n: nat): seq<Token> { if |draft| <= n then draft else draft[..n] }

  ghost function DraftFor(j: Job, g: Gen): (r: seq<Token>)
    ensures |r| <= j.o.specMax
  {
    Capped(j.drafter(g.pass, j.prompt + g.out), j.o.specMax)
  }

  function Reported(o: Params, pass: nat, m: nat): (r: seq<real>)
    ensures |r| == m
  {
    seq(m, p requires 0 <= p < m => o.margins(pass, p))
  }

  /** Drafts the pass confirms. */
  ghost function Confirmed(j: Job, g: Gen): (r: nat)
    requires Started(j, g)
    ensures r <= |DraftFor(j, g)|
  {
    Accepted(j.w, j.prompt, g.stream, DraftFor(j, g), 0)
  }

  /** The pass's margins make the gate fire. */
  ghost predicate GateFires(j: Job, g: Gen)
    requires Started(j, g)
  {
    Fires(Reported(j.o, g.pass, |DraftFor(j, g)| + 1), j.o.tau, Confirmed(j, g))
  }

  /** Drafts that are confirmed and kept by the gate. */
  ghost function KeptOf(j: Job, g: Gen): (r: nat)
    requires Started(j, g)
    ensures r <= Confirmed(j, g) && (r < Confirmed(j, g) <==> GateFires(j, g)) && (GateFires(j, g) ==> 1 <= r)
  {
    var margins := Reported(j.o, g.pass, |DraftFor(j, g)| + 1);
    KeptIs(margins, j.o.tau, Confirmed(j, g));
    Kept(margins, j.o.tau, Confirmed(j, g))
  }

  /** One pass after the emission: k drafts go out. */
  ghost function Extended(j: Job, g: Gen, k: nat, cut: bool): Gen
    requires k <= |DraftFor(j, g)|
  {
    var more := DraftFor(j, g)[..k];
    Gen(g.stream + more, g.at + seq(k, i => |g.stream| + i), g.out + more, cut, g.pass + 1)
  }

  ghost function ConfirmOf(j: Job, g: Gen): (r: Gen)
    requires Started(j, g) && g.stream != []
    ensures Started(j, r) && |r.out| >= |g.out|
  {
    var k := S.Min(KeptOf(j, g), j.o.nGen - |g.out|);
    Extended(j, g, k, GateFires(j, g) && |g.out| + k < j.o.nGen)
  }

  /** One turn: emit the next token and, unless that was the last one, verify a draft and emit what is kept. */
  ghost function TurnOf(j: Job, g: Gen): (r: Gen)
    requires Started(j, g) && |g.out| < j.o.nGen
    ensures Started(j, r) && |r.out| > |g.out|
  {
    var e := EmitOf(j, g);
    if |e.out| < j.o.nGen then ConfirmOf(j, e) else e
  }

  ghost function Final(j: Job, g: Gen): (r: Gen)
    requires Started(j, g)
    decreases j.o.nGen - |g.out|
  {
    if |g.out| < j.o.nGen then Final(j, TurnOf(j, g)) else g
  }

  function Start(): Gen { Gen([], [], [], false, 0) }

  /** The tokens a run emits. */
  ghost function Output(j: Job): seq<Token>
    requires j.prompt != []
  {
    Final(j, Start()).out
  }

  // ----------------------------------------------------------- invariant of it

  /** `stream` is greedy and `out` shows it through `at`. */
  ghost predicate GenOk(j: Job, g: Gen) {
    && Started(j, g) && g.stream == Greedy(j.w, j.prompt, |g.stream|) && Stutters(g.at) && Shows(g.stream, g.at, g.out)
    && (g.at == [] <==> g.stream == []) && (g.at != [] ==> g.at[|g.at| - 1] == |g.stream| - 1)
  }

  /** `later` has repeated nothing since position n. */
  ghost predicate OnlyNew(at: seq<nat>, later: seq<nat>, n: nat) {
    at <= later && forall i: nat :: n <= i < |later| ==> !RepeatsAt(later, i)
  }

  /** The emission repeats a token exactly after a cut. */
  lemma EmitOk(j: Job, g: Gen)
    requires GenOk(j, g) && |g.out| < j.o.nGen
    ensures GenOk(j, EmitOf(j, g)) && g.at <= EmitOf(j, g).at
    ensures RepeatsAt(EmitOf(j, g).at, |g.at|) <==> g.cut
  {
    var e := EmitOf(j, g);
    if !g.cut { GreedyNext(j.w, j.prompt, g.stream, NextOf(j, g)); }
    forall i: nat | 0 < i < |e.at| ensures e.at[i] == e.at[i - 1] || e.at[i] == e.at[i - 1] + 1 {}
  }

  /** A run of new positions appended: nothing in it repeats. */
  lemma RunStutters(at: seq<nat>, n: nat, k: nat)
    requires Stutters(at) && at != [] && at[|at| - 1] + 1 == n
    ensures var at' := at + seq(k, i => n + i);
            Stutters(at') && OnlyNew(at, at', |at|) && at'[|at'| - 1] + 1 == n + k
  {
    var at' := at + seq(k, i => n + i);
    forall i: nat | 0 < i < |at'|
      ensures at'[i] == at'[i - 1] || at'[i] == at'[i - 1] + 1
      ensures i >= |at| ==> !RepeatsAt(at', i)
    {
      if i < |at| { assert at'[i] == at[i] && at'[i - 1] == at[i - 1]; }
    }
  }

  lemma RunShows(g: seq<Token>, at: seq<nat>, out: seq<Token>, more: seq<Token>)
    requires Shows(g, at, out)
    ensures Shows(g + more, at + seq(|more|, i => |g| + i), out + more)
  {}

  /** Emitting drafts repeats nothing. */
  lemma ExtendedOk(j: Job, g: Gen, k: nat, cut: bool)
    requires GenOk(j, g) && g.stream != [] && k <= Confirmed(j, g) && |g.out| + k <= j.o.nGen
    ensures GenOk(j, Extended(j, g, k, cut)) && OnlyNew(g.at, Extended(j, g, k, cut).at, |g.at|)
  {
    FewerGreedy(j.w, j.prompt, g.stream, DraftFor(j, g), k);
    RunStutters(g.at, |g.stream|, k);
    RunShows(g.stream, g.at, g.out, DraftFor(j, g)[..k]);
  }

  lemma ConfirmOk(j: Job, g: Gen)
    requires GenOk(j, g) && g.stream != []
    ensures GenOk(j, ConfirmOf(j, g)) && OnlyNew(g.at, ConfirmOf(j, g).at, |g.at|)
  {
    var k := S.Min(KeptOf(j, g), j.o.nGen - |g.out|);
    var cut := GateFires(j, g) && |g.out| + k < j.o.nGen;
    ExtendedOk(j, g, k, cut);
    assert ConfirmOf(j, g) == Extended(j, g, k, cut);
  }

  /**
    A turn keeps all that was emitted, and repeats a token only with its first one, exactly
    when the turn before ended in a cut.
   */
  lemma TurnOk(j: Job, g: Gen)
    requires GenOk(j, g) && |g.out| < j.o.nGen
    ensures GenOk(j, TurnOf(j, g)) && OnlyNew(g.at, TurnOf(j, g).at, |g.at| + 1)
    ensures RepeatsAt(TurnOf(j, g).at, |g.at|) <==> g.cut
  {
    var e := EmitOf(j, g);
    EmitOk(j, g);
    if |e.out| < j.o.nGen {
      ConfirmOk(j, e);
      assert ConfirmOf(j, e).at[|g.at|] == e.at[|g.at|];
    }
  }

  /** A turn ends in a cut exactly when its gate fired and tokens are still wanted. */
  lemma TurnCuts(j: Job, g: Gen)
    requires Started(j, g) && |g.out| < j.o.nGen
    ensures var e, r := EmitOf(j, g), TurnOf(j, g);
            r.cut <==> |e.out| < j.o.nGen && GateFires(j, e) && |r.out| < j.o.nGen
  {}

  lemma StartOk(j: Job)
    requires j.prompt != []
    ensures GenOk(j, Start())
  {}

  lemma {:induction false} FinalOk(j: Job, g: Gen)
    requires GenOk(j, g)
    ensures GenOk(j, Final(j, g)) && |Final(j, g).out| == j.o.nGen
    ensures g.out <= Final(j, g).out && g.at <= Final(j, g).at
    decreases j.o.nGen - |g.out|
  {
    if |g.out| < j.o.nGen {
      TurnOk(j, g);
      TurnAdds(j, g);
      FinalOk(j, TurnOf(j, g));
    }
  }

  lemma TurnAdds(j: Job, g: Gen)
    requires Started(j, g) && |g.out| < j.o.nGen
    ensures g.out <= EmitOf(j, g).out <= TurnOf(j, g).out
  {}

  // ----------------------------------------------------------------- exactness

  lemma {:induction false} StreamFits(at: seq<nat>)
    requires Stutters(at)
    ensures at != [] ==> at[|at| - 1] < |at|
    decreases |at|
  {
    if |at| > 1 { StreamFits(at[..|at| - 1]); }
  }

  /** The stuttered view of the greedy stream that a run emits. */
  ghost function ShownAt(j: Job): (at: seq<nat>)
    requires j.prompt != []
  {
    Final(j, Start()).at
  }

  lemma OutputShows(j: Job)
    requires j.prompt != []
    ensures |ShownAt(j)| == |Output(j)| == j.o.nGen && Stutters(ShownAt(j))
    ensures Shows(Greedy(j.w, j.prompt, j.o.nGen), ShownAt(j), Output(j))
  {
    StartOk(j);
    FinalOk(j, Start());
    var g := Final(j, Start());
    StreamFits(g.at);
    GreedyPrefix(j.w, j.prompt, |g.stream|, j.o.nGen);
  }

  /** No turn from g on ends in a cut. */
  ghost predicate CutFree(j: Job, g: Gen)
    requires Started(j, g)
    decreases j.o.nGen - |g.out|
  {
    |g.out| < j.o.nGen ==> !TurnOf(j, g).cut && CutFree(j, TurnOf(j, g))
  }

  ghost predicate NoRepeat(at: seq<nat>) { forall i: nat :: !RepeatsAt(at, i) }

  lemma RepeatStays(at: seq<nat>, later: seq<nat>, i: nat)
    requires at <= later && RepeatsAt(at, i)
    ensures !NoRepeat(later)
  {
    assert RepeatsAt(later, i);
  }

  lemma StillNoRepeat(at: seq<nat>, later: seq<nat>)
    requires NoRepeat(at) && OnlyNew(at, later, |at| + 1) && !RepeatsAt(later, |at|)
    ensures NoRepeat(later)
  {
    forall i: nat ensures !RepeatsAt(later, i) { assert i < |at| ==> RepeatsAt(later, i) == RepeatsAt(at, i); }
  }

  /** From a state without repeats, the rest of the run repeats nothing exactly when no turn is cut. */
  lemma {:induction false} RepeatsAreCuts(j: Job, g: Gen)
    requires GenOk(j, g) && NoRepeat(g.at) && (g.cut ==> |g.out| < j.o.nGen)
    ensures NoRepeat(Final(j, g).at) <==> !g.cut && CutFree(j, g)
    decreases j.o.nGen - |g.out|
  {
    if |g.out| < j.o.nGen {
      var t := TurnOf(j, g);
      TurnOk(j, g);
      FinalOk(j, t);
      if g.cut {
        RepeatStays(t.at, Final(j, t).at, |g.at|);
      } else {
        StillNoRepeat(g.at, t.at);
        TurnCuts(j, g);
        RepeatsAreCuts(j, t);
      }
    }
  }

  /**
    A run's output is the greedy stream exactly when no turn was cut, or the greedy
    stream is constant from the first repeated token on.
   */
  lemma GeneratedIsGreedy(j: Job, f: nat)
    requires j.prompt != [] && FirstRepeat(ShownAt(j), f)
    ensures var greedy := Greedy(j.w, j.prompt, j.o.nGen);
            Output(j) == greedy <==> CutFree(j, Start()) || (0 < f && ConstantFrom(greedy, f - 1))
    ensures CutFree(j, Start()) <==> f == j.o.nGen
  {
    OutputShows(j);
    StutterIsExact(Greedy(j.w, j.prompt, j.o.nGen), ShownAt(j), Output(j), f);
    StartOk(j);
    RepeatsAreCuts(j, Start());
    assert NoRepeat(ShownAt(j)) <==> f == |ShownAt(j)| by {
      if NoRepeat(ShownAt(j)) { assert !RepeatsAt(ShownAt(j), f); }
      if f == |ShownAt(j)| { forall i: nat ensures !RepeatsAt(ShownAt(j), i) {} }
    }
  }

  // ------------------------------------------------------- the loop itself

  /** How the drafts are made: the index's settings and how many drafts each pass asks for. */
  datatype Drafting = Drafting(hash: S.HashFn, chainCap: nat, minMatch: nat, wants: nat -> int)

  function Wanted(dr: Drafting, specMax: nat, pass: nat): int {
    if dr.wants(pass) > specMax then specMax else dr.wants(pass)
  }

  ghost function IndexDrafter(dr: Drafting, specMax: nat): Drafter {
    (pass: nat, toks: seq<Token>) => S.DraftOf(dr.hash, toks, dr.chainCap, dr.minMatch, Wanted(dr, specMax, pass))
  }

  /** A run of the program. */
  ghost function RunJob(w: Model, prompt: seq<Token>, o: Params, dr: Drafting): Job {
    Job(w, prompt, o, IndexDrafter(dr, o.specMax))
  }

  ghost predicate Indexes(idx: S.Index, dr: Drafting, toks: seq<Token>)
    reads idx
  {
    idx.Valid() && idx.hash == dr.hash && idx.chainCap == dr.chainCap && idx.minMatch == dr.minMatch && idx.toks == toks
  }

  /** Where the loop stands in state g, about to emit `next`. */
  ghost predicate Looping(dec: Decoder, j: Job, g: Gen, next: Token)
    reads dec, dec.cache
  {
    dec.model == j.w && GenOk(j, g) && Poised(dec, j.prompt, g.stream, next, g.cut)
  }

  /** Between turns: in the loop, or done. */
  ghost predicate Going(dec: Decoder, j: Job, g: Gen, next: Token)
    reads dec, dec.cache
  {
    if |g.out| < j.o.nGen then Looping(dec, j, g, next) else dec.Valid() && GenOk(j, g)
  }

  /** Asks the index for a draft. */
  method Propose(idx: S.Index, dr: Drafting, specMax: nat, pass: nat, ghost toks: seq<Token>)
    returns (draft: seq<Token>)
    requires Indexes(idx, dr, toks)
    ensures draft == Capped(IndexDrafter(dr, specMax)(pass, toks), specMax)
  {
    var want := Wanted(dr, specMax, pass);
    draft := [];
    ghost var e := 0;
    if want > 0 { draft, e := idx.Draft(want); }
    if draft != [] { assert |draft| <= want; }
  }

  lemma KeptInTurn(j: Job, g: Gen, accepted: nat, a: nat, cut: bool)
    requires GenOk(j, g) && g.stream != []
    requires MostAccepted(j.w, j.prompt, g.stream, DraftFor(j, g), accepted)
    requires var margins := Reported(j.o, g.pass, |DraftFor(j, g)| + 1);
             (cut <==> Fires(margins, j.o.tau, accepted))
             && if cut then 1 <= a < accepted && margins[a] <= j.o.tau && !Fires(margins, j.o.tau, a) else a == accepted
    ensures a == KeptOf(j, g) && (cut <==> GateFires(j, g))
  {
    MostIsAccepted(j.w, j.prompt, g.stream, DraftFor(j, g), accepted);
    GatedIsKept(Reported(j.o, g.pass, |DraftFor(j, g)| + 1), j.o.tau, accepted, a);
  }

  /** What the loop's methods need of their arguments. */
  ghost predicate Fits(dec: Decoder, j: Job, o: Params, dr: Drafting) {
    j == RunJob(dec.model, j.prompt, o, dr) && o.specMax < dec.maxBatch && |j.prompt| + o.nGen + o.specMax <= dec.maxKv
  }

  /** The draft of a turn, verified, gated and rewound. */
  method Checked(dec: Decoder, idx: S.Index, ghost j: Job, o: Params, dr: Drafting, ghost g: Gen, last: Token,
                 pass: nat)
    returns (draft: seq<Token>, a: nat, next: Token, ghost cut: bool)
    requires Fits(dec, j, o, dr) && dec.Valid() && GenOk(j, g) && g.stream != [] && pass == g.pass
    requires dec.hist == Before(j.prompt, g.stream) && last == g.stream[|g.stream| - 1] && |g.stream| < o.nGen
    requires Indexes(idx, dr, j.prompt + g.out)
    modifies dec, dec.cache
    ensures draft == DraftFor(j, g) && a == KeptOf(j, g) && (cut <==> GateFires(j, g))
    ensures Poised(dec, j.prompt, g.stream + draft[..a], next, cut)
  {
    draft := Propose(idx, dr, o.specMax, pass, j.prompt + g.out);
    var margins := Reported(o, pass, |draft| + 1);
    var trunc;
    ghost var accepted;
    a, next, trunc, accepted := Pass(dec, j.prompt, g.stream, last, draft, margins, o.tau);
    cut := trunc;
    KeptInTurn(j, g, accepted, a, cut);
  }

  /** The decoder is where the next turn wants it. */
  lemma ConfirmGoes(dec: Decoder, j: Job, g: Gen, next: Token)
    requires dec.model == j.w && GenOk(j, g) && g.stream != []
    requires Poised(dec, j.prompt, g.stream + DraftFor(j, g)[..KeptOf(j, g)], next, GateFires(j, g))
    ensures Going(dec, j, ConfirmOf(j, g), next)
  {
    ConfirmOk(j, g);
  }

  lemma Joined(a: seq<Token>, b: seq<Token>, c: seq<Token>)
    ensures a + (b + c) == (a + b) + c
  {}

  /** The last token is out: verify a draft, emit what was kept. */
  method Confirm(dec: Decoder, idx: S.Index, ghost j: Job, o: Params, dr: Drafting, ghost g: Gen, out0: seq<Token>,
                 last: Token, pass: nat)
    returns (out: seq<Token>, next: Token)
    requires Fits(dec, j, o, dr) && dec.Valid() && GenOk(j, g) && g.stream != [] && pass == g.pass
    requires dec.hist == Before(j.prompt, g.stream) && last == g.stream[|g.stream| - 1] && |g.stream| < o.nGen
    requires Indexes(idx, dr, j.prompt + out0) && g.out == out0
    modifies dec, dec.cache, idx
    ensures out == ConfirmOf(j, g).out && Indexes(idx, dr, j.prompt + out)
    ensures Going(dec, j, ConfirmOf(j, g), next)
  {
    var draft, a;
    ghost var cut;
    draft, a, next, cut := Checked(dec, idx, j, o, dr, g, last, pass);
    ConfirmGoes(dec, j, g, next);
    out := Emit(idx, out0, draft, a, o.nGen);
    Joined(j.prompt, out0, draft[..S.Min(a, o.nGen - |out0|)]);
  }

  /** Once the next token is out, the cache lacks only that. */
  lemma LastIsOut(prompt: seq<Token>, stream: seq<Token>, next: Token, cut: bool)
    requires cut ==> stream != [] && next == stream[|stream| - 1]
    ensures var s := if cut then stream else stream + [next];
            s[|s| - 1] == next && Before(prompt, s) == if cut then Before(prompt, stream) else prompt + stream
  {}

  /** The next token is out: where that leaves the decoder. */
  lemma EmitGoes(dec: Decoder, j: Job, g: Gen, next: Token)
    requires Looping(dec, j, g, next) && |g.out| < j.o.nGen
    ensures next == NextOf(j, g) && GenOk(j, EmitOf(j, g)) && |EmitOf(j, g).stream| <= |EmitOf(j, g).out|
    ensures dec.hist == Before(j.prompt, EmitOf(j, g).stream)
    ensures next == EmitOf(j, g).stream[|EmitOf(j, g).stream| - 1]
  {
    EmitOk(j, g);
    LastIsOut(j.prompt, g.stream, next, g.cut);
    StreamFits(EmitOf(j, g).at);
  }

  /** One turn: emit the next token, and unless that was the last one, confirm a draft. */
  method Turn(dec: Decoder, idx: S.Index, ghost j: Job, o: Params, dr: Drafting, ghost g: Gen, out0: seq<Token>,
              next0: Token, pass: nat)
    returns (out: seq<Token>, next: Token)
    requires Fits(dec, j, o, dr) && |out0| < o.nGen && g.out == out0 && pass == g.pass
    requires Looping(dec, j, g, next0) && Indexes(idx, dr, j.prompt + out0)
    modifies dec, dec.cache, idx
    ensures out == TurnOf(j, g).out && Going(dec, j, TurnOf(j, g), next)
    ensures |out| < o.nGen ==> Indexes(idx, dr, j.prompt + out)
  {
    out, next := out0 + [next0], next0;
    EmitGoes(dec, j, g, next0);
    if |out| < o.nGen {
      Joined(j.prompt, out0, [next0]);
      idx.Push(next0);
      out, next := Confirm(dec, idx, j, o, dr, EmitOf(j, g), out, next0, pass);
    }
  }

  /** A new index of the prompt. */
  method IndexPrompt(dr: Drafting, prompt: seq<Token>) returns (idx: S.Index)
    ensures fresh(idx) && Indexes(idx, dr, prompt)
  {
    idx := new S.Index(dr.hash, dr.chainCap, dr.minMatch);
    for i := 0 to |prompt|
      invariant Indexes(idx, dr, prompt[..i])
    {
      idx.Push(prompt[i]);
      assert prompt[..i + 1] == prompt[..i] + [prompt[i]];
    }
    assert prompt[..|prompt|] == prompt;
  }

  /**
    Emits n_gen tokens: the run's output, whatever the index proposes, however many drafts
    each pass asks for and whatever margins the passes report.  The cache never
    fills when it has room for prompt, output and one draft.
   */
  method Speculate(dec: Decoder, prompt: seq<Token>, o: Params, dr: Drafting) returns (r: Result<seq<Token>>)
    requires dec.Valid() && prompt != [] && o.specMax < dec.maxBatch
    requires |prompt| + o.nGen + o.specMax <= dec.maxKv
    modifies dec, dec.cache
    ensures dec.Valid()
    ensures r == Ok(Output(RunJob(dec.model, prompt, o, dr)))
    ensures o.tau <= 0.0 ==> r == Ok(Greedy(dec.model, prompt, o.nGen))
  {
    ghost var j := RunJob(dec.model, prompt, o, dr);
    dec.Reset();
    var first := Prefill(dec, prompt);
    var idx := IndexPrompt(dr, prompt);
    var out: seq<Token>, next, pass := [], first.value, 0;
    ghost var g := Start();
    assert prompt + [] == prompt;
    while |out| < o.nGen
      invariant dec.model == j.w && fresh(idx) && out == g.out && |out| <= o.nGen
      invariant Going(dec, j, g, next) && Final(j, g) == Final(j, Start())
      invariant |out| < o.nGen ==> Indexes(idx, dr, prompt + out) && pass == g.pass
    {
      out, next := Turn(dec, idx, j, o, dr, g, out, next, pass);
      g, pass := TurnOf(j, g), pass + 1;
    }
    r := Ok(out);
    if o.tau <= 0.0 { NeverCut(j); }
  }

  // ------------------------------------------------- when the gate cannot show

  /** No turn of the run can end in a cut, by its parameters alone. */
  predicate GateHarmless(tau: real, specMax: nat, nGen: nat) { tau <= 0.0 || specMax < 2 || nGen < 3 }

  ghost predicate Exact(j: Job, g: Gen) {
    Started(j, g) && !g.cut && g.out == g.stream == Greedy(j.w, j.prompt, |g.out|)
  }

  lemma EmitExact(j: Job, g: Gen)
    requires Exact(j, g) && |g.out| < j.o.nGen
    ensures Exact(j, EmitOf(j, g))
  {
    GreedyNext(j.w, j.prompt, g.stream, NextOf(j, g));
  }

  lemma ConfirmExact(j: Job, g: Gen)
    requires GateHarmless(j.o.tau, j.o.specMax, j.o.nGen) && Exact(j, g) && g.stream != []
    ensures Exact(j, ConfirmOf(j, g))
  {
    var k := S.Min(KeptOf(j, g), j.o.nGen - |g.out|);
    FewerGreedy(j.w, j.prompt, g.stream, DraftFor(j, g), k);
    assert GateFires(j, g) ==> j.o.tau > 0.0 && j.o.specMax >= 2;
  }

  lemma TurnExact(j: Job, g: Gen)
    requires GateHarmless(j.o.tau, j.o.specMax, j.o.nGen) && Exact(j, g) && |g.out| < j.o.nGen
    ensures Exact(j, TurnOf(j, g))
  {
    EmitExact(j, g);
    if |EmitOf(j, g).out| < j.o.nGen { ConfirmExact(j, EmitOf(j, g)); }
  }

  lemma {:induction false} FinalExact(j: Job, g: Gen)
    requires GateHarmless(j.o.tau, j.o.specMax, j.o.nGen) && Exact(j, g)
    ensures Final(j, g).out == Greedy(j.w, j.prompt, j.o.nGen)
    decreases j.o.nGen - |g.out|
  {
    if |g.out| < j.o.nGen {
      TurnExact(j, g);
      FinalExact(j, TurnOf(j, g));
    }
  }

  /** With the gate off, drafts of one token or fewer than three tokens wanted, every run decodes greedily. */
  lemma NeverCut(j: Job)
    requires j.prompt != [] && GateHarmless(j.o.tau, j.o.specMax, j.o.nGen)
    ensures Output(j) == Greedy(j.w, j.prompt, j.o.nGen)
  {
    FinalExact(j, Start());
  }
}

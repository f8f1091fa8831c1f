/**
  When speculative decoding is lossless: for which command lines every run emits the
  greedy stream, and a run the program can make for every other one
  (tools/decode_main.cpp, run_once; src/spec/suffix_index.h).
 */
module SpeculationTheorems {
  import opened Decoder
  import opened Speculation
  import S = SuffixIndex

  // ----------------------------------------------------------------- witness

  /** A model that counts: the token after t is t + 1. */
  function Counter(): Model {
    Model(0, 0, (t: Token, p: nat) => Floats([t]), (l: nat, x: X, p: nat) => Floats([]),
          (l: nat, x: X, p: nat) => Floats([]), (l: nat, h: nat, q: Floats, p: nat, rows: seq<KV>) => q,
          (l: nat, x: X, p: nat, read: seq<Floats>) => x, (x: X) => if |x.bits| > 0 then x.bits[0] + 1 else 0)
  }

  lemma CounterNext(hist: seq<Token>)
    requires hist != []
    ensures Next(Counter(), hist) == hist[|hist| - 1] + 1
  {}

  const LOOP: seq<Token> := [0, 1, 2, 3, 4, 5, 0, 1, 2]

  /** The prompt and its first output: the last four tokens have occurred before, and only at 3. */
  lemma MatchesOfLoop(e: nat)
    requires e < 9
    ensures S.Match(LOOP + [3], e) == if e == 3 then 4 else 0
  {
    var toks := LOOP + [3];
    if e == 3 {
      assert S.Extend(toks, 3, 4) == 4;
      assert S.Extend(toks, 3, 3) == 4;
      assert S.Extend(toks, 3, 2) == 4;
      assert S.Extend(toks, 3, 1) == 4;
    } else {
      assert toks[e] != 3;
    }
  }

  /** So the index proposes what followed there, whatever the hash. */
  lemma ProposesForLoop(hash: S.HashFn, cap: nat, minMatch: nat)
    requires 10 <= cap && minMatch <= 4
    ensures S.DraftOf(hash, LOOP + [3], cap, minMatch, 2) == [4, 5]
  {
    var toks, threshold := LOOP + [3], S.Max(S.H, minMatch);
    S.FullCapIsBruteForce(hash, toks, cap, threshold);
    forall e: nat | e < 9 ensures S.Match(toks, e) == if e == 3 then 4 else 0 { MatchesOfLoop(e); }
    assert S.Best(toks, S.AllMatches(toks, threshold), 3);
    S.DraftMeans(hash, toks, cap, minMatch, 2, 3);
  }

  /** No margin at all: every position is a tie. */
  function Ties(): Margins { (pass: nat, p: nat) => 0.0 }

  /** Two drafts a pass. */
  function Pairs(hash: S.HashFn, cap: nat, minMatch: nat): Drafting { Drafting(hash, cap, minMatch, (pass: nat) => 2) }

  ghost function LoopJob(o: Params, hash: S.HashFn, cap: nat, minMatch: nat): Job {
    RunJob(Counter(), LOOP, o, Pairs(hash, cap, minMatch))
  }

  /** Command lines on which the gate can show, and a first pass that is unsure of its second position. */
  predicate Exposed(o: Params) { 0.0 < o.tau && o.margins(0, 1) <= o.tau && o.specMax >= 2 && o.nGen >= 3 }

  lemma FirstEmitted(o: Params, hash: S.HashFn, cap: nat, minMatch: nat)
    requires Exposed(o)
    ensures EmitOf(LoopJob(o, hash, cap, minMatch), Start()) == Gen([3], [0], [3], false, 0)
  {
    var e := EmitOf(LoopJob(o, hash, cap, minMatch), Start());
    assert LOOP + [] == LOOP;
    CounterNext(LOOP);
    assert e.stream == [3] && e.at == [0] && e.out == [3];
  }

  lemma FirstDraft(o: Params, hash: S.HashFn, cap: nat, minMatch: nat)
    requires Exposed(o) && 10 <= cap && minMatch <= 4
    ensures DraftFor(LoopJob(o, hash, cap, minMatch), Gen([3], [0], [3], false, 0)) == [4, 5]
  {
    var j, dr := LoopJob(o, hash, cap, minMatch), Pairs(hash, cap, minMatch);
    assert Wanted(dr, o.specMax, 0) == 2;
    ProposesForLoop(hash, cap, minMatch);
    assert j.drafter(0, LOOP + [3]) == S.DraftOf(hash, LOOP + [3], cap, minMatch, 2);
  }

  /** Both drafts are what the model goes on with. */
  lemma BothAccepted()
    ensures Accepted(Counter(), LOOP, [3], [4, 5], 0) == 2
  {
    var draft := [4, 5];
    assert draft[..0] == [] && draft[..1] == [4];
    assert LOOP + ([3] + []) == LOOP + [3] && LOOP + ([3] + [4]) == LOOP + [3, 4];
    CounterNext(LOOP + [3]);
    CounterNext(LOOP + [3, 4]);
    assert Accepted(Counter(), LOOP, [3], draft, 2) == 2;
    assert Accepted(Counter(), LOOP, [3], draft, 1) == 2;
  }

  lemma FirstPass(o: Params, hash: S.HashFn, cap: nat, minMatch: nat)
    requires Exposed(o) && 10 <= cap && minMatch <= 4
    ensures var j := LoopJob(o, hash, cap, minMatch); var e := EmitOf(j, Start());
            e == Gen([3], [0], [3], false, 0) && DraftFor(j, e) == [4, 5] && Confirmed(j, e) == 2
  {
    FirstEmitted(o, hash, cap, minMatch);
    FirstDraft(o, hash, cap, minMatch);
    BothAccepted();
  }

  /** The gate drops the second draft, so the first turn ends in a cut. */
  lemma FirstTurn(o: Params, hash: S.HashFn, cap: nat, minMatch: nat)
    requires Exposed(o) && 10 <= cap && minMatch <= 4
    ensures TurnOf(LoopJob(o, hash, cap, minMatch), Start()) == Gen([3, 4], [0, 1], [3, 4], true, 1)
  {
    var j := LoopJob(o, hash, cap, minMatch);
    var e := EmitOf(j, Start());
    FirstPass(o, hash, cap, minMatch);
    assert Reported(o, 0, 3)[1] == o.margins(0, 1);
    assert KeptOf(j, e) == 1;
    assert DraftFor(j, e)[..1] == [4];
  }

  lemma TurnIsKept(j: Job, g: Gen)
    requires GenOk(j, g) && |g.out| < j.o.nGen
    ensures TurnOf(j, g).out <= Final(j, g).out
  {
    TurnOk(j, g);
    FinalOk(j, TurnOf(j, g));
  }

  lemma Different(s: seq<Token>, t: seq<Token>)
    requires [3, 4, 4] <= s && [3, 4, 5] <= t
    ensures s != t
  {
    assert s[2] == [3, 4, 4][2] && t[2] == [3, 4, 5][2];
  }

  lemma SecondTurn(o: Params, hash: S.HashFn, cap: nat, minMatch: nat)
    requires Exposed(o) && 10 <= cap && minMatch <= 4
    ensures [3, 4, 4] <= Output(LoopJob(o, hash, cap, minMatch))
  {
    var j := LoopJob(o, hash, cap, minMatch);
    var g := TurnOf(j, Start());
    FirstTurn(o, hash, cap, minMatch);
    StartOk(j);
    TurnOk(j, Start());
    TurnAdds(j, g);
    TurnIsKept(j, g);
    assert EmitOf(j, g).out == [3, 4, 4];
  }

  /** The second turn emits the 4 again. */
  lemma GateChangesOutput(o: Params, hash: S.HashFn, cap: nat, minMatch: nat)
    requires Exposed(o) && 10 <= cap && minMatch <= 4
    ensures [3, 4, 4] <= Output(LoopJob(o, hash, cap, minMatch))
    ensures [3, 4, 5] <= Greedy(Counter(), LOOP, o.nGen)
    ensures Output(LoopJob(o, hash, cap, minMatch)) != Greedy(Counter(), LOOP, o.nGen)
  {
    SecondTurn(o, hash, cap, minMatch);
    CounterGreedy();
    GreedyPrefix(Counter(), LOOP, 3, o.nGen);
    Different(Output(LoopJob(o, hash, cap, minMatch)), Greedy(Counter(), LOOP, o.nGen));
  }

  lemma CounterGreedy()
    ensures Greedy(Counter(), LOOP, 3) == [3, 4, 5]
  {
    CounterNext(LOOP);
    CounterNext(LOOP + [3]);
    CounterNext(LOOP + [3, 4]);
    assert LOOP + [] == LOOP;
    assert Greedy(Counter(), LOOP, 1) == [3];
    assert Greedy(Counter(), LOOP, 2) == [3, 4];
  }

  // ----------------------------------------------------------- exact condition

  /** Every run of the program with these parameters decodes greedily. */
  ghost predicate Lossless(tau: real, specMax: nat, nGen: nat) {
    forall w: Model, prompt: seq<Token>, margins: Margins, dr: Drafting ::
      prompt != [] ==> SameAsGreedy(w, prompt, Params(nGen, specMax, tau, margins), dr)
  }

  ghost predicate SameAsGreedy(w: Model, prompt: seq<Token>, o: Params, dr: Drafting)
    requires prompt != []
  {
    Output(RunJob(w, prompt, o, dr)) == Greedy(w, prompt, o.nGen)
  }

  /** Lossless exactly with the gate off, drafts of at most one token, or fewer than three tokens wanted. */
  lemma LosslessIff(tau: real, specMax: nat, nGen: nat)
    ensures Lossless(tau, specMax, nGen) <==> tau <= 0.0 || specMax < 2 || nGen < 3
  {
    if GateHarmless(tau, specMax, nGen) {
      forall w: Model, prompt: seq<Token>, margins: Margins, dr: Drafting | prompt != []
        ensures SameAsGreedy(w, prompt, Params(nGen, specMax, tau, margins), dr)
      {
        NeverCut(RunJob(w, prompt, Params(nGen, specMax, tau, margins), dr));
      }
    } else {
      var o := Params(nGen, specMax, tau, Ties());
      var hash: S.HashFn := (a, b, c) => 0;
      GateChangesOutput(o, hash, 64, 3);
      assert !SameAsGreedy(Counter(), LOOP, o, Pairs(hash, 64, 3));
    }
  }
}

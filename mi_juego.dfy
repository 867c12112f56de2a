/** The number-sequence quiz: a round shows four terms of a series and four
    candidate continuations; a session is ten rounds, then the score is
    reported and the player is asked to play again. */
module MiJuego {
  import opened Wrappers
  import opened Random
  import opened Sets
  import opened Backend

  const ROUNDS: int := 10
  /** An answer above this makes the geometric, fibonacci and alternating
      generators fall back to an arithmetic round. */
  const CEILING: int := 200
  const MAX_ATTEMPTS: int := 20
  const OPTIONS: int := 4

  datatype Round = Round(series: seq<int>, correct: int, options: seq<int>)

  datatype SequenceType = Arithmetic | Geometric | Fibonacci | Alternating

  datatype GameState = Playing | ShowingResult | AskReplay | Finished | Loading | ConfirmReset

  /** A visible series and the value that continues it, before options are added. */
  datatype Series = Series(series: seq<int>, correct: int)

  // ---------------------------------------------------------------------
  // The four generators, as functions of their random draws

  predicate ConstantStep(s: seq<int>, d: int) {
    forall i | 0 <= i < |s| - 1 :: s[i + 1] == s[i] + d
  }

  predicate ConstantRatio(s: seq<int>, q: int) {
    forall i | 0 <= i < |s| - 1 :: s[i + 1] == s[i] * q
  }

  predicate SumOfTwoPrevious(s: seq<int>) {
    forall i | 2 <= i < |s| :: s[i] == s[i - 2] + s[i - 1]
  }

  /** Start `a`, step `d`: four terms and the fifth as the answer. */
  function ArithmeticSeries(a: int, d: int): (s: Series)
    ensures |s.series| == 4 && s.series[0] == a
    ensures ConstantStep(s.series + [s.correct], d)
  {
    Series([a, a + d, a + 2 * d, a + 3 * d], a + 4 * d)
  }

  /** Start `a`, ratio `q`. */
  function GeometricSeries(a: int, q: int): (s: Series)
    ensures |s.series| == 4 && s.series[0] == a
    ensures ConstantRatio(s.series + [s.correct], q)
  {
    Series([a, a * q, a * q * q, a * q * q * q], a * q * q * q * q)
  }

  /** Seeds `a` and `b`, each later term the sum of the two before it. */
  function FibonacciSeries(a: int, b: int): (s: Series)
    ensures |s.series| == 4 && s.series[0] == a && s.series[1] == b
    ensures SumOfTwoPrevious(s.series + [s.correct])
  {
    var n3 := a + b;
    var n4 := b + n3;
    Series([a, b, n3, n4], n3 + n4)
  }

  /** Two interleaved progressions: `a1, a1 + d1, ...` at even positions and
      `a2, a2 + d2` at odd ones; the answer continues the even one. */
  function AlternatingSeries(a1: int, d1: int, a2: int, d2: int): (s: Series)
    ensures |s.series| == 4 && s.series[0] == a1 && s.series[1] == a2
    ensures ConstantStep([s.series[0], s.series[2], s.correct], d1)
    ensures ConstantStep([s.series[1], s.series[3]], d2)
  {
    Series([a1, a2, a1 + d1, a2 + d2], a1 + 2 * d1)
  }

  /** The series each generator can produce from draws in its ranges. */
  ghost predicate FromArithmetic(s: Series) {
    exists a, d | 1 <= a <= 20 && 2 <= d <= 9 :: s == ArithmeticSeries(a, d)
  }

  ghost predicate FromGeometric(s: Series) {
    exists a, q | 1 <= a <= 4 && 2 <= q <= 3 :: s == GeometricSeries(a, q)
  }

  ghost predicate FromFibonacci(s: Series) {
    exists a, b | 1 <= a <= 10 && a + 1 <= b <= a + 5 :: s == FibonacciSeries(a, b)
  }

  ghost predicate FromAlternating(s: Series) {
    exists a1, d1, a2, d2 | 10 <= a1 <= 20 && 1 <= d1 <= 3 && 30 <= a2 <= 40 && 4 <= d2 <= 6
      :: s == AlternatingSeries(a1, d1, a2, d2)
  }

  lemma ArithmeticInRange(a: int, d: int)
    requires 1 <= a <= 20 && 2 <= d <= 9
    ensures var s := ArithmeticSeries(a, d);
      9 <= s.correct <= 56 && s.correct <= CEILING && forall i | 0 <= i < 4 :: s.series[i] > 0
  {
  }

  /** The geometric answer `a * q^4` exceeds the ceiling exactly for
      `q = 3` and `a >= 3` (243 and 324), so the fall-back is live. */
  lemma GeometricFallsBackIff(a: int, q: int)
    requires 1 <= a <= 4 && 2 <= q <= 3
    ensures GeometricSeries(a, q).correct > CEILING <==> q == 3 && a >= 3
    ensures GeometricSeries(a, q).correct >= 16
  {
    if q == 2 {
      assert GeometricSeries(a, q).correct == 16 * a;
    } else {
      assert GeometricSeries(a, q).correct == 81 * a;
    }
  }

  /** The fibonacci answer `2a + 3b` is at most 65: its fall-back never fires. */
  lemma FibonacciNeverFallsBack(a: int, b: int)
    requires 1 <= a <= 10 && a + 1 <= b <= a + 5
    ensures 8 <= FibonacciSeries(a, b).correct <= 65
  {
  }

  /** The alternating answer `a1 + 2 d1` is at most 26: its fall-back never fires. */
  lemma AlternatingNeverFallsBack(a1: int, d1: int, a2: int, d2: int)
    requires 10 <= a1 <= 20 && 1 <= d1 <= 3
    ensures 12 <= AlternatingSeries(a1, d1, a2, d2).correct <= 26
  {
  }

  // ---------------------------------------------------------------------
  // Options

  /** `Math.max(1, Math.round(correct * 0.1))`: a tenth of `correct` rounded
      to the nearest integer, halves upward, and at least 1. */
  function DeltaMagnitude(correct: int): (m: int)
    ensures m >= 1
    ensures m > 1 ==> 10 * m - 5 <= correct < 10 * m + 5
    ensures correct >= 5 ==> 10 * m - 5 <= correct < 10 * m + 5
  {
    var rounded := (correct + 5) / 10;
    if rounded < 1 then 1 else rounded
  }

  /** What the retry loop accepts as a wrong option. */
  predicate Decoy(series: seq<int>, correct: int, w: int) {
    w > 0 && w !in series && w != correct
  }

  function Max(x: int, y: int): int {
    if x < y then y else x
  }

  /** The retry loop: at most 20 draws of `correct + delta`, `delta` nonzero
      and within the delta magnitude (or 1..3 when that draw was 0). */
  method RetryDecoys(series: seq<int>, correct: int) returns (opts: seq<int>)
    ensures 1 <= |opts| <= OPTIONS && opts[0] == correct && Distinct(opts)
    ensures forall i | 1 <= i < |opts| :: Decoy(series, correct, opts[i])
    ensures forall i | 1 <= i < |opts| :: -Max(DeltaMagnitude(correct), 3) <= opts[i] - correct <= Max(DeltaMagnitude(correct), 3)
  {
    opts := [correct];
    var attempts := 0;
    while |opts| < OPTIONS && attempts < MAX_ATTEMPTS
      invariant 1 <= |opts| <= OPTIONS && opts[0] == correct && Distinct(opts)
      invariant forall i | 1 <= i < |opts| :: Decoy(series, correct, opts[i])
      invariant forall i | 1 <= i < |opts| :: -Max(DeltaMagnitude(correct), 3) <= opts[i] - correct <= Max(DeltaMagnitude(correct), 3)
      invariant 0 <= attempts <= MAX_ATTEMPTS
      decreases MAX_ATTEMPTS - attempts
    {
      var m := DeltaMagnitude(correct);
      var delta := Rand(-m, m);
      if delta == 0 {
        delta := Rand(1, 3);
      }
      var wrong := correct + delta;
      if wrong > 0 && wrong !in series && wrong != correct {
        opts := Insert(opts, wrong);
      }
      attempts := attempts + 1;
    }
  }

  function MaxOf(s: seq<int>): (m: int)
    ensures forall x | x in s :: x <= m
  {
    if s == [] then 0
    else
      assert forall x | x in s :: x == s[0] || x in s[1..];
      Max(s[0], MaxOf(s[1..]))
  }

  /** The filler loop: tops the options up to four with `correct ± k`, or a
      fall-back counted upward from `correct + 5 + size` past the options
      already there and past 0. What is kept is unchanged; what is added is positive. */
  method FillOptions(correct: int, opts: seq<int>) returns (full: seq<int>)
    requires Distinct(opts) && |opts| <= OPTIONS
    ensures |full| == OPTIONS && Distinct(full) && full[..|opts|] == opts
    ensures forall i | |opts| <= i < |full| :: full[i] > 0
  {
    full := opts;
    while |full| < OPTIONS
      invariant |opts| <= |full| <= OPTIONS && Distinct(full) && full[..|opts|] == opts
      invariant forall i | |opts| <= i < |full| :: full[i] > 0
      decreases OPTIONS - |full|
    {
      var coin := Rand(0, 1);
      var filler := correct + (|full| - (if correct in full then 1 else 0)) * (if coin == 0 then 1 else -1);
      if filler > 0 && filler !in full {
        full := Insert(full, filler);
      } else {
        var fallback := correct + 5 + |full|;
        var top := Max(MaxOf(full), 0);
        while fallback in full || fallback <= 0
          decreases top + 1 - fallback
        {
          fallback := fallback + 1;
        }
        full := Insert(full, fallback);
      }
    }
  }

  /** Four distinct options including the answer, every other one positive. */
  predicate ValidOptions(correct: int, options: seq<int>) {
    && |options| == OPTIONS
    && Distinct(options)
    && correct in options
    && forall o | o in options :: o == correct || o > 0
  }

  /** The retry loop, the filler loop and a shuffle of the options. */
  method BuildRound(series: seq<int>, correct: int) returns (rd: Round)
    ensures rd.series == series && rd.correct == correct
    ensures ValidOptions(correct, rd.options)
  {
    var decoys := RetryDecoys(series, correct);
    var opts := FillOptions(correct, decoys);
    var options := Shuffle(opts);
    DistinctSubMultiset(opts, options);
    assert opts[0] == correct;
    assert correct in multiset(options);
    forall o | o in options ensures o == correct || o > 0 {
      assert o in multiset(opts);
      var i :| 0 <= i < |opts| && opts[i] == o;
      if 1 <= i < |decoys| {
        assert opts[i] == decoys[i];
      }
    }
    rd := Round(series, correct, options);
  }

  /** A round the source can deal: from one of the generators, its answer
      positive and within the ceiling, with valid options. */
  ghost predicate WellFormedRound(rd: Round) {
    var s := Series(rd.series, rd.correct);
    && (FromArithmetic(s) || FromGeometric(s) || FromFibonacci(s) || FromAlternating(s))
    && 0 < rd.correct <= CEILING
    && ValidOptions(rd.correct, rd.options)
    && forall o | o in rd.options :: o > 0
  }

  method MakeArithmeticSequence() returns (rd: Round)
    ensures FromArithmetic(Series(rd.series, rd.correct))
    ensures WellFormedRound(rd)
  {
    var a := Rand(1, 20);
    var d := Rand(2, 9);
    var s := ArithmeticSeries(a, d);
    ArithmeticInRange(a, d);
    rd := BuildRound(s.series, s.correct);
    assert Series(rd.series, rd.correct) == ArithmeticSeries(a, d);
  }

  method MakeGeometricSequence() returns (rd: Round)
    ensures FromGeometric(Series(rd.series, rd.correct)) || FromArithmetic(Series(rd.series, rd.correct))
    ensures WellFormedRound(rd)
  {
    var a := Rand(1, 4);
    var q := Rand(2, 3);
    var s := GeometricSeries(a, q);
    if s.correct > CEILING {
      rd := MakeArithmeticSequence();
      return;
    }
    GeometricFallsBackIff(a, q);
    rd := BuildRound(s.series, s.correct);
    assert Series(rd.series, rd.correct) == GeometricSeries(a, q);
  }

  method MakeFibonacciSequence() returns (rd: Round)
    ensures FromFibonacci(Series(rd.series, rd.correct)) || FromArithmetic(Series(rd.series, rd.correct))
    ensures WellFormedRound(rd)
  {
    var a := Rand(1, 10);
    var b := Rand(a + 1, a + 5);
    var s := FibonacciSeries(a, b);
    if s.correct > CEILING {
      rd := MakeArithmeticSequence();
      return;
    }
    FibonacciNeverFallsBack(a, b);
    rd := BuildRound(s.series, s.correct);
    assert Series(rd.series, rd.correct) == FibonacciSeries(a, b);
  }

  method MakeAlternatingSequence() returns (rd: Round)
    ensures FromAlternating(Series(rd.series, rd.correct)) || FromArithmetic(Series(rd.series, rd.correct))
    ensures WellFormedRound(rd)
  {
    var a1 := Rand(10, 20);
    var d1 := Rand(1, 3);
    var a2 := Rand(30, 40);
    var d2 := Rand(4, 6);
    var s := AlternatingSeries(a1, d1, a2, d2);
    if s.correct > CEILING {
      rd := MakeArithmeticSequence();
      return;
    }
    AlternatingNeverFallsBack(a1, d1, a2, d2);
    rd := BuildRound(s.series, s.correct);
    assert Series(rd.series, rd.correct) == AlternatingSeries(a1, d1, a2, d2);
  }

  /** Draws one of the four kinds (index 0..3) and builds its round. */
  method MakeRound() returns (rd: Round)
    ensures WellFormedRound(rd)
  {
    var kinds := [Arithmetic, Geometric, Fibonacci, Alternating];
    var k := Rand(0, |kinds| - 1);
    match kinds[k]
    case Geometric => rd := MakeGeometricSequence();
    case Fibonacci => rd := MakeFibonacciSequence();
    case Alternating => rd := MakeAlternatingSequence();
    case Arithmetic => rd := MakeArithmeticSequence();
  }

  // ---------------------------------------------------------------------
  // The session

  class Game {
    var round: int
    var score: int
    var picked: Option<int>
    var r: Option<Round>
    var gameState: GameState
    var previousGameState: GameState
    /** Requests sent to the ranking, results and router collaborators. */
    var effects: seq<Effect>

    /** The round index stays below ten, one point at most per answered
        round, and each state carries the round data it displays. */
    ghost predicate Valid()
      reads this
    {
      && 0 <= round < ROUNDS
      && 0 <= score <= round + (if picked.Some? then 1 else 0)
      && (r.Some? ==> WellFormedRound(r.value))
      && (gameState == Playing ==> r.Some? && picked.None?)
      && (gameState == ShowingResult ==> r.Some? && picked.Some?)
      && (gameState == AskReplay ==> round == ROUNDS - 1 && picked.Some?)
      && (gameState == ConfirmReset ==>
            && (previousGameState == Playing || previousGameState == ShowingResult)
            && (previousGameState == Playing ==> r.Some? && picked.None?)
            && (previousGameState == ShowingResult ==> r.Some? && picked.Some?))
      && (gameState == Loading ==> round == 0 && score == 0 && r.None? && picked.None?)
      && gameState != Finished
    }

    /** The initial signals, then the first round. */
    constructor ()
      ensures Valid()
      ensures round == 0 && score == 0 && gameState == Playing && r.Some? && picked.None?
      ensures effects == []
    {
      round, score, picked, r := 0, 0, None, None;
      gameState, previousGameState := Loading, Loading;
      effects := [];
      new;
      StartNewRound();
    }

    /** Clears the pick and deals a fresh round. Making a round never fails,
        so the `finished` fall-back of the catch block is not reached. */
    method StartNewRound()
      requires 0 <= round < ROUNDS && 0 <= score <= round
      modifies this
      ensures picked.None? && r.Some? && WellFormedRound(r.value) && gameState == Playing
      ensures round == old(round) && score == old(score)
      ensures previousGameState == old(previousGameState) && effects == old(effects)
      ensures Valid()
    {
      picked := None;
      var rd := MakeRound();
      r := Some(rd);
      gameState := Playing;
    }

    /** Answers the current round with `n`. */
    method Pick(n: int)
      requires Valid()
      modifies this
      ensures Valid()
      ensures old(gameState) != Playing || old(r).None? ==> unchanged(this)
      ensures old(gameState) == Playing && old(r).Some? ==>
        && picked == Some(n)
        && score == old(score) + (if n == old(r).value.correct then 1 else 0)
        && gameState == ShowingResult
        && round == old(round) && r == old(r)
        && previousGameState == old(previousGameState) && effects == old(effects)
    {
      if gameState != Playing || r.None? {
        return;
      }
      picked := Some(n);
      if n == r.value.correct {
        score := score + 1;
      }
      gameState := ShowingResult;
    }

    /** Leaves the result screen: the tenth round reports the score once and
        asks to replay (whether or not saving succeeds); earlier rounds
        advance to the next one. */
    method Next()
      requires Valid()
      modifies this
      ensures Valid()
      ensures old(gameState) != ShowingResult ==> unchanged(this)
      ensures old(gameState) == ShowingResult && old(round) >= ROUNDS - 1 ==>
        && gameState == AskReplay
        && effects == old(effects) + [AddPoints(old(score)), Save("secuencias", old(score), RoundsPlayed(ROUNDS))]
        && round == old(round) && score == old(score) && picked == old(picked) && r == old(r)
        && previousGameState == old(previousGameState)
      ensures old(gameState) == ShowingResult && old(round) < ROUNDS - 1 ==>
        && round == old(round) + 1 && score == old(score)
        && gameState == Playing && picked.None? && r.Some?
        && previousGameState == old(previousGameState) && effects == old(effects)
    {
      if gameState != ShowingResult {
        return;
      }
      if round >= ROUNDS - 1 {
        gameState := Finished;
        effects := effects + [AddPoints(score), Save("secuencias", score, RoundsPlayed(ROUNDS))];
        gameState := AskReplay;
      } else {
        round := round + 1;
        StartNewRound();
      }
    }

    /** Asks for confirmation, remembering where to come back to. */
    method Reset()
      requires Valid()
      modifies this
      ensures Valid()
      ensures old(gameState) != Playing && old(gameState) != ShowingResult ==> unchanged(this)
      ensures old(gameState) == Playing || old(gameState) == ShowingResult ==>
        && gameState == ConfirmReset && previousGameState == old(gameState)
        && round == old(round) && score == old(score) && picked == old(picked) && r == old(r)
        && effects == old(effects)
    {
      var currentState := gameState;
      if currentState == Playing || currentState == ShowingResult {
        previousGameState := currentState;
        gameState := ConfirmReset;
      }
    }

    /** Confirming starts over (the delayed restart is taken as immediate);
        cancelling returns to the remembered state. */
    method HandleResetChoice(confirm: bool)
      requires Valid()
      modifies this
      ensures Valid()
      ensures old(gameState) != ConfirmReset ==> unchanged(this)
      ensures old(gameState) == ConfirmReset && confirm ==>
        && round == 0 && score == 0 && gameState == Playing && picked.None? && r.Some?
        && previousGameState == old(previousGameState) && effects == old(effects)
      ensures old(gameState) == ConfirmReset && !confirm ==>
        && gameState == old(previousGameState)
        && round == old(round) && score == old(score) && picked == old(picked) && r == old(r)
        && previousGameState == old(previousGameState) && effects == old(effects)
    {
      if gameState != ConfirmReset {
        return;
      }
      if confirm {
        ResetState();
        StartNewRound();
      } else {
        gameState := previousGameState;
      }
    }

    /** Back to the initial signals (also what leaving the page does). */
    method ResetState()
      requires Valid()
      modifies this
      ensures Valid()
      ensures round == 0 && score == 0 && picked.None? && r.None? && gameState == Loading
      ensures previousGameState == old(previousGameState) && effects == old(effects)
    {
      round := 0;
      score := 0;
      picked := None;
      r := None;
      gameState := Loading;
    }

    /** After the session: play again from round 0, or go home. */
    method HandleReplayChoice(playAgain: bool)
      requires Valid()
      modifies this
      ensures Valid()
      ensures old(gameState) != AskReplay ==> unchanged(this)
      ensures old(gameState) == AskReplay && playAgain ==>
        && round == 0 && score == 0 && gameState == Playing && picked.None? && r.Some?
        && previousGameState == old(previousGameState) && effects == old(effects)
      ensures old(gameState) == AskReplay && !playAgain ==>
        && effects == old(effects) + [Navigate("/home")]
        && gameState == old(gameState) && round == old(round) && score == old(score)
        && picked == old(picked) && r == old(r) && previousGameState == old(previousGameState)
    {
      if gameState != AskReplay {
        return;
      }
      if playAgain {
        ResetState();
        StartNewRound();
      } else {
        effects := effects + [Navigate("/home")];
      }
    }
  }

  /** A whole session: ten correct answers give ten points and one report. */
  method PerfectSession() returns (g: Game)
    ensures g.gameState == AskReplay && g.score == ROUNDS
    ensures g.effects == [AddPoints(ROUNDS), Save("secuencias", ROUNDS, RoundsPlayed(ROUNDS))]
  {
    g := new Game();
    var i := 0;
    while i < ROUNDS
      invariant 0 <= i <= ROUNDS && g.Valid()
      invariant i < ROUNDS ==> g.gameState == Playing && g.round == i && g.r.Some? && g.effects == []
      invariant i == ROUNDS ==> g.gameState == AskReplay && g.effects == [AddPoints(ROUNDS), Save("secuencias", ROUNDS, RoundsPlayed(ROUNDS))]
      invariant g.score == i
      modifies g
    {
      g.Pick(g.r.value.correct);
      g.Next();
      i := i + 1;
    }
  }
}

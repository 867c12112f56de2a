/** The flag trivia game: ten questions, one point per right answer, the
    total saved and added to the ranking at the end. */
module Preguntados {
  import opened Wrappers
  import opened Backend
  import opened PreguntadosService

  const ROUNDS: int := 10
  const LOAD_ERROR := "No se pudo cargar la pregunta. ¡Intenta de nuevo!"

  /** A JavaScript string is truthy unless it is empty. */
  predicate HasPick(picked: Option<string>) {
    picked.Some? && picked.value != ""
  }

  class Game {
    var loading: bool
    var round: int
    var score: int
    var q: Option<Question>
    var picked: Option<string>
    var finished: bool
    var error: Option<string>
    /** Requests sent to the ranking and results collaborators. */
    var effects: seq<Effect>

    /** Between events nothing is loading, the round stays within the ten
        questions, and the game is over only on the last one. */
    ghost predicate Valid()
      reads this
    {
      && !loading
      && 0 <= round <= ROUNDS - 1
      && 0 <= score
      && (finished ==> round == ROUNDS - 1)
    }

    /** The initial signals, then the first question, answered by `load`. */
    constructor (load: Result<Question, string>)
      ensures Valid()
      ensures round == 0 && score == 0 && picked == None && !finished && effects == []
      ensures load.Success? ==> q == Some(load.value) && error == None
      ensures load.Failure? ==> q == None && error == Some(LOAD_ERROR)
    {
      loading, round, score := true, 0, 0;
      q, picked, finished, error := None, None, false, None;
      effects := [];
      new;
      NextQuestion(true, load);
    }

    /** Moves on. A later call on the last question ends the game and hands
        the score to the ranking and the results, changing nothing else.
        Otherwise a later call advances the round (a first call does not),
        the pick and the error are cleared, and the question request `load`
        either replaces the question or, failing, sets the error and keeps
        the previous question. A later call comes from a settled page, so
        nothing is loading then. */
    method NextQuestion(first: bool, load: Result<Question, string>)
      requires 0 <= round <= ROUNDS - 1 && 0 <= score && (finished ==> round == ROUNDS - 1)
      requires !first ==> !loading
      modifies this
      ensures Valid()
      ensures !first && old(round) >= ROUNDS - 1 ==>
        && finished
        && effects == old(effects) + [AddPoints(score), Save("preguntados", score, RoundsPlayed(ROUNDS))]
        && round == old(round) && score == old(score) && q == old(q)
        && picked == old(picked) && error == old(error)
      ensures first || old(round) < ROUNDS - 1 ==>
        && round == (if first then old(round) else old(round) + 1)
        && score == old(score) && finished == old(finished) && effects == old(effects)
        && picked == None
        && (load.Success? ==> q == Some(load.value) && error == None)
        && (load.Failure? ==> q == old(q) && error == Some(LOAD_ERROR))
    {
      if !first && round >= ROUNDS - 1 {
        finished := true;
        effects := effects + [AddPoints(score), Save("preguntados", score, RoundsPlayed(ROUNDS))];
        return;
      }
      if !first {
        round := round + 1;
      }
      loading := true;
      picked := None;
      error := None;
      match load {
        case Success(question) => q := Some(question);
        case Failure(_) => error := Some(LOAD_ERROR);
      }
      loading := false;
    }

    /** Chooses `opt`. Nothing happens once a (non-empty) option is picked
        or when no question is shown; otherwise the pick is recorded and
        scores one point exactly when it is the right name. */
    method Pick(opt: string)
      requires Valid()
      modifies this
      ensures Valid()
      ensures HasPick(old(picked)) || old(q).None? ==> unchanged(this)
      ensures !HasPick(old(picked)) && old(q).Some? ==>
        && picked == Some(opt)
        && score == old(score) + (if opt == old(q).value.correct then 1 else 0)
        && round == old(round) && q == old(q) && finished == old(finished)
        && error == old(error) && effects == old(effects)
    {
      if HasPick(picked) || q.None? {
        return;
      }
      picked := Some(opt);
      if opt == q.value.correct {
        score := score + 1;
      }
    }

    /** A new game: round and score back to 0, nothing shown, picked,
        finished or failed, then a first question from `load`. */
    method Reset(load: Result<Question, string>)
      requires Valid()
      modifies this
      ensures Valid()
      ensures round == 0 && score == 0 && picked == None && !finished && effects == old(effects)
      ensures load.Success? ==> q == Some(load.value) && error == None
      ensures load.Failure? ==> q == None && error == Some(LOAD_ERROR)
    {
      loading := true;
      round := 0;
      score := 0;
      q := None;
      picked := None;
      finished := false;
      error := None;
      NextQuestion(true, load);
    }

    /** Tries again after a failure: as a first question while on round 0,
        as the next one otherwise. */
    method Retry(load: Result<Question, string>)
      requires Valid()
      modifies this
      ensures Valid()
      ensures old(round) == 0 ==>
        round == 0 && score == old(score) && picked == None && finished == old(finished)
        && effects == old(effects)
      ensures old(round) != 0 && old(round) < ROUNDS - 1 ==>
        round == old(round) + 1 && score == old(score) && picked == None
        && finished == old(finished) && effects == old(effects)
      ensures old(round) < ROUNDS - 1 ==>
        && (load.Success? ==> q == Some(load.value) && error == None)
        && (load.Failure? ==> q == old(q) && error == Some(LOAD_ERROR))
      ensures old(round) >= ROUNDS - 1 ==>
        finished && round == old(round) && score == old(score)
        && q == old(q) && picked == old(picked) && error == old(error)
        && effects == old(effects) + [AddPoints(score), Save("preguntados", score, RoundsPlayed(ROUNDS))]
    {
      NextQuestion(round == 0, load);
    }
  }

  /** A full game answered right: ten questions each picked correctly, and
      the eleventh move ends the game with a perfect score handed on. */
  method PerfectGame(qs: seq<Question>) returns (g: Game)
    requires |qs| == ROUNDS
    ensures g.finished && g.round == ROUNDS - 1 && g.score == ROUNDS
    ensures g.effects == [AddPoints(ROUNDS), Save("preguntados", ROUNDS, RoundsPlayed(ROUNDS))]
  {
    g := new Game(Success(qs[0]));
    var i := 0;
    while i < ROUNDS
      invariant 0 <= i <= ROUNDS
      invariant g.Valid() && !g.finished && g.effects == []
      invariant g.score == i
      invariant i < ROUNDS ==> g.round == i && g.picked == None && g.q.Some?
      invariant i == ROUNDS ==> g.round == ROUNDS - 1
    {
      g.Pick(g.q.value.correct);
      if i < ROUNDS - 1 {
        g.NextQuestion(false, Success(qs[i + 1]));
      }
      i := i + 1;
    }
    g.NextQuestion(false, Success(qs[0]));
  }
}

/** Hangman with a win streak: letters are guessed one at a time, six wrong
    letters lose the word, guessing every letter wins it, and five won words
    in a row end the streak at its maximum. */
module Ahorcado {
  import opened JsString
  import opened Backend
  import opened Random

  const PALABRAS: seq<string> := [
    "ANGULAR", "FIREBASE", "COMPONENTE", "SERVICIO", "ESCALABILIDAD",
    "TEMPLATES", "ENRUTADOR", "OPTIMIZACION", "PORTAFOLIO", "SUSCRIPCION",
    "TYPESCRIPT", "JAVASCRIPT", "HTML", "CSS", "FRAMEWORK"
  ]
  const MAX_ERRORES: int := 6
  const MAX_STREAK: int := 5

  datatype GameState = Playing | Won | Lost | AskNewGame | MaxStreak

  /** Every word is non-empty and free of the blank `_` the mask uses. */
  lemma PalabrasWellFormed()
    ensures forall w | w in PALABRAS :: w != "" && '_' !in w
  {
  }

  /** `randomWord`: some word of the list. */
  method RandomWord() returns (w: string)
    ensures w in PALABRAS
  {
    var i := Rand(0, |PALABRAS| - 1);
    w := PALABRAS[i];
  }

  /** The word is non-empty and each of its characters has been chosen. */
  predicate Completa(palabra: string, elegidas: set<char>) {
    palabra != "" && forall i | 0 <= i < |palabra| :: palabra[i] in elegidas
  }

  /** The loop with early return that decides `Completa`. */
  method IsComplete(palabra: string, elegidas: set<char>) returns (b: bool)
    ensures b == Completa(palabra, elegidas)
  {
    if palabra == "" {
      return false;
    }
    for i := 0 to |palabra|
      invariant forall k | 0 <= k < i :: palabra[k] in elegidas
    {
      if palabra[i] !in elegidas {
        return false;
      }
    }
    return true;
  }

  /** One position of the mask: the character once chosen, else a blank. */
  function Cell(c: char, elegidas: set<char>): string {
    if c in elegidas then [c] else "_"
  }

  /** The word split into characters and each mapped to its cell. */
  function Cells(palabra: string, elegidas: set<char>): (cells: seq<string>)
    ensures |cells| == |palabra|
    ensures forall i | 0 <= i < |palabra| :: cells[i] == Cell(palabra[i], elegidas)
  {
    seq(|palabra|, i requires 0 <= i < |palabra| => Cell(palabra[i], elegidas))
  }

  /** The mask shown to the player: a cell per character, separated by
      single spaces; the empty word gives the empty mask. */
  function Mascara(palabra: string, elegidas: set<char>): (m: string)
    ensures palabra == "" ==> m == ""
    ensures palabra != "" ==> |m| == 2 * |palabra| - 1
    ensures forall i | 0 <= i < |palabra| ::
      m[2 * i] == if palabra[i] in elegidas then palabra[i] else '_'
    ensures forall i | 0 <= i < |palabra| - 1 :: m[2 * i + 1] == ' '
  {
    if palabra == "" then ""
    else
      var cells := Cells(palabra, elegidas);
      JoinCells(cells, " ");
      Join(cells, " ")
  }

  /** For a word without blanks, the mask has no blank exactly when the word is complete. */
  lemma MascaraBlankIffIncomplete(palabra: string, elegidas: set<char>)
    requires palabra != "" && '_' !in palabra
    ensures '_' !in Mascara(palabra, elegidas) <==> Completa(palabra, elegidas)
  {
    var m := Mascara(palabra, elegidas);
    if '_' !in m {
      forall i | 0 <= i < |palabra| ensures palabra[i] in elegidas {
        assert m[2 * i] != '_';
      }
    }
    if Completa(palabra, elegidas) {
      forall k | 0 <= k < |m| ensures m[k] != '_' {
        var i := k / 2;
        if k % 2 == 0 {
          assert m[2 * i] == palabra[i] && palabra[i] in palabra;
        } else {
          assert m[2 * i + 1] == ' ';
        }
      }
    }
  }

  /** The distinct letters guessed that are not in the word. */
  function Wrong(palabra: string, elegidas: set<char>): set<char> {
    set c | c in elegidas && c !in palabra
  }

  class Game {
    var palabra: string
    var elegidas: set<char>
    var errores: int
    var streakScore: int
    var gameState: GameState
    /** Requests sent to the results, ranking and router collaborators. */
    var effects: seq<Effect>

    /** `errores` counts the wrong letters guessed; a word in play is
        neither lost nor complete; each outcome carries its streak. */
    ghost predicate Valid()
      reads this
    {
      && palabra in PALABRAS
      && errores == |Wrong(palabra, elegidas)|
      && 0 <= errores <= MAX_ERRORES
      && 0 <= streakScore <= MAX_STREAK
      && (gameState == Playing ==>
            errores < MAX_ERRORES && !Completa(palabra, elegidas) && streakScore < MAX_STREAK)
      && (gameState == Lost ==> errores == MAX_ERRORES && streakScore == 0)
      && (gameState == Won ==> Completa(palabra, elegidas) && 1 <= streakScore < MAX_STREAK)
      && (gameState == MaxStreak ==> Completa(palabra, elegidas) && streakScore == MAX_STREAK)
      && (gameState == AskNewGame ==> 1 <= streakScore < MAX_STREAK)
    }

    /** The initial signals, then a first word `w` (the random pick). */
    constructor (w: string)
      requires w in PALABRAS
      ensures Valid()
      ensures palabra == w && elegidas == {} && errores == 0
      ensures streakScore == 0 && gameState == Playing && effects == []
    {
      palabra, elegidas, errores := "", {}, 0;
      streakScore, gameState := 0, Playing;
      effects := [];
      new;
      NuevaPartida(w);
    }

    /** A new word `w` with no letters chosen and no errors; the streak is kept. */
    method NuevaPartida(w: string)
      requires w in PALABRAS
      modifies this
      ensures palabra == w && elegidas == {} && errores == 0 && gameState == Playing
      ensures streakScore == old(streakScore) && effects == old(effects)
      ensures 0 <= streakScore < MAX_STREAK ==> Valid()
    {
      palabra := w;
      elegidas := {};
      errores := 0;
      gameState := Playing;
      PalabrasWellFormed();
      assert Wrong(palabra, elegidas) == {};
      assert palabra[0] !in elegidas;
    }

    /** Guesses `letra`. Outside play, or for a letter already chosen,
        nothing changes. A wrong letter costs one error and the sixth loses
        the word; a right letter that completes the word wins it. */
    method Elegir(letra: char)
      requires Valid()
      modifies this
      ensures Valid()
      ensures old(gameState) != Playing || letra in old(elegidas) ==> unchanged(this)
      ensures old(gameState) == Playing && letra !in old(elegidas) ==>
        && palabra == old(palabra) && elegidas == old(elegidas) + {letra}
        && (letra !in palabra ==>
              && errores == old(errores) + 1
              && (errores >= MAX_ERRORES ==>
                    && gameState == Lost && streakScore == 0
                    && effects == old(effects) + [Save("ahorcado", 0, WordResult(palabra, errores)), AddPoints(0)])
              && (errores < MAX_ERRORES ==>
                    gameState == Playing && streakScore == old(streakScore) && effects == old(effects)))
        && (letra in palabra ==>
              && errores == old(errores)
              && (Completa(palabra, elegidas) ==>
                    && streakScore == old(streakScore) + 1
                    && (streakScore >= MAX_STREAK ==>
                          gameState == MaxStreak
                          && effects == old(effects) + [Save("ahorcado", 1, WordResult(palabra, errores)), AddPoints(streakScore)])
                    && (streakScore < MAX_STREAK ==>
                          gameState == Won
                          && effects == old(effects) + [Save("ahorcado", 1, WordResult(palabra, errores))]))
              && (!Completa(palabra, elegidas) ==>
                    gameState == Playing && streakScore == old(streakScore) && effects == old(effects)))
    {
      if gameState != Playing || letra in elegidas {
        return;
      }
      assert Wrong(palabra, elegidas + {letra}) ==
        if letra in palabra then Wrong(palabra, elegidas) else Wrong(palabra, elegidas) + {letra};
      elegidas := elegidas + {letra};
      if letra !in palabra {
        errores := errores + 1;
        if errores >= MAX_ERRORES {
          HandleLoss();
        }
      } else {
        var done := IsComplete(palabra, elegidas);
        if done {
          HandleWin();
        }
      }
    }

    /** The sixth error: the loss is saved with 0 points, 0 points are added
        to the ranking, the streak is reset and the word is lost. */
    method HandleLoss()
      requires palabra in PALABRAS && errores == |Wrong(palabra, elegidas)| && errores == MAX_ERRORES
      modifies this
      ensures Valid()
      ensures streakScore == 0 && gameState == Lost
      ensures effects == old(effects) + [Save("ahorcado", 0, WordResult(palabra, errores)), AddPoints(0)]
      ensures palabra == old(palabra) && elegidas == old(elegidas) && errores == old(errores)
    {
      effects := effects + [Save("ahorcado", 0, WordResult(palabra, errores))];
      effects := effects + [AddPoints(0)];
      streakScore := 0;
      gameState := Lost;
    }

    /** A completed word: the win is saved with 1 point and the streak grows;
        at five the whole streak goes to the ranking and the streak is at its maximum. */
    method HandleWin()
      requires palabra in PALABRAS && errores == |Wrong(palabra, elegidas)| && 0 <= errores < MAX_ERRORES
      requires Completa(palabra, elegidas) && 0 <= streakScore < MAX_STREAK
      modifies this
      ensures Valid()
      ensures streakScore == old(streakScore) + 1
      ensures streakScore >= MAX_STREAK ==>
        gameState == MaxStreak
        && effects == old(effects) + [Save("ahorcado", 1, WordResult(palabra, errores)), AddPoints(streakScore)]
      ensures streakScore < MAX_STREAK ==>
        gameState == Won && effects == old(effects) + [Save("ahorcado", 1, WordResult(palabra, errores))]
      ensures palabra == old(palabra) && elegidas == old(elegidas) && errores == old(errores)
    {
      effects := effects + [Save("ahorcado", 1, WordResult(palabra, errores))];
      streakScore := streakScore + 1;
      if streakScore >= MAX_STREAK {
        effects := effects + [AddPoints(streakScore)];
        gameState := MaxStreak;
      } else {
        gameState := Won;
      }
    }

    /** After a won word: the next word `w`, keeping the streak. */
    method ContinueStreak(w: string)
      requires Valid() && w in PALABRAS
      modifies this
      ensures Valid()
      ensures old(gameState) != Won ==> unchanged(this)
      ensures old(gameState) == Won ==>
        && palabra == w && elegidas == {} && errores == 0 && gameState == Playing
        && streakScore == old(streakScore) && effects == old(effects)
    {
      if gameState == Won {
        NuevaPartida(w);
      }
    }

    /** After a won word: bank the streak in the ranking and ask about a new game. */
    method EndStreakAndAskNewGame()
      requires Valid()
      modifies this
      ensures Valid()
      ensures old(gameState) != Won ==> unchanged(this)
      ensures old(gameState) == Won ==>
        && gameState == AskNewGame && effects == old(effects) + [AddPoints(streakScore)]
        && streakScore == old(streakScore)
        && palabra == old(palabra) && elegidas == old(elegidas) && errores == old(errores)
    {
      if gameState == Won {
        effects := effects + [AddPoints(streakScore)];
        gameState := AskNewGame;
      }
    }

    /** From a lost word, the new-game question or a word in play: a new
        word `w` with the streak back at 0. */
    method StartNewGame(w: string)
      requires Valid() && w in PALABRAS
      modifies this
      ensures Valid()
      ensures old(gameState) != Lost && old(gameState) != AskNewGame && old(gameState) != Playing ==>
        unchanged(this)
      ensures old(gameState) == Lost || old(gameState) == AskNewGame || old(gameState) == Playing ==>
        && palabra == w && elegidas == {} && errores == 0 && gameState == Playing
        && streakScore == 0 && effects == old(effects)
    {
      if gameState == Lost || gameState == AskNewGame || gameState == Playing {
        streakScore := 0;
        NuevaPartida(w);
      }
    }

    /** Leaves for the home page with the streak reset; the view is then discarded. */
    method GoToHome()
      requires Valid()
      modifies this
      ensures streakScore == 0 && effects == old(effects) + [Navigate("/home")]
      ensures palabra == old(palabra) && elegidas == old(elegidas)
      ensures errores == old(errores) && gameState == old(gameState)
    {
      streakScore := 0;
      effects := effects + [Navigate("/home")];
    }
  }

  /** A new game on "HTML" after guessing H and T: still in play, no errors. */
  method HtmlAfterTwo() returns (g: Game)
    ensures fresh(g) && g.Valid() && g.palabra == "HTML" && g.elegidas == {'H', 'T'}
    ensures g.gameState == Playing && g.errores == 0 && g.streakScore == 0 && g.effects == []
  {
    g := new Game("HTML");
    g.Elegir('H');
    assert g.gameState == Playing by {
      assert !Completa(g.palabra, g.elegidas) by { assert g.palabra[1] !in g.elegidas; }
    }
    g.Elegir('T');
    assert !Completa(g.palabra, g.elegidas) by { assert g.palabra[2] !in g.elegidas; }
  }

  /** Guessing H, T, M keeps "HTML" in play and L wins it, exactly on the fourth guess. */
  method WinHtml() returns (g: Game)
    ensures g.gameState == Won && g.streakScore == 1 && g.errores == 0
    ensures g.effects == [Save("ahorcado", 1, WordResult("HTML", 0))]
  {
    g := HtmlAfterTwo();
    g.Elegir('M');
    assert g.gameState == Playing by {
      assert !Completa(g.palabra, g.elegidas) by { assert g.palabra[3] !in g.elegidas; }
    }
    g.Elegir('L');
    assert Completa(g.palabra, g.elegidas);
  }
}

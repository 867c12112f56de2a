# mi-portfolio: the games and forms, modelled in Dafny

mi-portfolio is an Angular portfolio site. Besides static pages it has four
browser mini-games and a few forms:

- **Secuencias** (`mi-juego.ts`): a number-sequence quiz. Each round shows four
  terms of a series and four candidate continuations; ten rounds make a
  session.
- **Ahorcado** (`ahorcado.ts`): hangman with a win streak of at most five words.
- **Mayor o menor** (`mayor-menor.ts`): higher/lower on cards drawn from a remote deck.
- **Preguntados** (`preguntados.service.ts`, `preguntados.ts`): ten flag questions.
- **Encuesta** (`encuesta.ts`): the survey form and its validators.
- **Respuestas** (`encuesta-respuestas.ts`): the survey answers listing.
- **Chat** (`chat.ts`): the chat box send guard.
- **Registro** (`registro.ts`): the sign-up form and its error table.

There is one Dafny module per source file. Five shared modules support them:

- `Wrappers`: `Option` and `Result`.
- `Random`: random draws and the Fisher–Yates shuffle.
- `Sets`: a JavaScript `Set` as a sequence without repeats, and what drawing
  from such a sequence keeps.
- `JsString`: JavaScript `trim`, `length` in UTF-16 code units, `join`, and
  decimal digits.
- `Backend`: the signed-in user, and how a remote call settles.

Every component whose methods change signals is a `class` whose fields are
those signals. Its methods change them and state the whole new state. Each
class has a `Valid()` invariant that every transition keeps. Remote answers
are method parameters:

- card draws, question loads, Firestore writes and account creation;
- `Outcome`, `DeckResponse`, `DrawResponse`, `SignUp` and `Result`.

A call to the ranking, results or router collaborators is appended to an
`effects` log. `Math.random` is `Random.Rand`, which yields some integer in
the range. Any successful case works, and no distribution is modelled.

Behaviours of the code worth knowing:

- The Preguntados page calls `getQuestion()` with no exclusions
  (`preguntados.ts:68`), so questions can repeat within a game. Exclusion is
  modelled in `PreguntadosService.GetQuestion`, and
  `PreguntadosService.AvailableWithoutExclusions` shows that the page's calls
  never fail.
- The card deck is shuffled by the remote service, not locally.
- In `mayor-menor.ts` the second `remaining === 0` test (lines 153-155) is
  unreachable, because line 122 already ended the game. So the last card
  drawn only ends the game and is never scored.
- Ahorcado saves a result for every word won or lost, not once per streak.
- Preguntados's `nextQuestion` saves the score again each time it is called on
  the last round, even when the game is already finished.
- A failed question load keeps the previous question shown. Round and pick
  still advance and clear.
- A higher/lower sequence 7, KING is "mayor"-right (a tie needs equal ranks).
  `MayorMenor.RightThenTie` plays 7, KING, KING.

## Model

| member | source | states |
|---|---|---|
| Random.Rand | src/app/features/mi-juego/mi-juego.ts:246-248 | a draw lies in `[lo, hi]` |
| Random.Shuffle | src/app/features/mi-juego/mi-juego.ts:250-257 | the result is a permutation (same length and multiset) of the input, which as a value is left unchanged; the Fisher–Yates loop of `preguntados.service.ts:75-82` is the same |
| Sets.Insert | src/app/features/mi-juego/mi-juego.ts:127-156 | `Set.add`: the result has no repeats, keeps the old elements in order, adds `x`, and grows by one exactly when `x` was new |
| Sets.DistinctSubMultiset | src/app/features/preguntados/preguntados.service.ts:66-73 | anything drawn without repetition from a sequence without repeats has no repeats |
| Sets.SubMultisetMembers | src/app/features/preguntados/preguntados.service.ts:50-54 | what is drawn from a sequence is in it |
| MiJuego.ArithmeticSeries | src/app/features/mi-juego/mi-juego.ts:91-97 | four terms from `a` with step `d`, and the answer continues the step |
| MiJuego.GeometricSeries | src/app/features/mi-juego/mi-juego.ts:98-105 | four terms from `a` with ratio `q`, and the answer continues the ratio |
| MiJuego.FibonacciSeries | src/app/features/mi-juego/mi-juego.ts:106-115 | seeds `a, b`; each later term, the answer included, is the sum of the two before |
| MiJuego.AlternatingSeries | src/app/features/mi-juego/mi-juego.ts:116-125 | two interleaved progressions; the answer continues the even-position one |
| MiJuego.ArithmeticInRange | src/app/features/mi-juego/mi-juego.ts:91-97 | with `a` in 1..20 and `d` in 2..9 the answer is in 9..56 and every term is positive |
| MiJuego.GeometricFallsBackIff | src/app/features/mi-juego/mi-juego.ts:98-105 | the geometric answer exceeds 200 exactly when `q = 3` and `a >= 3`, so that fall-back is live |
| MiJuego.FibonacciNeverFallsBack | src/app/features/mi-juego/mi-juego.ts:106-115 | the fibonacci answer is in 8..65, so its fall-back never fires |
| MiJuego.AlternatingNeverFallsBack | src/app/features/mi-juego/mi-juego.ts:116-125 | the alternating answer is in 12..26, so its fall-back never fires |
| MiJuego.DeltaMagnitude | src/app/features/mi-juego/mi-juego.ts:130 | `max(1, round(correct/10))`: at least 1, and otherwise within half of `correct/10` |
| MiJuego.RetryDecoys | src/app/features/mi-juego/mi-juego.ts:127-142 | after at most 20 draws: 1 to 4 distinct options, `correct` first; every decoy is positive, outside the series, different from `correct`, and within the delta range of it |
| MiJuego.FillOptions | src/app/features/mi-juego/mi-juego.ts:143-157 | the filler loop ends with exactly 4 distinct options; the ones kept are unchanged and the ones added are positive |
| MiJuego.BuildRound | src/app/features/mi-juego/mi-juego.ts:126-160 | the round keeps its series and answer, and has 4 distinct options that include the answer, every other one positive |
| MiJuego.MakeArithmeticSequence | src/app/features/mi-juego/mi-juego.ts:91-97 | the round comes from the arithmetic generator and is well formed |
| MiJuego.MakeGeometricSequence | src/app/features/mi-juego/mi-juego.ts:98-105 | a geometric round, or the arithmetic one when the answer exceeds 200; well formed either way |
| MiJuego.MakeFibonacciSequence | src/app/features/mi-juego/mi-juego.ts:106-115 | a fibonacci round, or the arithmetic fall-back; well formed |
| MiJuego.MakeAlternatingSequence | src/app/features/mi-juego/mi-juego.ts:116-125 | an alternating round, or the arithmetic fall-back; well formed |
| MiJuego.MakeRound | src/app/features/mi-juego/mi-juego.ts:69-88 | every round is well formed: it comes from a generator, its answer is in 1..200, and its options are valid |
| MiJuego.Game.constructor | src/app/features/mi-juego/mi-juego.ts:41-52 | starts at round 0 with score 0, playing a fresh round |
| MiJuego.Game.StartNewRound | src/app/features/mi-juego/mi-juego.ts:58-67 | clears the pick, deals a well-formed round and plays it; counters unchanged |
| MiJuego.Game.Pick | src/app/features/mi-juego/mi-juego.ts:162-170 | no-op unless playing with a round; else records the pick, adds 1 to the score exactly when it is the answer, and shows the result |
| MiJuego.Game.Next | src/app/features/mi-juego/mi-juego.ts:172-193 | no-op outside the result screen; on the tenth round the score is reported once and the state is askReplay; earlier rounds advance by one and play on, so the round never exceeds 9 |
| MiJuego.Game.Reset | src/app/features/mi-juego/mi-juego.ts:199-205 | from playing or the result screen, asks for confirmation and remembers the state; otherwise no-op |
| MiJuego.Game.HandleResetChoice | src/app/features/mi-juego/mi-juego.ts:210-221 | no-op outside confirmation; confirming restarts at round 0 with score 0; cancelling returns to the remembered state with nothing else changed |
| MiJuego.Game.ResetState | src/app/features/mi-juego/mi-juego.ts:223-229 | round and score 0, no pick, no round, state loading |
| MiJuego.Game.HandleReplayChoice | src/app/features/mi-juego/mi-juego.ts:231-244 | no-op outside askReplay; playing again restarts at round 0; declining navigates home |
| MiJuego.PerfectSession | src/app/features/mi-juego/mi-juego.ts:162-193 | ten right picks end in askReplay with 10 points, reported exactly once |
| Ahorcado.PalabrasWellFormed | src/app/features/juegos/ahorcado/ahorcado.ts:29-45 | every word is non-empty and has no `_` |
| Ahorcado.RandomWord | src/app/features/juegos/ahorcado/ahorcado.ts:199-202 | the word drawn is one of the list |
| Ahorcado.Completa | src/app/features/juegos/ahorcado/ahorcado.ts:188-196 | defines completion: the word is non-empty and each of its characters was chosen |
| Ahorcado.IsComplete | src/app/features/juegos/ahorcado/ahorcado.ts:188-196 | the early-return loop answers true exactly when the word is non-empty and each of its characters was chosen |
| Ahorcado.Cells | src/app/features/juegos/ahorcado/ahorcado.ts:91-99 | one cell per character: the character once chosen, otherwise `_` |
| Ahorcado.Mascara | src/app/features/juegos/ahorcado/ahorcado.ts:91-99 | empty for no word; otherwise position `2i` shows character `i` if chosen, else `_`, with single spaces between |
| Ahorcado.MascaraBlankIffIncomplete | src/app/features/juegos/ahorcado/ahorcado.ts:91-99 | for a listed word the mask has no blank exactly when the word is complete |
| Ahorcado.Game.constructor | src/app/features/juegos/ahorcado/ahorcado.ts:48-58 | a first word in play with nothing chosen, no errors and streak 0 |
| Ahorcado.Game.NuevaPartida | src/app/features/juegos/ahorcado/ahorcado.ts:61-67 | new word, empty chosen set, 0 errors, playing; streak kept |
| Ahorcado.Game.Elegir | src/app/features/juegos/ahorcado/ahorcado.ts:70-88 | no-op outside play or for a chosen letter; a new wrong letter adds exactly one error, and the sixth loses with streak 0; a right letter that completes the word adds one to the streak, which is maxStreak at 5 and won below; `errores` always counts the distinct wrong letters |
| Ahorcado.Game.HandleLoss | src/app/features/juegos/ahorcado/ahorcado.ts:108-114 | saves the loss with 0 points, adds 0 to the ranking, streak 0, lost |
| Ahorcado.Game.HandleWin | src/app/features/juegos/ahorcado/ahorcado.ts:116-141 | saves the win with 1 point and grows the streak; at 5 it sends the streak to the ranking and is maxStreak, below it is won |
| Ahorcado.Game.ContinueStreak | src/app/features/juegos/ahorcado/ahorcado.ts:144-148 | only from won: a new word with the streak kept; otherwise no-op |
| Ahorcado.Game.EndStreakAndAskNewGame | src/app/features/juegos/ahorcado/ahorcado.ts:151-157 | only from won: the streak goes to the ranking and the state is askNewGame; otherwise no-op |
| Ahorcado.Game.StartNewGame | src/app/features/juegos/ahorcado/ahorcado.ts:160-169 | only from lost, askNewGame or playing: a new word with streak 0; otherwise no-op |
| Ahorcado.Game.GoToHome | src/app/features/juegos/ahorcado/ahorcado.ts:172-183 | streak 0 and a navigation home; the word state is unchanged |
| Ahorcado.HtmlAfterTwo | src/app/features/juegos/ahorcado/ahorcado.ts:70-88 | a new game on "HTML" after H and T is still in play with no errors, streak 0 and nothing saved |
| Ahorcado.WinHtml | src/app/features/juegos/ahorcado/ahorcado.ts:70-88 | H, T, M, L on "HTML" wins on the last guess with no errors, streak 1 and one saved win |
| MayorMenor.Sub | src/app/features/juegos/mayor-menor/mayor-menor.ts:132 | difference of two numbers, NaN when either is NaN |
| MayorMenor.NumberOf | src/app/features/juegos/mayor-menor/mayor-menor.ts:181 | `Number(s)`: blank is 0, decimal digits give their value, a finite result is not negative |
| MayorMenor.CardRank | src/app/features/juegos/mayor-menor/mayor-menor.ts:174-182 | ACE 1, JACK 11, QUEEN 12, KING 13, any other value through `Number` |
| MayorMenor.DigitRank | src/app/features/juegos/mayor-menor/mayor-menor.ts:174-182 | a one-digit value ranks as its digit |
| MayorMenor.DigitValueRank | src/app/features/juegos/mayor-menor/mayor-menor.ts:174-182 | the values "2" to "9" rank 2 to 9 |
| MayorMenor.TenRank | src/app/features/juegos/mayor-menor/mayor-menor.ts:181 | "10" ranks 10 |
| MayorMenor.RankAt | src/app/features/juegos/mayor-menor/mayor-menor.ts:174-182 | the value at each position of a standard deck ranks one more than the position |
| MayorMenor.StandardRanks | src/app/features/juegos/mayor-menor/mayor-menor.ts:174-182 | the 13 standard values rank exactly 1..13 in order |
| MayorMenor.StandardRanksDistinct | src/app/features/juegos/mayor-menor/mayor-menor.ts:174-182 | distinct standard values have distinct ranks |
| MayorMenor.Judge | src/app/features/juegos/mayor-menor/mayor-menor.ts:133-149 | a tie exactly when both ranks are equal numbers; right exactly when "mayor" sees a higher rank or "menor" a lower one |
| MayorMenor.JudgeCards | src/app/features/juegos/mayor-menor/mayor-menor.ts:130-148 | the verdict on two cards is `Judge` on their ranks, `valueMap[v] \|\| Number(v)` each |
| MayorMenor.VerdictMessage | src/app/features/juegos/mayor-menor/mayor-menor.ts:135-149 | a tie names the next card's value and says no points are scored; otherwise "¡Correcto!" or "¡Incorrecto!" |
| MayorMenor.Points | src/app/features/juegos/mayor-menor/mayor-menor.ts:139-149 | 0 or 1, and 1 exactly for a right bet |
| MayorMenor.Game.constructor | src/app/features/juegos/mayor-menor/mayor-menor.ts:51-63 | counters 0, not finished, no next card; the first card drawn becomes current, or the connection error is shown |
| MayorMenor.Game.Reset | src/app/features/juegos/mayor-menor/mayor-menor.ts:66-98 | score and rounds 0, not finished, no next card; a new deck's first card becomes current, and a failure keeps the old card and shows the connection error |
| MayorMenor.Game.Guess | src/app/features/juegos/mayor-menor/mayor-menor.ts:101-162 | no-op while loading, finished or without a card; otherwise the pending next card becomes current; a failed draw shows the draw error; an exhausting draw ends the game without a round or point; a card counts one round and scores one point exactly when the bet is right; `score <= rounds` is kept |
| MayorMenor.Game.Score | src/app/features/juegos/mayor-menor/mayor-menor.ts:127-151 | the card drawn becomes the pending next card, one round is counted, one point is scored exactly for a right bet, and the verdict's message is shown; nothing else changes |
| MayorMenor.Game.EndGame | src/app/features/juegos/mayor-menor/mayor-menor.ts:165-171 | marks the game finished, saves score and rounds, and sends the score to the ranking; nothing else changes |
| MayorMenor.SevenKingKing | src/app/features/juegos/mayor-menor/mayor-menor.ts:133-149 | after a seven a king is "mayor"-right, and after a king another king ties |
| MayorMenor.RightThenTie | src/app/features/juegos/mayor-menor/mayor-menor.ts:101-162 | 7, KING, KING with "mayor" twice: one point, two rounds, and the tie message |
| PreguntadosService.Codes | src/app/features/preguntados/preguntados.service.ts:15-36 | the codes of the countries, position by position |
| PreguntadosService.Names | src/app/features/preguntados/preguntados.service.ts:53 | the names of the countries, position by position |
| PreguntadosService.ListPositions | src/app/features/preguntados/preguntados.service.ts:15-36 | each country's code, and its name, tells its position in the list |
| PreguntadosService.CountriesDistinct | src/app/features/preguntados/preguntados.service.ts:15-36 | 20 countries, no code twice and no name twice |
| PreguntadosService.CountryDeterminedBy | src/app/features/preguntados/preguntados.service.ts:15-36 | within the list a name, or a code, identifies its country |
| PreguntadosService.Unexcluded | src/app/features/preguntados/preguntados.service.ts:41-43 | the filter keeps exactly the countries whose code is not excluded, all of them when nothing is, and no repeats |
| PreguntadosService.Available | src/app/features/preguntados/preguntados.service.ts:41-43 | the available countries are the list less the excluded codes |
| PreguntadosService.AvailableWithoutExclusions | src/app/features/preguntados/preguntados.service.ts:39-47 | with no exclusions all 20 countries are available, so the guard never fires |
| PreguntadosService.AvailableDistinct | src/app/features/preguntados/preguntados.service.ts:41-43 | the available countries have no repeats |
| PreguntadosService.PickMany | src/app/features/preguntados/preguntados.service.ts:66-73 | `min(n, length)` elements drawn from the input without repetition, distinct when the input is; the input is a value and is unchanged |
| PreguntadosService.FlagUrl | src/app/features/preguntados/preguntados.service.ts:54 | the flag image URL: the flag API's address, the code, then `/flat/64.png` |
| PreguntadosService.FlagUrlInjective | src/app/features/preguntados/preguntados.service.ts:54 | the flag URL embeds its code: different codes give different URLs |
| PreguntadosService.NamesDistinct | src/app/features/preguntados/preguntados.service.ts:50-53 | distinct listed countries have distinct names |
| PreguntadosService.OptionsAvailable | src/app/features/preguntados/preguntados.service.ts:50-54 | the shuffled names are names of available countries |
| PreguntadosService.GetQuestion | src/app/features/preguntados/preguntados.service.ts:39-63 | fails with its message exactly when fewer than 4 countries are left; otherwise the country asked is not excluded, the answer is its name, the image URL is its flag, and the 4 options are distinct available names that include the answer |
| Preguntados.Game.constructor | src/app/features/preguntados/preguntados.ts:29-39 | round 0, score 0, nothing picked; the first question, or the load error with none |
| Preguntados.Game.NextQuestion | src/app/features/preguntados/preguntados.ts:41-75 | a later call on the last round finishes and hands on the score, changing nothing else; otherwise a later call advances the round and a first one does not; the pick and the error are cleared, and the load either sets the question or sets the error and keeps the old one; a later call starts with nothing loading |
| Preguntados.Game.Pick | src/app/features/preguntados/preguntados.ts:77-83 | no-op once a non-empty option is picked or with no question; otherwise records the pick and adds one point exactly when it is the answer |
| Preguntados.Game.Reset | src/app/features/preguntados/preguntados.ts:85-94 | round and score 0, not finished, nothing picked, then a first question or the load error |
| Preguntados.Game.Retry | src/app/features/preguntados/preguntados.ts:96-98 | on round 0 loads a first question, earlier than the last round the next one; either way the load sets the question and clears the error, or sets the error and keeps the old question; on the last round it finishes and hands on the score, and question, pick and error stay as they were |
| Preguntados.PerfectGame | src/app/features/preguntados/preguntados.ts:41-83 | ten right picks end finished on round 9 with 10 points, reported exactly once |
| Encuesta.Flags | src/app/pages/encuesta/encuesta.ts:62-67 | the four check boxes, one flag each; some flag is set exactly when some box is checked |
| Encuesta.AtLeastOneTrue | src/app/pages/encuesta/encuesta.ts:20-27 | invalidGroup for a missing group or one whose value is not an object; no error exactly when some value is true; atLeastOne exactly when none is |
| Encuesta.NombreValid | src/app/pages/encuesta/encuesta.ts:48-55 | `nombre`: required, at least 3 code units, only letters, accented vowels, enye and whitespace |
| Encuesta.EdadValid | src/app/pages/encuesta/encuesta.ts:56-59 | `edad`: required, from 18 to 99 |
| Encuesta.TelefonoValid | src/app/pages/encuesta/encuesta.ts:60 | `telefono`: one to ten decimal digits |
| Encuesta.JuegoFavoritoValid | src/app/pages/encuesta/encuesta.ts:68 | `juegoFavorito`: required, at most 255 code units |
| Encuesta.SugerenciaValid | src/app/pages/encuesta/encuesta.ts:69 | `sugerenciaJuego`: optional, at most 255 code units |
| Encuesta.ComentarioValid | src/app/pages/encuesta/encuesta.ts:70-77 | `comentario`: required, 5 to 255 code units |
| Encuesta.FormValid | src/app/pages/encuesta/encuesta.ts:46-80 | the form is valid when every field meets its rule, `satisfaccion` is chosen, and the `atLeastOneTrue` group rule reports no error |
| Encuesta.FormNeedsAGame | src/app/pages/encuesta/encuesta.ts:62-79 | a valid form has some game checked |
| Encuesta.EmptyFormInvalid | src/app/pages/encuesta/encuesta.ts:114-128 | the form as reset is invalid, so resubmitting it writes nothing |
| Encuesta.SampleNombre | src/app/pages/encuesta/encuesta.ts:48-55 | the sample name meets its bounds |
| Encuesta.SampleJuegoFavorito | src/app/pages/encuesta/encuesta.ts:68 | the sample favourite game meets its bounds |
| Encuesta.SampleComentario | src/app/pages/encuesta/encuesta.ts:70-77 | the sample comment meets its bounds |
| Encuesta.SampleTelefono | src/app/pages/encuesta/encuesta.ts:60 | the sample phone meets its bound |
| Encuesta.SomeFormValid | src/app/pages/encuesta/encuesta.ts:46-80 | all the declared bounds can be met at once |
| Encuesta.Survey.constructor | src/app/pages/encuesta/encuesta.ts:46-80 | empty form, no message, nothing written |
| Encuesta.Survey.Edit | src/app/pages/encuesta/encuesta.ts:46-80 | only the form changes |
| Encuesta.Survey.Submit | src/app/pages/encuesta/encuesta.ts:91-135 | an invalid form returns with no message and no write; without a user, the login error and no write; otherwise the author and the answers are written, success resets the form and sets ok, and failure shows the error message or the fallback; only valid forms are ever written |
| EncuestaRespuestas.Labels | src/app/pages/encuesta-respuestas/encuesta-respuestas.ts:65-69 | the `out` array: each checked game's name pushed in box order |
| EncuestaRespuestas.Select | src/app/pages/encuesta-respuestas/encuesta-respuestas.ts:65-69 | at most as many as the labels; every label whose flag is set is kept, and everything kept is a label whose flag is set |
| EncuestaRespuestas.SelectFour | src/app/pages/encuesta-respuestas/encuesta-respuestas.ts:65-69 | selecting from four labels is four conditional pushes in order |
| EncuestaRespuestas.LabelsInOrder | src/app/pages/encuesta-respuestas/encuesta-respuestas.ts:65-69 | the pushes list exactly the checked games in the fixed box order |
| EncuestaRespuestas.LabelIffChecked | src/app/pages/encuesta-respuestas/encuesta-respuestas.ts:66-69 | each game's name appears exactly when its box is checked |
| EncuestaRespuestas.JugadosToText | src/app/pages/encuesta-respuestas/encuesta-respuestas.ts:63-71 | empty without the field; the checked names joined by ", "; "Ninguno" when none is checked |
| EncuestaRespuestas.NoneCheckedText | src/app/pages/encuesta-respuestas/encuesta-respuestas.ts:70 | no box checked gives "Ninguno" |
| EncuestaRespuestas.JoinFour | src/app/pages/encuesta-respuestas/encuesta-respuestas.ts:70 | joining four parts puts the separator between each two |
| EncuestaRespuestas.AllCheckedText | src/app/pages/encuesta-respuestas/encuesta-respuestas.ts:65-70 | every box checked gives the four names in box order, separated by ", " |
| JsString.SkipLeading | src/app/features/chat/chat.ts:85 | the first position at or after `i` not holding whitespace |
| JsString.SkipTrailing | src/app/features/chat/chat.ts:85 | the end of the range once trailing whitespace is dropped |
| JsString.Trim | src/app/features/chat/chat.ts:85 | the input less a whitespace prefix and suffix, neither end being whitespace; empty exactly when the input is all whitespace |
| JsString.TrimIdempotent | src/app/features/chat/chat.ts:85 | trimming twice is trimming once |
| JsString.TrimUnpadded | src/app/features/juegos/mayor-menor/mayor-menor.ts:181 | a string with no whitespace at either end is its own trim |
| JsString.Utf16Length | src/app/features/chat/chat.ts:87 | `length` counts one or two code units per character |
| JsString.Utf16LengthBmp | src/app/pages/registro/registro.ts:26 | without astral characters `length` is the number of characters |
| JsString.JoinNonEmpty | src/app/pages/encuesta-respuestas/encuesta-respuestas.ts:70 | a join whose first part is non-empty is non-empty |
| JsString.JoinCells | src/app/features/juegos/ahorcado/ahorcado.ts:91-99 | joining one-character cells with a space puts cell `i` at position `2i` and spaces between |
| Backend.MessageOr | src/app/features/chat/chat.ts:109 | `e?.message ?? fallback`: the message when present, even empty; else the fallback |
| Chat.TrimmedPostable | src/app/features/chat/chat.ts:84-90 | the trimmed text may be sent exactly when it is not blank and is at most 500 code units long |
| Chat.ChatBox.constructor | src/app/features/chat/chat.ts:64-66 | empty text, no error, nothing sent |
| Chat.ChatBox.Type | src/app/features/chat/chat.ts:64 | only the text changes |
| Chat.ChatBox.Send | src/app/features/chat/chat.ts:84-113 | blank text is ignored; over-long text or a missing user sets its error and sends nothing; otherwise the trimmed text is sent with the author; success clears the box, failure keeps it and shows the error; `sending` is false after every attempt and only postable texts are sent |
| Registro.MapAuthError | src/app/pages/registro/registro.ts:56-67 | the three known codes map to their messages, and every other or missing code to nothing |
| Registro.ShownError | src/app/pages/registro/registro.ts:48-49 | the mapped message, else a non-empty exception message, else "No se pudo registrar" |
| Registro.ShownErrorNonEmpty | src/app/pages/registro/registro.ts:48-49 | a failure always shows some message |
| Registro.FormValid | src/app/pages/registro/registro.ts:24-27 | the form is valid when the email is non-empty and accepted by the email validator and the password has at least six code units |
| Registro.PasswordBoundBmp | src/app/pages/registro/registro.ts:24-27 | for ordinary characters the password rule is at least six characters |
| Registro.Registration.constructor | src/app/pages/registro/registro.ts:20-27 | empty form, no error, no request |
| Registro.Registration.Edit | src/app/pages/registro/registro.ts:24-27 | only the form changes |
| Registro.Registration.Submit | src/app/pages/registro/registro.ts:29-54 | an invalid form returns with no error, ok false, and no request; otherwise one creation request; a failure shows the mapped error; a created account sets ok and navigates home, and a refused navigation also shows its error |

## Left out

- Firebase, Firestore and Auth calls are parameters or log entries. The
  collaborators behind them are not part of this model. That covers the
  results, ranking, log and auth services, the chat message stream, and the
  survey listing query and batch delete.
- The HTTP card-deck and flag APIs are parameters. The card image URL and the
  deck id inside the draw URL are not kept.
- `Math.random` is a nondeterministic choice in its range. No distribution is
  modelled: the rounding of `Math.floor(Math.random() * n)` is taken to give
  any value of the range.
- Async interleavings are not modelled. Each awaited transition is atomic, so a
  second guess during an await, as the real page could admit, is not modelled.
  The 50 ms `setTimeout` restart in the sequence quiz is taken as immediate.
  Signals and change detection are plain fields.
- Ahorcado.Game.GoToHome: does not keep `Valid()`, because the page is left
  and the view discarded. Resetting the streak on a won word breaks the
  won-streak invariant.
- Ahorcado.Game.HandleLoss: a rejected `addPoints` would abort the transition.
  It is not modelled, because the ranking outcome is not an input. The
  failure of `saveGameResult` is caught in the source and changes nothing.
- Ahorcado.Game.HandleWin: a rejected `addPoints` on the fifth win is not
  modelled, because the ranking outcome is not an input. In the source the
  streak is already 5 but the state stays `'playing'` on the completed word,
  a state `Valid()` excludes.
- Ahorcado.Game.EndStreakAndAskNewGame: a rejected `addPoints` is not
  modelled, for the same reason. In the source the state then stays `'won'`
  and no question is asked.
- Ahorcado.Game.Elegir: a letter is a `char`. The keyboard only offers single
  letters, so `letra` as an arbitrary string is not modelled.
- Ahorcado.Game.constructor: the first word is a parameter, drawn by
  `Ahorcado.RandomWord`.
- MayorMenor.Game.EndGame: `guess` does not await it, so the `finally` that
  clears `loading` still runs. A rejected `Promise.all` is an unhandled
  rejection that changes no state, so the model logs both requests either way.
- MayorMenor.NumberOf: weaker than `Number`. Signs, decimal points,
  exponents, hexadecimal and `Infinity` are NaN here. The deck only sends
  digit strings and the four face names.
- MayorMenor.CardRank: object-prototype keys such as `"toString"` are not
  special in the model.
- Encuesta.AtLeastOneTrue: a `null` group value, for which `Object.values`
  throws, is not modelled.
- Encuesta.EdadValid: `edad` is an integer. Fractional numbers typed into the
  field are not modelled.
- Encuesta.Survey.Submit: `markAllAsTouched` only affects the display and is
  not modelled.
- Registro.FormValid: the Angular email validator's verdict is the parameter
  `emailAccepted`. Its regular expression is not modelled.
- Registro.Registration.Submit: the code of a navigation error is not passed
  on. Only its message reaches the shown error, which matches a failure with
  no known code.
- MiJuego.Game.HandleReplayChoice: `goHome` is modelled inline as the
  navigation it sends. Leaving the page (`ngOnDestroy`) is `ResetState`.
- The route guards, the demo credentials, routing and module files, and the
  static pages are not part of this model.

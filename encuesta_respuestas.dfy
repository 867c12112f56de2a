/** The survey answers page: how the "games played" check boxes of a
    stored survey are shown as text. */
module EncuestaRespuestas {
  import opened Wrappers
  import opened JsString
  import opened Encuesta

  /** The game names, in the order of the check boxes. */
  const GAME_LABELS: seq<string> := ["Ahorcado", "Mayor/Menor", "Preguntados", "Secuencias"]

  /** The `out` array: the name of each checked game, pushed in box order. */
  function Labels(j: Jugados): seq<string> {
    (if j.ahorcado then ["Ahorcado"] else [])
    + (if j.mayorMenor then ["Mayor/Menor"] else [])
    + (if j.preguntados then ["Preguntados"] else [])
    + (if j.secuencias then ["Secuencias"] else [])
  }

  /** The labels whose flag is set, keeping their order: every flagged
      label is kept, and everything kept is a flagged label. */
  function Select(labels: seq<string>, flags: seq<bool>): (r: seq<string>)
    requires |labels| == |flags|
    ensures |r| <= |labels|
    ensures forall i | 0 <= i < |labels| :: flags[i] ==> labels[i] in r
    ensures forall x | x in r :: exists i | 0 <= i < |labels| :: flags[i] && labels[i] == x
  {
    if labels == [] then []
    else (if flags[0] then [labels[0]] else []) + Select(labels[1..], flags[1..])
  }

  /** Selecting from four labels is four conditional pushes. */
  lemma SelectFour(l: seq<string>, f: seq<bool>)
    requires |l| == 4 && |f| == 4
    ensures Select(l, f) ==
      (if f[0] then [l[0]] else []) + (if f[1] then [l[1]] else [])
      + (if f[2] then [l[2]] else []) + (if f[3] then [l[3]] else [])
  {
    assert l[1..][1..][1..][1..] == [];
    calc {
      Select(l, f);
      (if f[0] then [l[0]] else []) + Select(l[1..], f[1..]);
      (if f[0] then [l[0]] else []) + (if f[1] then [l[1]] else []) + Select(l[1..][1..], f[1..][1..]);
      (if f[0] then [l[0]] else []) + (if f[1] then [l[1]] else []) + (if f[2] then [l[2]] else [])
        + Select(l[1..][1..][1..], f[1..][1..][1..]);
      (if f[0] then [l[0]] else []) + (if f[1] then [l[1]] else []) + (if f[2] then [l[2]] else [])
        + (if f[3] then [l[3]] else []);
    }
  }

  /** The pushes list exactly the checked games, in the fixed order. */
  lemma LabelsInOrder(j: Jugados)
    ensures Labels(j) == Select(GAME_LABELS, Flags(j))
  {
    SelectFour(GAME_LABELS, Flags(j));
  }

  /** Each game's name is listed exactly when its box is checked. */
  lemma LabelIffChecked(j: Jugados)
    ensures "Ahorcado" in Labels(j) <==> j.ahorcado
    ensures "Mayor/Menor" in Labels(j) <==> j.mayorMenor
    ensures "Preguntados" in Labels(j) <==> j.preguntados
    ensures "Secuencias" in Labels(j) <==> j.secuencias
  {
  }

  /** `jugadosToText`: nothing for a survey without the field; the checked
      games joined by ", ", or "Ninguno" when none is. */
  function JugadosToText(j: Option<Jugados>): (text: string)
    ensures j.None? ==> text == ""
    ensures j.Some? && Labels(j.value) == [] ==> text == "Ninguno"
    ensures j.Some? && Labels(j.value) != [] ==> text == Join(Labels(j.value), ", ")
  {
    if j.None? then ""
    else
      var out := Labels(j.value);
      assert out != [] ==> Join(out, ", ") != "" by {
        if out != [] {
          JoinNonEmpty(out, ", ");
        }
      }
      var joined := Join(out, ", ");
      if joined == "" then "Ninguno" else joined
  }

  /** With no box checked the text is "Ninguno". */
  lemma NoneCheckedText()
    ensures JugadosToText(Some(Jugados(false, false, false, false))) == "Ninguno"
  {
  }

  /** Joining four parts puts the separator between each two. */
  lemma JoinFour(a: string, b: string, c: string, d: string, sep: string)
    ensures Join([a, b, c, d], sep) == a + sep + b + sep + c + sep + d
  {
    var parts := [a, b, c, d];
    assert parts[1..] == [b, c, d] && parts[1..][1..] == [c, d] && parts[1..][1..][1..] == [d];
    assert Join([c, d], sep) == c + sep + d;
  }

  /** With every box checked the text lists every game in order. */
  lemma AllCheckedText()
    ensures JugadosToText(Some(Jugados(true, true, true, true)))
      == "Ahorcado" + ", " + "Mayor/Menor" + ", " + "Preguntados" + ", " + "Secuencias"
  {
    assert Labels(Jugados(true, true, true, true)) == GAME_LABELS;
    JoinFour("Ahorcado", "Mayor/Menor", "Preguntados", "Secuencias", ", ");
  }
}

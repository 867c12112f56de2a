/** The satisfaction survey: a form whose fields each carry declared
    bounds, a group rule that at least one game was played, and a submit
    that stores the answers for the signed-in user. */
module Encuesta {
  import opened Wrappers
  import opened JsString
  import opened Backend

  /** The four "games played" check boxes. */
  datatype Jugados = Jugados(ahorcado: bool, mayorMenor: bool, preguntados: bool, secuencias: bool)

  /** The check boxes in declaration order, as `Object.values` lists them:
      one flag per box, some flag set exactly when some box is checked. */
  function Flags(j: Jugados): (flags: seq<bool>)
    ensures |flags| == 4
    ensures (exists i | 0 <= i < |flags| :: flags[i])
      <==> j.ahorcado || j.mayorMenor || j.preguntados || j.secuencias
  {
    var flags := [j.ahorcado, j.mayorMenor, j.preguntados, j.secuencias];
    assert flags[0] == j.ahorcado && flags[1] == j.mayorMenor;
    assert flags[2] == j.preguntados && flags[3] == j.secuencias;
    flags
  }

  /** The value of a form control, as the group rule inspects it. */
  datatype ControlValue = ObjectValue(values: seq<bool>) | NonObject

  datatype GroupError = InvalidGroup | AtLeastOne

  /** `atLeastOneTrue`: a missing group or a value that is not an object is
      `invalidGroup`; an object none of whose values is true is
      `atLeastOne`; otherwise there is no error. */
  function AtLeastOneTrue(g: Option<ControlValue>): (r: Option<GroupError>)
    ensures g.None? || g.value.NonObject? ==> r == Some(InvalidGroup)
    ensures g.Some? && g.value.ObjectValue? ==>
      (r == None <==> exists i | 0 <= i < |g.value.values| :: g.value.values[i])
    ensures g.Some? && g.value.ObjectValue? ==>
      (r == Some(AtLeastOne) <==> forall i | 0 <= i < |g.value.values| :: !g.value.values[i])
  {
    if g.None? || g.value.NonObject? then Some(InvalidGroup)
    else if true in g.value.values then None
    else Some(AtLeastOne)
  }

  /** The survey form's values. `edad` is `null` until a number is typed. */
  datatype Form = Form(
    nombre: string,
    edad: Option<int>,
    telefono: string,
    satisfaccion: string,
    jugados: Jugados,
    juegoFavorito: string,
    sugerenciaJuego: string,
    comentario: string)

  /** The values the form starts from and is reset to. */
  const EMPTY_FORM := Form("", None, "", "", Jugados(false, false, false, false), "", "", "")

  /** A character the name pattern admits: an ASCII letter, an accented
      vowel, an enye, or whitespace. */
  predicate NombreChar(c: char) {
    ('a' <= c <= 'z') || ('A' <= c <= 'Z') || c in "áéíóúÁÉÍÓÚñÑ" || IsJsWhitespace(c)
  }

  /** Required, at least 3 code units, letters and spaces only. */
  predicate NombreValid(s: string) {
    Utf16Length(s) >= 3 && forall i | 0 <= i < |s| :: NombreChar(s[i])
  }

  /** Required, between 18 and 99. */
  predicate EdadValid(e: Option<int>) {
    e.Some? && 18 <= e.value <= 99
  }

  /** Required, one to ten decimal digits. */
  predicate TelefonoValid(s: string) {
    1 <= |s| <= 10 && AllDigits(s)
  }

  /** Required and at most 255 code units. */
  predicate JuegoFavoritoValid(s: string) {
    1 <= Utf16Length(s) <= 255
  }

  /** Optional, at most 255 code units. */
  predicate SugerenciaValid(s: string) {
    Utf16Length(s) <= 255
  }

  /** Required, between 5 and 255 code units. */
  predicate ComentarioValid(s: string) {
    5 <= Utf16Length(s) <= 255
  }

  /** Every field meets its bounds and at least one game is checked. */
  predicate FormValid(f: Form) {
    && NombreValid(f.nombre)
    && EdadValid(f.edad)
    && TelefonoValid(f.telefono)
    && f.satisfaccion != ""
    && JuegoFavoritoValid(f.juegoFavorito)
    && SugerenciaValid(f.sugerenciaJuego)
    && ComentarioValid(f.comentario)
    && AtLeastOneTrue(Some(ObjectValue(Flags(f.jugados)))) == None
  }

  /** The games rule, read on the form: some box is checked. */
  lemma FormNeedsAGame(f: Form)
    ensures FormValid(f) ==>
      f.jugados.ahorcado || f.jugados.mayorMenor || f.jugados.preguntados || f.jugados.secuencias
  {
    if FormValid(f) {
      var flags := Flags(f.jugados);
      var i :| 0 <= i < |flags| && flags[i];
      assert i == 0 || i == 1 || i == 2 || i == 3;
    }
  }

  /** The form as reset is not submittable: a second submit without edits writes nothing. */
  lemma EmptyFormInvalid()
    ensures !FormValid(EMPTY_FORM)
  {
    assert !EdadValid(EMPTY_FORM.edad);
  }

  /** A sample of answers that meets every bound. */
  const SAMPLE_FORM := Form("Ana", Some(30), "1155551234", "5", Jugados(true, false, false, false), "Ahorcado", "", "Bueno")

  lemma SampleNombre()
    ensures NombreValid(SAMPLE_FORM.nombre)
  {
    Utf16LengthBmp(SAMPLE_FORM.nombre);
  }

  lemma SampleJuegoFavorito()
    ensures JuegoFavoritoValid(SAMPLE_FORM.juegoFavorito)
  {
    Utf16LengthBmp(SAMPLE_FORM.juegoFavorito);
  }

  lemma SampleComentario()
    ensures ComentarioValid(SAMPLE_FORM.comentario)
  {
    Utf16LengthBmp(SAMPLE_FORM.comentario);
  }

  lemma SampleTelefono()
    ensures TelefonoValid(SAMPLE_FORM.telefono)
  {
  }

  /** The bounds can all be met at once. */
  lemma SomeFormValid()
    ensures FormValid(SAMPLE_FORM)
  {
    SampleNombre();
    SampleJuegoFavorito();
    SampleComentario();
    SampleTelefono();
    assert Flags(SAMPLE_FORM.jugados)[0];
  }

  /** A stored survey: the author's uid and email plus the form's values. */
  datatype Submission = Submission(uid: string, email: Option<string>, answers: Form)

  const LOGIN_ERROR := "Debes iniciar sesión para enviar la encuesta."
  const SAVE_ERROR := "No se pudo guardar la encuesta"

  class Survey {
    var saving: bool
    var ok: bool
    var err: Option<string>
    var form: Form
    /** The write requests sent to the survey collection, in order. */
    var writes: seq<Submission>

    /** Between events nothing is being saved, and only valid forms were sent. */
    ghost predicate Valid()
      reads this
    {
      !saving && forall k | 0 <= k < |writes| :: FormValid(writes[k].answers)
    }

    constructor ()
      ensures Valid()
      ensures !ok && err == None && form == EMPTY_FORM && writes == []
    {
      saving, ok, err := false, false, None;
      form := EMPTY_FORM;
      writes := [];
    }

    /** The user edits the form. */
    method Edit(f: Form)
      requires Valid()
      modifies this
      ensures Valid()
      ensures form == f
      ensures saving == old(saving) && ok == old(ok) && err == old(err) && writes == old(writes)
    {
      form := f;
    }

    /** Submits the form, with `user` the signed-in user and `write` how
        the store answers. An invalid form is refused with no message and
        no write; without a user the login error is shown and nothing is
        written. Otherwise the answers are written; success resets the form
        and sets `ok`, failure shows the error's message or the fallback. */
    method Submit(user: Option<User>, write: Outcome)
      requires Valid()
      modifies this
      ensures Valid()
      ensures !FormValid(old(form)) ==>
        !ok && err == None && form == old(form) && writes == old(writes)
      ensures FormValid(old(form)) && user.None? ==>
        !ok && err == Some(LOGIN_ERROR) && form == old(form) && writes == old(writes)
      ensures FormValid(old(form)) && user.Some? ==>
        && writes == old(writes) + [Submission(user.value.uid, user.value.email, old(form))]
        && (write.Resolved? ==> ok && err == None && form == EMPTY_FORM)
        && (write.Rejected? ==>
              !ok && err == Some(MessageOr(write.message, SAVE_ERROR)) && form == old(form))
    {
      ok := false;
      err := None;
      if !FormValid(form) {
        return;
      }
      if user.None? {
        err := Some(LOGIN_ERROR);
        return;
      }
      saving := true;
      writes := writes + [Submission(user.value.uid, user.value.email, form)];
      match write {
        case Resolved =>
          ok := true;
          form := EMPTY_FORM;
        case Rejected(message) =>
          err := Some(MessageOr(message, SAVE_ERROR));
      }
      saving := false;
    }
  }
}

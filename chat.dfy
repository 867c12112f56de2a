/** The chat box: the typed text is trimmed and checked before it is
    posted as a message of the signed-in user. */
module Chat {
  import opened Wrappers
  import opened JsString
  import opened Backend

  const MAX_LENGTH: nat := 500
  const TOO_LONG := "El mensaje es demasiado largo (máx. 500)."
  const LOGIN_ERROR := "Debes iniciar sesión para chatear."
  const SEND_ERROR := "No se pudo enviar el mensaje"

  /** A posted message (the server timestamp is left out). */
  datatype ChatMessage = ChatMessage(uid: string, email: Option<string>, text: string)

  /** What may be posted: non-empty, already trimmed, at most 500 code units. */
  predicate Postable(t: string) {
    t != "" && Trim(t) == t && Utf16Length(t) <= MAX_LENGTH
  }

  /** The trimmed text is postable exactly when it is neither blank nor too long. */
  lemma TrimmedPostable(text: string)
    ensures Postable(Trim(text)) <==> !AllWhitespace(text) && Utf16Length(Trim(text)) <= MAX_LENGTH
  {
    TrimIdempotent(text);
  }

  class ChatBox {
    var text: string
    var sending: bool
    var error: Option<string>
    /** The write requests sent to the message collection, in order. */
    var sent: seq<ChatMessage>

    /** Between events nothing is being sent, and each message sent was postable. */
    ghost predicate Valid()
      reads this
    {
      !sending && forall k | 0 <= k < |sent| :: Postable(sent[k].text)
    }

    constructor ()
      ensures Valid()
      ensures text == "" && error == None && sent == []
    {
      text, sending, error := "", false, None;
      sent := [];
    }

    /** The user types. */
    method Type(t: string)
      requires Valid()
      modifies this
      ensures Valid()
      ensures text == t && sending == old(sending) && error == old(error) && sent == old(sent)
    {
      text := t;
    }

    /** Sends the typed text for `user`, the store answering `write`.
        Blank text is ignored; text longer than 500 code units once trimmed,
        or a missing user, sets its error and sends nothing. Otherwise the
        trimmed text is sent: success clears the box and the error, failure
        keeps the text and shows the error's message or the fallback. */
    method Send(user: Option<User>, write: Outcome)
      requires Valid()
      modifies this
      ensures Valid()
      ensures AllWhitespace(old(text)) ==> unchanged(this)
      ensures !AllWhitespace(old(text)) && Utf16Length(Trim(old(text))) > MAX_LENGTH ==>
        error == Some(TOO_LONG) && text == old(text) && sent == old(sent)
      ensures !AllWhitespace(old(text)) && Utf16Length(Trim(old(text))) <= MAX_LENGTH && user.None? ==>
        error == Some(LOGIN_ERROR) && text == old(text) && sent == old(sent)
      ensures !AllWhitespace(old(text)) && Utf16Length(Trim(old(text))) <= MAX_LENGTH && user.Some? ==>
        && sent == old(sent) + [ChatMessage(user.value.uid, user.value.email, Trim(old(text)))]
        && (write.Resolved? ==> text == "" && error == None)
        && (write.Rejected? ==> text == old(text) && error == Some(MessageOr(write.message, SEND_ERROR)))
    {
      var t := Trim(text);
      if t == "" {
        return;
      }
      if Utf16Length(t) > MAX_LENGTH {
        error := Some(TOO_LONG);
        return;
      }
      if user.None? {
        error := Some(LOGIN_ERROR);
        return;
      }
      TrimmedPostable(text);
      sending := true;
      error := None;
      sent := sent + [ChatMessage(user.value.uid, user.value.email, t)];
      match write {
        case Resolved =>
          text := "";
        case Rejected(message) =>
          error := Some(MessageOr(message, SEND_ERROR));
      }
      sending := false;
    }
  }
}

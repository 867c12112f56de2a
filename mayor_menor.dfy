/** Higher or lower: the player bets that the next card drawn from a remote
    deck ranks above ("mayor") or below ("menor") the current one; equal
    ranks are a tie, and the game ends when the deck runs out. */
module MayorMenor {
  import opened Wrappers
  import opened JsString
  import opened Backend

  /** A card as the deck service returns it (the image URL is left out). */
  datatype ApiCard = ApiCard(code: string, value: string, suit: string)

  /** A JavaScript number as far as the game needs one. */
  datatype Num = Finite(n: int) | NaN

  /** Subtraction, NaN-absorbing. */
  function Sub(x: Num, y: Num): (r: Num)
    ensures r.Finite? <==> x.Finite? && y.Finite?
    ensures r.Finite? ==> r.n == x.n - y.n
  {
    if x.Finite? && y.Finite? then Finite(x.n - y.n) else NaN
  }

  /** `Number(s)` on the strings a deck can hold: surrounding whitespace is
      ignored, a blank string is 0, decimal digits give their value, and
      anything else is NaN. */
  function NumberOf(s: string): (r: Num)
    ensures AllWhitespace(s) ==> r == Finite(0)
    ensures r.Finite? ==> r.n >= 0
    ensures AllDigits(s) && s != [] ==> r == Finite(DigitsValue(s))
  {
    TrimUnpadded(s);
    var t := Trim(s);
    if t == [] then Finite(0)
    else if AllDigits(t) then Finite(DigitsValue(t))
    else NaN
  }

  /** The card values of a standard deck, in rank order. */
  const STANDARD_VALUES: seq<string> :=
    ["ACE", "2", "3", "4", "5", "6", "7", "8", "9", "10", "JACK", "QUEEN", "KING"]

  /** `getCardNumericValue`: the four face names are looked up, any other
      value goes through `Number`. */
  function CardRank(value: string): (r: Num)
    ensures value == "ACE" ==> r == Finite(1)
    ensures value == "JACK" ==> r == Finite(11)
    ensures value == "QUEEN" ==> r == Finite(12)
    ensures value == "KING" ==> r == Finite(13)
    ensures value !in {"ACE", "JACK", "QUEEN", "KING"} ==> r == NumberOf(value)
  {
    match value
    case "ACE" => Finite(1)
    case "JACK" => Finite(11)
    case "QUEEN" => Finite(12)
    case "KING" => Finite(13)
    case _ => NumberOf(value)
  }

  /** A one-digit value ranks as its digit. */
  lemma DigitRank(v: string)
    requires |v| == 1 && IsDigit(v[0])
    ensures CardRank(v) == Finite(v[0] as int - '0' as int)
  {
    assert v[..0] == [];
    assert NumberOf(v) == Finite(DigitsValue(v));
  }

  /** The digit values "2" to "9" rank as their digit. */
  lemma DigitValueRank(i: int)
    requires 1 <= i < 9
    ensures CardRank(STANDARD_VALUES[i]) == Finite(i + 1)
  {
    var v := STANDARD_VALUES[i];
    if i == 1 { assert v == "2"; DigitRank(v); }
    else if i == 2 { assert v == "3"; DigitRank(v); }
    else if i == 3 { assert v == "4"; DigitRank(v); }
    else if i == 4 { assert v == "5"; DigitRank(v); }
    else if i == 5 { assert v == "6"; DigitRank(v); }
    else if i == 6 { assert v == "7"; DigitRank(v); }
    else if i == 7 { assert v == "8"; DigitRank(v); }
    else { assert v == "9"; DigitRank(v); }
  }

  /** "10" ranks as ten. */
  lemma TenRank()
    ensures CardRank("10") == Finite(10)
  {
    var v := "10";
    assert v[..1] == "1" && v[..1][..0] == [];
    assert DigitsValue(v[..1]) == 1;
    assert DigitsValue(v) == 10;
    assert AllDigits(v) && v !in {"ACE", "JACK", "QUEEN", "KING"};
  }

  /** The value at position `i` of a standard deck ranks `i + 1`. */
  lemma RankAt(i: int)
    requires 0 <= i < |STANDARD_VALUES|
    ensures CardRank(STANDARD_VALUES[i]) == Finite(i + 1)
  {
    if 1 <= i < 9 {
      DigitValueRank(i);
    } else if i == 9 {
      TenRank();
    } else if i == 0 {
      assert STANDARD_VALUES[i] == "ACE";
    } else if i == 10 {
      assert STANDARD_VALUES[i] == "JACK";
    } else if i == 11 {
      assert STANDARD_VALUES[i] == "QUEEN";
    } else {
      assert STANDARD_VALUES[i] == "KING";
    }
  }

  /** On a standard deck the ranks are exactly 1..13, one per value. */
  lemma StandardRanks()
    ensures forall i | 0 <= i < |STANDARD_VALUES| :: CardRank(STANDARD_VALUES[i]) == Finite(i + 1)
  {
    forall i | 0 <= i < |STANDARD_VALUES| ensures CardRank(STANDARD_VALUES[i]) == Finite(i + 1) {
      RankAt(i);
    }
  }

  /** Ranks of distinct standard values differ, so a tie means equal values. */
  lemma StandardRanksDistinct(i: int, j: int)
    requires 0 <= i < j < |STANDARD_VALUES|
    ensures CardRank(STANDARD_VALUES[i]) != CardRank(STANDARD_VALUES[j])
  {
    StandardRanks();
  }

  datatype Kind = Mayor | Menor

  datatype Verdict = Tie | Correct | Incorrect

  /** How a bet on `kind` fares when `cur` is followed by `nxt`: equal
      ranks tie, a strictly higher (lower) rank is right for "mayor"
      ("menor"), and a rank that is not a number is never a tie nor right. */
  function Judge(kind: Kind, cur: Num, nxt: Num): (v: Verdict)
    ensures v == Tie <==> cur.Finite? && nxt.Finite? && cur.n == nxt.n
    ensures v == Correct <==>
      cur.Finite? && nxt.Finite? &&
      ((kind == Mayor && nxt.n > cur.n) || (kind == Menor && nxt.n < cur.n))
  {
    var comparison := Sub(nxt, cur);
    if comparison == Finite(0) then Tie
    else if (kind == Mayor && comparison.Finite? && comparison.n > 0)
         || (kind == Menor && comparison.Finite? && comparison.n < 0)
    then Correct
    else Incorrect
  }

  /** The message shown for a verdict on the card `nxt`. */
  function VerdictMessage(v: Verdict, nxt: ApiCard): string {
    match v
    case Tie => "¡Empate! La carta era otro " + nxt.value + ". No sumas puntos."
    case Correct => "¡Correcto!"
    case Incorrect => "¡Incorrecto!"
  }

  /** The verdict of a bet on the ranks of two cards. */
  function JudgeCards(kind: Kind, cur: ApiCard, nxt: ApiCard): Verdict {
    Judge(kind, CardRank(cur.value), CardRank(nxt.value))
  }

  /** Points a bet earns: one when right, none on a tie or a miss. */
  function Points(v: Verdict): (p: int)
    ensures 0 <= p <= 1
    ensures p == 1 <==> v == Correct
  {
    if v == Correct then 1 else 0
  }

  /** How the request for a new shuffled deck settled. */
  datatype DeckResponse = DeckCreated(deckId: string) | DeckFailed

  /** How a request to draw one card settled. */
  datatype DrawResponse = Drawn(cards: seq<ApiCard>, remaining: int) | DrawFailed

  const CONNECT_ERROR := "Error al conectar con la API de cartas. Intenta de nuevo."
  const DRAW_ERROR := "Error al robar una carta. Intenta de nuevo."

  /** The draw ends the game: no card came, or the deck is empty after it. */
  predicate Exhausts(draw: DrawResponse) {
    draw.Drawn? && (|draw.cards| == 0 || draw.remaining == 0)
  }

  class Game {
    var deckId: Option<string>
    var current: Option<ApiCard>
    var next: Option<ApiCard>
    var resultMessage: string
    var score: int
    var rounds: int
    var finished: bool
    var loading: bool
    /** Requests sent to the results and ranking collaborators. */
    var effects: seq<Effect>

    /** Between events nothing is loading, each round scores at most one
        point, and a pending next card follows a current one. */
    ghost predicate Valid()
      reads this
    {
      && !loading
      && 0 <= score <= rounds
      && (next.Some? ==> current.Some?)
    }

    /** The initial signals, then `reset` with the deck and first draw the
        service answers. */
    constructor (deck: DeckResponse, draw: DrawResponse)
      ensures Valid()
      ensures score == 0 && rounds == 0 && !finished && next == None && effects == []
      ensures deck.DeckFailed? ==> deckId == None && current == None && resultMessage == CONNECT_ERROR
      ensures deck.DeckCreated? ==> deckId == Some(deck.deckId)
      ensures deck.DeckCreated? && draw.DrawFailed? ==> current == None && resultMessage == CONNECT_ERROR
      ensures deck.DeckCreated? && draw.Drawn? ==>
        resultMessage == "" &&
        current == (if |draw.cards| > 0 then Some(draw.cards[0]) else None)
    {
      deckId, current, next := None, None, None;
      resultMessage := "";
      score, rounds := 0, 0;
      finished, loading := false, true;
      effects := [];
      new;
      Reset(deck, draw);
    }

    /** Starts over: counters zeroed, the game open again, no next card;
        then a new deck and its first card become current. A failure keeps
        the previous current card and shows the connection error. */
    method Reset(deck: DeckResponse, draw: DrawResponse)
      modifies this
      ensures Valid()
      ensures score == 0 && rounds == 0 && !finished && next == None && effects == old(effects)
      ensures deck.DeckFailed? ==>
        deckId == old(deckId) && current == old(current) && resultMessage == CONNECT_ERROR
      ensures deck.DeckCreated? ==> deckId == Some(deck.deckId)
      ensures deck.DeckCreated? && draw.DrawFailed? ==>
        current == old(current) && resultMessage == CONNECT_ERROR
      ensures deck.DeckCreated? && draw.Drawn? ==>
        resultMessage == "" &&
        current == (if |draw.cards| > 0 then Some(draw.cards[0]) else None)
    {
      loading := true;
      finished := false;
      score := 0;
      rounds := 0;
      next := None;
      resultMessage := "";
      match deck {
        case DeckFailed =>
          resultMessage := CONNECT_ERROR;
        case DeckCreated(id) =>
          deckId := Some(id);
          match draw {
            case DrawFailed =>
              resultMessage := CONNECT_ERROR;
            case Drawn(cards, _) =>
              // `cards[0]` of an empty answer is `undefined`: no current card.
              current := if |cards| > 0 then Some(cards[0]) else None;
          }
      }
      loading := false;
    }

    /** A bet of `kind`, answered by `draw`. Nothing happens while loading,
        after the end, or without a current card. Otherwise the pending next
        card becomes current and the draw is judged: a failed draw shows an
        error, an exhausting draw ends the game with no round counted, and
        a card counts one round and scores one point exactly when the bet is right. */
    method Guess(kind: Kind, draw: DrawResponse)
      requires Valid()
      modifies this
      ensures Valid()
      ensures old(loading) || old(finished) || old(current).None? ==> unchanged(this)
      ensures !(old(loading) || old(finished) || old(current).None?) ==>
        && current == (if old(next).Some? then old(next) else old(current))
        && deckId == old(deckId)
        && (draw.DrawFailed? ==>
              && next == None && resultMessage == DRAW_ERROR && !finished
              && score == old(score) && rounds == old(rounds) && effects == old(effects))
        && (Exhausts(draw) ==>
              && next == None && resultMessage == "" && finished
              && score == old(score) && rounds == old(rounds)
              && effects == old(effects) + [Save("mayor-menor", score, RoundsPlayed(rounds)), AddPoints(score)])
        && (draw.Drawn? && !Exhausts(draw) ==>
              && next == Some(draw.cards[0]) && !finished && effects == old(effects)
              && rounds == old(rounds) + 1
              && score == old(score) + Points(JudgeCards(kind, current.value, draw.cards[0]))
              && resultMessage == VerdictMessage(JudgeCards(kind, current.value, draw.cards[0]), draw.cards[0]))
    {
      if loading || finished || current.None? {
        return;
      }
      if next.Some? {
        current := next;
      }
      loading := true;
      resultMessage := "";
      next := None;
      match draw {
        case DrawFailed =>
          resultMessage := DRAW_ERROR;
        case Drawn(cards, remaining) =>
          if |cards| == 0 || remaining == 0 {
            EndGame();
          } else {
            Score(kind, cards[0]);
            // A second end-of-deck test follows here in the component; it is
            // unreachable, since `remaining == 0` already ended the game above.
          }
      }
      loading := false;
    }

    /** A card came and the deck goes on: it becomes the pending next card,
        the bet on it is judged against the current card, one round is
        counted, and a right bet scores one point. */
    method Score(kind: Kind, nextCard: ApiCard)
      requires current.Some?
      modifies this
      ensures current == old(current) && deckId == old(deckId) && effects == old(effects)
      ensures next == Some(nextCard) && rounds == old(rounds) + 1
      ensures score == old(score) + Points(JudgeCards(kind, current.value, nextCard))
      ensures resultMessage == VerdictMessage(JudgeCards(kind, current.value, nextCard), nextCard)
      ensures finished == old(finished) && loading == old(loading)
    {
      next := Some(nextCard);
      var verdict := JudgeCards(kind, current.value, nextCard);
      if verdict == Correct {
        score := score + 1;
      }
      resultMessage := VerdictMessage(verdict, nextCard);
      rounds := rounds + 1;
    }

    /** The end of a game: it is marked finished, the result is saved with
        the rounds played, and the score goes to the ranking. */
    method EndGame()
      modifies this
      ensures finished
      ensures effects == old(effects) + [Save("mayor-menor", score, RoundsPlayed(rounds)), AddPoints(score)]
      ensures deckId == old(deckId) && current == old(current) && next == old(next)
      ensures resultMessage == old(resultMessage) && loading == old(loading)
      ensures score == old(score) && rounds == old(rounds)
    {
      finished := true;
      effects := effects + [Save("mayor-menor", score, RoundsPlayed(rounds)), AddPoints(score)];
    }
  }

  const SEVEN := ApiCard("7H", "7", "HEARTS")
  const KING := ApiCard("KS", "KING", "SPADES")
  const OTHER_KING := ApiCard("KD", "KING", "DIAMONDS")

  /** After a seven a king is higher, and after a king another king ties. */
  lemma SevenKingKing()
    ensures JudgeCards(Mayor, SEVEN, KING) == Correct
    ensures JudgeCards(Mayor, KING, OTHER_KING) == Tie
  {
    DigitRank(SEVEN.value);
  }

  /** Seven, then a king, then another king: "mayor" is right the first
      time and a tie the second; the tie counts a round but no point. */
  method RightThenTie() returns (g: Game)
    ensures g.score == 1 && g.rounds == 2 && !g.finished
    ensures g.resultMessage == "¡Empate! La carta era otro " + "KING" + ". No sumas puntos."
  {
    g := new Game(DeckCreated("deck"), Drawn([SEVEN], 51));
    SevenKingKing();
    g.Guess(Mayor, Drawn([KING], 50));
    g.Guess(Mayor, Drawn([OTHER_KING], 49));
  }
}

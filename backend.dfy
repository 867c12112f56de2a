/** The collaborators the games and pages call into (ranking, results,
    router, signed-in user), reduced to the requests they receive. */
module Backend {
  import opened Wrappers

  /** The signed-in user as seen by the pages (uid and optional email). */
  datatype User = User(uid: string, email: Option<string>)

  /** Structured payload passed to the results collaborator. */
  datatype Details =
    | RoundsPlayed(rounds: int)
    | WordResult(palabra: string, errores: int)

  /** A request to an external collaborator, recorded in the order issued. */
  datatype Effect =
    | AddPoints(points: int)
    | Save(game: string, points: int, details: Details)
    | Navigate(url: string)

  /** How an awaited remote call settled: resolved, or rejected with an
      error object whose `message` may be absent. */
  datatype Outcome = Resolved | Rejected(message: Option<string>)

  /** `e?.message ?? fallback`: a missing message falls back, an empty one does not. */
  function MessageOr(message: Option<string>, fallback: string): (r: string)
    ensures message.Some? ==> r == message.value
    ensures message.None? ==> r == fallback
  {
    message.GetOr(fallback)
  }
}

/** The backend's history route: GET / lists the caller's own log entries. */
module HistoryRoutes {
  import opened Wrappers
  import opened Tables
  import opened Bearer

  const ReadFailedMessage: string := "Gagal mengambil data history"

  /** The answers of the route; a refusal carries its status and message. */
  datatype Reply = Refused(status: int, message: string) | Listed(history: seq<HistoryEntry>, count: nat)

  /**
   * GET /: at most `parseInt(limit) || 100` of the caller's entries, newest
   * first, with `count` their number. Only the authenticated user's entries
   * are ever requested; a negative limit is a database error.
   */
  function List(db: Database, header: Option<string>, verify: Verifier, parsedLimit: Option<int>): (reply: Reply)
    reads db
    ensures !Authenticate(header, verify).Authorized? ==>
      reply == Refused(401, DenialMessage(Authenticate(header, verify)))
    ensures reply.Listed? ==>
      var userId := Authenticate(header, verify).claims.userId;
      && Authenticate(header, verify).Authorized?
      && reply.count == |reply.history|
      && |reply.history| <= IntOr(parsedLimit, 100)
      && (forall e :: e in reply.history ==> e in db.history && e.userId == userId)
      && NewestFirst(reply.history, StampOfEntry)
    ensures reply.Listed? ==>
      var mine := Owned(db.history, OwnerOfEntry, Authenticate(header, verify).claims.userId);
      && |reply.history| == Min(IntOr(parsedLimit, 100), |mine|)
      && multiset(reply.history) <= multiset(mine)
    ensures reply.Listed? ==>
      var userId := Authenticate(header, verify).claims.userId;
      forall e, f ::
        (e in reply.history && f in db.history && OwnerOfEntry(f) == userId && f !in reply.history)
        ==> StampOfEntry(f) <= StampOfEntry(e)
    ensures Authenticate(header, verify).Authorized? ==>
      (reply.Listed? <==> IntOr(parsedLimit, 100) >= 0)
    ensures reply.Refused? && Authenticate(header, verify).Authorized? ==> reply == Refused(500, ReadFailedMessage)
  {
    var auth := Authenticate(header, verify);
    if !auth.Authorized? then Refused(401, DenialMessage(auth))
    else
      match db.GetHistoryByUserId(auth.claims.userId, Some(IntOr(parsedLimit, 100)))
      case None => Refused(500, ReadFailedMessage)
      case Some(hs) => Listed(hs, |hs|)
  }

  /** When the caller has no more than 100 entries, an absent limit lists all of them. */
  lemma DefaultLimitListsAll(db: Database, header: Option<string>, verify: Verifier)
    requires Authenticate(header, verify).Authorized?
    requires |Owned(db.history, OwnerOfEntry, Authenticate(header, verify).claims.userId)| <= 100
    ensures var reply := List(db, header, verify, None);
      && reply.Listed?
      && multiset(reply.history) == multiset(Owned(db.history, OwnerOfEntry, Authenticate(header, verify).claims.userId))
  {
  }
}

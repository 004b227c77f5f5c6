/**
 * The prediction routes of the second backend, kept beside the web client.
 * Its query module (FE-aja/backend/db/queries.js) is not part of this
 * model, so each route is modelled as what it decides from the request and
 * from the answers its queries give: the query calls it makes, in order,
 * and its reply. A query that throws is a None answer.
 */
module FeAjaPredictionRoutes {
  import opened Wrappers
  import opened Tables
  import opened Bearer

  /** A stored row as the query module returns it; the routes read only these columns. */
  datatype Row = Row(id: JsonValue, userId: JsonValue, aqi: JsonValue)

  /** A call into the query module. */
  datatype Call =
    | CreatePrediction(userId: int, body: seq<Member>)
    | ListPredictions(userId: int, limit: int)
    | GetPrediction(id: string)
    | DeletePrediction(id: string, userId: int)
    | CreateHistoryLog(userId: int, action: string, details: seq<Member>)

  const SaveFailedMessage: string := "Gagal menyimpan prediksi"
  const ReadFailedMessage: string := "Gagal mengambil data prediksi"
  const NotFoundMessage: string := "Prediksi tidak ditemukan"
  const ForbiddenMessage: string := "Akses ditolak"
  const DeleteFailedMessage: string := "Gagal menghapus prediksi"

  datatype Reply =
    | Refused(status: int, message: string)
    | Saved(prediction: Row)
    | Listed(predictions: seq<Row>, count: nat)
    | Found(prediction: Row)
    | Removed(prediction: Row)

  /** The queries a request ran and the reply it got. */
  datatype Flow = Flow(calls: seq<Call>, reply: Reply)

  /** The flow of a request the middleware turns away: no query, a 401. */
  function Denied(a: Auth): (f: Flow)
    requires !a.Authorized?
    ensures f.calls == [] && f.reply.Refused? && f.reply.status == 401
  {
    Flow([], Refused(401, DenialMessage(a)))
  }

  /**
   * POST /: the request body goes to the store as it came, with no field
   * check; then CREATE_PREDICTION is logged with the stored row's id and
   * aqi. `stored` is the store's answer, `logged` whether the log succeeded.
   */
  function Save(header: Option<string>, verify: Verifier, body: seq<Member>,
                stored: Option<Row>, logged: bool): (f: Flow)
    ensures !Authenticate(header, verify).Authorized? ==> f == Denied(Authenticate(header, verify))
    ensures Authenticate(header, verify).Authorized? ==>
      var userId := Authenticate(header, verify).claims.userId;
      && |f.calls| >= 1 && f.calls[0] == CreatePrediction(userId, body)
      && (stored.None? ==> f.calls == [CreatePrediction(userId, body)] && f.reply == Refused(500, SaveFailedMessage))
      && (stored.Some? ==>
           && f.calls == [CreatePrediction(userId, body),
                          CreateHistoryLog(userId, "CREATE_PREDICTION",
                                           [Member("predictionId", stored.value.id), Member("aqi", stored.value.aqi)])]
           && f.reply == (if logged then Saved(stored.value) else Refused(500, SaveFailedMessage)))
  {
    var auth := Authenticate(header, verify);
    if !auth.Authorized? then Denied(auth)
    else
      var insert := CreatePrediction(auth.claims.userId, body);
      match stored
      case None => Flow([insert], Refused(500, SaveFailedMessage))
      case Some(row) =>
        var log := CreateHistoryLog(auth.claims.userId, "CREATE_PREDICTION",
                                    [Member("predictionId", row.id), Member("aqi", row.aqi)]);
        Flow([insert, log], if logged then Saved(row) else Refused(500, SaveFailedMessage))
  }

  /** GET /: the caller's rows with limit `parseInt(limit) || 50`; `rows` is the store's answer. */
  function List(header: Option<string>, verify: Verifier, parsedLimit: Option<int>, rows: Option<seq<Row>>): (f: Flow)
    ensures !Authenticate(header, verify).Authorized? ==> f == Denied(Authenticate(header, verify))
    ensures Authenticate(header, verify).Authorized? ==>
      && f.calls == [ListPredictions(Authenticate(header, verify).claims.userId, IntOr(parsedLimit, 50))]
      && (rows.None? ==> f.reply == Refused(500, ReadFailedMessage))
      && (rows.Some? ==> f.reply == Listed(rows.value, |rows.value|))
    ensures f.reply.Listed? ==> f.reply.count == |f.reply.predictions|
  {
    var auth := Authenticate(header, verify);
    if !auth.Authorized? then Denied(auth)
    else
      var call := ListPredictions(auth.claims.userId, IntOr(parsedLimit, 50));
      match rows
      case None => Flow([call], Refused(500, ReadFailedMessage))
      case Some(rs) => Flow([call], Listed(rs, |rs|))
  }

  /**
   * The decision of GET /:id once the row is looked up: 404 when there is
   * none, 403 when its `user_id` is not strictly equal to the caller's id, else the row.
   */
  function ShowDecision(found: Option<Row>, caller: Claims): (reply: Reply)
    ensures found.None? <==> reply == Refused(404, NotFoundMessage)
    ensures found.Some? && found.value.userId != JInt(caller.userId) <==> reply == Refused(403, ForbiddenMessage)
    ensures reply.Found? <==> found.Some? && found.value.userId == JInt(caller.userId)
    ensures reply.Found? ==> reply.prediction == found.value
  {
    match found
    case None => Refused(404, NotFoundMessage)
    case Some(row) => if row.userId != JInt(caller.userId) then Refused(403, ForbiddenMessage) else Found(row)
  }

  /**
   * GET /:id: `found` is the store's answer, Some(None) when there is no
   * such row and None when the query throws.
   */
  function Show(header: Option<string>, verify: Verifier, id: string, found: Option<Option<Row>>): (f: Flow)
    ensures !Authenticate(header, verify).Authorized? ==> f == Denied(Authenticate(header, verify))
    ensures Authenticate(header, verify).Authorized? ==>
      && f.calls == [GetPrediction(id)]
      && (found.None? ==> f.reply == Refused(500, ReadFailedMessage))
      && (found.Some? ==> f.reply == ShowDecision(found.value, Authenticate(header, verify).claims))
    ensures f.reply.Found? ==> f.reply.prediction.userId == JInt(Authenticate(header, verify).claims.userId)
  {
    var auth := Authenticate(header, verify);
    if !auth.Authorized? then Denied(auth)
    else
      match found
      case None => Flow([GetPrediction(id)], Refused(500, ReadFailedMessage))
      case Some(row) => Flow([GetPrediction(id)], ShowDecision(row, auth.claims))
  }

  /**
   * DELETE /:id: the store deletes by id and caller; `deleted` is its
   * answer (Some(None) when nothing was deleted, None when it throws) and
   * `logged` whether the log succeeded. DELETE_PREDICTION is logged only
   * after a row was deleted.
   */
  function Delete(header: Option<string>, verify: Verifier, id: string, deleted: Option<Option<Row>>,
                  logged: bool): (f: Flow)
    ensures !Authenticate(header, verify).Authorized? ==> f == Denied(Authenticate(header, verify))
    ensures Authenticate(header, verify).Authorized? ==>
      var userId := Authenticate(header, verify).claims.userId;
      && |f.calls| >= 1 && f.calls[0] == DeletePrediction(id, userId)
      && (deleted.None? ==> f.calls == [DeletePrediction(id, userId)] && f.reply == Refused(500, DeleteFailedMessage))
      && (deleted == Some(None) ==> f.calls == [DeletePrediction(id, userId)] && f.reply == Refused(404, NotFoundMessage))
      && (deleted.Some? && deleted.value.Some? ==>
           && f.calls == [DeletePrediction(id, userId),
                          CreateHistoryLog(userId, "DELETE_PREDICTION", [Member("predictionId", deleted.value.value.id)])]
           && f.reply == (if logged then Removed(deleted.value.value) else Refused(500, DeleteFailedMessage)))
    ensures (exists k :: 0 <= k < |f.calls| && f.calls[k].CreateHistoryLog?) ==> deleted.Some? && deleted.value.Some?
  {
    var auth := Authenticate(header, verify);
    if !auth.Authorized? then Denied(auth)
    else
      var remove := DeletePrediction(id, auth.claims.userId);
      match deleted
      case None => Flow([remove], Refused(500, DeleteFailedMessage))
      case Some(None) => Flow([remove], Refused(404, NotFoundMessage))
      case Some(Some(row)) =>
        var log := CreateHistoryLog(auth.claims.userId, "DELETE_PREDICTION", [Member("predictionId", row.id)]);
        Flow([remove, log], if logged then Removed(row) else Refused(500, DeleteFailedMessage))
  }
}

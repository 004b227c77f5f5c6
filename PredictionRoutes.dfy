/**
 * The backend's prediction routes: the input check of `/validate` (the call
 * to the ML service behind it is not modelled), and saving, listing,
 * showing and deleting a user's predictions over the tables of `Tables`.
 * Reads are functions of the database; the routes that write are methods.
 */
module PredictionRoutes {
  import opened Wrappers
  import opened Tables
  import opened Bearer

  /** A value of the JSON request body; `Undefined` is a missing property. */
  datatype BodyValue = Undefined | Null | Bool(b: bool) | Num(x: real) | Str(s: string)

  /** `parseFloat` applied to a body value. */
  type FloatParser = BodyValue -> Float

  /** `parseInt` applied to a body value: None for NaN. */
  type IntParser = BodyValue -> Option<int>

  const MissingParametersMessage: string := "Semua parameter harus diisi (suhu, kelembapan, tekanan, kecepatan_angin)"
  const IncompleteMessage: string := "Data tidak lengkap. Pastikan semua parameter diisi."
  const SaveFailedMessage: string := "Gagal menyimpan prediksi"
  const ReadFailedMessage: string := "Gagal mengambil data prediksi"
  const NotFoundMessage: string := "Prediksi tidak ditemukan"
  const ForbiddenMessage: string := "Akses ditolak"
  const DeleteFailedMessage: string := "Gagal menghapus prediksi"

  /** The answers of these routes; a refusal carries its status and message. */
  datatype Reply =
    | Refused(status: int, message: string)
    | Saved(prediction: Prediction)
    | Listed(predictions: seq<Prediction>, count: nat)
    | Found(prediction: Prediction)
    | Removed(prediction: Prediction)
  {
    function Status(): int {
      match this
      case Refused(status, _) => status
      case Saved(_) => 201
      case _ => 200
    }
  }

  /** What `/validate` does after its input check. */
  datatype ValidateStep = MissingParameters | CallModel(values: seq<Float>)

  /**
   * The input check of `/validate`: any of the four fields missing is a 400
   * before the ML service is called; otherwise the four fields go to it as
   * `parseFloat` makes them, in the order suhu, kelembapan, tekanan, kecepatan_angin.
   */
  function ValidateGate(suhu: BodyValue, kelembapan: BodyValue, tekanan: BodyValue, kecepatanAngin: BodyValue,
                        parseFloat: FloatParser): (step: ValidateStep)
    ensures step == MissingParameters <==>
      suhu == Undefined || kelembapan == Undefined || tekanan == Undefined || kecepatanAngin == Undefined
    ensures step.CallModel? ==>
      (&& |step.values| == 4 && step.values[0] == parseFloat(suhu)
       && step.values[1] == parseFloat(kelembapan) && step.values[2] == parseFloat(tekanan)
       && step.values[3] == parseFloat(kecepatanAngin))
  {
    if suhu == Undefined || kelembapan == Undefined || tekanan == Undefined || kecepatanAngin == Undefined then
      MissingParameters
    else
      CallModel([parseFloat(suhu), parseFloat(kelembapan), parseFloat(tekanan), parseFloat(kecepatanAngin)])
  }

  /** The body of a save request; `kualitas` is a string, or None when missing or null. */
  datatype PredictionBody = PredictionBody(suhu: BodyValue, kelembapan: BodyValue, tekanan: BodyValue,
                                           kecepatanAngin: BodyValue, kualitas: Option<string>,
                                           score: BodyValue, confidence: BodyValue)

  /** The save check: the four readings present (any value, even null) and a non-empty `kualitas`. */
  predicate Complete(body: PredictionBody) {
    && body.suhu != Undefined && body.kelembapan != Undefined
    && body.tekanan != Undefined && body.kecepatanAngin != Undefined
    && body.kualitas.Some? && body.kualitas.value != ""
  }

  /** `parseFloat(x) || 0`: NaN and zero become 0, everything else stays. */
  function FloatOrZero(f: Float): (g: Float)
    ensures g != NaN
    ensures f == NaN ==> g == Finite(0.0)
    ensures f != NaN ==> g == f
  {
    if f == NaN || f == Finite(0.0) then Finite(0.0) else f
  }

  /**
   * The row values a save stores: the readings through `parseFloat`, the
   * label as sent, the score through `parseInt(score) || 0` and the
   * confidence through `parseFloat(confidence) || 0`. A score or confidence
   * that is not a number is stored as 0.
   */
  function Normalise(body: PredictionBody, parseFloat: FloatParser, parseInt: IntParser): (d: PredictionData)
    requires body.kualitas.Some?
    ensures d.suhu == parseFloat(body.suhu) && d.kelembapan == parseFloat(body.kelembapan)
    ensures d.tekanan == parseFloat(body.tekanan) && d.kecepatanAngin == parseFloat(body.kecepatanAngin)
    ensures d.kualitas == body.kualitas.value
    ensures parseInt(body.score).None? ==> d.score == 0
    ensures parseInt(body.score).Some? ==> d.score == parseInt(body.score).value
    ensures parseFloat(body.confidence) == NaN ==> d.confidence == Finite(0.0)
    ensures parseFloat(body.confidence) != NaN ==> d.confidence == parseFloat(body.confidence)
    ensures d.confidence != NaN
  {
    PredictionData(parseFloat(body.suhu), parseFloat(body.kelembapan), parseFloat(body.tekanan),
                   parseFloat(body.kecepatanAngin), body.kualitas.value,
                   IntOr(parseInt(body.score), 0), FloatOrZero(parseFloat(body.confidence)))
  }

  /** The details of the CREATE_PREDICTION log entry. */
  function CreatedDetails(p: Prediction): seq<Member> {
    [Member("predictionId", JInt(p.id)), Member("kualitas", JString(p.data.kualitas)), Member("score", JInt(p.data.score))]
  }

  /**
   * POST /: an authenticated and complete request stores one row for the
   * caller and logs CREATE_PREDICTION; a refused request changes nothing,
   * and nothing is logged unless the row was stored.
   */
  method Save(db: Database, header: Option<string>, verify: Verifier, body: PredictionBody,
              parseFloat: FloatParser, parseInt: IntParser, now: int) returns (reply: Reply)
    requires db.Valid()
    modifies db
    ensures db.Valid()
    ensures db.users == old(db.users)
    ensures !Authenticate(header, verify).Authorized? ==>
      reply == Refused(401, DenialMessage(Authenticate(header, verify)))
      && db.predictions == old(db.predictions) && db.history == old(db.history)
    ensures Authenticate(header, verify).Authorized? && !Complete(body) ==>
      reply == Refused(400, IncompleteMessage)
      && db.predictions == old(db.predictions) && db.history == old(db.history)
    ensures reply.Saved? ==>
      var userId := Authenticate(header, verify).claims.userId;
      && Complete(body)
      && reply.prediction == Prediction(old(db.nextPredictionId), userId, Normalise(body, parseFloat, parseInt), now)
      && db.predictions == old(db.predictions) + [reply.prediction]
      && db.history == old(db.history) + [HistoryEntry(old(db.nextHistoryId), userId, "CREATE_PREDICTION",
                                                        Stringify(CreatedDetails(reply.prediction)), now)]
    ensures !reply.Saved? ==> db.predictions == old(db.predictions) && db.history == old(db.history)
    ensures Authenticate(header, verify).Authorized? && Complete(body) ==>
      var userId := Authenticate(header, verify).claims.userId;
      (reply.Saved? <==>
        && userId in IdsOf(old(db.users)) && Fits(Some(body.kualitas.value), 50)
        && FitsInteger(Normalise(body, parseFloat, parseInt).score))
    ensures Authenticate(header, verify).Authorized? && Complete(body) && !reply.Saved? ==>
      reply == Refused(500, SaveFailedMessage)
  {
    var auth := Authenticate(header, verify);
    if !auth.Authorized? {
      return Refused(401, DenialMessage(auth));
    }
    if !Complete(body) {
      return Refused(400, IncompleteMessage);
    }
    var data := Normalise(body, parseFloat, parseInt);
    var stored := db.CreatePrediction(auth.claims.userId, data, now);
    if stored.None? {
      return Refused(500, SaveFailedMessage);
    }
    var p := stored.value;
    var logged := db.CreateHistoryLog(auth.claims.userId, "CREATE_PREDICTION", Some(CreatedDetails(p)), now);
    // the row's user exists and the action fits VARCHAR(100), so the log insert cannot raise
    assert logged.Some?;
    reply := Saved(p);
  }

  /** GET /: the caller's predictions, newest first, at most `parseInt(limit) || 50` of them. */
  function List(db: Database, header: Option<string>, verify: Verifier, parsedLimit: Option<int>): (reply: Reply)
    reads db
    ensures !Authenticate(header, verify).Authorized? ==>
      reply == Refused(401, DenialMessage(Authenticate(header, verify)))
    ensures reply.Listed? ==>
      var userId := Authenticate(header, verify).claims.userId;
      && Authenticate(header, verify).Authorized?
      && reply.count == |reply.predictions|
      && |reply.predictions| <= IntOr(parsedLimit, 50)
      && (forall p :: p in reply.predictions ==> p in db.predictions && p.userId == userId)
      && NewestFirst(reply.predictions, StampOfPrediction)
    ensures reply.Listed? ==>
      var mine := Owned(db.predictions, OwnerOfPrediction, Authenticate(header, verify).claims.userId);
      && |reply.predictions| == Min(IntOr(parsedLimit, 50), |mine|)
      && multiset(reply.predictions) <= multiset(mine)
    ensures reply.Listed? ==>
      var userId := Authenticate(header, verify).claims.userId;
      forall p, q ::
        (p in reply.predictions && q in db.predictions && OwnerOfPrediction(q) == userId && q !in reply.predictions)
        ==> StampOfPrediction(q) <= StampOfPrediction(p)
    ensures Authenticate(header, verify).Authorized? ==>
      (reply.Listed? <==> IntOr(parsedLimit, 50) >= 0)
    ensures Authenticate(header, verify).Authorized? && reply.Refused? ==> reply == Refused(500, ReadFailedMessage)
  {
    var auth := Authenticate(header, verify);
    if !auth.Authorized? then Refused(401, DenialMessage(auth))
    else
      match db.GetPredictionsByUserId(auth.claims.userId, Some(IntOr(parsedLimit, 50)))
      case None => Refused(500, ReadFailedMessage)
      case Some(ps) => Listed(ps, |ps|)
  }

  /** An unparsable or absent limit lists up to 50 rows and never fails. */
  lemma DefaultLimitLists(db: Database, header: Option<string>, verify: Verifier, parsedLimit: Option<int>)
    requires Authenticate(header, verify).Authorized?
    requires parsedLimit.None? || parsedLimit == Some(0)
    ensures List(db, header, verify, parsedLimit).Listed?
    ensures |List(db, header, verify, parsedLimit).predictions| <= 50
  {
  }

  /** The decision of GET /:id once the row is looked up: 404 when absent, 403 when another user's, else the row. */
  function ShowDecision(found: Option<Prediction>, caller: Claims): (reply: Reply)
    ensures found.None? <==> reply == Refused(404, NotFoundMessage)
    ensures found.Some? && found.value.userId != caller.userId <==> reply == Refused(403, ForbiddenMessage)
    ensures reply.Found? <==> found.Some? && found.value.userId == caller.userId
    ensures reply.Found? ==> reply.prediction == found.value
  {
    match found
    case None => Refused(404, NotFoundMessage)
    case Some(p) => if p.userId != caller.userId then Refused(403, ForbiddenMessage) else Found(p)
  }

  /**
   * GET /:id, where `id` is the path parameter cast to INTEGER (None when
   * the cast fails, which PostgreSQL reports as an error). Only the caller's
   * own row is ever shown.
   */
  function Show(db: Database, header: Option<string>, verify: Verifier, id: Option<int>): (reply: Reply)
    reads db
    ensures !Authenticate(header, verify).Authorized? ==>
      reply == Refused(401, DenialMessage(Authenticate(header, verify)))
    ensures Authenticate(header, verify).Authorized? && id.None? ==> reply == Refused(500, ReadFailedMessage)
    ensures Authenticate(header, verify).Authorized? && id.Some? ==>
      reply == ShowDecision(db.GetPredictionById(id.value), Authenticate(header, verify).claims)
    ensures reply.Found? ==>
      && reply.prediction in db.predictions && id == Some(reply.prediction.id)
      && reply.prediction.userId == Authenticate(header, verify).claims.userId
  {
    var auth := Authenticate(header, verify);
    if !auth.Authorized? then Refused(401, DenialMessage(auth))
    else if id.None? then Refused(500, ReadFailedMessage)
    else ShowDecision(db.GetPredictionById(id.value), auth.claims)
  }

  /**
   * DELETE /:id: removes the caller's row with this id and logs
   * DELETE_PREDICTION; 404 when there is no such row of the caller's. A
   * refused request changes nothing, and nothing is logged unless a row was removed.
   */
  method Delete(db: Database, header: Option<string>, verify: Verifier, id: Option<int>, now: int)
    returns (reply: Reply)
    requires db.Valid()
    modifies db
    ensures db.Valid()
    ensures db.users == old(db.users)
    ensures !Authenticate(header, verify).Authorized? ==>
      reply == Refused(401, DenialMessage(Authenticate(header, verify)))
    ensures Authenticate(header, verify).Authorized? && id.None? ==> reply == Refused(500, DeleteFailedMessage)
    ensures reply.Removed? ==>
      var userId := Authenticate(header, verify).claims.userId;
      var k := IndexOfPrediction(old(db.predictions), reply.prediction.id);
      && id == Some(reply.prediction.id) && reply.prediction.userId == userId
      && k.Some? && old(db.predictions)[k.value] == reply.prediction
      && db.predictions == old(db.predictions)[..k.value] + old(db.predictions)[k.value + 1..]
      && db.history == old(db.history) + [HistoryEntry(old(db.nextHistoryId), userId, "DELETE_PREDICTION",
                                                        Stringify([Member("predictionId", JInt(reply.prediction.id))]), now)]
    ensures Authenticate(header, verify).Authorized? && id.Some? && !reply.Removed? ==>
      reply == Refused(404, NotFoundMessage)
    ensures !reply.Removed? ==> db.predictions == old(db.predictions) && db.history == old(db.history)
    ensures Authenticate(header, verify).Authorized? && id.Some? ==>
      var k := IndexOfPrediction(old(db.predictions), id.value);
      (reply.Removed? <==>
        k.Some? && old(db.predictions)[k.value].userId == Authenticate(header, verify).claims.userId)
  {
    var auth := Authenticate(header, verify);
    if !auth.Authorized? {
      return Refused(401, DenialMessage(auth));
    }
    if id.None? {
      return Refused(500, DeleteFailedMessage);
    }
    ghost var before := db.predictions;
    ghost var found := IndexOfPrediction(before, id.value);
    var deleted := db.DeletePrediction(id.value, auth.claims.userId);
    if deleted.None? {
      return Refused(404, NotFoundMessage);
    }
    var p := deleted.value;
    assert found.Some? && before[found.value] == p && p.id == id.value;
    assert p.userId in IdsOf(db.users);
    var logged := db.CreateHistoryLog(auth.claims.userId, "DELETE_PREDICTION",
                                      Some([Member("predictionId", JInt(p.id))]), now);
    // the removed row referenced its user, who still exists, so the log insert cannot raise
    assert logged.Some?;
    reply := Removed(p);
  }
}

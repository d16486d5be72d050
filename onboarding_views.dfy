/**
 * The onboarding endpoints of users/views_onboarding.py over a store of
 * `OnboardingTourStatus` rows keyed by (user id, tour name). The database is
 * the store's map; `now` is the clock reading; the CSRF token in the
 * mark-complete reply is not modelled.
 */
module OnboardingViews {
  import opened Wrappers
  import opened OnboardingModel

  /**
   * A POST body: absent, not JSON, JSON that is not an object (a list, a
   * string, a number or null, which have no `.get`), or a JSON object with an
   * optional string `user_id`.
   */
  datatype Body = NoBody | Malformed | NotAnObject | JsonObject(userId: Option<string>)

  datatype Verb = GET | POST | OtherVerb

  datatype Request = Request(verb: Verb, query: map<string, string>, body: Body)

  type Key = (string, string)

  datatype Reply =
    | MethodNotAllowed                                  // 405 from `require_http_methods`
    | Status(completed: bool, completedAt: Option<int>)   // onboarding_status
    | Unauthenticated                                   // 401 {"status": "unauthenticated", "completed": false}
    | Completed(stamp: int)                             // {"status": "ok", "completed": true, ...}
    | ServerError                                       // an uncaught exception: Django's 500

  /** What `get_user_id_from_request` does: return a user id or none, or raise `AttributeError`. */
  datatype Extracted = Given(id: Option<string>) | Raises

  /**
   * `get_user_id_from_request`: the query parameter on GET, the body's
   * `user_id` on POST (none for an empty or undecodable body), else nothing;
   * a POST body that is JSON but not an object raises, as the handler only
   * catches decoding errors.
   */
  function UserId(req: Request): (id: Extracted)
    ensures id.Raises? <==> req.verb == POST && req.body.NotAnObject?
    ensures req.verb == GET ==> id == Given(if "user_id" in req.query then Some(req.query["user_id"]) else None)
    ensures req.verb == POST && req.body.JsonObject? ==> id == Given(req.body.userId)
    ensures req.verb == POST && (req.body.NoBody? || req.body.Malformed?) ==> id == Given(None)
    ensures req.verb == OtherVerb ==> id == Given(None)
  {
    match req.verb
    case GET => Given(if "user_id" in req.query then Some(req.query["user_id"]) else None)
    case POST =>
      (match req.body
       case NotAnObject => Raises
       case JsonObject(userId) => Given(userId)
       case _ => Given(None))
    case OtherVerb => Given(None)
  }

  /** Python truthiness of an extracted user id: present and non-empty. */
  predicate HasUser(id: Extracted) { id.Given? && id.id.Some? && id.id.value != "" }

  /** Every completed row carries a timestamp. */
  ghost predicate Stamped(rows: map<Key, Row>)
  {
    forall k :: k in rows && rows[k].completed ==> rows[k].completedAt.Some?
  }

  /** `onboarding_status`. */
  function StatusReply(rows: map<Key, Row>, req: Request, tour: string): (r: Reply)
    ensures req.verb != GET <==> r == MethodNotAllowed
    ensures req.verb == GET && !HasUser(UserId(req)) ==> r == Status(false, None)
    ensures req.verb == GET && HasUser(UserId(req)) ==>
      var key := (UserId(req).id.value, tour);
      r == if key in rows then Status(rows[key].completed, rows[key].completedAt) else Status(false, None)
  {
    if req.verb != GET then MethodNotAllowed
    else
      var id := UserId(req);
      if !HasUser(id) then Status(false, None)
      else if (id.id.value, tour) in rows then Status(rows[(id.id.value, tour)].completed, rows[(id.id.value, tour)].completedAt)
      else Status(false, None)
  }

  /** `onboarding_mark_complete`: the reply and the store after it. */
  function MarkCompleteResult(rows: map<Key, Row>, req: Request, tour: string, now: int): (res: (Reply, map<Key, Row>))
    ensures req.verb != POST ==> res == (MethodNotAllowed, rows)
    ensures req.verb == POST && UserId(req).Raises? ==> res == (ServerError, rows)
    ensures req.verb == POST && UserId(req).Given? && !HasUser(UserId(req)) ==> res == (Unauthenticated, rows)
    ensures req.verb == POST && HasUser(UserId(req)) ==>
      var key := (UserId(req).id.value, tour);
      // only this user's row for this tour can change, and it ends completed
      res.1.Keys == rows.Keys + {key} &&
      (forall k :: k in rows && k != key ==> res.1[k] == rows[k]) &&
      res.1[key].completed &&
      // a missing or incomplete row is stamped now; a completed one is left as it was
      (key !in rows || !rows[key].completed ==> res == (Completed(now), rows[key := Row(true, Some(now))])) &&
      (key in rows && rows[key].completed ==> res.1 == rows)
  {
    if req.verb != POST then (MethodNotAllowed, rows)
    else
      var id := UserId(req);
      if id.Raises? then (ServerError, rows)
      else if !HasUser(id) then (Unauthenticated, rows)
      else
        var key := (id.id.value, tour);
        if key !in rows || !rows[key].completed then (Completed(now), rows[key := Row(true, Some(now))])
        else if rows[key].completedAt.Some? then (Completed(rows[key].completedAt.value), rows)
        else (ServerError, rows)
  }

  /** Marking twice is marking once: the second call changes nothing and returns the first timestamp. */
  lemma MarkCompleteIdempotent(rows: map<Key, Row>, req: Request, tour: string, now1: int, now2: int)
    requires MarkCompleteResult(rows, req, tour, now1).0.Completed?
    ensures var (r1, rows1) := MarkCompleteResult(rows, req, tour, now1);
      MarkCompleteResult(rows1, req, tour, now2) == (r1, rows1)
  {
  }

  /** After a successful mark-complete for (u, t), the status for (u, t) is completed, with that timestamp. */
  lemma StatusAfterMarkComplete(rows: map<Key, Row>, user: string, tour: string, now: int)
    requires user != ""
    ensures var (r, rows1) := MarkCompleteResult(rows, Request(POST, map[], JsonObject(Some(user))), tour, now);
      r.Completed? ==>
      StatusReply(rows1, Request(GET, map["user_id" := user], NoBody), tour) == Status(true, Some(r.stamp))
  {
  }

  /**
   * With every completed row stamped, mark-complete fails only on a body that
   * is not a JSON object, and keeps every completed row stamped.
   */
  lemma MarkCompleteKeepsStamped(rows: map<Key, Row>, req: Request, tour: string, now: int)
    requires Stamped(rows)
    ensures MarkCompleteResult(rows, req, tour, now).0 == ServerError <==> req.verb == POST && req.body.NotAnObject?
    ensures Stamped(MarkCompleteResult(rows, req, tour, now).1)
  {
  }

  /** The rows of `OnboardingTourStatus`; `(user_id, tour_name)` is unique, so the table is a map. */
  class OnboardingStore {
    var rows: map<Key, Row>

    constructor ()
      ensures rows == map[]
    {
      rows := map[];
    }

    /** `save()` of a loaded or created row. */
    method Save(obj: OnboardingTourStatus)
      modifies this
      ensures rows == old(rows)[(obj.userId, obj.tourName) := obj.AsRow()]
    {
      rows := rows[(obj.userId, obj.tourName) := obj.AsRow()];
    }

    /** `onboarding_status`: a read that changes nothing. */
    method OnboardingStatus(req: Request, tour: string) returns (r: Reply)
      ensures r == StatusReply(rows, req, tour)
    {
      if req.verb != GET {
        return MethodNotAllowed;
      }
      var id := UserId(req);
      if !HasUser(id) {
        return Status(false, None);
      }
      var key := (id.id.value, tour);
      if key in rows {
        r := Status(rows[key].completed, rows[key].completedAt);
      } else {
        r := Status(false, None);
      }
    }

    /** `onboarding_mark_complete`: `get_or_create`, then flip an incomplete row and save it. */
    method OnboardingMarkComplete(req: Request, tour: string, now: int) returns (r: Reply)
      modifies this
      ensures (r, rows) == MarkCompleteResult(old(rows), req, tour, now)
    {
      if req.verb != POST {
        return MethodNotAllowed;
      }
      var id := UserId(req);
      if id.Raises? {
        return ServerError;
      }
      if !HasUser(id) {
        return Unauthenticated;
      }
      var key := (id.id.value, tour);
      var obj: OnboardingTourStatus;
      var created := key !in rows;
      if created {
        obj := new OnboardingTourStatus.Load(id.id.value, tour, Row(true, Some(now)));
        Save(obj);
      } else {
        obj := new OnboardingTourStatus.Load(id.id.value, tour, rows[key]);
      }
      if !created && !obj.completed {
        obj.completed := true;
        obj.completedAt := Some(now);
        Save(obj);
      }
      if obj.completedAt.None? {
        return ServerError;
      }
      r := Completed(obj.completedAt.value);
    }
  }
}

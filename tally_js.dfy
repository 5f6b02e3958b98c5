/**
 * The intake endpoint of `api/tally.js`: validate the posted email, owner and
 * answers, create a draft insigne owned by the Memberstack user, then store
 * the raw answers payload. A failed answers insert leaves the insigne behind.
 */
module TallyJs {
  import opened Wrappers
  import opened Js
  import opened Db
  import opened Http

  const MissingFields: string := "Missing email, owner_memberstack_id, or answers"
  const MissingConfig: string := "Missing SUPABASE_URL or SUPABASE_SERVICE_ROLE_KEY in Vercel env vars"

  /** `const { email, owner_memberstack_id, answers } = req.body` throws on a null or absent body. */
  predicate Destructurable(body: JsValue) {
    body != Null && body != Undefined
  }

  predicate ValidBody(body: JsValue) {
    Truthy(Get(body, "email")) && Truthy(Get(body, "owner_memberstack_id")) && Truthy(Get(body, "answers"))
  }

  /** The row inserted into `insignes`: owner as both `user_id` and `owner_memberstack_id`, status draft. */
  function NewInsigne(id: string, body: JsValue, stringify: JsValue -> string, now: int): (r: Insigne)
    ensures r.id == id && r.status == Draft && r.createdAt == now
    ensures r.userId == r.ownerMemberstackId == Some(AsText(Get(body, "owner_memberstack_id"), stringify))
    ensures r.email == Some(AsText(Get(body, "email"), stringify))
    ensures r.clientEmail == None && r.accessToken == None
  {
    var owner := AsText(Get(body, "owner_memberstack_id"), stringify);
    NewDraft(id, now).(userId := Some(owner), ownerMemberstackId := Some(owner),
                       email := Some(AsText(Get(body, "email"), stringify)))
  }

  /**
   * The handler. `insert` is the database's answer to the insigne insert,
   * `answersError` the error of the answers insert, `now` the insert time.
   */
  method Handle(db: Store, env: Env, req: Request, stringify: JsValue -> string, now: int,
                insert: InsertResult, answersError: Option<string>)
    returns (resp: Response)
    requires db.Valid()
    requires insert.Inserted? ==> insert.id !in Ids(db.insignes)
    modifies db
    ensures db.Valid()
    ensures req.verb == "OPTIONS" ==> resp == Reply(200, NoBody) && db.Snapshot() == old(db.Snapshot())
    ensures req.verb != "OPTIONS" && req.verb != "POST" ==>
      resp == Reply(405, Error("Method not allowed")) && db.Snapshot() == old(db.Snapshot())
    ensures req.verb == "POST" && !Destructurable(req.body) ==>
      resp == Reply(500, Failed("Unexpected error", Raised(TypeError))) && db.Snapshot() == old(db.Snapshot())
    ensures req.verb == "POST" && Destructurable(req.body) && !ValidBody(req.body) ==>
      resp == Reply(400, Error(MissingFields)) && db.Snapshot() == old(db.Snapshot())
    ensures req.verb == "POST" && Destructurable(req.body) && ValidBody(req.body)
            && !(IsSet(env.supabaseUrl) && IsSet(env.serviceRoleKey)) ==>
      resp == Reply(500, Error(MissingConfig)) && db.Snapshot() == old(db.Snapshot())
    ensures req.verb == "POST" && Destructurable(req.body) && ValidBody(req.body)
            && IsSet(env.supabaseUrl) && IsSet(env.serviceRoleKey) && insert.InsertFailed? ==>
      resp == Reply(500, Failed("Insert insigne failed", DbError(insert.message)))
      && db.Snapshot() == old(db.Snapshot())
    ensures req.verb == "POST" && Destructurable(req.body) && ValidBody(req.body)
            && IsSet(env.supabaseUrl) && IsSet(env.serviceRoleKey) && insert.Inserted? ==>
      var created := old(db.insignes) + [NewInsigne(insert.id, req.body, stringify, now)];
      match answersError
      case Some(message) =>
        resp == Reply(500, Failed("Insert answers failed", DbError(message)))
        && db.Snapshot() == old(db.Snapshot()).(insignes := created)
      case None =>
        resp == Reply(200, Created(insert.id))
        && db.Snapshot() == old(db.Snapshot()).(
             insignes := created,
             answers := old(db.answers) + [AnswerRow(insert.id, Get(req.body, "answers"), now)])
  {
    if req.verb == "OPTIONS" {
      return Reply(200, NoBody);
    }
    if req.verb != "POST" {
      return Reply(405, Error("Method not allowed"));
    }
    if !Destructurable(req.body) {
      return Reply(500, Failed("Unexpected error", Raised(TypeError)));
    }
    if !ValidBody(req.body) {
      return Reply(400, Error(MissingFields));
    }
    if !(IsSet(env.supabaseUrl) && IsSet(env.serviceRoleKey)) {
      return Reply(500, Error(MissingConfig));
    }
    if insert.InsertFailed? {
      return Reply(500, Failed("Insert insigne failed", DbError(insert.message)));
    }
    db.AddInsigne(NewInsigne(insert.id, req.body, stringify, now));
    if answersError.Some? {
      return Reply(500, Failed("Insert answers failed", DbError(answersError.value)));
    }
    db.AddAnswer(AnswerRow(insert.id, Get(req.body, "answers"), now));
    resp := Reply(200, Created(insert.id));
  }
}

/**
 * The Tally webhook of `api/tally.ts`: create a draft insigne for the
 * submission and record the submission id next to it in `submission_lookup`.
 * There is no check for an earlier row with the same submission id.
 */
module TallyTs {
  import opened Wrappers
  import opened Js
  import opened Db
  import opened Http

  /** `body?.submission?.id`. */
  function SubmissionId(body: JsValue): JsValue {
    Get(Get(body, "submission"), "id")
  }

  /**
   * The handler. `insert` is the database's answer to the insigne insert,
   * `lookupWritten` whether the (unchecked) lookup insert took effect and
   * `now` the insert time.
   */
  method Handle(db: Store, req: Request, stringify: JsValue -> string, now: int,
                insert: InsertResult, lookupWritten: bool)
    returns (resp: Response)
    requires db.Valid()
    requires insert.Inserted? ==> insert.id !in Ids(db.insignes)
    modifies db
    ensures db.Valid()
    ensures req.verb != "POST" ==> resp == Reply(405, Refused) && db.Snapshot() == old(db.Snapshot())
    ensures req.verb == "POST" && !Truthy(SubmissionId(req.body)) ==>
      resp == Reply(400, Error("Missing submission id")) && db.Snapshot() == old(db.Snapshot())
    ensures req.verb == "POST" && Truthy(SubmissionId(req.body)) && insert.InsertFailed? ==>
      resp == Reply(500, Error(insert.message)) && db.Snapshot() == old(db.Snapshot())
    ensures req.verb == "POST" && Truthy(SubmissionId(req.body)) && insert.Inserted? ==>
      var row := LookupRow(AsText(SubmissionId(req.body), stringify), insert.id);
      && resp == Reply(200, Ok)
      && db.Snapshot() == old(db.Snapshot()).(
           insignes := old(db.insignes) + [NewDraft(insert.id, now)],
           submissionLookup := old(db.submissionLookup) + if lookupWritten then [row] else [])
  {
    if req.verb != "POST" {
      return Reply(405, Refused);
    }
    var submissionId := SubmissionId(req.body);
    if !Truthy(submissionId) {
      return Reply(400, Error("Missing submission id"));
    }
    if insert.InsertFailed? {
      return Reply(500, Error(insert.message));
    }
    db.AddInsigne(NewDraft(insert.id, now));
    if lookupWritten {
      db.AddSubmissionLookup(LookupRow(AsText(submissionId, stringify), insert.id));
    }
    resp := Reply(200, Ok);
  }

  /**
   * The same delivery posted twice: both succeed, two distinct draft insignes
   * appear and both lookup rows carry the same submission id.
   */
  method PostTwice(db: Store, req: Request, stringify: JsValue -> string, now1: int, now2: int,
                   id1: string, id2: string)
    returns (first: Response, second: Response)
    requires db.Valid()
    requires req.verb == "POST" && Truthy(SubmissionId(req.body))
    requires id1 !in Ids(db.insignes) && id2 !in Ids(db.insignes) && id1 != id2
    modifies db
    ensures first == Reply(200, Ok) && second == Reply(200, Ok)
    ensures db.insignes == old(db.insignes) + [NewDraft(id1, now1), NewDraft(id2, now2)]
    ensures var s := AsText(SubmissionId(req.body), stringify);
      db.submissionLookup == old(db.submissionLookup) + [LookupRow(s, id1), LookupRow(s, id2)]
  {
    first := Handle(db, req, stringify, now1, Inserted(id1), true);
    assert Ids(db.insignes) == Ids(old(db.insignes)) + {id1};
    second := Handle(db, req, stringify, now2, Inserted(id2), true);
  }
}

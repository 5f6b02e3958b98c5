/**
 * Approval (`/api/admin-approve?id=...`, admin only): set the insigne's status
 * to approved, without looking at its current status or checking it exists.
 */
module AdminApprove {
  import opened Wrappers
  import opened Db
  import opened Http

  method Handle(db: Store, env: Env, req: Request) returns (resp: Response)
    requires db.Valid()
    modifies db
    ensures db.Valid()
    ensures !AdminAuthorized(env, req) ==> resp == Reply(401, Refused) && db.Snapshot() == old(db.Snapshot())
    ensures AdminAuthorized(env, req) && Param(req, "id") == "" ==>
      resp == Reply(400, Error("Missing id")) && db.Snapshot() == old(db.Snapshot())
    ensures AdminAuthorized(env, req) && Param(req, "id") != "" ==>
      resp == Reply(200, Ok)
      && db.Snapshot() == old(db.Snapshot()).(insignes := WithStatus(old(db.insignes), Param(req, "id"), Approved))
  {
    if !AdminAuthorized(env, req) {
      return Reply(401, Refused);
    }
    var id := Param(req, "id");
    if id == "" {
      return Reply(400, Error("Missing id"));
    }
    db.SetStatus(id, Approved);
    resp := Reply(200, Ok);
  }

  /** Approving twice leaves the table approving once leaves. */
  lemma ApproveIdempotent(rows: seq<Insigne>, id: string)
    ensures WithStatus(WithStatus(rows, id, Approved), id, Approved) == WithStatus(rows, id, Approved)
  {
    WithStatusIdempotent(rows, id, Approved);
  }

  /** Approving an unknown id still answers ok and changes no row. */
  lemma ApproveUnknown(rows: seq<Insigne>, id: string)
    requires id !in Ids(rows)
    ensures WithStatus(rows, id, Approved) == rows
  {
    WithStatusUnknownId(rows, id, Approved);
  }

  /** Whatever the earlier status, the approved record reads back as approved with its other columns kept. */
  lemma ApprovedReadsBack(rows: seq<Insigne>, id: string)
    requires id in Ids(rows)
    ensures FindById(WithStatus(rows, id, Approved), id) == Some(FindById(rows, id).value.(status := Approved))
  {
    FindAfterWithStatus(rows, id, Approved);
  }

  /** Two approvals in a row: the second answers ok as well and leaves the store as the first did. */
  method ApproveTwice(db: Store, env: Env, req: Request) returns (first: Response, second: Response)
    requires db.Valid()
    requires AdminAuthorized(env, req) && Param(req, "id") != ""
    modifies db
    ensures first == Reply(200, Ok) && second == Reply(200, Ok)
    ensures db.Snapshot() == old(db.Snapshot()).(insignes := WithStatus(old(db.insignes), Param(req, "id"), Approved))
  {
    first := Handle(db, env, req);
    second := Handle(db, env, req);
    ApproveIdempotent(old(db.insignes), Param(req, "id"));
  }
}

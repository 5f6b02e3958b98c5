/**
 * `/api/lookup?submission_id=...`: the insigne id recorded for a submission
 * in `tally_submissions`. (The webhook of `api/tally.ts` writes its rows to
 * `submission_lookup`, a different table.) Read-only.
 */
module Lookup {
  import opened Wrappers
  import opened Db
  import opened Query
  import opened Http

  /** `.from("tally_submissions").eq("submission_id", id)`: the matching rows in storage order. */
  function Matching(rows: seq<LookupRow>, submissionId: string): (r: seq<LookupRow>)
    ensures forall x :: multiset(r)[x] == if x.submissionId == submissionId then multiset(rows)[x] else 0
    ensures forall x :: x in r <==> x in rows && x.submissionId == submissionId
  {
    Filter(rows, (x: LookupRow) => x.submissionId == submissionId)
  }

  /**
   * The handler over `tally_submissions` alone; `queryError` is an error of the
   * read. `.maybeSingle()` treats more than one matching row as an error.
   */
  function Handle(req: Request, tallySubmissions: seq<LookupRow>, queryError: bool): (resp: Response)
    ensures Param(req, "submission_id") == "" ==> resp == Reply(400, Error("Missing submission_id"))
    ensures Param(req, "submission_id") != "" ==>
      var m := Matching(tallySubmissions, Param(req, "submission_id"));
      if !queryError && |m| == 1
      then m[0] in tallySubmissions && m[0].submissionId == Param(req, "submission_id")
           && resp == Reply(200, Found(m[0].insigneId))
      else resp == Reply(404, Error("Not found"))
    ensures Param(req, "submission_id") != "" && !queryError
            && (forall x :: x in tallySubmissions ==> x.submissionId != Param(req, "submission_id")) ==>
      resp == Reply(404, Error("Not found"))
  {
    var submissionId := Param(req, "submission_id");
    if submissionId == "" then Reply(400, Error("Missing submission_id"))
    else
      var m := Matching(tallySubmissions, submissionId);
      if queryError || |m| != 1 then Reply(404, Error("Not found"))
      else
        assert m[0] in m;
        Reply(200, Found(m[0].insigneId))
  }
}

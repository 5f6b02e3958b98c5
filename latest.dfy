/**
 * `/api/latest`: the most recently created insigne. It reads no request
 * field and asks for no credential. Read-only.
 */
module Latest {
  import opened Wrappers
  import opened Db
  import opened Query
  import opened Http

  /** `.order("created_at", { ascending: false }).limit(1).single()`: a row with the greatest `created_at`. */
  function Newest(rows: seq<Insigne>): (r: Option<Insigne>)
    ensures r.None? <==> rows == []
    ensures r.Some? ==> r.value in rows && forall x :: x in rows ==> x.createdAt <= r.value.createdAt
  {
    Query.Newest(rows, CreatedAt)
  }

  /** The handler over `insignes`; `queryError` is the error of the read. */
  function Handle(insignes: seq<Insigne>, queryError: bool): (resp: Response)
    ensures queryError || insignes == [] ==> resp == Reply(404, Refused)
    ensures !queryError && insignes != [] ==>
      var r := Newest(insignes).value;
      && r in insignes
      && (forall x :: x in insignes ==> x.createdAt <= r.createdAt)
      && resp == Reply(200, LatestView(r.id, r.status, r.mottoLatin, r.reportText))
  {
    match Newest(insignes)
    case None => Reply(404, Refused)
    case Some(r) => if queryError then Reply(404, Refused) else Reply(200, LatestView(r.id, r.status, r.mottoLatin, r.reportText))
  }
}

/**
 * `/api/admin-queue` (admin only): the insignes awaiting approval, oldest
 * first. Read-only.
 */
module AdminQueue {
  import opened Wrappers
  import opened Db
  import opened Query
  import opened Http

  /** `.eq("status", "awaiting_approval").order("created_at", { ascending: true })`. */
  function Awaiting(rows: seq<Insigne>): (q: seq<Insigne>)
    ensures SortedBy(q, CreatedAt)
    ensures forall r :: multiset(q)[r] == if r.status == AwaitingApproval then multiset(rows)[r] else 0
    ensures forall r :: r in q <==> r in rows && r.status == AwaitingApproval
  {
    var q := SortBy(Filter(rows, (r: Insigne) => r.status == AwaitingApproval), CreatedAt);
    assert forall r :: r in q <==> multiset(q)[r] > 0;
    q
  }

  /** `.select("id,client_email,status,motto_latin,created_at")`. */
  function Item(r: Insigne): QueueItem {
    QueueItem(r.id, r.clientEmail, r.status, r.mottoLatin, r.createdAt)
  }

  /** `Item` of each record, in order. */
  function Project(q: seq<Insigne>): (items: seq<QueueItem>)
    ensures |items| == |q| && forall k :: 0 <= k < |q| ==> items[k] == Item(q[k])
  {
    seq(|q|, k requires 0 <= k < |q| => Item(q[k]))
  }

  /** The projection of a sorted run of awaiting records keeps order and status, and misses none. */
  lemma ProjectAwaiting(q: seq<Insigne>)
    requires SortedBy(q, CreatedAt)
    requires forall r :: r in q ==> r.status == AwaitingApproval
    ensures forall i, j :: 0 <= i < j < |Project(q)| ==> Project(q)[i].createdAt <= Project(q)[j].createdAt
    ensures forall k :: 0 <= k < |Project(q)| ==> Project(q)[k].status == AwaitingApproval
    ensures forall r :: r in q ==> Item(r) in Project(q)
    ensures forall k :: 0 <= k < |Project(q)| ==> q[k] in q && Project(q)[k] == Item(q[k])
  {
    var items := Project(q);
    forall k | 0 <= k < |q| ensures items[k].status == AwaitingApproval {
      assert q[k] in q;
    }
    forall r | r in q ensures Item(r) in items {
      var k :| 0 <= k < |q| && q[k] == r;
      assert items[k] == Item(r);
    }
  }

  /** The `items` of the response: one per awaiting insigne, ascending `created_at`. */
  function Items(rows: seq<Insigne>): (items: seq<QueueItem>)
    ensures |items| == |Awaiting(rows)|
    ensures forall i, j :: 0 <= i < j < |items| ==> items[i].createdAt <= items[j].createdAt
    ensures forall k :: 0 <= k < |items| ==> items[k].status == AwaitingApproval
    ensures forall r :: r in rows && r.status == AwaitingApproval ==> Item(r) in items
    ensures forall k :: 0 <= k < |items| ==>
      exists r :: r in rows && r.status == AwaitingApproval && items[k] == Item(r)
  {
    var q := Awaiting(rows);
    ProjectAwaiting(q);
    Project(q)
  }

  /** The handler over `insignes`; `queryError` is the error of the read. */
  function Handle(env: Env, req: Request, insignes: seq<Insigne>, queryError: Option<string>): (resp: Response)
    ensures !AdminAuthorized(env, req) ==> resp == Reply(401, Refused)
    ensures AdminAuthorized(env, req) && queryError.Some? ==> resp == Reply(500, Error(queryError.value))
    ensures AdminAuthorized(env, req) && queryError.None? ==> resp == Reply(200, Queue(Items(insignes)))
  {
    if !AdminAuthorized(env, req) then Reply(401, Refused)
    else if queryError.Some? then Reply(500, Error(queryError.value))
    else Reply(200, Queue(Items(insignes)))
  }
}

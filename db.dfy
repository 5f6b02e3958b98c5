/**
 * The database behind the handlers: the rows of the `insignes`, `answers`,
 * `submission_lookup`, `tally_submissions` and `assets` tables, the updates the
 * handlers issue (`.update(...).eq("id", id)`) and the `Store` object they change.
 */
module Db {
  import opened Wrappers
  import opened Js

  /** The values the handlers write into `insignes.status`. */
  datatype Status = Draft | Generating | AwaitingApproval | Approved | Delivered

  /** One row of `insignes`; the nullable text columns are `Option<string>`. */
  datatype Insigne = Insigne(
    id: string,
    status: Status,
    email: Option<string>,
    clientEmail: Option<string>,
    accessToken: Option<string>,
    reportText: Option<string>,
    mottoEnglish: Option<string>,
    mottoLatin: Option<string>,
    createdAt: int,
    userId: Option<string>,
    ownerMemberstackId: Option<string>)

  /** One row of `answers`: a raw questionnaire payload owned by one insigne. */
  datatype AnswerRow = AnswerRow(insigneId: string, payload: JsValue, createdAt: int)

  /** One row of `submission_lookup` or of `tally_submissions`. */
  datatype LookupRow = LookupRow(submissionId: string, insigneId: string)

  /** One row of `assets`: a stored object reference owned by one insigne. */
  datatype AssetRow = AssetRow(
    id: string,
    insigneId: string,
    assetType: Option<string>,
    storagePath: Option<string>,
    createdAt: int)

  /** The outcome of an insert into `insignes`: the id the database assigned, or its error message. */
  datatype InsertResult = Inserted(id: string) | InsertFailed(message: string)

  /** The whole database as a value. */
  datatype Tables = Tables(
    insignes: seq<Insigne>,
    answers: seq<AnswerRow>,
    submissionLookup: seq<LookupRow>,
    tallySubmissions: seq<LookupRow>,
    assets: seq<AssetRow>)

  function CreatedAt(r: Insigne): int { r.createdAt }

  function Ids(rows: seq<Insigne>): set<string> {
    set r | r in rows :: r.id
  }

  /** `id` is the primary key of `insignes`. */
  ghost predicate UniqueIds(rows: seq<Insigne>) {
    forall i, j :: 0 <= i < j < |rows| ==> rows[i].id != rows[j].id
  }

  /** A row freshly inserted with only `status = "draft"`: the other columns are null. */
  function NewDraft(id: string, now: int): Insigne {
    Insigne(id, Draft, None, None, None, None, None, None, now, None, None)
  }

  /** How a JSON value lands in a text column: a string as itself, anything else as its JSON text. */
  function AsText(v: JsValue, stringify: JsValue -> string): string {
    if v.Str? then v.s else stringify(v)
  }

  /** `.select(...).eq("id", id).maybeSingle()`. */
  function FindById(rows: seq<Insigne>, id: string): (r: Option<Insigne>)
    ensures r.None? <==> id !in Ids(rows)
    ensures r.Some? ==> r.value in rows && r.value.id == id
  {
    if rows == [] then None
    else if rows[0].id == id then Some(rows[0])
    else
      var r := FindById(rows[1..], id);
      assert rows == [rows[0]] + rows[1..];
      assert Ids(rows) == {rows[0].id} + Ids(rows[1..]);
      r
  }

  /** `.update({ status: s }).eq("id", id)`. */
  function WithStatus(rows: seq<Insigne>, id: string, s: Status): seq<Insigne> {
    seq(|rows|, k requires 0 <= k < |rows| => if rows[k].id == id then rows[k].(status := s) else rows[k])
  }

  /** `.update({ report_text, motto_latin, status: "awaiting_approval" }).eq("id", id)`. */
  function WithContent(rows: seq<Insigne>, id: string, report: string, motto: string): seq<Insigne> {
    seq(|rows|, k requires 0 <= k < |rows| =>
      if rows[k].id == id
      then rows[k].(reportText := Some(report), mottoLatin := Some(motto), status := AwaitingApproval)
      else rows[k])
  }

  /** A status update changes the status of the rows with that id and nothing else. */
  lemma WithStatusFrame(rows: seq<Insigne>, id: string, s: Status)
    ensures |WithStatus(rows, id, s)| == |rows|
    ensures forall k :: 0 <= k < |rows| && rows[k].id != id ==> WithStatus(rows, id, s)[k] == rows[k]
    ensures forall k :: 0 <= k < |rows| && rows[k].id == id ==>
      WithStatus(rows, id, s)[k].status == s && WithStatus(rows, id, s)[k].(status := rows[k].status) == rows[k]
    ensures Ids(WithStatus(rows, id, s)) == Ids(rows)
  {
    var r := WithStatus(rows, id, s);
    assert forall x :: x in Ids(r) ==> x in Ids(rows) by {
      forall x | x in Ids(r) ensures x in Ids(rows) {
        var k :| 0 <= k < |r| && r[k].id == x;
        assert rows[k].id == x;
      }
    }
    assert forall x :: x in Ids(rows) ==> x in Ids(r) by {
      forall x | x in Ids(rows) ensures x in Ids(r) {
        var k :| 0 <= k < |rows| && rows[k].id == x;
        assert r[k].id == x;
      }
    }
  }

  /** With `id` a key, a status update touches the one row carrying that id and no other row. */
  lemma {:induction false} WithStatusSingleRow(rows: seq<Insigne>, id: string, s: Status, i: nat)
    requires UniqueIds(rows)
    requires i < |rows| && rows[i].id == id
    ensures WithStatus(rows, id, s)[i] == rows[i].(status := s)
    ensures forall k :: 0 <= k < |rows| && k != i ==> WithStatus(rows, id, s)[k] == rows[k]
  {
    forall k | 0 <= k < |rows| && k != i ensures WithStatus(rows, id, s)[k] == rows[k] {
      if k < i { assert rows[k].id != rows[i].id; } else { assert rows[i].id != rows[k].id; }
    }
  }

  /** Applying the same status update twice gives the table applying it once gives. */
  lemma WithStatusIdempotent(rows: seq<Insigne>, id: string, s: Status)
    ensures WithStatus(WithStatus(rows, id, s), id, s) == WithStatus(rows, id, s)
  {
  }

  /** An update whose id matches no row leaves the table as it was. */
  lemma {:induction false} WithStatusUnknownId(rows: seq<Insigne>, id: string, s: Status)
    requires id !in Ids(rows)
    ensures WithStatus(rows, id, s) == rows
  {
    forall k | 0 <= k < |rows| ensures WithStatus(rows, id, s)[k] == rows[k] {
      assert rows[k].id in Ids(rows);
    }
  }

  /** Reading a row back after a status update shows the new status and the old other columns. */
  lemma {:induction false} FindAfterWithStatus(rows: seq<Insigne>, id: string, s: Status)
    ensures FindById(WithStatus(rows, id, s), id) ==
      match FindById(rows, id) case None => None case Some(r) => Some(r.(status := s))
  {
    if rows != [] {
      var w := WithStatus(rows, id, s);
      assert w[1..] == WithStatus(rows[1..], id, s);
      FindAfterWithStatus(rows[1..], id, s);
    }
  }

  /** The content update changes report text, Latin motto and status of that id, and nothing else. */
  lemma WithContentFrame(rows: seq<Insigne>, id: string, report: string, motto: string)
    ensures |WithContent(rows, id, report, motto)| == |rows|
    ensures forall k :: 0 <= k < |rows| && rows[k].id != id ==> WithContent(rows, id, report, motto)[k] == rows[k]
    ensures forall k :: 0 <= k < |rows| && rows[k].id == id ==>
      var w := WithContent(rows, id, report, motto)[k];
      w.reportText == Some(report) && w.mottoLatin == Some(motto) && w.status == AwaitingApproval
      && w.mottoEnglish == rows[k].mottoEnglish
      && w.(reportText := rows[k].reportText, mottoLatin := rows[k].mottoLatin, status := rows[k].status) == rows[k]
  {
  }

  /** The content update overwrites whatever status came before it. */
  lemma WithContentAfterStatus(rows: seq<Insigne>, id: string, s: Status, report: string, motto: string)
    ensures WithContent(WithStatus(rows, id, s), id, report, motto) == WithContent(rows, id, report, motto)
  {
  }

  /** The database the handlers read and write. */
  class Store {
    var insignes: seq<Insigne>
    var answers: seq<AnswerRow>
    var submissionLookup: seq<LookupRow>
    var tallySubmissions: seq<LookupRow>
    var assets: seq<AssetRow>

    ghost predicate Valid()
      reads this
    {
      UniqueIds(insignes)
    }

    function Snapshot(): Tables
      reads this
    {
      Tables(insignes, answers, submissionLookup, tallySubmissions, assets)
    }

    constructor ()
      ensures Valid()
      ensures Snapshot() == Tables([], [], [], [], [])
    {
      insignes, answers, submissionLookup, tallySubmissions, assets := [], [], [], [], [];
    }

    method SetStatus(id: string, s: Status)
      requires Valid()
      modifies this
      ensures Valid()
      ensures Snapshot() == old(Snapshot()).(insignes := WithStatus(old(insignes), id, s))
    {
      insignes := WithStatus(insignes, id, s);
    }

    method SetContent(id: string, report: string, motto: string)
      requires Valid()
      modifies this
      ensures Valid()
      ensures Snapshot() == old(Snapshot()).(insignes := WithContent(old(insignes), id, report, motto))
    {
      insignes := WithContent(insignes, id, report, motto);
    }

    /** Insert into `insignes`; the database hands out ids not yet in use. */
    method AddInsigne(row: Insigne)
      requires Valid()
      requires row.id !in Ids(insignes)
      modifies this
      ensures Valid()
      ensures Snapshot() == old(Snapshot()).(insignes := old(insignes) + [row])
    {
      forall k | 0 <= k < |insignes| ensures insignes[k].id != row.id {
        assert insignes[k].id in Ids(insignes);
      }
      insignes := insignes + [row];
    }

    method AddAnswer(row: AnswerRow)
      requires Valid()
      modifies this
      ensures Valid()
      ensures Snapshot() == old(Snapshot()).(answers := old(answers) + [row])
    {
      answers := answers + [row];
    }

    method AddSubmissionLookup(row: LookupRow)
      requires Valid()
      modifies this
      ensures Valid()
      ensures Snapshot() == old(Snapshot()).(submissionLookup := old(submissionLookup) + [row])
    {
      submissionLookup := submissionLookup + [row];
    }
  }
}

/**
 * `GET /api/by-token?token=...`: the owner's read path. The insigne whose
 * access token matches, reduced to its public fields, with a signed URL (or
 * the signing error) for each of its assets. Read-only.
 */
module ByToken {
  import opened Wrappers
  import opened Db
  import opened Query
  import opened Http
  import opened Signing

  /**
   * The error `.maybeSingle()` reports when more than one row matches; the
   * wording is the database API's.
   */
  const MultipleRows: string := "JSON object requested, multiple (or no) rows returned"

  /** The filter `.eq("access_token", token)`. */
  function TokenIs(token: string): Insigne -> bool {
    (x: Insigne) => x.accessToken == Some(token)
  }

  /** `.from("insignes").eq("access_token", token)`: the matching rows in storage order. */
  function WithToken(rows: seq<Insigne>, token: string): (r: seq<Insigne>)
    ensures forall x :: multiset(r)[x] == if x.accessToken == Some(token) then multiset(rows)[x] else 0
    ensures forall x :: x in r <==> x in rows && x.accessToken == Some(token)
  {
    Filter(rows, TokenIs(token))
  }

  /** `.from("assets").eq("insigne_id", id)`, storage order; a failed read (`assets || []`) is empty. */
  function AssetsOf(assets: seq<AssetRow>, id: string, assetsFailed: bool): (r: seq<AssetRow>)
    ensures assetsFailed ==> r == []
    ensures !assetsFailed ==> forall a :: multiset(r)[a] == if a.insigneId == id then multiset(assets)[a] else 0
  {
    if assetsFailed then [] else Filter(assets, (a: AssetRow) => a.insigneId == id)
  }

  /** The response's view of an insigne: neither `client_email` nor `access_token`. */
  function Public(r: Insigne): PublicInsigne {
    PublicInsigne(r.id, r.status, r.mottoLatin, r.reportText)
  }

  /** Every asset is signed for fifteen minutes; a failure lands in that asset's own entry. */
  function Entries(assets: seq<AssetRow>, bucket: string, sign: Signer): (r: seq<SignedAsset>)
    ensures |r| == |assets|
    ensures forall k :: 0 <= k < |assets| ==> r[k] == FromResult(assets[k], sign(bucket, assets[k].storagePath, ExpiresIn))
  {
    SignAll(assets, (a: AssetRow) => FromResult(a, sign(bucket, a.storagePath, ExpiresIn)))
  }

  predicate Admitted(req: Request) {
    req.verb == "GET" && Param(req, "token") != ""
  }

  /**
   * The handler over the `insignes` and `assets` tables; `insigneError` is the
   * error of the token read, `assetsFailed` a failed asset read.
   */
  function Handle(req: Request, bucket: string, insignes: seq<Insigne>, assets: seq<AssetRow>,
                  insigneError: Option<string>, assetsFailed: bool, sign: Signer): (resp: Response)
    ensures req.verb == "OPTIONS" ==> resp == Reply(204, NoBody)
    ensures req.verb != "OPTIONS" && req.verb != "GET" ==> resp == Reply(405, Refused)
    ensures req.verb == "GET" && Param(req, "token") == "" ==> resp == Reply(400, Error("Missing token"))
    ensures Admitted(req) && insigneError.Some? ==> resp == Reply(500, Error(insigneError.value))
    ensures Admitted(req) && insigneError.None?
            && (forall r :: r in insignes ==> r.accessToken != Some(Param(req, "token"))) ==>
      resp == Reply(404, Error("Not found"))
    ensures Admitted(req) && insigneError.None? && |WithToken(insignes, Param(req, "token"))| > 1 ==>
      resp == Reply(500, Error(MultipleRows))
    ensures Admitted(req) && insigneError.None? && |WithToken(insignes, Param(req, "token"))| == 1 ==>
      var r := WithToken(insignes, Param(req, "token"))[0];
      && r in insignes && r.accessToken == Some(Param(req, "token"))
      && resp == Reply(200, TokenView(Public(r), Entries(AssetsOf(assets, r.id, assetsFailed), bucket, sign)))
  {
    if req.verb == "OPTIONS" then Reply(204, NoBody)
    else if req.verb != "GET" then Reply(405, Refused)
    else
      var token := Param(req, "token");
      if token == "" then Reply(400, Error("Missing token"))
      else if insigneError.Some? then Reply(500, Error(insigneError.value))
      else
        var matches := WithToken(insignes, token);
        assert matches != [] ==> matches[0] in matches;
        if |matches| > 1 then Reply(500, Error(MultipleRows))
        else if matches == [] then Reply(404, Error("Not found"))
        else
          var r := matches[0];
          assert r in matches;
          Reply(200, TokenView(Public(r), Entries(AssetsOf(assets, r.id, assetsFailed), bucket, sign)))
  }

  /** `rows` with each record's `client_email` replaced by the one given at its position. */
  function Reemail(rows: seq<Insigne>, emails: seq<Option<string>>): seq<Insigne>
    requires |emails| == |rows|
  {
    seq(|rows|, k requires 0 <= k < |rows| => rows[k].(clientEmail := emails[k]))
  }

  lemma WithTokenReemail(rows: seq<Insigne>, emails: seq<Option<string>>, token: string)
    requires |emails| == |rows|
    ensures |WithToken(Reemail(rows, emails), token)| == |WithToken(rows, token)|
    ensures forall k :: 0 <= k < |WithToken(rows, token)| ==>
      Public(WithToken(Reemail(rows, emails), token)[k]) == Public(WithToken(rows, token)[k])
  {
    FilterAlike(Reemail(rows, emails), rows, TokenIs(token), Public);
  }

  /** The client email of a record never influences what the token path answers. */
  lemma HidesClientEmail(req: Request, bucket: string, insignes: seq<Insigne>, emails: seq<Option<string>>,
                         assets: seq<AssetRow>, insigneError: Option<string>, assetsFailed: bool, sign: Signer)
    requires |emails| == |insignes|
    ensures Handle(req, bucket, Reemail(insignes, emails), assets, insigneError, assetsFailed, sign)
         == Handle(req, bucket, insignes, assets, insigneError, assetsFailed, sign)
  {
    WithTokenReemail(insignes, emails, Param(req, "token"));
  }
}

/**
 * `GET /api/insigne?id=...`: an insigne's status and Latin motto together with
 * its assets, oldest first, each with a fifteen-minute signed URL or the
 * reason it has none. Read-only: the handler is a function of the tables.
 */
module InsigneById {
  import opened Wrappers
  import opened Db
  import opened Query
  import opened Http
  import opened Signing

  const MissingConnection: string := "Missing SUPABASE_URL or SUPABASE_SERVICE_ROLE_KEY in Vercel env vars"
  const MissingBucket: string :=
    "Missing SUPABASE_STORAGE_BUCKET in Vercel env vars (set it to your Storage bucket name)"
  const MissingPath: string := "Missing storage_path"

  function AssetCreatedAt(a: AssetRow): int { a.createdAt }

  /** `.from("assets").eq("insigne_id", id).order("created_at", { ascending: true })`. */
  function OwnAssets(assets: seq<AssetRow>, id: string): (r: seq<AssetRow>)
    ensures SortedBy(r, AssetCreatedAt)
    ensures forall a :: multiset(r)[a] == if a.insigneId == id then multiset(assets)[a] else 0
  {
    SortBy(Filter(assets, (a: AssetRow) => a.insigneId == id), AssetCreatedAt)
  }

  /** `!a.storage_path`. */
  predicate MissingStoragePath(a: AssetRow) {
    a.storagePath == None || a.storagePath == Some("")
  }

  /** One entry: a missing path short-circuits, anything else is signed for fifteen minutes. */
  function Entry(a: AssetRow, bucket: string, sign: Signer): SignedAsset {
    if MissingStoragePath(a) then SignedAsset(a.assetType, a.storagePath, None, Some(MissingPath))
    else FromResult(a, sign(bucket, a.storagePath, ExpiresIn))
  }

  /**
   * The asset list of the response: one entry per asset, in order, each
   * decided by its own asset and its own signing result only.
   */
  function Entries(assets: seq<AssetRow>, bucket: string, sign: Signer): (r: seq<SignedAsset>)
    ensures |r| == |assets|
    ensures forall k :: 0 <= k < |assets| ==>
      r[k].assetType == assets[k].assetType && r[k].storagePath == assets[k].storagePath
    ensures forall k :: 0 <= k < |assets| && MissingStoragePath(assets[k]) ==>
      r[k].signedUrl == None && r[k].signedUrlError == Some(MissingPath)
    ensures forall k :: 0 <= k < |assets| && !MissingStoragePath(assets[k]) ==>
      r[k] == FromResult(assets[k], sign(bucket, assets[k].storagePath, ExpiresIn))
  {
    SignAll(assets, (a: AssetRow) => Entry(a, bucket, sign))
  }

  /** An asset without a path never reaches the signer: any two signers give it the same entry. */
  lemma MissingPathNotSigned(assets: seq<AssetRow>, bucket: string, s1: Signer, s2: Signer, k: nat)
    requires k < |assets| && MissingStoragePath(assets[k])
    ensures Entries(assets, bucket, s1)[k] == Entries(assets, bucket, s2)[k]
  {
  }

  /** The bucket the handler signs in: `SUPABASE_STORAGE_BUCKET || ""`. */
  function Bucket(env: Env): string {
    env.storageBucket.GetOr("")
  }

  /** The request gets as far as the database reads. */
  predicate Admitted(req: Request, env: Env) {
    req.verb == "GET" && Param(req, "id") != ""
    && IsSet(env.supabaseUrl) && IsSet(env.serviceRoleKey) && Bucket(env) != ""
  }

  /**
   * The handler over the `insignes` and `assets` tables; `insigneError` and
   * `assetsError` are the errors the two reads report, `sign` the storage backend.
   */
  function Handle(req: Request, env: Env, insignes: seq<Insigne>, assets: seq<AssetRow>,
                  insigneError: Option<string>, assetsError: Option<string>, sign: Signer): (resp: Response)
    ensures req.verb != "GET" ==> resp == Reply(405, Error("Method not allowed"))
    ensures req.verb == "GET" && Param(req, "id") == "" ==> resp == Reply(400, Error("Missing query param: id"))
    ensures req.verb == "GET" && Param(req, "id") != "" && !(IsSet(env.supabaseUrl) && IsSet(env.serviceRoleKey)) ==>
      resp == Reply(500, Error(MissingConnection))
    ensures req.verb == "GET" && Param(req, "id") != "" && IsSet(env.supabaseUrl) && IsSet(env.serviceRoleKey)
            && Bucket(env) == "" ==>
      resp == Reply(500, Error(MissingBucket))
    ensures Admitted(req, env) && insigneError.Some? ==>
      resp == Reply(500, Failed("Failed to load insigne", DbError(insigneError.value)))
    ensures Admitted(req, env) && insigneError.None? && Param(req, "id") !in Ids(insignes) ==>
      resp == Reply(404, Error("Insigne not found"))
    ensures Admitted(req, env) && insigneError.None? && Param(req, "id") in Ids(insignes) && assetsError.Some? ==>
      resp == Reply(500, Failed("Failed to load assets", DbError(assetsError.value)))
    ensures Admitted(req, env) && insigneError.None? && Param(req, "id") in Ids(insignes) && assetsError.None? ==>
      var r := FindById(insignes, Param(req, "id")).value;
      resp == Reply(200, InsigneView(r.id, r.status, r.mottoLatin,
                                     Entries(OwnAssets(assets, r.id), Bucket(env), sign)))
  {
    if req.verb != "GET" then Reply(405, Error("Method not allowed"))
    else
      var id := Param(req, "id");
      if id == "" then Reply(400, Error("Missing query param: id"))
      else if !(IsSet(env.supabaseUrl) && IsSet(env.serviceRoleKey)) then Reply(500, Error(MissingConnection))
      else if Bucket(env) == "" then Reply(500, Error(MissingBucket))
      else if insigneError.Some? then Reply(500, Failed("Failed to load insigne", DbError(insigneError.value)))
      else
        match FindById(insignes, id)
        case None => Reply(404, Error("Insigne not found"))
        case Some(r) =>
          if assetsError.Some? then Reply(500, Failed("Failed to load assets", DbError(assetsError.value)))
          else Reply(200, InsigneView(r.id, r.status, r.mottoLatin, Entries(OwnAssets(assets, id), Bucket(env), sign)))
  }

  /** Signing failures never change the outcome: once the reads succeed the answer is a 200 for every signer. */
  lemma SigningNeverFails(req: Request, env: Env, insignes: seq<Insigne>, assets: seq<AssetRow>, sign: Signer)
    requires Admitted(req, env) && Param(req, "id") in Ids(insignes)
    ensures Handle(req, env, insignes, assets, None, None, sign).Reply?
    ensures Handle(req, env, insignes, assets, None, None, sign).code == 200
    ensures Handle(req, env, insignes, assets, None, None, sign).body.InsigneView?
    ensures |Handle(req, env, insignes, assets, None, None, sign).body.assets| == |OwnAssets(assets, Param(req, "id"))|
  {
  }
}

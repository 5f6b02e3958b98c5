/**
 * Signed retrieval URLs for stored assets. The storage backend is an oracle
 * `Signer`: given the bucket, the asset's `storage_path` and a lifetime in
 * seconds it answers with a URL or an error message.
 */
module Signing {
  import opened Wrappers
  import opened Db

  /** `60 * 15`: every signed URL lives fifteen minutes. */
  const ExpiresIn: int := 60 * 15

  datatype SignResult = SignedUrl(url: string) | SignFailed(message: string)

  type Signer = (string, Option<string>, int) -> SignResult

  /** One entry of a response's asset list. */
  datatype SignedAsset = SignedAsset(
    assetType: Option<string>,
    storagePath: Option<string>,
    signedUrl: Option<string>,
    signedUrlError: Option<string>)

  /** `{ asset_type, storage_path, signed_url: data?.signedUrl ?? null, signed_url_error: error?.message ?? null }`. */
  function FromResult(a: AssetRow, s: SignResult): (e: SignedAsset)
    ensures e.assetType == a.assetType && e.storagePath == a.storagePath
    ensures s.SignedUrl? ==> e.signedUrl == Some(s.url) && e.signedUrlError == None
    ensures s.SignFailed? ==> e.signedUrl == None && e.signedUrlError == Some(s.message)
  {
    match s
    case SignedUrl(url) => SignedAsset(a.assetType, a.storagePath, Some(url), None)
    case SignFailed(message) => SignedAsset(a.assetType, a.storagePath, None, Some(message))
  }

  /** The per-asset fan-out, joined by position. */
  function SignAll(assets: seq<AssetRow>, entry: AssetRow -> SignedAsset): (r: seq<SignedAsset>)
    ensures |r| == |assets|
    ensures forall k :: 0 <= k < |assets| ==> r[k] == entry(assets[k])
  {
    seq(|assets|, k requires 0 <= k < |assets| => entry(assets[k]))
  }
}

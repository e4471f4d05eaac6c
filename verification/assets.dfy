/**
 The read-only projection of the backend's generated assets that the preview
 page holds, and its flattening into one list.
 */
module Assets {
  import opened Wrappers
  import opened Selection

  /** Pixel dimensions of an asset. */
  datatype Dimensions = Dimensions(width: int, height: int)

  /** One generated image variant. */
  datatype GeneratedAsset = GeneratedAsset(
    id: Id,
    originalAssetId: string,
    filename: string,
    assetUrl: string,
    platformName: Option<string>,
    formatName: string,
    dimensions: Dimensions,
    isNsfw: bool)

  /** One key of the job's results object: a platform and its assets. */
  datatype PlatformEntry = PlatformEntry(platform: string, assets: seq<GeneratedAsset>)

  /** The job's results object, its entries in `Object.keys` order (integer-like
      keys first), which is also the order `Object.values` reads them in. */
  type JobResults = seq<PlatformEntry>

  /** `Object.values(jobResults).flat()`: every asset, platform by platform. */
  function AllAssets(results: JobResults): (r: seq<GeneratedAsset>)
    ensures forall a :: a in r <==> exists i :: 0 <= i < |results| && a in results[i].assets
  {
    if |results| == 0 then []
    else
      var rest := AllAssets(results[1..]);
      assert forall a :: a in rest <==> exists i :: 1 <= i < |results| && a in results[i].assets by {
        forall a | a in rest ensures exists i :: 1 <= i < |results| && a in results[i].assets {
          var i :| 0 <= i < |results| - 1 && a in results[1..][i].assets;
          assert a in results[i + 1].assets;
        }
      }
      results[0].assets + rest
  }

  /** Flattening distributes over concatenation: the assets come platform by
      platform, in order, repeats kept. */
  lemma {:induction false} AllAssetsConcat(a: JobResults, b: JobResults)
    ensures AllAssets(a + b) == AllAssets(a) + AllAssets(b)
    decreases |a|
  {
    if |a| == 0 {
      assert a + b == b;
    } else {
      assert (a + b)[1..] == a[1..] + b;
      AllAssetsConcat(a[1..], b);
    }
  }

  /** One platform entry flattens to exactly its own asset list. */
  lemma AllAssetsSingle(e: PlatformEntry)
    ensures AllAssets([e]) == e.assets
  {
    assert [e][1..] == [];
  }

  /** `allAssets.map(asset => asset.id)`. */
  function AssetIds(assets: seq<GeneratedAsset>): (r: seq<Id>)
    ensures |r| == |assets|
    ensures forall k :: 0 <= k < |r| ==> r[k] == assets[k].id
  {
    seq(|assets|, k requires 0 <= k < |assets| => assets[k].id)
  }

  /** `Object.keys(results)[0]` read as a condition: the first key, when there
      is one and it is not the (falsy) empty string. */
  function FirstPlatform(results: JobResults): (r: Option<string>)
    ensures r.Some? <==> |results| > 0 && results[0].platform != ""
    ensures r.Some? ==> r.value == results[0].platform
  {
    if |results| > 0 && results[0].platform != "" then Some(results[0].platform) else None
  }
}

/**
 The preview page's selection of generated assets, its expand/collapse list
 of platforms, and the download request built from the batch-download
 dialog.
 */
module PreviewPage {
  import opened Wrappers
  import opened Selection
  import opened Assets

  /** The ids `handleSelectAll` selects: `allAssets.map(asset => asset.id)`. */
  function AllAssetIds(results: JobResults): (r: seq<Id>)
    ensures |r| == |AllAssets(results)|
    ensures forall k :: 0 <= k < |r| ==> r[k] == AllAssets(results)[k].id
  {
    AssetIds(AllAssets(results))
  }

  /** `handleAssetSelect`: flips the membership of one asset id and nothing
      else, and keeps the invariant for an id of the results. */
  function AssetSelect(sel: seq<Id>, results: JobResults, id: Id): (r: seq<Id>)
    ensures id in r <==> id !in sel
    ensures forall y :: y != id ==> (y in r <==> y in sel)
    ensures id !in sel ==> r == sel + [id]
    ensures Wellformed(sel, AllAssetIds(results)) && id in AllAssetIds(results) ==> Wellformed(r, AllAssetIds(results))
  {
    var r := Toggle(sel, id);
    assert Wellformed(sel, AllAssetIds(results)) && id in AllAssetIds(results) ==> Wellformed(r, AllAssetIds(results)) by {
      if Wellformed(sel, AllAssetIds(results)) && id in AllAssetIds(results) {
        ToggleKeepsWellformed(sel, AllAssetIds(results), id);
      }
    }
    r
  }

  /** `handleSelectAll`: clears a selection as long as the asset list and
      selects every asset id otherwise. When the backend's asset ids are
      distinct and the selection is well formed, it clears exactly a
      complete selection. */
  function SelectAll(sel: seq<Id>, results: JobResults): (r: seq<Id>)
    ensures |sel| == |AllAssets(results)| ==> r == []
    ensures |sel| != |AllAssets(results)| ==> r == AllAssetIds(results)
    ensures NoDup(AllAssetIds(results)) && Wellformed(sel, AllAssetIds(results)) ==>
      Wellformed(r, AllAssetIds(results)) && (AllSelected(sel, AllAssetIds(results)) <==> r == [])
  {
    var ids := AllAssetIds(results);
    var r := SelectAllToggle(sel, ids);
    assert NoDup(ids) && Wellformed(sel, ids) ==> Wellformed(r, ids) && (AllSelected(sel, ids) <==> r == []) by {
      if NoDup(ids) && Wellformed(sel, ids) {
        SelectAllToggleMeaning(sel, ids);
        if |ids| == 0 {
          assert AllSelected(sel, ids);
        }
      }
    }
    r
  }

  /** The "Select All" checkbox: `selectedAssets.length === allAssets.length
      && allAssets.length > 0`; for distinct asset ids and a well-formed
      selection it is checked exactly when some asset exists and all are
      selected. */
  function SelectAllChecked(sel: seq<Id>, results: JobResults): (b: bool)
    ensures NoDup(AllAssetIds(results)) && Wellformed(sel, AllAssetIds(results)) ==>
      (b <==> |AllAssets(results)| > 0 && AllSelected(sel, AllAssetIds(results)))
  {
    var b := |sel| == |AllAssets(results)| && |AllAssets(results)| > 0;
    assert NoDup(AllAssetIds(results)) && Wellformed(sel, AllAssetIds(results)) ==>
      (b <==> |AllAssets(results)| > 0 && AllSelected(sel, AllAssetIds(results))) by {
      if NoDup(AllAssetIds(results)) && Wellformed(sel, AllAssetIds(results)) {
        LengthMeansAllSelected(sel, AllAssetIds(results));
      }
    }
    b
  }

  /** What the user can do to the asset selection once the results are in:
      click the checkbox of asset `index` of the flattened list, or click
      "Select All". */
  datatype AssetAction = ClickAsset(index: nat) | ClickSelectAll

  /** The selection after one action; a click on an asset the list does not
      have changes nothing. */
  function Apply(sel: seq<Id>, results: JobResults, a: AssetAction): seq<Id> {
    match a
    case ClickAsset(k) => if k < |AllAssets(results)| then AssetSelect(sel, results, AllAssets(results)[k].id) else sel
    case ClickSelectAll => SelectAll(sel, results)
  }

  /** The selection after a sequence of actions on the same results. */
  function Replay(sel: seq<Id>, results: JobResults, actions: seq<AssetAction>): seq<Id>
    decreases |actions|
  {
    if |actions| == 0 then sel else Replay(Apply(sel, results, actions[0]), results, actions[1..])
  }

  /** One action keeps the invariant when the asset ids are distinct. */
  lemma ApplyKeepsWellformed(sel: seq<Id>, results: JobResults, a: AssetAction)
    requires NoDup(AllAssetIds(results))
    requires Wellformed(sel, AllAssetIds(results))
    ensures Wellformed(Apply(sel, results, a), AllAssetIds(results))
  {
    if a.ClickAsset? && a.index < |AllAssets(results)| {
      assert AllAssets(results)[a.index].id == AllAssetIds(results)[a.index];
    }
  }

  /** Every action sequence keeps the invariant. */
  lemma {:induction false} ReplayKeepsWellformed(sel: seq<Id>, results: JobResults, actions: seq<AssetAction>)
    requires NoDup(AllAssetIds(results))
    requires Wellformed(sel, AllAssetIds(results))
    ensures Wellformed(Replay(sel, results, actions), AllAssetIds(results))
    decreases |actions|
  {
    if |actions| > 0 {
      ApplyKeepsWellformed(sel, results, actions[0]);
      ReplayKeepsWellformed(Apply(sel, results, actions[0]), results, actions[1..]);
    }
  }

  /** When the backend's asset ids are distinct, every selection reachable
      from the initial empty one keeps the invariant, so the "Select All"
      checkbox shows exactly "some asset exists and all are selected". */
  lemma ReachableSelectionsWellformed(results: JobResults, actions: seq<AssetAction>)
    requires NoDup(AllAssetIds(results))
    ensures Wellformed(Replay([], results, actions), AllAssetIds(results))
    ensures SelectAllChecked(Replay([], results, actions), results) <==>
      |AllAssets(results)| > 0 && AllSelected(Replay([], results, actions), AllAssetIds(results))
  {
    ReplayKeepsWellformed([], results, actions);
  }

  /** `togglePlatform`: opens a closed platform at the end of the list and
      closes an open one, touching no other platform. */
  function TogglePlatform(open: seq<string>, platform: string): (r: seq<string>)
    ensures platform in r <==> platform !in open
    ensures forall q :: q != platform ==> (q in r <==> q in open)
    ensures platform !in open ==> r == open + [platform]
  {
    Toggle(open, platform)
  }

  /** Toggling a platform twice restores which platforms are open, and the
      very same list when it was closed. */
  lemma TogglePlatformTwice(open: seq<string>, platform: string)
    ensures forall q :: q in TogglePlatform(TogglePlatform(open, platform), platform) <==> q in open
    ensures platform !in open ==> TogglePlatform(TogglePlatform(open, platform), platform) == open
  {
    ToggleTwice(open, platform);
  }

  // ---------------------------------------------------------------------
  // Batch download
  // ---------------------------------------------------------------------

  /** The formats, qualities and groupings the download endpoint accepts. */
  datatype Format = Jpeg | Png
  datatype Quality = High | Medium | Low
  datatype Grouping = Individual | Batch | Category

  /** The request body of the batch download. */
  datatype DownloadRequest = DownloadRequest(assetIds: seq<Id>, format: Format, quality: Quality, grouping: Grouping)

  /** `formatMap[label] || 'jpeg'`: PNG maps to png, JPEG and the unsupported
      PSD fall back to jpeg, as does any label missing from the map
      (inherited property names such as `constructor` aside). */
  function FormatFor(choice: string): (f: Format)
    ensures f == Png <==> choice == "PNG"
  {
    if choice == "JPEG" then Jpeg
    else if choice == "PNG" then Png
    else if choice == "PSD" then Jpeg
    else Jpeg
  }

  /** `qualityMap[label] || 'high'`. */
  function QualityFor(choice: string): (q: Quality)
    ensures q == Medium <==> choice == "Medium"
    ensures q == Low <==> choice == "Low"
  {
    if choice == "High" then High
    else if choice == "Medium" then Medium
    else if choice == "Low" then Low
    else High
  }

  /** `groupingMap[label] || 'batch'`: the dialog never asks for grouping by
      category. */
  function GroupingFor(choice: string): (g: Grouping)
    ensures g != Category
    ensures g == Individual <==> choice == "Individual"
  {
    if choice == "Individual" then Individual
    else if choice == "Batch" then Batch
    else Batch
  }

  /** The option label the dialog shows for each backend value. */
  function FormatLabel(f: Format): string {
    match f
    case Jpeg => "JPEG"
    case Png => "PNG"
  }

  function QualityLabel(q: Quality): string {
    match q
    case High => "High"
    case Medium => "Medium"
    case Low => "Low"
  }

  function GroupingLabel(g: Grouping): string
    requires g != Category
  {
    if g == Individual then "Individual" else "Batch"
  }

  /** The label maps invert the dialog's labels: every backend value the
      dialog can ask for is reached from its own label, and the three
      quality labels and two grouping labels are told apart. PSD is the one
      label that lands on another label's value. */
  lemma LabelMapsRoundTrip(f: Format, q: Quality, g: Grouping)
    requires g != Category
    ensures FormatFor(FormatLabel(f)) == f
    ensures QualityFor(QualityLabel(q)) == q
    ensures GroupingFor(GroupingLabel(g)) == g
    ensures QualityLabel(QualityFor("High")) == "High" && QualityLabel(QualityFor("Medium")) == "Medium" && QualityLabel(QualityFor("Low")) == "Low"
    ensures FormatFor("PSD") == FormatFor("JPEG") == Jpeg
  {
  }

  /** `handleBatchDownload` up to the request: no request for an empty
      selection; otherwise the selected ids in order with the mapped labels. */
  function BatchDownload(sel: seq<Id>, format: string, quality: string, option: string): (r: Option<DownloadRequest>)
    ensures r.None? <==> |sel| == 0
    ensures r.Some? ==> r.value.assetIds == sel
    ensures r.Some? ==> (r.value.format == Png <==> format == "PNG")
    ensures r.Some? ==> r.value.grouping != Category
    ensures r.Some? ==> r.value.format == FormatFor(format) && r.value.quality == QualityFor(quality) && r.value.grouping == GroupingFor(option)
  {
    if |sel| == 0 then None
    else Some(DownloadRequest(sel, FormatFor(format), QualityFor(quality), GroupingFor(option)))
  }
}

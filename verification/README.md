# AI-Creat client logic in Dafny

This project models the client-side logic of three React pages of the
AI-Creat front end. That logic is small, deterministic and sequential:

- **The job-status poll loop of the real-time preview page.** The loop asks
  the backend for the status of a generation job. A `completed` status makes
  it fetch the results once and expand the first platform. `failed` stops it
  with an error. Any other status polls again after 2000 ms, and a failed
  status request retries after 5000 ms. The effect's cleanup sets a
  `cancelled` flag and clears the armed timer.
  - `JobPoller` models this as a pure transition function `Step` over input
    events: a status reply, a status error, a results reply, a results
    error, the armed timer firing, and teardown.
  - Each step returns the page state it writes (`View`) plus a log of the
    requests it issued and the timer delays it armed.
- **The selection lists.** The repurposing grid, the multi-channel template
  page and the preview page each keep their selection as an array of ids.
  - Toggling removes a present id or appends an absent one.
  - "Select all" compares lengths.
  - A platform's select-all either filters the platform's ids out or
    unions them in with `[...new Set([...prev, ...ids])]`.
  - `Selection` defines these once. Its central lemma, `LengthMeansAllSelected`,
    says that under the invariant "no duplicates and nothing outside the
    page's ids", the length test means "everything is selected".
  - Each page module proves that its initial selection and every user action
    keep that invariant. For the preview page this holds only when the
    backend's asset ids are distinct, which the page does not check.
- **The batch download request.** With an empty selection no request is
  made. Otherwise the dialog's labels map to backend values: PSD falls back
  to jpeg, and the defaults are jpeg, high and batch.

Modules:
- `Wrappers`: `Option`.
- `Selection`: the shared list operations and their lemmas.
- `Theme`: the dark/light switch.
- `RepurposingGrid` and `MultiChannelSelection`: each page's data, handlers
  and reachable states.
- `Assets`: the results object and its flattening.
- `JobPoller`: the poll loop.
- `PreviewPage`: asset selection, the platform accordion and the download
  request.

Every branch of the poll loop checks `cancelled` except one: when the
results request rejects, the page sets "Failed to load generated assets"
and clears `loading` without looking at `cancelled`. The model keeps that
branch as written. `JobPoller.CancelledStaysQuiet` states the exact residue, and
`JobPoller.ResultsErrorIgnoresTeardown` exhibits it.

## Model

| member | source | states |
|---|---|---|
| Selection.Flatten | frontend/src/pages/UserPages/RepurposingGrid.tsx:16 | an id is in the flattened list exactly when it is in one of the per-card lists |
| Selection.FlattenNoDup | frontend/src/pages/UserPages/MultiChannelSelectionPage.tsx:39 | flattening duplicate-free, pairwise disjoint lists gives a duplicate-free list |
| Selection.Without | frontend/src/pages/UserPages/RepurposingGrid.tsx:40 | `filter` keeps exactly the elements not dropped and never grows the list |
| Selection.WithoutIsSubsequence | frontend/src/pages/UserPages/RepurposingGrid.tsx:35-40 | filtering only deletes: the kept elements stay in their original order |
| Selection.WithoutNoDup | frontend/src/pages/UserPages/RepurposingGrid.tsx:29 | filtering a duplicate-free list keeps it duplicate-free |
| Selection.Toggle | frontend/src/pages/UserPages/RealTimePreviewPage.tsx:124-128 | the toggled id changes membership and every other id keeps its membership |
| Selection.ToggleAbsentAppends | frontend/src/pages/UserPages/RepurposingGrid.tsx:29 | an absent id is appended at the end, with the rest of the list unchanged |
| Selection.ToggleRemovesInPlace | frontend/src/pages/UserPages/RepurposingGrid.tsx:27-31 | in a duplicate-free list, toggling the id at position i deletes exactly position i and keeps the order of the rest |
| Selection.ToggleTwice | frontend/src/pages/UserPages/MultiChannelSelectionPage.tsx:46-50 | toggling twice restores membership, and restores the very same list when the id was absent |
| Selection.ToggleKeepsWellformed | frontend/src/pages/UserPages/MultiChannelSelectionPage.tsx:46-50 | toggling an id of the page keeps "no duplicates, nothing outside the page's ids" |
| Selection.AppendNew | frontend/src/pages/UserPages/RepurposingGrid.tsx:42 | appending the not-yet-seen ids in first-insertion order unions the memberships, extends the prefix and adds no duplicate |
| Selection.Dedup | frontend/src/pages/UserPages/RepurposingGrid.tsx:42 | `[...new Set(xs)]` is duplicate-free and has the same members as `xs` |
| Selection.UnionAppendsMissing | frontend/src/pages/UserPages/RepurposingGrid.tsx:41-43 | for duplicate-free inputs, the Set union is the old selection followed by the missing ids in their own order |
| Selection.SelectAllToggle | frontend/src/pages/UserPages/RepurposingGrid.tsx:48-54 | a global select-all yields `[]` when the selection is as long as the page's id list, and the whole id list otherwise |
| Selection.GroupSelectAll | frontend/src/pages/UserPages/RepurposingGrid.tsx:34-45 | a fully selected group is removed and nothing else is; otherwise the whole group ends up selected and nothing selected is lost |
| Selection.LengthMeansAllSelected | frontend/src/pages/UserPages/RepurposingGrid.tsx:57-60 | under the invariant and with distinct page ids, equal lengths hold exactly when every page id is selected |
| Selection.SelectAllToggleMeaning | frontend/src/pages/UserPages/MultiChannelSelectionPage.tsx:52-58 | under the invariant, select-all keeps the invariant and clears exactly a complete selection |
| Selection.GroupSelectAllKeepsWellformed | frontend/src/pages/UserPages/RepurposingGrid.tsx:34-45 | a group select-all over ids of the page keeps the invariant |
| Selection.GroupSelectAllAppendsMissing | frontend/src/pages/UserPages/RepurposingGrid.tsx:41-43 | selecting a partly selected group keeps the selection and appends the group's missing ids in order |
| Selection.GroupSelectAllTwice | frontend/src/pages/UserPages/RepurposingGrid.tsx:36-43 | after one press the group is fully selected; a second press leaves the original selection minus the group, in order |
| Theme.ThemeToggle | frontend/src/pages/UserPages/MultiChannelSelectionPage.tsx:62-64 | the theme switch always yields the other theme |
| Theme.ThemeToggleTwice | frontend/src/pages/UserPages/RealTimePreviewPage.tsx:49-51 | switching the theme twice gives back the original theme |
| RepurposingGrid.ItemIdInjective | frontend/src/pages/UserPages/RepurposingGrid.tsx:16 | when platform names have no dash, `${platform}-${item}` determines both the platform and the item |
| RepurposingGrid.PlatformIds | frontend/src/pages/UserPages/RepurposingGrid.tsx:35 | a card's ids are its items, one id per item in the card's order, each the platform and the item joined by a dash (the same list the render builds at line 72) |
| RepurposingGrid.PlatformIdsNoDup | frontend/src/pages/UserPages/RepurposingGrid.tsx:35 | a card with distinct item names has distinct ids |
| RepurposingGrid.PlatformsAreDistinct | frontend/src/pages/UserPages/RepurposingGrid.tsx:4-13 | no two cards of the grid share a platform name |
| RepurposingGrid.CardsAreDistinct | frontend/src/pages/UserPages/RepurposingGrid.tsx:4-13 | no card's platform name contains a dash, and no card lists an item twice |
| RepurposingGrid.AllItemIdsNoDup | frontend/src/pages/UserPages/RepurposingGrid.tsx:16 | `allItemIds` lists every item id exactly once |
| RepurposingGrid.CardIdsInUniverse | frontend/src/pages/UserPages/RepurposingGrid.tsx:16 | every id a card's select-all button uses is one of `allItemIds` |
| RepurposingGrid.InitialSelectionWellformed | frontend/src/pages/UserPages/RepurposingGrid.tsx:20-24 | the three initially checked ids are distinct ids of the grid |
| RepurposingGrid.InitialIdsAreFirstItems | frontend/src/pages/UserPages/RepurposingGrid.tsx:20-24 | the three initial ids are the first ids of the Instagram, Youtube and Facebook cards |
| RepurposingGrid.AreAllPlatformItemsChecked | frontend/src/pages/UserPages/RepurposingGrid.tsx:35-36 | a card counts as fully checked exactly when `${platform}-${item}` is selected for every item of the card |
| RepurposingGrid.CheckChange | frontend/src/pages/UserPages/RepurposingGrid.tsx:27-31 | the clicked id flips membership and no other id does; an absent id is appended; an id of the grid keeps the invariant |
| RepurposingGrid.PlatformSelectAll | frontend/src/pages/UserPages/RepurposingGrid.tsx:34-45 | a fully checked card is unchecked and nothing else is; otherwise the card ends up fully checked and nothing is lost; the invariant is kept |
| RepurposingGrid.PlatformDeselectKeepsOrder | frontend/src/pages/UserPages/RepurposingGrid.tsx:35-40 | unchecking a card keeps the other selected ids in their original order |
| RepurposingGrid.PlatformSelectAppendsMissing | frontend/src/pages/UserPages/RepurposingGrid.tsx:41-43 | checking a partly checked card gives the prior selection followed by the card's missing ids in item order |
| RepurposingGrid.PlatformSelectAllTwice | frontend/src/pages/UserPages/RepurposingGrid.tsx:34-45 | one press makes "all platform items checked" hold; the next press leaves the prior selection without that card |
| RepurposingGrid.GlobalSelectAll | frontend/src/pages/UserPages/RepurposingGrid.tsx:48-54 | equal lengths give `[]`, otherwise `allItemIds`; under the invariant this is "clear when all selected, else select all", and the result keeps the invariant |
| RepurposingGrid.UniverseNotEmpty | frontend/src/pages/UserPages/RepurposingGrid.tsx:16 | the grid has at least one item id |
| RepurposingGrid.IsAllGloballySelected | frontend/src/pages/UserPages/RepurposingGrid.tsx:57-60 | under the invariant, the global checkbox is checked exactly when every item id is selected |
| RepurposingGrid.ReplayKeepsWellformed | frontend/src/pages/UserPages/RepurposingGrid.tsx:27-54 | any sequence of clicks on rendered controls keeps the invariant |
| RepurposingGrid.ReachableSelectionsWellformed | frontend/src/pages/UserPages/RepurposingGrid.tsx:20-60 | every selection reachable from the initial one is well formed, and the global checkbox then means "everything selected" |
| MultiChannelSelection.AllTemplateIdsAreTen | frontend/src/pages/UserPages/MultiChannelSelectionPage.tsx:6-39 | `allTemplateIds` is the in-order flattening of the categories: exactly the ten listed ids, all distinct |
| MultiChannelSelection.InitialSelectionWellformed | frontend/src/pages/UserPages/MultiChannelSelectionPage.tsx:42 | the initial `['web-min']` satisfies the invariant |
| MultiChannelSelection.CheckboxChange | frontend/src/pages/UserPages/MultiChannelSelectionPage.tsx:46-50 | the clicked id flips membership and no other id does; an absent id is appended; a template id keeps the invariant |
| MultiChannelSelection.CheckboxChangeTwice | frontend/src/pages/UserPages/MultiChannelSelectionPage.tsx:46-50 | two clicks restore membership, and the very same list when the id was unchecked |
| MultiChannelSelection.SelectAll | frontend/src/pages/UserPages/MultiChannelSelectionPage.tsx:52-58 | equal lengths give `[]`, otherwise the ten ids; under the invariant the result is `[]` exactly when every template was checked |
| MultiChannelSelection.RenderedIdInUniverse | frontend/src/pages/UserPages/MultiChannelSelectionPage.tsx:39 | every rendered checkbox's id is one of `allTemplateIds` |
| MultiChannelSelection.ReplayKeepsWellformed | frontend/src/pages/UserPages/MultiChannelSelectionPage.tsx:46-64 | any sequence of checkbox, select-all and theme clicks keeps the invariant |
| MultiChannelSelection.ReachableSelectionsWellformed | frontend/src/pages/UserPages/MultiChannelSelectionPage.tsx:42-58 | every reachable selection is well formed, so the length test of select-all means "every template checked" |
| Assets.AllAssets | frontend/src/pages/UserPages/RealTimePreviewPage.tsx:54 | an asset is in the flattened list exactly when some platform entry holds it |
| Assets.AllAssetsConcat | frontend/src/pages/UserPages/RealTimePreviewPage.tsx:54 | `.flat()` is in-order concatenation: flattening two runs of entries is the first run's assets followed by the second's, repeats kept, so the length select-all compares against and the order of the request's ids are fixed |
| Assets.AllAssetsSingle | frontend/src/pages/UserPages/RealTimePreviewPage.tsx:54 | one platform entry flattens to exactly its own asset list |
| Assets.AssetIds | frontend/src/pages/UserPages/RealTimePreviewPage.tsx:134 | the id list has one id per asset, position by position |
| Assets.FirstPlatform | frontend/src/pages/UserPages/RealTimePreviewPage.tsx:87-88 | there is a first platform exactly when the results have a first key that is not the empty string, and it is that key |
| PreviewPage.AllAssetIds | frontend/src/pages/UserPages/RealTimePreviewPage.tsx:134 | select-all selects one id per asset: position k holds the id of the k-th flattened asset |
| PreviewPage.AssetSelect | frontend/src/pages/UserPages/RealTimePreviewPage.tsx:124-128 | the clicked asset flips membership and no other asset does; an absent id is appended; an asset id keeps the invariant |
| PreviewPage.SelectAll | frontend/src/pages/UserPages/RealTimePreviewPage.tsx:130-136 | equal lengths give `[]`, otherwise every asset id; for distinct asset ids and a well-formed selection the result is `[]` exactly when all were selected |
| PreviewPage.SelectAllChecked | frontend/src/pages/UserPages/RealTimePreviewPage.tsx:333 | for distinct asset ids and a well-formed selection, the checkbox is checked exactly when some asset exists and all are selected |
| PreviewPage.ApplyKeepsWellformed | frontend/src/pages/UserPages/RealTimePreviewPage.tsx:124-136 | when the backend's asset ids are distinct, one asset click or select-all keeps the invariant |
| PreviewPage.ReplayKeepsWellformed | frontend/src/pages/UserPages/RealTimePreviewPage.tsx:124-136 | when the backend's asset ids are distinct, any sequence of asset clicks and select-alls keeps the invariant |
| PreviewPage.ReachableSelectionsWellformed | frontend/src/pages/UserPages/RealTimePreviewPage.tsx:130-136 | when the backend's asset ids are distinct, every selection reachable from the empty initial one is well formed, and the select-all checkbox means "some asset exists and all are selected" |
| PreviewPage.TogglePlatform | frontend/src/pages/UserPages/RealTimePreviewPage.tsx:138-144 | the clicked platform opens or closes, no other platform changes, and an opened platform goes at the end |
| PreviewPage.TogglePlatformTwice | frontend/src/pages/UserPages/RealTimePreviewPage.tsx:138-144 | toggling a platform twice restores which platforms are open, and the very same list when it was closed |
| PreviewPage.FormatFor | frontend/src/pages/UserPages/RealTimePreviewPage.tsx:158-162 | of the dialog's labels, only PNG yields png; JPEG and PSD yield jpeg, and a label missing from the map falls back to jpeg |
| PreviewPage.QualityFor | frontend/src/pages/UserPages/RealTimePreviewPage.tsx:164-168 | Medium and Low map to their own values; High, and a label missing from the map, give high |
| PreviewPage.GroupingFor | frontend/src/pages/UserPages/RealTimePreviewPage.tsx:170-173 | only Individual yields individual; Batch, and a label missing from the map, give batch, and category is never asked for |
| PreviewPage.LabelMapsRoundTrip | frontend/src/pages/UserPages/RealTimePreviewPage.tsx:491-524 | each dialog option's label maps back to the value it names; PSD is the one label that lands on another label's value (jpeg) |
| PreviewPage.BatchDownload | frontend/src/pages/UserPages/RealTimePreviewPage.tsx:150-181 | no request exactly when the selection is empty; otherwise the selected ids in order, with format, quality and grouping each the mapped value of its chosen label (png exactly for PNG, never category grouping) |
| JobPoller.StatusOf | frontend/src/pages/UserPages/RealTimePreviewPage.tsx:73 | a missing or empty status reads as "running"; a present non-empty status is passed through unchanged, and the result is never empty |
| JobPoller.ProgressOf | frontend/src/pages/UserPages/RealTimePreviewPage.tsx:74 | a missing progress reads as 0; a present progress is passed through unchanged |
| JobPoller.Start | frontend/src/pages/UserPages/RealTimePreviewPage.tsx:57-114 | an empty job id stops at once with no request; otherwise loading is set and exactly one status request is issued |
| JobPoller.Step | frontend/src/pages/UserPages/RealTimePreviewPage.tsx:67-121 | cancellation is permanent, teardown cancels, an idle poller ignores every event, each event adds at most one request or timer to the log, and no timer stays armed after teardown |
| JobPoller.QuiescentStaysQuiet | frontend/src/pages/UserPages/RealTimePreviewPage.tsx:97-99 | once the loop has ended, no event changes the page state or issues anything |
| JobPoller.NoJobIdNeverPolls | frontend/src/pages/UserPages/RealTimePreviewPage.tsx:58-62 | an empty job id shows "No job ID provided", clears loading and makes no status call whatever happens |
| JobPoller.MissingFieldsMeanRunning | frontend/src/pages/UserPages/RealTimePreviewPage.tsx:73-103 | a reply without status counts as running, one without progress as 0, and a 2000 ms timer then a new status request follow |
| JobPoller.RoundsKeepPolling | frontend/src/pages/UserPages/RealTimePreviewPage.tsx:100-110 | non-terminal rounds each add one timer and one status request and leave error, results, loading and open platforms alone |
| JobPoller.Completion | frontend/src/pages/UserPages/RealTimePreviewPage.tsx:79-85 | a completed reply then the results reply make one results request and store the results, or `{}` for null, with loading off |
| JobPoller.RoundsThenCompleted | frontend/src/pages/UserPages/RealTimePreviewPage.tsx:67-114 | the whole run from the effect through N rounds to completion produces the log "status, (timer, status) per round, results" and the final page state |
| JobPoller.CompletesAfterRounds | frontend/src/pages/UserPages/RealTimePreviewPage.tsx:79-85 | N non-terminal rounds then completed: exactly N + 1 status requests, exactly one results request, the rounds' delays in order, the results stored and loading over |
| JobPoller.ResultsExpandFirstPlatform | frontend/src/pages/UserPages/RealTimePreviewPage.tsx:86-90 | after the results load, the open platforms are `[firstKey]` when a non-empty first key exists and unchanged otherwise |
| JobPoller.FailedIsTerminal | frontend/src/pages/UserPages/RealTimePreviewPage.tsx:97-99 | failed shows "Generation job failed", clears loading, and no results request, status request or timer ever follows |
| JobPoller.StatusErrorRetries | frontend/src/pages/UserPages/RealTimePreviewPage.tsx:104-110 | a status error leaves the page state alone; uncancelled it arms a 5000 ms retry that re-polls, and cancelled it arms nothing |
| JobPoller.CancelledStaysQuiet | frontend/src/pages/UserPages/RealTimePreviewPage.tsx:116-121 | after teardown no request or timer is issued, and the page state changes at most by the results error |
| JobPoller.TeardownStopsPolling | frontend/src/pages/UserPages/RealTimePreviewPage.tsx:71-83 | teardown from any consistent state ignores in-flight status and results replies and schedules nothing more |
| JobPoller.ResultsErrorIgnoresTeardown | frontend/src/pages/UserPages/RealTimePreviewPage.tsx:92-96 | a results request that rejects after teardown still sets "Failed to load generated assets" and clears loading |

## Left out

- The HTTP wrappers in `frontend/src/services/` are not part of this model. They are thin calls with no logic, and network replies enter the poll machine only as input events.
- Real timers and asynchronous interleaving are not modelled. `setTimeout` becomes a `SetTimer(ms)` entry in the log plus a later `TimerFires` event, and `clearTimeout` becomes dropping the armed timer on teardown.
- JobPoller.Step: an event the poller is not waiting for (a reply with no request in flight, or a timer that is not armed) changes nothing. In the page such events cannot occur.
- The `console.error` calls and the `alert` of the empty-selection guard are not modelled; they are output only.
- The rest of the download is not modelled: the request itself, its response, the download link created in the DOM, its error path and the `showBatchDownload` flag. The model stops at the request body.
- `formatDimensions` is not modelled. It is display formatting only.
- Assets.FirstPlatform, Assets.AllAssets, Assets.AllAssetsConcat and PreviewPage.AllAssetIds: the results object's entries are taken in the given order. JavaScript's `Object.keys` and `Object.values` put integer-like keys first, and that reordering is not modelled; `JobResults` stands for the entries already in that order.
- JobPoller.StatusOf: `status || 'running'` is modelled for a missing or empty status; other falsy non-string values are outside the model's string type.
- JobPoller.ProgressOf: progress is an integer, so a `NaN` progress, which `|| 0` would also replace by 0, is not modelled.
- Theme.ThemeToggle: the multi-channel page keeps its theme as a string. Only `'dark'` and `'light'` are reachable from its initial `'dark'`, so the theme is a two-valued datatype.
- The `grouping` field sent with the download is declared as `downloadType` in `frontend/src/services/generation.ts:101-106`. That is a type mismatch, not behaviour, and is left out.
- The other state of the preview page is not modelled: `groupBy` and `resolution`. It has no logic beyond storing a value.
- The multi-channel page's `activeTab` is not modelled. It only decides what is rendered: the template list and its "Select All" button on the resizing tab, the repurposing grid on the other. Switching to the repurposing tab mounts the grid afresh, so its selection restarts from RepurposingGrid.InitialSelection, which is where RepurposingGrid.ReachableSelectionsWellformed starts its replay.
- The crop and adjustment page holds only slider values and drag callbacks, and has no normalisation arithmetic to model.
- The markup-only pages and routing are not part of this model, and neither are the backend's migration and server configuration.
- PreviewPage.FormatFor: the map is a plain object literal, so a label named like an inherited property (`constructor`, `toString`) would return a function instead of the `'jpeg'` default. The model sends every label outside the map to the default. The dialog only passes its own option values, so this case is not reachable from the page.
- PreviewPage.QualityFor: the same inherited-property case as for `FormatFor` is not modelled; every label outside the map gives `'high'`.
- PreviewPage.GroupingFor: the same inherited-property case as for `FormatFor` is not modelled; every label outside the map gives `'batch'`.
- PreviewPage.ApplyKeepsWellformed, PreviewPage.ReplayKeepsWellformed and PreviewPage.ReachableSelectionsWellformed assume the backend's asset ids are distinct. With a repeated id, select-all produces a duplicate, and the invariant fails.
- PreviewPage.ReachableSelectionsWellformed: the results are held fixed. The page keeps `selectedAssets` when `jobId` changes and the poll restarts for the new job, so ids of the old job can remain selected and `Within` can fail for the new results; that case is not modelled.
- PreviewPage.SelectAll: "the length test means all selected" is proved only for distinct asset ids. The page does not check that the backend's asset ids are distinct, and with duplicates the test can be wrong.

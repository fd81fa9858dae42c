# WallR: verified model of the presenter and data bookkeeping

WallR is an Android wallpaper application. Most of it is view code. This
project models the five parts of it that hold sequential logic of their own:

- **Minimal colours** (`minimal_presenter.dfy`, module `Minimal`). This is the
  presenter of the solid-colour grid. It keeps the selected colour keys, the
  selection count, whether the bottom panel is shown, the colour list and the
  chosen multi-colour type. It covers selection and toggling, the rules that
  show and hide the panel and the contextual action bar (CAB), the rule that
  at least twenty colours must remain after a deletion, and the order in which
  deleted rows are removed.
- **Search pagination** (`search_presenter.dfy`, module `Search`). This covers
  the page counter, the request string, the offset at which a further page is
  appended, and how a failed request is shown.
- **Purchase verification and the premium flag** (`wallr_data_repository.dfy`,
  module `WallrData`). The server's `(status, errorCode)` answer maps to
  exactly one outcome. The premium flag lives in the shared preferences,
  modelled as a map.
- **Image download** (`image_handler.dfy`, module `ImageHandling`). This is the
  chunk-copy loop of `fetchImage`, with its integer progress, its cancel flag
  and the cache tracker that records which link the cache file holds.
- **Wallpaper-changer intervals** (`wallpaper_changer.dfy`, module
  `WallpaperChanger`). These are the five fixed intervals and the label shown
  for each.

`decimal.dfy` models how a Kotlin string template prints an `Int`, and proves
that the rendering can be parsed back. `wrappers.dfy` holds `Option`, which
models Kotlin's nullable types.

Objects whose fields the source updates in place are classes:
`MinimalPresenter`, `SearchPresenter`, `ImageHandler` and
`WallrDataRepository`. Each presenter class has a `State()` function that
returns its fields as a datatype. Every method is proved to produce exactly the
state and the view calls given by a pure step function on that datatype. The
lemmas are stated about those step functions. A method returns the calls it
makes on the view as a list, in order.

The asynchronous callbacks are explicit methods. For the colour-list load these
are `OnColorsLoaded` and `OnColorsLoadFailed`. For the deletion request they are
`OnModifyColorsSuccess` and `OnModifyColorsError`. For the search requests they
are `OnQuerySubmittedSuccess`, `OnQuerySubmittedError`, `OnFetchMoreSuccess`
and `OnFetchMoreError`.

The presenter's view is treated as always attached. With no view attached,
the calls made through a null-safe reference (`?.`) are dropped and the state
changes stay the same. Two places dereference the view unconditionally (`!!`)
to get its scope before subscribing:
- `handleViewCreated` (MinimalPresenterImpl.kt:50): with no view it throws, and no colours are loaded.
- `handleDeleteMenuItemClick` (MinimalPresenterImpl.kt:110): with no view it throws before subscribing.
The model does not cover either case; see "## Left out".

The download's inputs are modelled as follows:
- The HTTP connection is an input. It either fails to connect, or it declares a
  content length and then delivers chunk sizes. After the last chunk the stream
  either ends or a read fails.
- `cancelFetchingImage` is called from another thread. The loop sees the flag's
  value at each check, one value per chunk, and that value is an input.
- The colour-modification use case and the search use case and mapper are
  other code. Their results arrive as the arguments of the callback methods.
- `handleViewCreated` chooses between the custom and the default colour list
  (MinimalPresenterImpl.kt:45-49). Both lists come from the use case, so that
  choice is not modelled. Whichever list arrives is `OnColorsLoaded`'s argument.

## Model

| member | source | states |
|---|---|---|
| Minimal.IsItemSelectable | app/src/main/java/zebrostudio/wallr100/presentation/minimal/MinimalPresenterImpl.kt:192-194 | Position 0 (the "add colour" tile) is the only position that cannot be selected. |
| Minimal.Toggled | app/src/main/java/zebrostudio/wallr100/presentation/minimal/MinimalPresenterImpl.kt:221-228 | The toggled key's membership flips. Every other key keeps its membership. |
| Minimal.SelectionChange | app/src/main/java/zebrostudio/wallr100/presentation/minimal/MinimalPresenterImpl.kt:63-83 | Size 0 disables the panel, hides the CAB and never shows it. Size 1 disables the panel and shows the CAB. Size > 1 enables the panel and shows the CAB. The show animation is issued iff the panel goes from disabled to enabled. The hide animation is issued iff the size is 0, or the size is 1 with the panel enabled. A negative size changes only the count. |
| Minimal.SelectItem | app/src/main/java/zebrostudio/wallr100/presentation/minimal/MinimalPresenterImpl.kt:200-207 | Adds key `index-1` when selecting and removes it otherwise; no other key changes. `isItemSelected(index)` then equals the flag. The count equals the selection's size. |
| Minimal.Toggle | app/src/main/java/zebrostudio/wallr100/presentation/minimal/MinimalPresenterImpl.kt:221-230 | Flips key `index-1` and `isItemSelected(index)`. The count equals the selection's size. The colour list and the image type are unchanged. The panel, the CAB and the calls are exactly those of SelectionChange for the new selection's size, as `updateSelectionChange` at line 229 makes them. |
| Minimal.Click | app/src/main/java/zebrostudio/wallr100/presentation/minimal/MinimalPresenterImpl.kt:172-181 | A tap does nothing while nothing is selected, and toggles otherwise. |
| Minimal.ImageLongClick | app/src/main/java/zebrostudio/wallr100/presentation/minimal/MinimalPresenterImpl.kt:183-190 | A long press toggles the item, then starts selection mode at that position. |
| Minimal.Scroll | app/src/main/java/zebrostudio/wallr100/presentation/minimal/MinimalPresenterImpl.kt:89-97 | Disables the panel iff it is enabled, dy > 15 and no forced smooth scroll is running. Enables it iff it is disabled, dy < -15 and more than one item is selected. Any other scroll changes nothing and issues no call. |
| Minimal.DeselectionShortfall | app/src/main/java/zebrostudio/wallr100/presentation/minimal/MinimalPresenterImpl.kt:213-219 | The result is never negative. It is 0 iff at least 20 colours would remain. Otherwise it is the number of deselections that leaves exactly 20. |
| Minimal.DeselectionShortfallIsMinimal | app/src/main/java/zebrostudio/wallr100/presentation/minimal/MinimalPresenterImpl.kt:213-219 | Deselecting some items allows deletion iff at least the reported shortfall was deselected. |
| Minimal.DeleteMenuItemClick | app/src/main/java/zebrostudio/wallr100/presentation/minimal/MinimalPresenterImpl.kt:99-124 | The modification is requested, with the current colours and selection, iff the shortfall is 0. Otherwise the deselect message carries the shortfall. |
| Minimal.Descending | app/src/main/java/zebrostudio/wallr100/presentation/minimal/MinimalPresenterImpl.kt:102-105 | The reverse-ordered tree map's key order: every key once, strictly descending. |
| Minimal.DescendingUnique | app/src/main/java/zebrostudio/wallr100/presentation/minimal/MinimalPresenterImpl.kt:102-105 | A set has only one strictly descending enumeration. |
| Minimal.InsertDescending | app/src/main/java/zebrostudio/wallr100/presentation/minimal/MinimalPresenterImpl.kt:105 | Inserting a new key into a descending key list keeps it strictly descending and adds exactly that key. |
| Minimal.DescendingKeys | app/src/main/java/zebrostudio/wallr100/presentation/minimal/MinimalPresenterImpl.kt:102-105 | Filling the reverse-ordered map yields exactly the selected keys, strictly descending. |
| Minimal.RemoveItemViews | app/src/main/java/zebrostudio/wallr100/presentation/minimal/MinimalPresenterImpl.kt:112-114 | One `removeItemView` per key, in exactly the order of the reverse-ordered map's keys. |
| Minimal.DeleteSucceeded | app/src/main/java/zebrostudio/wallr100/presentation/minimal/MinimalPresenterImpl.kt:102-115 | The selection is cleared and the colour list is replaced by the new list. Each previously selected key gets exactly one `removeItemView`, in strictly descending order, and then the CAB is cleared. |
| Minimal.DeleteFailed | app/src/main/java/zebrostudio/wallr100/presentation/minimal/MinimalPresenterImpl.kt:116-120 | A failed deletion clears the CAB, shows the error and changes no state. |
| Minimal.CabDestroyedAsWritten | app/src/main/java/zebrostudio/wallr100/presentation/minimal/MinimalPresenterImpl.kt:127-135 | As written: the selection is cleared and the panel ends disabled. The count is reset only if the panel was enabled. Every other field is unchanged. The hide animation is issued iff the panel was enabled, and the grid is redrawn last. |
| Minimal.CabDestroyed | app/src/main/java/zebrostudio/wallr100/presentation/minimal/MinimalPresenterImpl.kt:127-135 | Corrected: the selection is cleared, the count is 0 and the panel is disabled. It hides with animation iff it was enabled. The grid is redrawn last. |
| Minimal.SpinnerOptionChanged | app/src/main/java/zebrostudio/wallr100/presentation/minimal/MinimalPresenterImpl.kt:137-143 | Positions 0-2 select the type with that ordinal. Any other position changes nothing. |
| Minimal.ColorsLoaded | app/src/main/java/zebrostudio/wallr100/presentation/minimal/MinimalPresenterImpl.kt:51-53 | The loaded list replaces the colour list and the whole grid is redrawn. |
| Minimal.ColorsLoadFailed | app/src/main/java/zebrostudio/wallr100/presentation/minimal/MinimalPresenterImpl.kt:54-60 | The specific message is shown iff the solid colours could not be read, and the generic one otherwise. No state changes. |
| Minimal.InitialStateConsistent | app/src/main/java/zebrostudio/wallr100/presentation/minimal/MinimalPresenterImpl.kt:28-34 | The initial fields satisfy the invariant: the count equals the selection's size, and the panel is shown only when more than one item is selected. |
| Minimal.SelectionEstablishesConsistency | app/src/main/java/zebrostudio/wallr100/presentation/minimal/MinimalPresenterImpl.kt:200-230 | After any select or toggle, the count equals the selection's size and the invariant holds, whatever the state was before. |
| Minimal.OperationsPreserveConsistency | app/src/main/java/zebrostudio/wallr100/presentation/minimal/MinimalPresenterImpl.kt:44-143 | Every operation of the corrected presenter keeps the invariant. This includes a successful deletion followed by the CAB's destruction. |
| Minimal.PanelShownMeansSelection | app/src/main/java/zebrostudio/wallr100/presentation/minimal/MinimalPresenterImpl.kt:72-74 | Under the invariant, a shown panel means at least two items are selected. |
| Minimal.ToggleTwice | app/src/main/java/zebrostudio/wallr100/presentation/minimal/MinimalPresenterImpl.kt:221-230 | Toggling the same position twice restores the selection. |
| Minimal.CabDestroyedAsWrittenBreaksConsistency | app/src/main/java/zebrostudio/wallr100/presentation/minimal/MinimalPresenterImpl.kt:127-135 | As written, closing the CAB with the panel hidden and items selected leaves a stale count. |
| Minimal.StaleSelectionSizeReopensPanel | app/src/main/java/zebrostudio/wallr100/presentation/minimal/MinimalPresenterImpl.kt:127-135 | As written, this sequence shows the panel with nothing selected: select two items, scroll down, close the CAB, scroll up. |
| Minimal.CabDestroyedKeepsPanelClosed | app/src/main/java/zebrostudio/wallr100/presentation/minimal/MinimalPresenterImpl.kt:127-135 | With the correction, no scroll shows the panel after the CAB is closed. |
| Minimal.MinimalPresenter.constructor | app/src/main/java/zebrostudio/wallr100/presentation/minimal/MinimalPresenterImpl.kt:28-34 | Starts with the panel off, count 0, the Material type, no colours and no selection. |
| Minimal.MinimalPresenter.OnColorsLoaded | app/src/main/java/zebrostudio/wallr100/presentation/minimal/MinimalPresenterImpl.kt:51-53 | New state and calls are those of ColorsLoaded. |
| Minimal.MinimalPresenter.OnColorsLoadFailed | app/src/main/java/zebrostudio/wallr100/presentation/minimal/MinimalPresenterImpl.kt:54-60 | Calls are those of ColorsLoadFailed; nothing changes. |
| Minimal.MinimalPresenter.UpdateSelectionChange | app/src/main/java/zebrostudio/wallr100/presentation/minimal/MinimalPresenterImpl.kt:63-83 | New fields and calls are those of SelectionChange. |
| Minimal.MinimalPresenter.HandleScroll | app/src/main/java/zebrostudio/wallr100/presentation/minimal/MinimalPresenterImpl.kt:89-97 | New fields and calls are those of Scroll. |
| Minimal.MinimalPresenter.IsItemSelected | app/src/main/java/zebrostudio/wallr100/presentation/minimal/MinimalPresenterImpl.kt:196-198 | True iff key `index-1` is selected. |
| Minimal.MinimalPresenter.SetItemSelected | app/src/main/java/zebrostudio/wallr100/presentation/minimal/MinimalPresenterImpl.kt:200-207 | New fields and calls are those of SelectItem. |
| Minimal.MinimalPresenter.ClearSelectedItems | app/src/main/java/zebrostudio/wallr100/presentation/minimal/MinimalPresenterImpl.kt:209-211 | Empties the selection and changes no other field. |
| Minimal.MinimalPresenter.ToggleSelected | app/src/main/java/zebrostudio/wallr100/presentation/minimal/MinimalPresenterImpl.kt:221-230 | New fields and calls are those of Toggle. |
| Minimal.MinimalPresenter.HandleClick | app/src/main/java/zebrostudio/wallr100/presentation/minimal/MinimalPresenterImpl.kt:172-181 | New fields and calls are those of Click. |
| Minimal.MinimalPresenter.HandleImageLongClick | app/src/main/java/zebrostudio/wallr100/presentation/minimal/MinimalPresenterImpl.kt:183-190 | New fields and calls are those of ImageLongClick. |
| Minimal.MinimalPresenter.NumberOfItemsToBeDeselectedToStartDeletion | app/src/main/java/zebrostudio/wallr100/presentation/minimal/MinimalPresenterImpl.kt:213-219 | Returns 0 iff `colorList.size - selected.size >= 20`. Otherwise returns `20 - (colorList.size - selected.size)`. |
| Minimal.MinimalPresenter.HandleDeleteMenuItemClick | app/src/main/java/zebrostudio/wallr100/presentation/minimal/MinimalPresenterImpl.kt:99-124 | The outcome is that of DeleteMenuItemClick on the current fields. |
| Minimal.MinimalPresenter.OnModifyColorsSuccess | app/src/main/java/zebrostudio/wallr100/presentation/minimal/MinimalPresenterImpl.kt:102-115 | New fields and calls are those of DeleteSucceeded: removals in descending key order, selection cleared, list replaced. |
| Minimal.MinimalPresenter.OnModifyColorsError | app/src/main/java/zebrostudio/wallr100/presentation/minimal/MinimalPresenterImpl.kt:116-120 | Calls are those of DeleteFailed; nothing changes. |
| Minimal.MinimalPresenter.HandleCabDestroyed | app/src/main/java/zebrostudio/wallr100/presentation/minimal/MinimalPresenterImpl.kt:127-135 | New fields and calls are those of the corrected CabDestroyed. |
| Minimal.MinimalPresenter.HandleSpinnerOptionChanged | app/src/main/java/zebrostudio/wallr100/presentation/minimal/MinimalPresenterImpl.kt:137-143 | New fields are those of SpinnerOptionChanged. |
| Search.QueryStringRoundTrip | app/src/main/java/zebrostudio/wallr100/presentation/search/SearchPresenterImpl.kt:78-80 | The request `photos/search?query=<keyword>&per_page=30&page=<page>` parses back to its keyword text and page. A null keyword prints as "null". |
| Search.QueryStringDeterminesPage | app/src/main/java/zebrostudio/wallr100/presentation/search/SearchPresenterImpl.kt:78-80 | Equal requests have equal pages and equal keyword texts. |
| Search.QueryString | app/src/main/java/zebrostudio/wallr100/presentation/search/SearchPresenterImpl.kt:78-80 | The request breaks down as `photos/search?query=`, then the keyword text, then `&per_page=30&page=`, then the decimal page number, with nothing else. |
| Decimal.IntToString | app/src/main/java/zebrostudio/wallr100/presentation/search/SearchPresenterImpl.kt:79 | The page is printed with at least one character: digits only when it is non-negative, and a leading `-` followed by digits iff it is negative. |
| Decimal.IntToStringRoundTrip | app/src/main/java/zebrostudio/wallr100/presentation/search/SearchPresenterImpl.kt:79 | The printed page number reads back as that number, negative numbers included. |
| Search.Submitted | app/src/main/java/zebrostudio/wallr100/presentation/search/SearchPresenterImpl.kt:25-30 | A submit sets the page to 1 and stores the query as the keyword. |
| Search.Succeeded | app/src/main/java/zebrostudio/wallr100/presentation/search/SearchPresenterImpl.kt:34-38 | A success increments the page by exactly 1 and keeps the keyword. |
| Search.AppendOffset | app/src/main/java/zebrostudio/wallr100/presentation/search/SearchPresenterImpl.kt:61 | The offset is a whole number of 30-result pages: exactly the pages before the current one. It is never negative from page 1 on. |
| Search.AppendOffsetAdvances | app/src/main/java/zebrostudio/wallr100/presentation/search/SearchPresenterImpl.kt:61-62 | Each success moves the append offset on by exactly 30. |
| Search.SubmitErrorView | app/src/main/java/zebrostudio/wallr100/presentation/search/SearchPresenterImpl.kt:38-50 | No result found shows the no-result view with the keyword. An unresolved host shows the no-internet view. Anything else shows the generic error view. Each holds in both directions. |
| Search.FetchMoreErrorView | app/src/main/java/zebrostudio/wallr100/presentation/search/SearchPresenterImpl.kt:63-75 | The same classification as for a submit, with the no-internet and generic toasts in place of the views. |
| Search.AfterResponsesCounts | app/src/main/java/zebrostudio/wallr100/presentation/search/SearchPresenterImpl.kt:34-74 | Over any series of answers, the page advances by the number of successes and the keyword never changes. |
| Search.PagesAfterSubmit | app/src/main/java/zebrostudio/wallr100/presentation/search/SearchPresenterImpl.kt:25-80 | After a submit and k successes the state is page k+1 of the same query. The next request is literally `photos/search?query=<keyword>&per_page=30&page=<k+1>`, and its results are appended at offset 30·k. |
| Search.SearchPresenter.constructor | app/src/main/java/zebrostudio/wallr100/presentation/search/SearchPresenterImpl.kt:14-15 | Page 1, no keyword. |
| Search.SearchPresenter.NotifyQuerySubmitted | app/src/main/java/zebrostudio/wallr100/presentation/search/SearchPresenterImpl.kt:25-30 | The page is reset and the keyword stored before the request is built. The request is the query string of the new state. The view is cleared and the loader shown. |
| Search.SearchPresenter.OnQuerySubmittedSuccess | app/src/main/java/zebrostudio/wallr100/presentation/search/SearchPresenterImpl.kt:34-38 | Shows the results and advances the page by 1. |
| Search.SearchPresenter.OnQuerySubmittedError | app/src/main/java/zebrostudio/wallr100/presentation/search/SearchPresenterImpl.kt:38-50 | Issues SubmitErrorView's call for the stored keyword and does not change the page. |
| Search.SearchPresenter.FetchMoreImages | app/src/main/java/zebrostudio/wallr100/presentation/search/SearchPresenterImpl.kt:53-55 | Requests the stored keyword at the current page without resetting the page, and shows the bottom loader. |
| Search.SearchPresenter.OnFetchMoreSuccess | app/src/main/java/zebrostudio/wallr100/presentation/search/SearchPresenterImpl.kt:59-62 | Appends at `(page-1)*30`, taken before the increment, then advances the page by 1. |
| Search.SearchPresenter.OnFetchMoreError | app/src/main/java/zebrostudio/wallr100/presentation/search/SearchPresenterImpl.kt:63-75 | Issues FetchMoreErrorView's call and does not change the page. |
| WallrData.ClassifyResponse | app/src/main/java/zebrostudio/wallr100/data/WallrDataRepository.kt:27-35 | "success" completes. "error" with code 404 or 403 is an invalid purchase. Every other answer, including other codes and unknown statuses, is unable-to-verify. Each holds in both directions, so exactly one outcome applies. |
| WallrData.AuthenticatePurchase | app/src/main/java/zebrostudio/wallr100/data/WallrDataRepository.kt:19-36 | A server answer is classified as above. A transport failure, and only a transport failure, is passed on as one. |
| WallrData.GetBoolean | app/src/main/java/zebrostudio/wallr100/data/WallrDataRepository.kt:42-44 | Reads the stored value, or the default when nothing is stored. |
| WallrData.SetBoolean | app/src/main/java/zebrostudio/wallr100/data/WallrDataRepository.kt:38-40 | The key now holds the written value. Every other stored key keeps its value, and no other key is added. |
| WallrData.GetAfterSet | app/src/main/java/zebrostudio/wallr100/data/WallrDataRepository.kt:38-44 | A written value reads back, and every other key reads as before. |
| WallrData.WallrDataRepository.constructor | app/src/main/java/zebrostudio/wallr100/data/WallrDataRepository.kt:11-14 | The repository starts over the given preference contents. |
| WallrData.WallrDataRepository.UpdateUserPurchaseStatus | app/src/main/java/zebrostudio/wallr100/data/WallrDataRepository.kt:38-40 | A successful write stores `true` under `PURCHASE_PREF`/`premium_user` and nothing else. The helper's result is returned. |
| WallrData.WallrDataRepository.IsUserPremium | app/src/main/java/zebrostudio/wallr100/data/WallrDataRepository.kt:42-44 | True iff `true` is stored under the premium key. False when nothing is stored there. |
| WallrData.PremiumFlagLifecycle | app/src/main/java/zebrostudio/wallr100/data/WallrDataRepository.kt:38-44 | Not premium before the update, premium after a successful one. Other keys are unchanged. |
| ImageHandling.FirstCancel | app/src/main/java/zebrostudio/wallr100/data/ImageHandler.kt:78-92 | Counts the checks that passed before the first check that saw the flag cleared. |
| ImageHandling.TruncDiv | app/src/main/java/zebrostudio/wallr100/data/ImageHandler.kt:80 | Kotlin's `Long` division truncates toward zero. It agrees with floor division for a non-negative dividend and a positive divisor, and is never positive for a negative divisor. |
| ImageHandling.Progress | app/src/main/java/zebrostudio/wallr100/data/ImageHandler.kt:80 | The percentage is never positive for a negative declared length. For a positive length it is at least 0, at most 100 while no more than the length has been read, and exactly 100 once the length has been read. |
| ImageHandling.EmittedProgress | app/src/main/java/zebrostudio/wallr100/data/ImageHandler.kt:76-84 | There is exactly one value per chunk before the first cancelled check. |
| ImageHandling.Emit | app/src/main/java/zebrostudio/wallr100/data/ImageHandler.kt:94-101 | The create-emitter delivers a signal only before it has terminated. A terminal signal (error or completion) terminates it. |
| ImageHandling.SumPrefixMonotone | app/src/main/java/zebrostudio/wallr100/data/ImageHandler.kt:76-77 | The byte count only grows from chunk to chunk. |
| ImageHandling.EmittedProgressNonDecreasing | app/src/main/java/zebrostudio/wallr100/data/ImageHandler.kt:76-84 | Progress values emitted within one fetch never decrease. |
| ImageHandling.CompleteProgressMeansWholeLength | app/src/main/java/zebrostudio/wallr100/data/ImageHandler.kt:80-82 | A progress of exactly 100 means at least the declared length was read. |
| ImageHandling.HundredMeansWholeLengthWritten | app/src/main/java/zebrostudio/wallr100/data/ImageHandler.kt:74-93 | If 100 was emitted, the bytes written before the first cancelled check reach the declared length. |
| ImageHandling.UncancelledCompleteFetchReachesHundred | app/src/main/java/zebrostudio/wallr100/data/ImageHandler.kt:74-93 | Suppose no check is cancelled and the chunks add up to the declared length. Then there is one progress value per chunk and the last is 100. |
| ImageHandling.ImageHandler.constructor | app/src/main/java/zebrostudio/wallr100/data/ImageHandler.kt:50-51 | Starts with the continue flag set and the tracker at `(false, "")`. |
| ImageHandling.ImageHandler.IsImageCached | app/src/main/java/zebrostudio/wallr100/data/ImageHandler.kt:53-55 | True iff the tracker's flag is set and its link equals the argument. |
| ImageHandling.ImageHandler.FetchImage | app/src/main/java/zebrostudio/wallr100/data/ImageHandler.kt:57-104 | Sets the continue flag and resets the tracker first. A failed connection emits an IOException. A declared length ≤ 0 emits ImageDownloadException and nothing else. The stream is still copied: CopiedChunks chunks are written; the tracker stays untracked; the flag ends as its last check left it. A positive length gives the signals, bytes, tracker and flag of CopyToCache. |
| ImageHandling.ImageHandler.CopyToCache | app/src/main/java/zebrostudio/wallr100/data/ImageHandler.kt:74-102 | For a positive length, emits `read*100/length` after every chunk up to the first cancelled check. It then emits an IOException if a read failed, and completes otherwise. The tracker ends at `(true, link)` iff 100 was emitted. If the emitter has already terminated, nothing further is emitted. In every case the cancelled chunk is still written, and the flag ends false iff a check was cancelled. |
| ImageHandling.ImageHandler.CopyChunks | app/src/main/java/zebrostudio/wallr100/data/ImageHandler.kt:74-93 | Runs the read/write/check loop. It stops at the first cleared check, or at the first division when the declared length is 0. It writes every chunk read, and reports whether it left by `break`. For a positive length the emitted progress and the tracker are those of EmittedProgress. Otherwise it emits nothing and leaves the tracker untracked. |
| ImageHandling.ImageHandler.ReportProgress | app/src/main/java/zebrostudio/wallr100/data/ImageHandler.kt:79-84 | One chunk whose check passed: the tracker is set to `(true, link)` iff the progress is exactly 100, and the progress goes to the emitter. |
| ImageHandling.ImageHandler.CancelFetchingImage | app/src/main/java/zebrostudio/wallr100/data/ImageHandler.kt:106-108 | Clears the continue flag and leaves the tracker unchanged. |
| ImageHandling.ImageHandler.ClearImageCache | app/src/main/java/zebrostudio/wallr100/data/ImageHandler.kt:117-123 | Resets the tracker to `(false, "")`, leaves the flag unchanged and completes. |
| WallpaperChanger.IntervalString | app/src/main/java/zebrostudio/wallr100/android/service/AutomaticWallpaperChangerService.kt:101-112 | Entries 1 to 4 map to the 1-hour, 6-hour, 1-day and 3-day labels, each in both directions. Every other value maps to the 30-minute label, entry 0 included. |
| WallpaperChanger.IntervalsStrictlyIncreasing | app/src/main/java/zebrostudio/wallr100/android/service/AutomaticWallpaperChangerService.kt:34-40 | The list has exactly five entries, strictly increasing. |
| WallpaperChanger.LabelsMatchIntervals | app/src/main/java/zebrostudio/wallr100/android/service/AutomaticWallpaperChangerService.kt:34-40 | The entries are 30 min, 1 h, 6 h, 1 day and 3 days in milliseconds. Each entry's label names its duration, and each label's duration maps back to that label. |

## Findings

| source | as written | input that shows it | evidently intended | confidence | as-written member | corrected member |
|---|---|---|---|---|---|---|
| app/src/main/java/zebrostudio/wallr100/presentation/minimal/MinimalPresenterImpl.kt:127-135 | `handleCabDestroyed` clears the selection but resets `selectionSize` only inside `if (isBottomPanelEnabled)`. | Select two colours (panel shown), scroll down by 16 (panel hidden), close the CAB (selection empty, count still 2), scroll up by 16. The panel animates back in with nothing selected. | Reset the count to 0 whenever the CAB is destroyed. | not executed; medium | Minimal.StaleSelectionSizeReopensPanel | Minimal.CabDestroyed |

`Minimal.CabDestroyedAsWritten` is the source's version. Two lemmas show the
problem with it. `Minimal.CabDestroyedAsWrittenBreaksConsistency` shows it
breaks the invariant "the count equals the selection's size, and the panel is
shown only with more than one item selected". `Minimal.StaleSelectionSizeReopensPanel`
shows the concrete sequence above. `MinimalPresenter.HandleCabDestroyed`
implements the corrected `Minimal.CabDestroyed`.
`Minimal.OperationsPreserveConsistency` and `Minimal.CabDestroyedKeepsPanelClosed`
are proved about the corrected version.

## Left out

- ImageHandling.ImageHandler.FetchImage: for a declared length ≤ 0, the model follows the source past the ImageDownloadException. The stream is still copied and the flag is still checked. A zero length fails at the first division, by zero. Every later signal is dropped. In RxJava 2, an error delivered after the emitter has terminated goes to the global error handler (`RxJavaPlugins`). This applies to the IOException of a failed read and to the division's ArithmeticException. The application's setup of that handler is not part of this model, so the model states only what the observer receives.
- ImageHandling.ImageHandler.FetchImage: only the read of a chunk can fail. An IOException from opening the cache file or from a write is not modelled separately.
- ImageHandling.ImageHandler.ClearImageCache: deleting the cache files is file-system I/O. Only the tracker reset is modelled.
- The source's concurrency is not modelled: the cancel flag written from another thread, and the stream wrappers' scheduling. Each check's flag value is an input, and each asynchronous answer is a method call.
- The case of no view attached when `handleViewCreated` or `handleDeleteMenuItemClick` runs is left out, because the model keeps the view attached. The `minimalView!!` at MinimalPresenterImpl.kt:50 and :110 then throws before subscribing, so no colours are loaded and nothing is deleted.
- In `handleDeleteMenuItemClick`, `modifyColors` is other code. Its result is the argument of `OnModifyColorsSuccess`. The selection is read when that callback runs, as in the source.
- Fetching the image bitmap and URI, the low-poly conversion, saving to downloads and to collections are left out. They are platform, file and database I/O, or calls into an outside library.
- `attachView`/`detachView`, `handleItemLongClick` on its own, `onBindRepositoryRowViewAtPosition`, `getItemCount` and the empty `handleColorPickerPositiveClick` are left out. They bind views and hold no state logic. `handleItemLongClick` appears only as the `StartSelection` call inside `HandleImageLongClick`.
- The service lifecycle of the wallpaper changer is left out: notification, foreground start, `onBind`, logging, and the self-recursive `stopService`. Labels are an enumeration, not the localised strings.
- Search errors are three variants. "Unresolved host" stands for a failure other than no-result whose message is exactly the resolver's text for `api.unsplash.com`. The string comparison itself is not modelled.
- Integers are unbounded, so the model does not capture any of these wrap-arounds:
  - the 32-bit `Int` page counter, after about 2^31 pages;
  - the 32-bit `(page-1)*30` append offset, after about 2^31/30 ≈ 7.2·10^7 pages;
  - the 64-bit `read*100` product, after about 2^63/100 ≈ 9.2·10^16 bytes.
- WallrData.WallrDataRepository.UpdateUserPurchaseStatus: the preference helper is not part of this model. A reported failure is assumed to leave the store unchanged.

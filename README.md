# Tab Preview Switcher — verified model of the preview page controller

The extension opens a page that shows the tabs of one browser window as a
paged grid of cards, each with an optional preview image of the tab. This
project models the page's controller script in Dafny:

- **Paging** (`paging.dfy`): the visible slice `tabs.slice(start, min(start + tabsPerPage, n))`,
  the page count `Math.ceil(n / tabsPerPage)` of the indicator, and the guarded
  Prev/Next steps. Proved: the slice is exactly the tabs from `start`, in order,
  at most `tabsPerPage` of them and empty past the end; the pages, read in
  order, show every tab exactly once; Next never lands on an empty page and is
  a no-op on the last page; Prev never goes below page 0; Prev and Next keep
  the user on an existing page; the 45-tabs-at-20 example.
- **Tab list** (`tab_list.dfy`): the close handler's `filter` by id. Proved: it
  removes exactly the tabs with that id, keeps the others in their relative
  order (it distributes over concatenation), and is idempotent.
- **Snapshot cache** (`snapshot_store.dfy`, `capture.dfy`): the in-memory map
  keyed by tab id and the local storage keyed `snapshot_<tabId>`, the
  write-through of `saveSnapshot` and of a successful capture, and the
  read-with-promotion of `loadCachedSnapshot` and `loadSnapshot`. Empty strings
  are misses, as the source's truthiness tests make them. Proved: storage keys
  of distinct tabs differ (decimal printing round-trips); after a save a load
  returns the saved image, before and after the memory tier is lost; a save
  changes no other tab's load; a memory hit changes nothing; memory always
  agrees with storage (an invariant every operation keeps), so memory never
  changes what a load returns. The capture APIs are an oracle: the page sees
  a data URL or a failure.
- **Preview slots** (`preview_slots.dfy`): the per-card decision in
  `renderTabs` — label Loading / Cached / Live / Failed / Brave-simulated /
  No preview, the image source, and whether the viewport observer watches it —
  and the observer's one-shot reveal, which reads only the memory tier.
  Proved: each label occurs exactly in the case the script gives it; with live
  previews off nothing is read, captured or written; a cache hit needs no
  capture; a failed capture writes nothing; after a live capture the next
  resolution of the same tab is a cache hit; the reveal happens once, never
  changes the label, and agrees with the resolution.
- **Theme** (`theme.dfy`): the theme chosen on load (synced setting, stored
  toggle, system colour scheme as inputs) and the toggle button.
- **Controller** (`preview_page.dfy`): a class holding the script's mutable
  state (tabs, current page, page size, live-preview flag, memory tier) and
  local storage, with methods for the settings callback, Prev, Next, close,
  `saveSnapshot`, `loadSnapshot`, `loadCachedSnapshot`, `captureTabPreview` and
  `renderTabs`; each method's postcondition ties the new state to the
  functions above, and the class invariant says the page index is
  non-negative, the page size positive, and memory agrees with storage.

The script's preview pipeline behaves as follows, and the model does the
same: a preview is captured as soon as its card is rendered, not when it
scrolls into view (the viewport observer only re-reads the memory tier); the
primary path stores whatever data URL its canvas produced. The script has
no guard against two captures of one tab; the model has no in-flight
captures at all, since it resolves each preview before the next (see the
"## Left out" line for `PreviewView.PreviewPage.RenderTabs`), so the duplicate
capture of a second render before the first capture answers does not arise
in it. The script also activates the tab before
capturing, on both capture paths (script.js:196); the model does not
represent tab activation (see "## Left out").

Closing a tab leaves the page index unchanged, so closing the only tab of the
last page leaves an empty page whose indicator reads "Page 2 of 1" until Prev
is pressed; `PreviewView.CloseCanStrandPage` proves this for 21 tabs at 20
per page.

## Model

| member | source | states |
|---|---|---|
| Paging.JsSlice | script.js:78 | `slice` with both ends clamped to the length: a non-empty range starting inside the list gives `s[begin..min(end, n)]`; an empty or out-of-range range gives no tabs |
| Paging.VisibleSlice | script.js:76-78 | the page holds at most `tabsPerPage` tabs, is empty when `start >= n`, and otherwise is exactly `tabs[start..min(start + tabsPerPage, n)]`, element `i` being tab `start + i` |
| Paging.PrevPage | script.js:172-173 | the Prev step; its definition is its contract (its properties are PrevSteps and NavigationKeepsExistingPage) |
| Paging.CanGoNext | script.js:179 | the Next guard; its definition is its contract |
| Paging.NextPage | script.js:179-180 | the Next step; its definition is its contract (its properties are NextLandsOnNonEmptyPage, NextOnLastPageIsNoop and NavigationKeepsExistingPage) |
| Paging.PageCount | script.js:166-167 | the total of the indicator is the ceiling of `n / tabsPerPage`: the least page count whose pages hold all `n` tabs |
| Paging.NextLandsOnNonEmptyPage | script.js:178-183 | when Next's guard holds it moves to the next page and that page shows at least one tab |
| Paging.NextOnLastPageIsNoop | script.js:178-183 | Next on the last announced page (or beyond) leaves the page unchanged |
| Paging.PrevSteps | script.js:171-176 | Prev at page 0 changes nothing and otherwise decrements by one, so the page never goes negative |
| Paging.OnExistingPageIffBelowCount | script.js:166-183 | a page shows tabs exactly when its index is below the announced page count (page 0 always allowed) |
| Paging.NavigationKeepsExistingPage | script.js:171-183 | from a page that shows tabs, Prev and Next lead to a page that shows tabs |
| Paging.PagesUpToIsPrefix | script.js:76-78 | the first k pages, concatenated, are the first `min(k * tabsPerPage, n)` tabs |
| Paging.PagesPartitionTabs | script.js:76-78 | pages 0 to count-1, concatenated, are the whole tab list in order |
| Paging.FortyFiveTabsExample | script.js:166-183 | 45 tabs at 20 per page: 3 pages, first page is the first 20 tabs, the third has 5, Next-Next-Prev lands on the second page, Next on the third is a no-op |
| TabList.WithoutId | script.js:154 | the filtered list holds exactly the old tabs whose id differs from the closed id |
| TabList.WithoutIdDistributes | script.js:154 | filtering a concatenation is the concatenation of the filtered parts, so surviving tabs keep their order |
| TabList.WithoutAbsentIdIsIdentity | script.js:154 | closing an id no tab has leaves the list exactly as it was |
| TabList.WithoutIdIdempotent | script.js:154 | filtering twice by the same id equals filtering once |
| TabList.WithoutIdRemovesCount | script.js:154 | the list shrinks by exactly the number of tabs with that id |
| SnapshotStore.Decimal | script.js:59 | a tab id prints as a non-empty string of decimal digits |
| SnapshotStore.DecimalRoundTrip | script.js:59 | reading the printed id back gives the id |
| SnapshotStore.SnapshotKey | script.js:59 | every storage key is `snapshot_` followed by the decimal digits of the id |
| SnapshotStore.SnapshotKeyInjective | script.js:59 | two tabs with the same storage key are the same tab |
| SnapshotStore.Save | script.js:57-60 | the write-through to both tiers; its definition is its contract (its properties are SaveThenLoad, SaveKeepsOtherTabs, SaveSurvivesRestart and SaveKeepsCoherent) |
| SnapshotStore.AfterCachedLoad | script.js:261-265 | the promotion of a stored snapshot into memory on a memory miss; its definition is its contract (its properties are CachedLoadFrame and CachedLoadKeepsCoherent) |
| SnapshotStore.AfterLoad | script.js:63-66 | `loadSnapshot` copies a truthy stored snapshot into memory whatever memory holds; its definition is its contract (its property is LoadKeepsCoherent) |
| SnapshotStore.CachedSnapshot | script.js:255-267 | a load returns the memory value on a memory hit, else the stored value when truthy, else null; never an empty string |
| SnapshotStore.CachedLoadFrame | script.js:255-267 | a load never writes storage, touches no other tab, changes nothing on a memory hit or full miss, and on a storage hit copies the stored value into memory |
| SnapshotStore.SaveThenLoad | script.js:57-60 | after saving a non-empty data URL, a load returns it and changes nothing |
| SnapshotStore.SaveKeepsOtherTabs | script.js:57-60 | a save changes neither what another tab loads nor how that load changes the tiers |
| SnapshotStore.SaveSurvivesRestart | script.js:57-60 | a saved data URL is returned by a load even with the memory tier emptied |
| SnapshotStore.EmptyMemoryIsCoherent | script.js:8 | the fresh page's empty memory agrees with any storage |
| SnapshotStore.SaveKeepsCoherent | script.js:57-60 | a save keeps memory in agreement with storage |
| SnapshotStore.CachedLoadKeepsCoherent | script.js:261-267 | a load with promotion keeps memory in agreement with storage |
| SnapshotStore.LoadKeepsCoherent | script.js:62-69 | `loadSnapshot` keeps memory in agreement with storage |
| SnapshotStore.CoherentLoadReadsStorage | script.js:255-267 | with memory agreeing with storage, a load returns what storage alone would give, and repeating it changes nothing |
| CaptureProvider.StrategyFor | script.js:194-197 | the fallback capture path is taken exactly in Brave |
| CaptureProvider.CaptureResult | script.js:196-249 | a failure of the capture API yields null; the fallback also fails on an empty data URL; the primary path passes on the frame's data URL |
| CaptureProvider.AfterCapture | script.js:207-208 | a delivered data URL is saved to both tiers, a failure writes nothing; its definition is its contract (its property is CaptureWriteThrough); the same write is at script.js:245-246 |
| CaptureProvider.CaptureWriteThrough | script.js:201-248 | a failed capture writes nothing; a successful one is then the tab's cached snapshot; either way memory keeps agreeing with storage |
| PreviewSlots.AltTextDistinct | script.js:119-141 | the six `alt` texts the script writes are pairwise distinct, so the label tells which case was taken |
| PreviewSlots.InitialSlot | script.js:115-145 | a new image has no source, is observed exactly when live previews are on, and reads "Loading" exactly then |
| PreviewSlots.ResolveSlot | script.js:119-145 | with live previews off the slot keeps its placeholder, no capture is requested and the tiers are untouched |
| PreviewSlots.ResolvedLabels | script.js:119-141 | Brave-simulated / No preview exactly when live is off (by Brave); Cached exactly on a hit; a capture exactly on a miss; Live exactly when the capture yields a non-empty data URL; Failed otherwise |
| PreviewSlots.CacheHitSkipsCapture | script.js:122-126 | on a hit the slot shows the cached image whatever the capture would yield, and the tiers change only by promotion |
| PreviewSlots.FailedCaptureWritesNothing | script.js:127-133 | a miss followed by a failed capture leaves both tiers as they were and labels the slot Failed |
| PreviewSlots.MissShowsCapture | script.js:127-130 | on a miss the tiers afterwards are the capture's write-through (script.js:207-208, 245-246), and a delivered data URL is the image shown and the tab's cached snapshot |
| PreviewSlots.SecondResolveHitsCache | script.js:122-135 | after a live capture, resolving the same tab again is a cache hit on the same image with no capture |
| PreviewSlots.ResolveKeepsCoherent | script.js:119-136 | resolving a slot keeps memory in agreement with storage |
| PreviewSlots.OnIntersect | script.js:82-89 | the observer callback shows the truthy memory snapshot and unobserves; its definition is its contract (its properties are RevealIsOneShot and RevealAgreesWithResolution) |
| PreviewSlots.RevealIsOneShot | script.js:80-90 | after the observer callback the image is unobserved, keeps its label, and a second callback changes nothing |
| PreviewSlots.RevealAgreesWithResolution | script.js:82-89 | revealing a resolved image against the memory it left behind shows the image the resolution chose |
| PreviewSlots.Extend | script.js:96-145 | one more tab of the `forEach` resolved after the ones before; its definition is its contract (its property is RenderSlotsAppend) |
| PreviewSlots.RenderSlots | script.js:96-164 | rendering a page yields one slot per tab; with live previews off it leaves the tiers as they were and captures nothing |
| PreviewSlots.RenderSlotsAppend | script.js:96-164 | rendering one more tab extends the render of the tabs before it |
| PreviewSlots.RenderShape | script.js:96-145 | slot i belongs to tab i of the page and is observed exactly when live previews are on; captures are requested only for tabs of the page |
| PreviewSlots.StaticRender | script.js:137-145 | with live previews off every slot is the Brave-simulated or No-preview placeholder |
| PreviewSlots.RenderKeepsCoherent | script.js:96-164 | rendering a page keeps memory in agreement with storage |
| Theme.IconFor | script.js:21 | the button shows the sun exactly on the dark theme |
| Theme.ResolveTheme | script.js:15-18 | the load-time theme is never empty; "system" follows the colour scheme; any other non-empty setting is used as is; an empty setting gives the stored theme when it is non-empty and "light" otherwise |
| Theme.Toggle | script.js:27-28 | "light" becomes "dark" and every other theme, an unset one included, becomes "light" |
| Theme.ToggleTwiceRestores | script.js:26-32 | toggling light or dark twice gives it back |
| Theme.ToggleSurvivesOnlyLocally | script.js:25-32 | a toggled theme is used on reopening only when the synced setting is empty; a synced theme wins |
| PreviewView.PreviewPage.constructor | script.js:1-8 | the initial state: no tabs, page 0, 20 per page, live previews off, empty memory, storage as found |
| PreviewView.PreviewPage.ApplySettings | script.js:35-43 | the settings and the queried tabs replace page size, flag and tab list; nothing else changes |
| PreviewView.PreviewPage.Prev | script.js:171-176 | the page becomes the Prev step of the old one; nothing else changes; an existing page stays existing |
| PreviewView.PreviewPage.Next | script.js:178-183 | the page becomes the Next step of the old one; a page it moves to shows tabs; nothing else changes |
| PreviewView.PreviewPage.CloseTab | script.js:153-156 | the tab list becomes the old one without the closed id; the page index and cache are unchanged |
| PreviewView.PreviewPage.SaveSnapshot | script.js:57-60 | both tiers become the save of the old tiers; nothing else changes |
| PreviewView.PreviewPage.LoadSnapshot | script.js:62-69 | memory receives the stored snapshot when it is truthy; nothing else changes |
| PreviewView.PreviewPage.LoadCachedSnapshot | script.js:255-267 | the result is the load of the old tiers and the tiers become the load's promotion |
| PreviewView.PreviewPage.CaptureTabPreview | script.js:193-253 | the result is the capture's callback value and the tiers receive its write-through |
| PreviewView.PreviewPage.RenderSlot | script.js:115-145 | the slot, capture request and new tiers are the resolution of the old tiers |
| PreviewView.PreviewPage.RenderPreviews | script.js:96-164 | the slots and the new tiers are the render of the page from the old tiers |
| PreviewView.PreviewPage.RenderTabs | script.js:71-168 | the slots are the render of the visible slice, at most a page of them; nothing is written with live previews off; the indicator shows page+1 of the page count |
| PreviewView.CloseCanStrandPage | script.js:153-167 | closing the only tab of the last page leaves the page index on an empty page past the count; Prev returns to an existing page |

## Left out

- The options form (`tab-preview-extension/options.js`) and the background script (`background.js`): settings storage I/O and window-opening glue; their results enter the model as the inputs of `ApplySettings`.
- PreviewView.PreviewPage.ApplySettings: requires a positive page size; a page size that `parseInt` turned into NaN, zero or a negative number is not modelled.
- DOM construction in `renderTabs` (elements, aria attributes, "Untitled" titles, favicon fallback), the card click that activates a tab, and the keyboard handler: user-interface glue.
- The capture itself (`tabCapture` stream, video element, 300×168 canvas, `toDataURL`, `captureVisibleTab`): foreign media APIs, modelled only as an oracle delivering a data URL or a failure.
- The activation of the tab before a capture, `chrome.windows.get`, and `chrome.tabs.remove`: browser state outside the page.
- PreviewView.PreviewPage.RenderTabs: resolves the page's previews one after the other in page order; the debounce timer, the asynchronous order of storage reads, captures and observer callbacks, and captures that finish after the next render are not modelled.
- PreviewSlots.ResolveSlot: gives every live slot a final label, reached once the cache lookup and the capture have answered; a capture that never answers (the slot stays Loading, nothing is written) is not modelled. This happens when the primary path's `video.onloadeddata` never fires, or when a failed `chrome.windows.get` on the fallback path leaves `win` undefined so that `win.id` throws.
- Storage writes are modelled as atomic and successful; a failed write and writes by other preview pages sharing the same storage are not modelled (the agreement of memory with storage assumes this page is the only writer).
- The window id parsed from the page URL: it only selects which tabs are queried, and the queried tabs are an input of `ApplySettings`.
- `localStorage` and the colour-scheme query: external inputs, passed as parameters to the theme functions.
- Theme.IconFor: the sun and moon glyphs are an enumeration rather than the emoji strings.

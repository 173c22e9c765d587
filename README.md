# Video mosaic: decision logic of the preset UI

This project models the decision logic inside the event handlers and derived values of the video
mosaic ("video wall") feature: the page navigation and rotation controls of a preset, the camera
list with its drag-and-drop reorder and delete, the fullscreen pause/resume of rotation and the
Save enablement in the item header, the rows of the presets list (share permissions, select,
delete, checkbox) and the preset creation window (layout filter, layout selection, Create routing).

Every Redux `dispatch` is modelled as appending an action record to `Redux.Store.log`. Every
warning dialog a handler opens is appended to `Redux.Store.alerts`. So "no action emitted" is
stated as `store.log == old(store.log)`. The preset form and the create form are classes whose
fields the handlers write. The pure rules (selectors, predicates, filters) are functions, and
lemmas connect them.

Modules, one per source file, plus shared ones:

- `Common`: `Option` and JavaScript truthiness of numbers and strings.
- `Redux`: the action records and the `Store` log.
- `Forms`: the preset form's rotation fields.
- `Layouts`: layout templates and the page size `Limit`.
- `Sharing`: share modes and `CanEdit`.
- `PresetRotationControls`: video-mosaic-item-preset-rotation-controls.tsx.
- `CamerasList`: video-mosaic-item-cameras-list.tsx.
- `MosaicItem`: video-mosaic-item.tsx, plus the over-header rule of video-mosaic-window.tsx:58.
- `ListItem`: video-mosaic-list-item.tsx.
- `CreateWindow`: video-mosaic-item-preset-create-window.tsx.

Inputs of the model:

- Values the components get from code not part of this model are parameters: `limit`,
  `currentPage` and `pages` from the pagination calculator, `filterIsCustom`, `didDrop`, the
  confirmation result, `document.fullscreenElement`, the system settings and the standard periods.
- The pagination calculator `prepareNavigation` is not part of this model. The navigation lemmas
  assume that it numbers pages from 1 with `currentPage == offset / limit + 1` for `limit > 0`.
  That assumption is the predicate `PresetRotationControls.OnPage`, a hypothesis of those lemmas.
  It is not a claim about the calculator.

Notes on the code's behaviour that the model keeps:

- The clamp fires only when `pages` is nonzero and the current page is past the last page
  (video-mosaic-item-preset-rotation-controls.tsx:225). It is not a general bound on the offset.
- An empty or zero arbitrary input sets the rotation period to the third standard period,
  `rotationIntervalValues[2]` (video-mosaic-item-preset-rotation-controls.tsx:137).
- Restoring rotation after full screen only ever turns it on: the exit branch writes `true`
  or nothing (video-mosaic-item.tsx:133-134).
- The prev/next buttons do not wrap around: Next is disabled on the last page
  (video-mosaic-item-preset-rotation-controls.tsx:288) and Prev on the first (:255).
- With at most one page the controls are only made transparent, with opacity 0
  (video-mosaic-item-preset-rotation-controls.tsx:38, :243). They stay rendered.

## Model

| member | source | states |
|---|---|---|
| `PresetRotationControls.IntervalButtons` | video-mosaic-item-preset-rotation-controls.tsx:122-131 | one button per standard period, in order; each is disabled iff an arbitrary value is shown or rotation is off, and selected iff its value equals the rotation period |
| `PresetRotationControls.SomeButtonSelectedIffStandard` | video-mosaic-item-preset-rotation-controls.tsx:128 | some button is selected iff the rotation period is one of the standard periods |
| `PresetRotationControls.DistinctPeriodsSelectOneButton` | video-mosaic-item-preset-rotation-controls.tsx:126-128 | with distinct standard periods (they are the buttons' React keys), two selected buttons are the same button |
| `PresetRotationControls.DisplayedSeconds` | video-mosaic-item-preset-rotation-controls.tsx:173-177 | the input shows a value iff the stored milliseconds are set and nonzero, and that value times 1000 is the stored value |
| `PresetRotationControls.StoredSecondsDisplayBack` | video-mosaic-item-preset-rotation-controls.tsx:173-177 | seconds typed in, stored as `seconds*1000` ms, are displayed again as the same seconds |
| `PresetRotationControls.RotationDropdown.constructor` | video-mosaic-item-preset-rotation-controls.tsx:118-121 | the shown arbitrary value starts as the form's committed arbitrary period, with no errors |
| `PresetRotationControls.RotationDropdown.Buttons` | video-mosaic-item-preset-rotation-controls.tsx:122-131 | the standard buttons rendered from the dropdown's shown value and the form's rotation fields, one per standard period |
| `PresetRotationControls.RotationDropdown.ChangeArbitraryInterval` | video-mosaic-item-preset-rotation-controls.tsx:132-149 | empty/zero input: errors and shown value cleared, arbitrary period committed as null, rotation period reset to the third standard period, whose button is then selected, and the buttons are enabled iff rotation is on; input within [min, max] (inclusive): `value*1000` shown and committed, no error; other input: `value*1000` shown, the invalid-value error set, nothing committed; any nonzero input disables every standard button; a committed period within the range stays within it |
| `PresetRotationControls.RotationDropdown.Blur` | video-mosaic-item-preset-rotation-controls.tsx:183-185 | leaving the input clears the errors and keeps the shown value |
| `PresetRotationControls.RotationDropdown.ClickInterval` | video-mosaic-item-preset-rotation-controls.tsx:64-66 | a standard-interval button sets the rotation period to its value and changes no other field; afterwards exactly the buttons with that value are selected |
| `PresetRotationControls.RotationDropdown.SwitchRotation` | video-mosaic-item-preset-rotation-controls.tsx:150-152 | the switch writes its value into the rotation flag and nothing else; switching off disables every standard button |
| `PresetRotationControls.RotationDropdown.ValidateArbitrary` | video-mosaic-item-preset-rotation-controls.tsx:107-111 | a validation of the arbitrary field is dispatched iff the committed arbitrary period is set and nonzero |
| `PresetRotationControls.TimerPeriod` | video-mosaic-item-preset-rotation-controls.tsx:220 | the timer is the arbitrary period when it is set and nonzero, else the rotation period; it is 0 only if the rotation period is |
| `PresetRotationControls.PrevDisabled` | video-mosaic-item-preset-rotation-controls.tsx:255 | Prev is disabled exactly on page 1 |
| `PresetRotationControls.NextDisabled` | video-mosaic-item-preset-rotation-controls.tsx:288 | Next is disabled on the last page and while the cells load |
| `PresetRotationControls.ControlsHidden` | video-mosaic-item-preset-rotation-controls.tsx:243 | the controls are made transparent iff there is at most one page |
| `PresetRotationControls.RotationControls.Navigate` | video-mosaic-item-preset-rotation-controls.tsx:215-223 | exactly one item change: next dispatches `offset + limit`, prev `offset - limit`; the timer is the arbitrary period when nonzero, else the rotation period |
| `PresetRotationControls.RotationControls.ClampOffset` | video-mosaic-item-preset-rotation-controls.tsx:224-233 | when `pages > 0` and `currentPage > pages`, exactly one change to offset `(pages-1)*limit` without timer; otherwise nothing is dispatched |
| `PresetRotationControls.ClampLandsOnLastPage` | video-mosaic-item-preset-rotation-controls.tsx:229 | the clamped offset is nonnegative and lies on page `pages` |
| `PresetRotationControls.PrevStaysOnPages` | video-mosaic-item-preset-rotation-controls.tsx:255 | when Prev is enabled (current page not 1) on a consistent page, the offset it dispatches is nonnegative and on the previous page |
| `PresetRotationControls.NextStaysOnPages` | video-mosaic-item-preset-rotation-controls.tsx:288 | when Next is enabled (not the last page, not loading) on an existing page, the offset it dispatches is on the next page, which exists |
| `PresetRotationControls.ShownControlsCanMove` | video-mosaic-item-preset-rotation-controls.tsx:243 | controls are shown iff `pages > 1`, and then Prev or Next is enabled on every page while nothing loads |
| `PresetRotationControls.RotationControls.ToggleRotation` | video-mosaic-item-preset-rotation-controls.tsx:239-241 | pause/resume sets the rotation flag to its negation and changes no other field |
| `PresetRotationControls.ToggleTwiceRestores` | video-mosaic-item-preset-rotation-controls.tsx:239-241 | pressing pause/resume twice restores the rotation flag |
| `CamerasList.Slice` | video-mosaic-item-cameras-list.tsx:54 | JavaScript slice for nonnegative bounds: length `max(0, min(end,n) - min(start,n))`, element `i` is `s[start+i]` |
| `Layouts.Limit` | video-mosaic-item-cameras-list.tsx:53 | the page size is the layout's cell count, or 0 without a layout |
| `CamerasList.CameraIds` | video-mosaic-item-cameras-list.tsx:54 | the map to camera ids keeps length and position |
| `CamerasList.ActiveCameras` | video-mosaic-item-cameras-list.tsx:48-56 | length `max(0, min(limit, |items| - offset))`, never more than `limit`, empty when `limit == 0` or `offset >= |items|`; element `i` is `items[offset+i].cameraId`; `limit` is the layout's cell count or 0 without layout |
| `CamerasList.ActiveIffInWindow` | video-mosaic-item-cameras-list.tsx:53-54 | a camera is active iff an item at an index in `[offset, offset+limit)` holds it |
| `CamerasList.CamerasListItem.Highlighted` | video-mosaic-item-cameras-list.tsx:146 | a tile is highlighted iff its camera is among the active cameras |
| `CamerasList.HighlightedIffInWindow` | video-mosaic-item-cameras-list.tsx:146 | a tile is highlighted iff its camera is held by an item inside the visible window |
| `CamerasList.CamerasListItem.DragPayload` | video-mosaic-item-cameras-list.tsx:82-87 | the drag payload carries the tile's camera id and order number |
| `CamerasList.CamerasListItem.Drop` | video-mosaic-item-cameras-list.tsx:102-114 | under a custom filter: the warning is shown and no action is emitted, whatever `didDrop`; a nested-handled drop emits nothing; otherwise exactly one move from the dragged order to this tile's order |
| `CamerasList.CamerasListItem.Delete` | video-mosaic-item-cameras-list.tsx:120-129 | under a custom filter: the warning and no action; otherwise exactly one removal keyed by this tile's order number |
| `CamerasList.DragOnto` | video-mosaic-item-cameras-list.tsx:83-113 | dragging tile A onto tile B emits the move from A's order number to B's, or nothing when guarded |
| `MosaicItem.ItemHeader.constructor` | video-mosaic-item.tsx:126-128 | the remembered rotation flag starts equal to the rotation flag |
| `MosaicItem.FullscreenChange` | video-mosaic-item.tsx:129-136 | one fullscreen-change signal on the remembered and enabled flags: entering remembers and stops, leaving resumes when remembered |
| `MosaicItem.ItemHeader.OnScreenRotationStopped` | video-mosaic-item.tsx:129-136 | the remembered and enabled flags move as `FullscreenChange` says; the period fields are untouched |
| `MosaicItem.EnterStopsRotation` | video-mosaic-item.tsx:130-132 | entering full screen remembers the enabled flag and disables rotation |
| `MosaicItem.ExitResumesRemembered` | video-mosaic-item.tsx:133-135 | leaving full screen keeps the remembered flag and turns rotation on iff it was on or remembered; nothing else changes |
| `MosaicItem.EnterExitRestores` | video-mosaic-item.tsx:129-136 | one enter followed by one exit restores the enabled flag |
| `MosaicItem.DoubleEnterForgetsRotation` | video-mosaic-item.tsx:129-136 | with rotation on, enter then exit resumes it but enter, enter, exit leaves it off: entering is not idempotent |
| `MosaicItem.EnterExitThroughListener` | video-mosaic-item.tsx:129-142 | the listener called with enter and then exit leaves the form's rotation flag as it was |
| `MosaicItem.HasChanges` | video-mosaic-item.tsx:165 | the changes dot: some field changed or a custom filter is applied |
| `MosaicItem.SaveEnabled` | video-mosaic-item.tsx:163-164 | `btnSaveEnable` with JavaScript truthiness of the selected id, the name and the changed-field count |
| `MosaicItem.SaveEnabledIffReadyWithChanges` | video-mosaic-item.tsx:163-165 | Save is enabled iff a preset is selected, the name is nonempty, the form is valid and there are changes (custom filter or changed fields); so enabled Save implies the changes dot |
| `MosaicItem.ShareButtonShown` | video-mosaic-item.tsx:186-207 | the header share button needs a selected preset and the edit permission |
| `MosaicItem.ShareButtonHiddenForViewers` | video-mosaic-item.tsx:207 | the header share button is never shown with VIEW and, with EDIT, is shown iff a preset is selected |
| `Sharing.CanEdit` | video-mosaic-item.tsx:88 | edit permission: the share mode is not VIEW (a missing mode permits editing) |
| `Sharing.CanEditUnlessView` | video-mosaic-item.tsx:88 | edit permission is false exactly when the share mode is VIEW; no mode and EDIT both permit editing |
| `MosaicItem.HeaderShown` | video-mosaic-item.tsx:254 | the item header is shown outside full screen, or in full screen when pinned |
| `MosaicItem.OverHeaderShown` | video-mosaic-window.tsx:58 | the window's over-header is shown in full screen when the header is not pinned |
| `MosaicItem.HeadersComplement` | video-mosaic-item.tsx:254 | the item header is shown iff `!fullScreenMode \|\| pinHeader`, exactly when the over-header of video-mosaic-window.tsx:58 is not |
| `ListItem.FindShareMode` | video-mosaic-list-item.tsx:79-80 | none iff no sharing names the current user; otherwise the mode of the first sharing that does |
| `ListItem.ListCanEditUnlessViewShared` | video-mosaic-list-item.tsx:79-83 | a row's user cannot edit iff their first sharing entry grants VIEW |
| `ListItem.MenuItems` | video-mosaic-list-item.tsx:166-184 | with the edit permission: share, access, delete, each once and in that order; without it: delete alone |
| `ListItem.SharingIconAsWritten` | video-mosaic-list-item.tsx:144-155 | the icon rule as written: owner with sharings gets the shared icon; a non-owner with sharings gets the looked-up mode icon, undefined when the user has no entry; no sharings, no icon |
| `ListItem.SharingIconUndefinedForUnlistedViewer` | video-mosaic-list-item.tsx:150-155 | as written, a non-owner of a preset shared only with others gets an undefined icon component |
| `ListItem.SharingIconShown` | video-mosaic-list-item.tsx:144-155 | with sharings, the owner sees the shared icon and a non-owner with an entry sees that mode's icon; with no sharings no icon; never an undefined component; agrees with the code wherever the code renders |
| `ListItem.Checked` | video-mosaic-list-item.tsx:66-68 | a row is checked iff its id is among the selected items |
| `ListItem.IsSelectedRow` | video-mosaic-list-item.tsx:131 | a row is highlighted iff its id is the selected id |
| `ListItem.PresetListItem.UserCanEdit` | video-mosaic-list-item.tsx:77-83 | for the signed-in user, this row's `canEdit` is false exactly when their first sharing entry grants VIEW |
| `ListItem.PresetListItem.Menu` | video-mosaic-list-item.tsx:160-184 | this row's actions menu, for the signed-in user: share, access, delete in that order when they can edit this row, delete alone otherwise |
| `ListItem.PresetListItem.Icon` | video-mosaic-list-item.tsx:144-155 | with `isOwnerCurrentPreset` being "the signed-in user is the owner": no sharings, no icon; owner of a shared preset, the shared icon; another user, no icon exactly when no entry names them, and otherwise the mode of their first entry; never an undefined component |
| `ListItem.PresetListItem.OnItemClick` | video-mosaic-list-item.tsx:101-108 | exactly one select action iff the row is not the selected one, else nothing |
| `ListItem.PresetListItem.OnDelete` | video-mosaic-list-item.tsx:84-99 | exactly one delete action iff the confirmation resolved true, else nothing |
| `ListItem.PresetListItem.OnCheckboxChange` | video-mosaic-list-item.tsx:112-116 | one toggle action carrying `!checked`, where `checked` holds iff the id is among the selected items |
| `CreateWindow.ArchiveLayouts` | video-mosaic-item-preset-create-window.tsx:86-89 | exactly the layouts with at most `maxAllowedArchives` cells, each as often as in the full list, in their original order (a subsequence) |
| `CreateWindow.FitsArchive` | video-mosaic-item-preset-create-window.tsx:88 | a layout fits archive mode iff it has at most `maxAllowedArchives` cells |
| `CreateWindow.RenderedLayouts` | video-mosaic-item-preset-create-window.tsx:114-121 | the rendered rows: the archive list in archive mode, the full list otherwise |
| `CreateWindow.RenderedLayoutsOrderAndFit` | video-mosaic-item-preset-create-window.tsx:114-121 | the rendered list is the full list outside archive mode and the archive list in it; either way a subsequence of the full list |
| `CreateWindow.RowSelected` | video-mosaic-item-preset-create-window.tsx:77 | a row is selected iff its id is the form's layout id |
| `CreateWindow.OnLayoutClick` | video-mosaic-item-preset-create-window.tsx:72-77 | clicking a row sets the form's layout id to the row's id; then exactly the rows with that id are selected; other fields untouched |
| `CreateWindow.OnCreate` | video-mosaic-item-preset-create-window.tsx:147 | Create emits the outside-save action when the form holds camera ids, else save-button-click with no id |
| `CreateWindow.OnHideEnd` | video-mosaic-item-preset-create-window.tsx:158-168 | hiding the window emits exactly one reset of the create form |

## Findings

| source | as written | input that shows it | evidently intended | confidence | as-written member | corrected member |
|---|---|---|---|---|---|---|
| video-mosaic-list-item.tsx:150-155 | a non-owner row with nonempty sharings renders `sharedModeMap[shareType]?.icon` even when no sharing names the current user, so the component is `undefined` | owner "alice", current user "bob", sharings `[{username: "carol", shareMode: VIEW}]` | no mode icon when the user has no sharing entry | low (the list may never hold such a preset); not executed | `ListItem.SharingIconUndefinedForUnlistedViewer` | `ListItem.SharingIconShown` |

## Left out

- The pagination calculator (`prepareNavigation`) and the rotation timer component are not part of this model. Their outputs (`limit`, `currentPage`, `pages`) are inputs, and the timer's ticking and any wrap-around are not modelled.
- The reducers that apply move, remove, select, delete, toggle and reset actions are not part of this model. This includes any renumbering of `orderNumber`. The model stops at the emitted action.
- The forms service is not modelled: `useForm`, `changedFields`, `isValid`, the `validate(...)` wrapper around the Save and Create actions, and the initial values a reset restores. Validation results are inputs, and Create is modelled as the routed action alone.
- The alert and confirmation dialogs are reduced to a recorded alert and a boolean answer. Their promises, and what happens while they are awaited, are not modelled.
- The document fullscreen API and the adding and removing of the `fullscreenchange` listener are left out. The signal is the boolean `inFullscreen`.
- react-dnd is left out (the monitor, `isOver`, opacity, the drag type constant). `didDrop` is an input.
- React re-render timing, stale handler closures and `useMemo`/`createSelector` memoisation identity are not modelled.
- Rendering, styling, icons, tooltips and localisation are left out. Error messages are their localisation keys.
- Arbitrary rotation input: NaN and fractional seconds are not modelled. The input is an optional integer, and a missing value stands for an empty field.
- An `undefined` rotation flag is modelled as `false`.
- JavaScript slice with negative offsets is not modelled. The offset is a `nat`.
- video-mosaic-item-preset-toolbar.tsx, video-mosaic-list.tsx and the rest of video-mosaic-window.tsx are not part of this model. That covers list and menu wiring, sorting options, the header-zone pixel geometry and the toolbar's archive limit from a different setting.
- `PresetRotationControls.RotationDropdown.ClickInterval`: a disabled button cannot be clicked in the UI. The model does not require the button to be enabled.

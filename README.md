# Window and dock state of a browser desktop simulation

This project models, in Dafny, the state logic behind the floating windows,
the trash and the settings of a single-page desktop simulation written in
TypeScript/React. It covers:

- the window hook: drag constraints, eight-direction resize, maximize/restore,
  minimize and the restore effect, close;
- the window component's click, drag and resize-handle handlers, gated on the
  minimized flag;
- the standalone pointer-driven resize handle;
- restore and restore-all in the trash window;
- the shared desktop store (dock apps, trashed apps, windows);
- translation lookup of dotted keys, and the text component's locale-change
  detection;
- background-image validation and the background-image URL store.

Stateful parts are classes whose methods state the new state exactly. The
rules behind them are functions on values with lemmas. Pixel coordinates are
integers. Only the minimize animation target, which halves widths, uses `real`.

Modules, one per source file:

- `Interfaces`: the shared records (`src/ts/interfaces/desktop.interfaces.ts`).
- `DesktopStore`: the store (`src/stores/desktop.store.ts`).
- `WindowGeometry` and `WindowBehavior`: the window hook
  (`src/components/Window/hooks/useWindowBehavior.ts`). The first holds the
  arithmetic and list rebuilds; the second holds the hook's state as a class.
- `WindowComponent`: `src/components/Window/index.tsx`.
- `ResizeHandle`: `src/components/Window/components/ResizeHandle.tsx`.
- `Trash`: `src/components/Window/contents/TrashContent/index.tsx`.
- `Translation`: `src/hooks/useTranslation.tsx`.
- `BackgroundImageStore`: `src/stores/backgroundImage.store.ts`.
- `BackgroundImageSelector`:
  `src/components/Window/contents/SettingsContent/components/BackgroundImageSelector.tsx`.

The resize and trash code guarantee less than a reader might expect, and the model keeps that:

- A resize does not keep the window inside the container with a 200×150
  minimum. An east resize near the right edge can leave the width below 200.
  A west resize that grows the window past the container leaves its right edge
  outside, even after the constraint clamp.
- The trash's drag-to-trash path is not in the modelled files. The dock's drag
  end only filters the dock, so nothing is ever added to the trash there.

## Model

| member | source | states |
|---|---|---|
| `Interfaces.LettersPerAxis` | src/components/Window/hooks/useWindowBehavior.ts:133-148 | no direction names both 'e' and 'w', or both 'n' and 's'; n/s leave the horizontal axis alone, e/w the vertical one |
| `DesktopStore.Store.constructor` | src/stores/desktop.store.ts:13-15 | the dock starts as [store, settings], the window list empty; the trash starts at a given value |
| `DesktopStore.Store.SetWindows` | src/stores/desktop.store.ts:16 | replaces the window list wholesale; dock and trash unchanged |
| `DesktopStore.Store.SetNavApps` | src/stores/desktop.store.ts:17 | replaces the dock wholesale; windows and trash unchanged |
| `DesktopStore.Store.SetTrashedApps` | src/components/Window/contents/TrashContent/index.tsx:13-16 | replaces the trash wholesale; dock and windows unchanged |
| `WindowGeometry.Clamp` | src/components/Window/hooks/useWindowBehavior.ts:87-88 | min(hi, max(lo, v)) lies in [lo, hi] when that is non-empty, keeps a value already inside, never exceeds hi |
| `WindowGeometry.ConstraintsFor` | src/components/Window/hooks/useWindowBehavior.ts:77-85 | left = top = 0; right = W − width, or 0 when the window is wider than the container; same for bottom |
| `WindowGeometry.Constrain` | src/components/Window/hooks/useWindowBehavior.ts:73-89 | size untouched; x ∈ [0, max(0, W−width)], y likewise; a window already inside is unchanged; a window no wider than the container ends inside it |
| `WindowGeometry.ConstrainIdempotent` | src/components/Window/hooks/useWindowBehavior.ts:73-89 | clamping twice equals clamping once |
| `WindowGeometry.ResizeSpan` | src/components/Window/hooks/useWindowBehavior.ts:133-155 | far edge (e/s): origin fixed, extent follows the delta within [min, limit−origin], with the container bound winning, so it drops below the minimum only when pinned to the container; near edge (w/n): when max(min, extent−delta) equals the extent nothing moves; when it differs the extent becomes it and the origin becomes origin+delta clamped against the OLD extent, so the opposite edge stays fixed when both are in range; no letter: unchanged |
| `WindowGeometry.ResizeStep` | src/components/Window/hooks/useWindowBehavior.ts:128-155 | a direction never touches an axis its letters do not name; an 'e' (resp. 's') resize keeps x (y) and the right (bottom) edge inside the container |
| `WindowGeometry.EastResizeCanUndercutMinimum` | src/components/Window/hooks/useWindowBehavior.ts:133-135 | an east resize at x = 150 in a 300-wide container yields width 150 < 200 |
| `WindowGeometry.WestResizeCanOverflow` | src/components/Window/hooks/useWindowBehavior.ts:136-162 | a west resize that grows a window to 500 in a 400-wide container ends with x = 0 and its right edge at 500, after the clamp |
| `WindowGeometry.MinimizeTarget` | src/components/Window/hooks/useWindowBehavior.ts:50-61 | with an icon the target is its rectangle's centre; without one it is (innerWidth/2, innerHeight−40) |
| `WindowGeometry.MinimizeEndpoint` | src/components/Window/hooks/useWindowBehavior.ts:218-232 | the animated top-left puts the window's centre on the target |
| `WindowGeometry.MarkMinimized` | src/components/Window/hooks/useWindowBehavior.ts:236-241 | same length; windows of other apps identical; windows of this app get minimized = true and nothing else changes |
| `WindowGeometry.MarkMinimizedEffect` | src/components/Window/hooks/useWindowBehavior.ts:236-241 | position, size and zIndex of every window are kept, and this app's windows read as minimized |
| `WindowGeometry.CloseWindow` | src/components/Window/hooks/useWindowBehavior.ts:176-178 | the result holds exactly the windows of other apps |
| `WindowGeometry.CloseWindowAppend` | src/components/Window/hooks/useWindowBehavior.ts:177 | close distributes over concatenation, so the other windows keep their order |
| `WindowGeometry.CloseAbsentWindow` | src/components/Window/hooks/useWindowBehavior.ts:177 | closing an app with no open window changes nothing |
| `WindowGeometry.CloseWindowIdempotent` | src/components/Window/hooks/useWindowBehavior.ts:176-178 | closing twice equals closing once |
| `WindowBehavior.WindowState.constructor` | src/components/Window/hooks/useWindowBehavior.ts:19-37 | motion values from the stored window, saved geometry and position zero, all flags false except minimized = stored flag (absent reads false) |
| `WindowBehavior.WindowState.SyncMinimized` | src/components/Window/hooks/useWindowBehavior.ts:40-42 | the local flag becomes the stored flag, absent reading false |
| `WindowBehavior.WindowState.FindAppIconPosition` | src/components/Window/hooks/useWindowBehavior.ts:45-64 | the recorded minimize target is MinimizeTarget of the icon rectangle and viewport |
| `WindowBehavior.WindowState.UpdateConstraints` | src/components/Window/hooks/useWindowBehavior.ts:73-90 | without a container nothing changes; otherwise geometry becomes Constrain of the old geometry and the constraints are recomputed |
| `WindowBehavior.WindowState.HandleResize` | src/components/Window/hooks/useWindowBehavior.ts:114-163 | without a container nothing changes; otherwise geometry = Constrain(ResizeStep(old geometry)) and constraints match it |
| `WindowBehavior.WindowState.HandleResizeEnd` | src/components/Window/hooks/useWindowBehavior.ts:166-173 | clears resizing and reports the current position and size |
| `WindowBehavior.WindowState.HandleClose` | src/components/Window/hooks/useWindowBehavior.ts:176-178 | the store's windows become CloseWindow of the old list; dock and trash unchanged |
| `WindowBehavior.WindowState.HandleMaximize` | src/components/Window/hooks/useWindowBehavior.ts:181-209 | without a container nothing changes; from normal it saves (x, y, w, h) and fills the container's client size; from maximized it puts the saved four values back; the flag flips and the clamp follows |
| `WindowBehavior.WindowState.HandleMinimize` | src/components/Window/hooks/useWindowBehavior.ts:212-242 | records (x, y), animates toward the endpoint, raises the local flag, marks the stored windows via MarkMinimized; x, y, size untouched |
| `WindowBehavior.WindowState.RestoreEffect` | src/components/Window/hooks/useWindowBehavior.ts:245-265 | when the store says not minimized and the local flag says minimized, x/y return to exactly the recorded position and the flag clears; otherwise nothing changes |
| `WindowBehavior.MaximizeRoundTrip` | src/components/Window/hooks/useWindowBehavior.ts:187-206 | maximize then un-maximize in an unchanged container gives back the exact geometry of a window that was within its constraints |
| `WindowBehavior.MinimizeRoundTrip` | src/components/Window/hooks/useWindowBehavior.ts:212-263 | minimize, then a constraint update and a resize step while minimized, then the store's un-minimize: the window is back at exactly its pre-minimize position |
| `WindowBehavior.RestoreStoredMinimized` | src/components/Window/hooks/useWindowBehavior.ts:20-26 | a window stored as minimized and then un-minimized by the store goes to (0, 0), since no minimize recorded its position |
| `WindowComponent.DirectionsEachOnce` | src/components/Window/index.tsx:48 | each of the eight directions occurs exactly once among the rendered handles |
| `WindowComponent.InteractivityOf` | src/components/Window/index.tsx:91-102 | draggable and receiving pointer events exactly when not minimized |
| `WindowComponent.DragFollowsInteractivity` | src/components/Window/index.tsx:91-116 | a window that is not draggable ignores drag start and drag end; a draggable one starts and stops dragging on them |
| `WindowComponent.Step` | src/components/Window/index.tsx:56-121 | window drag start/end set/clear dragging only when not minimized; handle drag start/end set/clear resizing regardless; click and handle drag change no flag |
| `WindowComponent.MinimizedFreezesDragging` | src/components/Window/index.tsx:109-121 | while minimized no sequence of events changes isDragging |
| `WindowComponent.MinimizeDuringDragLeavesDragging` | src/components/Window/index.tsx:114-116 | a drag started visible and ended after minimize leaves isDragging true |
| `WindowComponent.HandleDragEndClearsResizing` | src/components/Window/index.tsx:63 | any event history ending in a handle drag end leaves isResizing false |
| `WindowComponent.OnClick` | src/components/Window/index.tsx:105-108 | focus is requested exactly when the window is not minimized |
| `WindowComponent.OnDragStart` | src/components/Window/index.tsx:109-113 | flags follow Step for a drag start; focus exactly when not minimized |
| `WindowComponent.OnDragEnd` | src/components/Window/index.tsx:114-121 | flags follow Step for a drag end; the position is reported exactly when not minimized |
| `WindowComponent.OnHandleDragStart` | src/components/Window/index.tsx:56-59 | sets resizing and requests focus |
| `WindowComponent.OnHandleDrag` | src/components/Window/index.tsx:60-62 | with the handle's own direction and the event's delta: no container changes nothing; otherwise the geometry becomes Constrain(ResizeStep(old geometry)) and the constraints are recomputed for it |
| `WindowComponent.OnHandleDragEnd` | src/components/Window/index.tsx:63 | clears resizing and reports position and size |
| `ResizeHandle.Deltas` | src/components/Window/components/ResizeHandle.tsx:39-44 | one delta per move |
| `ResizeHandle.DeltasTelescope` | src/components/Window/components/ResizeHandle.tsx:39-44 | the emitted deltas sum to the last pointer position minus the pointer-down position |
| `ResizeHandle.ResizeTracker.constructor` | src/components/Window/components/ResizeHandle.tsx:19-20 | starts idle with last position (0, 0) |
| `ResizeHandle.ResizeTracker.PointerDown` | src/components/Window/components/ResizeHandle.tsx:26-34 | becomes resizing, records the pointer as last position, calls the start callback |
| `ResizeHandle.ResizeTracker.PointerMove` | src/components/Window/components/ResizeHandle.tsx:36-45 | idle: nothing; resizing: emits (current − last) with the fixed direction, then last := current; the deltas so far sum to current − down |
| `ResizeHandle.ResizeTracker.PointerUp` | src/components/Window/components/ResizeHandle.tsx:47-55 | returns to idle; the end callback fires exactly when it was resizing |
| `ResizeHandle.ResizeTracker.PointerCancel` | src/components/Window/components/ResizeHandle.tsx:57-60 | same listener as pointer up |
| `ResizeHandle.ReleaseTwice` | src/components/Window/components/ResizeHandle.tsx:47-60 | an up followed by a cancel calls the end callback at most once |
| `Trash.Find` | src/components/Window/contents/TrashContent/index.tsx:22 | None exactly when no app has the id; otherwise the first app with that id |
| `Trash.WithoutId` | src/components/Window/contents/TrashContent/index.tsx:29 | exactly the apps with other ids remain; a list without the id is returned unchanged |
| `Trash.WithoutIdAppend` | src/components/Window/contents/TrashContent/index.tsx:29 | the filter distributes over concatenation, so the remaining entries keep their order and multiplicity |
| `Trash.NotInDock` | src/components/Window/contents/TrashContent/index.tsx:35-37 | exactly the trashed apps whose id is absent from the dock; a trash with no id in the dock is returned unchanged |
| `Trash.NotInDockAppend` | src/components/Window/contents/TrashContent/index.tsx:35-37 | the filter distributes over concatenation, so the apps to restore keep trash order and multiplicity |
| `Trash.Restore` | src/components/Window/contents/TrashContent/index.tsx:21-30 | an id not in the trash changes nothing; otherwise the trash loses every entry with that id, and the dock gains the first such app at its end unless the id is already there, keeping its prefix |
| `Trash.RestoreAll` | src/components/Window/contents/TrashContent/index.tsx:32-44 | an empty trash changes nothing; otherwise the dock gains, in trash order, the trashed apps absent from it and the trash empties |
| `Trash.RestoreKeepsDockUnique` | src/components/Window/contents/TrashContent/index.tsx:25-27 | restoring one app never duplicates an id in the dock |
| `Trash.RestoreAllKeepsDockUnique` | src/components/Window/contents/TrashContent/index.tsx:35-41 | restore-all keeps dock ids unique when the trash has no duplicate |
| `Trash.RestorePreservesPartition` | src/components/Window/contents/TrashContent/index.tsx:21-30 | if every app sits at most once in at most one list, restore keeps it so |
| `Trash.RestoreAllPreservesPartition` | src/components/Window/contents/TrashContent/index.tsx:32-44 | the same for restore-all |
| `Trash.RestoreAllKeepsTrashDuplicates` | src/components/Window/contents/TrashContent/index.tsx:35-41 | two trashed copies of one app both reach the dock |
| `Trash.RestoreAllScenario` | src/components/Window/contents/TrashContent/index.tsx:32-44 | dock [B, C], trash [A] become [B, C, A] and [] |
| `Trash.HandleRestore` | src/components/Window/contents/TrashContent/index.tsx:21-30 | the store's dock and trash become Restore of the old ones; windows unchanged |
| `Trash.HandleRestoreAll` | src/components/Window/contents/TrashContent/index.tsx:32-44 | the store's dock and trash become RestoreAll of the old ones; windows unchanged |
| `Translation.Split` | src/hooks/useTranslation.tsx:23 | at least one segment, and no segment contains a dot |
| `Translation.JoinSplit` | src/hooks/useTranslation.tsx:23 | joining the segments with dots gives back the key |
| `Translation.SplitJoin` | src/hooks/useTranslation.tsx:23 | splitting segments joined by dots gives back the segments |
| `Translation.Walk` | src/hooks/useTranslation.tsx:26-34 | the loop returns the string at the path when indexing reaches one, and the key otherwise |
| `Translation.Translate` | src/hooks/useTranslation.tsx:22-35 | the result is the string stored at the key's dotted path in that locale's table; a missing segment, a string midway or a path ending on an object gives the key |
| `Translation.TranslateStoredText` | src/hooks/useTranslation.tsx:22-35 | a string stored under s1…sn is what "s1.….sn" translates to |
| `Translation.TranslateMissingFirstSegment` | src/hooks/useTranslation.tsx:27-31 | a key whose first segment is missing comes back unchanged |
| `Translation.UseTranslation` | src/hooks/useTranslation.tsx:83-90 | t(key) is translate at the current locale, for every key |
| `Translation.TextRenderer.constructor` | src/hooks/useTranslation.tsx:62 | the remembered locale starts as the first render's locale |
| `Translation.TextRenderer.Render` | src/hooks/useTranslation.tsx:59-65 | the text is translate(locale, k); locale-changed iff the remembered locale differs; the remembered locale becomes the current one |
| `BackgroundImageStore.Store.constructor` | src/stores/backgroundImage.store.ts:13-14 | url null, loading true, nothing revoked |
| `BackgroundImageStore.Store.BeginLoad` | src/stores/backgroundImage.store.ts:16-17 | loading goes up |
| `BackgroundImageStore.Store.CompleteLoad` | src/stores/backgroundImage.store.ts:18-24 | on success the url is the loaded one, on failure unchanged; loading ends either way; nothing revoked |
| `BackgroundImageStore.Store.SetBackgroundImageUrl` | src/stores/backgroundImage.store.ts:27-35 | the old url is revoked iff it is a non-empty blob: URL, even when equal to the new one; url := new |
| `BackgroundImageStore.Store.ClearBackgroundImage` | src/stores/backgroundImage.store.ts:37-49 | after a successful delete the blob url is revoked and url becomes null; after a failed delete nothing changes and no error escapes |
| `BackgroundImageStore.SetSameBlobUrl` | src/stores/backgroundImage.store.ts:27-34 | setting the blob url already held leaves the store showing a revoked url |
| `BackgroundImageSelector.Validate` | src/components/Window/contents/SettingsContent/components/BackgroundImageSelector.tsx:34-44 | valid iff the type is one of the four image types and the size is at most 5 MiB; the type error takes precedence |
| `BackgroundImageSelector.SizeBoundIsInclusive` | src/components/Window/contents/SettingsContent/components/BackgroundImageSelector.tsx:9 | exactly 5·1024·1024 bytes passes, one byte more is too large |
| `BackgroundImageSelector.Selector.constructor` | src/components/Window/contents/SettingsContent/components/BackgroundImageSelector.tsx:13 | no error |
| `BackgroundImageSelector.Selector.BeginFileSelect` | src/components/Window/contents/SettingsContent/components/BackgroundImageSelector.tsx:27-44 | no file: nothing changes and no save; otherwise the error becomes the validation result and a save starts exactly when the file is valid |
| `BackgroundImageSelector.Selector.CompleteFileSelect` | src/components/Window/contents/SettingsContent/components/BackgroundImageSelector.tsx:46-59 | success publishes the object url, revoking the old url exactly when it is a blob url, and leaves the error; failure sets the save error and leaves the store; the input is reset either way |
| `BackgroundImageSelector.Selector.HandleFileSelect` | src/components/Window/contents/SettingsContent/components/BackgroundImageSelector.tsx:27-60 | with nothing running during the save: no file: nothing changes; invalid file: that validation error, no save, url unchanged, input not reset; valid file: a save; success publishes the object url with no error and revokes an old blob url, failure sets the save error and leaves the url; the input is reset exactly when a save was attempted |
| `BackgroundImageSelector.Selector.HandleRemove` | src/components/Window/contents/SettingsContent/components/BackgroundImageSelector.tsx:64-73 | a successful delete nulls the url and revokes the old url exactly when it is a blob url; a failed one leaves url and revocations alone; the error always ends cleared, even when the delete failed |

## Left out

- Animations: each spring animation is represented by its end value. The minimize animation's end point is fractional, so it is kept in `minimizeAnimation` rather than written over x and y. The restore effect puts x and y back either way. Because x and y keep their value while minimized, a second `HandleMinimize` on a minimized window records the true position again, where the source would record the animated endpoint. The source cannot reach that path, since a minimized window receives no pointer events, and `WindowBehavior.MinimizeRoundTrip` does not exclude it.
- The `isMaximizing` flag and its 300 ms timer are timing for the animation and are not modelled.
- Numbers are integers rather than JavaScript doubles. Fractional pixel positions from drags and bounding rectangles are not represented.
- DOM measurement arrives as parameters: the container's size, the icon rectangle and the viewport size. `handleResize` and the `updateConstraints` call that ends it are taken to see the same container measurement.
- The registration of `ResizeObserver` and window `resize` listeners is not modelled. `UpdateConstraints` and `FindAppIconPosition` are the callbacks they would run.
- React effect scheduling is not modelled. `SyncMinimized` and `RestoreEffect` are separate methods. In a commit where the stored flag changes, both effects read the same render's local flag, which matches calling `RestoreEffect` before `SyncMinimized`.
- Framer's own drag motion, which moves x and y inside the constraints, is not modelled.
- Callbacks into the window manager (`onFocus`, `onPositionChange`, `onSizeChange`) are returned as values. The manager's z-index raise and its position and size writes are not part of this model.
- Pointer capture and cursor styling in the resize handle are not modelled.
- BackgroundImageSelector.Selector.HandleRemove: the store clear and the error reset run as one step. In the source, `await clearBackgroundImage()` sits between them, so another handler could run there. `BackgroundImageStore.Store.ClearBackgroundImage` is the code after its own awaited delete. Nothing before that await reads or writes the store, so any store write that interleaves is an earlier call.
- BackgroundImageSelector.Selector.HandleFileSelect: this is the handler run with nothing in between. The await on the save is modelled by `BeginFileSelect` and `CompleteFileSelect`, between which any other method may run, and the last write wins.
- The icon branch of `WindowGeometry.MinimizeTarget` looks up an element carrying `data-app-id`. The dock rendering that would set that attribute is not part of this model, and the modelled files set it nowhere. So in the code as shown only the fallback target (innerWidth/2, innerHeight−40) is reached.
- IndexedDB is not modelled: save, load and delete results arrive as parameters, and so does the URL from `URL.createObjectURL`. `URL.revokeObjectURL` is a ghost log, and console logging is dropped.
- Translation.Translate: tables hold strings and objects only, with no arrays or numbers. JavaScript's `in` also finds inherited property names such as "constructor" or "__proto__". Each of them leads to a function, to `Object.prototype` or to `null`, never to a string, so the source returns the key for them. The model treats inherited names as absent and returns the key too, so it matches the source here. The key type of the source only admits keys of the English table.
- The locale store, theme provider, dock rendering, dropdown and portal widgets, window header and content, and settings sections are UI or a plain setter, and are not modelled.
- The dock's drag-to-trash, dock reordering and the window manager's focus and z-order are outside the modelled files.
- DesktopStore.Store.constructor: the store does not declare a trash, although the trash window reads and writes one. Its initial value is not shown, so it is a constructor parameter. The static default dock list in `src/stores/data/desktop.data.ts` (three apps) differs from the store's actual initial dock (two apps); the model uses the store's.

# Storefront zoom overlay and cart lock, in Dafny

This project models the browser-side logic of a storefront theme. Two small state machines make up its core.

- **The zoom overlay** (`REIZoomModal`) is a fullscreen image viewer. It holds an image list, the current index, a zoom level in [1, 3], a pan offset and a drag flag. Buttons, pointer drags and the keyboard drive it. Module `ZoomModal` (`zoom_modal.dfy`) has three parts:
  - the value `State` holds the overlay's fields;
  - one function per handler gives that handler's effect on the value (`Opened`, `ZoomedIn`, `Panned`, `KeyHandled`, …), and lemmas state what the handlers promise;
  - class `Overlay` performs the same steps in place on its fields. Each method's postcondition ties the new `Current()` to the handler function applied to the old one, and says which displayed controls it refreshed.
- **The cart hard lock** (`assets/custom.js`). While any `.the-app-wrapper` still has the `loading` class, the add-to-cart and payment buttons are disabled. Clicks, submits, `form.submit()`/`requestSubmit()`, `fetch` and `XMLHttpRequest.send` aimed at the cart are blocked. Module `CartGuard` (`cart_guard.dfy`) has:
  - the URL classifier `IsCartURL`;
  - each interceptor's forward-or-block decision, as a function;
  - the lock as class `CartLock`: wrapper loading flags, button records and the root `apps-loading` class;
  - the install-once flag as class `Window`;
  - an `XhrRequest` object.
- **App wrappers** (`app_wrapper.dfy`, module `AppWrappers`). Each wrapper moves from `loading` to `loaded` once. This happens either when widget content appears inside it or when the 3000 ms fallback fires.
- **The gallery click handler** (`gallery.dfy`, module `Gallery`). It builds the overlay's image list from the carousel items and picks the start index. It also links the click to `ZoomModal.Opened`.

`strings.dfy` holds the substring search behind `String.prototype.includes` and the decimal formatting of the zoom label. `wrappers.dfy` holds `Option`.

Measured sizes from `getBoundingClientRect` are passed in as `Rect` values of type `real`. The image's `Rect` is its box as measured, after the `scale(zoomLevel)` transform has been applied; `constrainPan` multiplies that already-scaled width and height by the zoom level once more (Theme/assets/rei-zoom-modal.js:205-213, 225), and the model keeps that double scaling. The lemmas that reuse one `Rect` across a zoom step (`ZoomInKeepsBounds`, `ZoomOutMayLeaveBounds`) hold all the same, because the measured box only grows with the zoom. A pointer position is a pair of `real`s, whether it comes from a mouse or a touch event. The DOM elements the guards inspect become records of what `closest(...)` finds.

Behaviours of the code that the model keeps:
- `open` does not clamp or validate `startIndex`. `loadCurrentImage` just returns when the index names no image (`OpenResets`).
- `close` hides the overlay and clears the inline transforms. It does not reset the zoom level or the pan offset (`Closed`). Only the next `open` resets them.
- The pan offset is kept within its bounds by `pan` and `zoomIn` (`PanGuards`, `ZoomInKeepsBounds`), but not by `zoomOut` from 3 to 2. That step does not re-constrain, so an image panned to its edge at 300% overhangs at 200% (`ZoomOutMayLeaveBounds`).
- Unlocking removes `disabled` from every guarded button, including one the theme had disabled for another reason (`CartLock.SetLock`).
- `fetch` called with a `URL` object has an empty href and is never blocked (`FetchInput.OtherValue`).

## Model

| member | source | states |
|---|---|---|
| `ZoomModal.Overlay.constructor` | Theme/assets/rei-zoom-modal.js:6-22 | starts unzoomed at index 0 with an empty list, centred and not dragging; aria-hidden, the image element and the controls are whatever the markup shows |
| `ZoomModal.Overlay.Open` | Theme/assets/rei-zoom-modal.js:83-100 | new state is `Opened(old, images, startIndex)`; the zoom and navigation controls then show the new state |
| `ZoomModal.OpenResets` | Theme/assets/rei-zoom-modal.js:83-100 | whatever the prior state, open leaves zoom 1, pan (0,0), index = startIndex unclamped, overlay shown; it shows `images[startIndex]` when that exists and keeps the old image otherwise |
| `ZoomModal.Overlay.Close` | Theme/assets/rei-zoom-modal.js:102-108 | only sets aria-hidden; zoom, pan and index are kept |
| `ZoomModal.Overlay.LoadCurrentImage` | Theme/assets/rei-zoom-modal.js:110-122 | with no image at the index, nothing changes; otherwise it shows that image's src/alt and resets zoom and pan |
| `ZoomModal.Overlay.ZoomIn` | Theme/assets/rei-zoom-modal.js:124-130 | new state is `ZoomedIn(old)`; zoom controls refreshed only when the level changed |
| `ZoomModal.ZoomInSteps` | Theme/assets/rei-zoom-modal.js:124-130 | below 3 the level rises by exactly 1 and nothing else changes (pan, index, images); at 3 it is a no-op |
| `ZoomModal.Overlay.ZoomOut` | Theme/assets/rei-zoom-modal.js:132-143 | new state is `ZoomedOut(old)`; zoom controls refreshed only when the level changed |
| `ZoomModal.ZoomOutSteps` | Theme/assets/rei-zoom-modal.js:132-143 | above 1 the level falls by exactly 1; reaching 1 resets pan to (0,0); at 1 it is a no-op |
| `ZoomModal.ZoomOutUndoesZoomIn` | Theme/assets/rei-zoom-modal.js:124-143 | below the maximum, zooming in then out restores the exact state |
| `ZoomModal.HandlersKeepInv` | Theme/assets/rei-zoom-modal.js:83-277 | every handler keeps zoom in [1,3] and the pan at (0,0) whenever zoom is 1 |
| `ZoomModal.Overlay.PreviousImage` | Theme/assets/rei-zoom-modal.js:145-152 | new state is `Previous(old)`; after a move, both control groups show the new state |
| `ZoomModal.Overlay.NextImage` | Theme/assets/rei-zoom-modal.js:154-161 | new state is `Next(old)`; after a move, both control groups show the new state |
| `ZoomModal.NavigationSteps` | Theme/assets/rei-zoom-modal.js:145-161 | away from the ends the index moves by exactly 1; a newly shown image starts at zoom 1, pan (0,0), with its own src |
| `ZoomModal.NavigationStaysOnImages` | Theme/assets/rei-zoom-modal.js:145-161 | an index that names an image still names one after previous/next |
| `ZoomModal.Overlay.StartPan` | Theme/assets/rei-zoom-modal.js:163-178 | new state is `PanStarted(old, x, y)`: the drag begins only above zoom 1 and records pointer minus translation |
| `ZoomModal.Overlay.Pan` | Theme/assets/rei-zoom-modal.js:180-196 | new state is `Panned(old, x, y, image, container)` |
| `ZoomModal.Overlay.EndPan` | Theme/assets/rei-zoom-modal.js:198-201 | clears the drag flag and nothing else |
| `ZoomModal.PanGuards` | Theme/assets/rei-zoom-modal.js:163-201 | startPan sets the flag only when zoom > 1; pan moves only while dragging above zoom 1, and then stays within bounds; endPan always clears the flag |
| `ZoomModal.PressAndHoldKeepsPosition` | Theme/assets/rei-zoom-modal.js:172-187 | a press followed by a move to the same point leaves an in-bounds translation unchanged |
| `ZoomModal.Overlay.ConstrainPan` | Theme/assets/rei-zoom-modal.js:203-218 | the translation becomes the clamp of the old one and lies within ±slack on both axes |
| `ZoomModal.Slack` | Theme/assets/rei-zoom-modal.js:208-213 | the slack `max(0, (w*zoom - cw)/2)` is never negative |
| `ZoomModal.Clamp` | Theme/assets/rei-zoom-modal.js:216-217 | result within [-m, m]; equal to t when t is inside; the nearer bound otherwise |
| `ZoomModal.ConstrainedWithinBounds` | Theme/assets/rei-zoom-modal.js:203-218 | after constraining, -mx ≤ translateX ≤ mx and -my ≤ translateY ≤ my |
| `ZoomModal.ConstrainIdempotent` | Theme/assets/rei-zoom-modal.js:203-218 | an in-bounds translation is left unchanged, so constraining twice equals constraining once |
| `ZoomModal.SlackGrows` | Theme/assets/rei-zoom-modal.js:208-213 | for a non-negative size the slack does not shrink as zoom grows |
| `ZoomModal.ZoomInKeepsBounds` | Theme/assets/rei-zoom-modal.js:124-130 | zooming in keeps an in-bounds translation in bounds |
| `ZoomModal.ZoomOutMayLeaveBounds` | Theme/assets/rei-zoom-modal.js:132-143 | a 100×100 image in a 100×100 container panned to 100 px at zoom 3 is out of bounds after zoomOut to 2 |
| `ZoomModal.Overlay.UpdateZoomControls` | Theme/assets/rei-zoom-modal.js:233-240 | the zoom controls show `ZoomControlsFor(zoomLevel)` |
| `ZoomModal.ZoomControlsMatchNoOps` | Theme/assets/rei-zoom-modal.js:233-240 | zoom-in is disabled iff zoomIn would change nothing (zoom ≥ 3); zoom-out is disabled iff zoomOut would change nothing (zoom ≤ 1); never both |
| `ZoomModal.ZoomLabelReadsPercent` | Theme/assets/rei-zoom-modal.js:235 | the label is the decimal of zoom*100 followed by '%' ("100%", "200%", "300%") |
| `Strings.DecimalRoundTrip` | Theme/assets/rei-zoom-modal.js:235 | the decimal text of the label reads back as the number formatted |
| `ZoomModal.Overlay.UpdateNavigationControls` | Theme/assets/rei-zoom-modal.js:242-250 | the nav controls show `NavControlsFor(index, length)` |
| `ZoomModal.NavControlsMatchNoOps` | Theme/assets/rei-zoom-modal.js:242-250 | prev is disabled iff index ≤ 0 iff previousImage changes nothing; next is disabled iff index ≥ length-1 iff nextImage changes nothing |
| `ZoomModal.SingleImage` | Theme/assets/rei-zoom-modal.js:242-277 | with one image the navigation is hidden, both buttons are disabled, and ArrowLeft/ArrowRight change nothing |
| `ZoomModal.Overlay.HandleKeydown` | Theme/assets/rei-zoom-modal.js:252-277 | new state and prevented-default flag are `KeyHandled(old, key)`; when the default is not prevented (overlay hidden, Escape, any other key) the zoom and nav controls are untouched |
| `ZoomModal.KeyMap` | Theme/assets/rei-zoom-modal.js:252-277 | hidden: no effect; shown: Escape→close (default kept), ArrowLeft→previous, ArrowRight→next, `+`/`=`→zoomIn, `-`→zoomOut (default prevented); any other key: no effect |
| `Strings.Contains` | assets/custom.js:447 | `includes` holds iff the pattern occurs at some position |
| `CartGuard.AnyPathIn` | assets/custom.js:447 | `some(p => href.includes(p))` holds iff some listed path occurs in href |
| `CartGuard.Href` | assets/custom.js:446 | the searched string: the string input itself, else `input.url` when present, else '' |
| `CartGuard.IsCartURL` | assets/custom.js:442-449 | true iff one of the five CART_PATHS occurs in the href (string, `input.url`, or '') |
| `CartGuard.EmptyHrefIsNotCartURL` | assets/custom.js:446-447 | an input with an empty href (a `URL` instance, `undefined`, a Request without `url`) is never a cart URL |
| `CartGuard.CartPathsReduce` | assets/custom.js:442 | "/cart/add.js" is redundant: cart URLs are exactly those containing /cart/add, /cart/change, /cart/update or /cart/clear |
| `CartGuard.EmbeddedCartPathIsCartURL` | assets/custom.js:442-449 | any URL string with a listed path anywhere in it, whatever host or query surrounds it, is classified as a cart URL |
| `CartGuard.PointerVerdict` | assets/custom.js:393-409 | pointerdown/mousedown/click is cancelled only while locked and only on a target inside a product-form submit, `button[name="add"]` or a payment button; its properties are stated by `LockedBlocksCartRoutes` and `UnlockedForwardsEverything` |
| `CartGuard.SubmitEventVerdict` | assets/custom.js:412-419 | a submit event is cancelled only while locked and only for a target inside `form.product-form` (stated by the same two lemmas) |
| `CartGuard.ProgrammaticSubmitVerdict` | assets/custom.js:422-439 | `submit()`/`requestSubmit()` return without submitting only while locked and for a form inside `form.product-form` (stated by the same two lemmas) |
| `CartGuard.ProductFormSubmissionBlockedEveryWay` | assets/custom.js:393-439 | while locked, a product-form submission is stopped on every route: the click on its submit button, the submit event on the form (fired by that click or by Enter in a field), and the programmatic submit |
| `CartGuard.FetchVerdict` | assets/custom.js:455-461 | a cart URL while locked is rejected with DOMException('Cart locked', 'AbortError'); anything else goes to the original fetch with the same arguments (stated by `FetchBlockedExactly`) |
| `CartGuard.XhrSendVerdict` | assets/custom.js:472-478 | `send` is swallowed (abort, no transmission) only while locked and for a request `open` marked as a cart request (stated by `XhrAgreesWithFetch`) |
| `CartGuard.FetchBlockedExactly` | assets/custom.js:452-462 | fetch is rejected with an AbortError iff locked and the input is a cart URL; otherwise the identical input is forwarded |
| `CartGuard.XhrRequest.Open` | assets/custom.js:468-471 | marks the request as a cart request iff its URL is a cart URL |
| `CartGuard.XhrRequest.Send` | assets/custom.js:472-478 | aborted and not transmitted iff locked and marked; otherwise transmitted |
| `CartGuard.XhrAgreesWithFetch` | assets/custom.js:452-479 | an XHR opened on a URL is swallowed exactly when fetch of that URL would be rejected |
| `CartGuard.LockedBlocksCartRoutes` | assets/custom.js:393-479 | while locked: pointer events blocked iff on a guarded button, submit events and programmatic submits blocked iff in the product form, fetch/XHR blocked iff cart URL; a missing target is never blocked |
| `CartGuard.UnlockedForwardsEverything` | assets/custom.js:393-479 | unlocked, every interceptor forwards and fetch passes its input unchanged |
| `CartGuard.Applied` | assets/custom.js:360-371 | every button shows the lock state on disabled, is-disabled and aria-busy; count and kinds unchanged |
| `CartGuard.CartLock.constructor` | assets/custom.js:329 | the lock starts released, root class off |
| `CartGuard.CartLock.SetLock` | assets/custom.js:355-375 | with state == locked nothing changes; otherwise locked := state, every button shows state, root `apps-loading` = state |
| `CartGuard.FirstLoading` | assets/custom.js:379 | the first wrapper still loading, or none exactly when no wrapper is loading |
| `CartGuard.AnyAppsLoading` | assets/custom.js:378-380 | true iff some wrapper is loading |
| `CartGuard.CartLock.Refresh` | assets/custom.js:383-385 | afterwards locked equals the OR of the wrappers' loading flags |
| `CartGuard.CartLock.WrapperClassChanged` | assets/custom.js:491-501 | a wrapper's class change followed by refresh: locked equals the OR over the updated flags |
| `CartGuard.ClearingOneWrapper` | assets/custom.js:378-385 | clearing one wrapper while another is loading keeps the lock; clearing the last loading one releases it |
| `CartGuard.ReapplyIsNoOp` | assets/custom.js:509 | `setLock(locked)` never changes the buttons |
| `CartGuard.ReplacedButtonStaysEnabled` | assets/custom.js:508-510 | a freshly inserted enabled button stays enabled after the re-apply while locked |
| `CartGuard.CartLock.ButtonsReplacedAsWritten` | assets/custom.js:508-510 | as written: after the section's buttons are replaced and `setLock(locked)` runs, the buttons are exactly as inserted and the lock is unchanged |
| `CartGuard.CartLock.ReapplyLock` | assets/custom.js:508-510 | corrected (see ## Findings): every present button shows the current lock state, which `setLock(locked)` at line 509 does not do; used only while locked |
| `CartGuard.CartLock.ButtonsReplaced` | assets/custom.js:508-510 | corrected (see ## Findings): after the section's buttons are replaced while locked, every new button shows "locked"; while unlocked they stay exactly as inserted, as with the code as written |
| `CartGuard.Window.RunGuardScript` | assets/custom.js:389-390 | the guards are installed on the first run only; the flag is then set and exactly one guard set exists however often the script runs |
| `AppWrappers.IsAppContent` | assets/custom.js:47 | a node matches `.yotpo-widget-instance`, `#infiniteoptions-container`, `[class*="app-"]` or `[id*="app-"]` |
| `AppWrappers.HasAppContent` | assets/custom.js:47 | true iff some descendant matches the widget selectors |
| `AppWrappers.AppWrapper.constructor` | assets/custom.js:39-61 | a wrapper found loading is observed and not yet loaded |
| `AppWrappers.AppWrapper.OnMutations` | assets/custom.js:43-55 | released (loading removed, loaded added, observer disconnected) iff some record added child nodes and widget content is present; otherwise unchanged; at most one release ever |
| `AppWrappers.AppWrapper.OnFallbackTimeout` | assets/custom.js:63-70 | afterwards the wrapper is loaded, not loading, not observed, released exactly once; a wrapper already released is not released again |
| `Gallery.Descriptors` | assets/custom.js:241-253 | one descriptor per item with an image, in item order, with src = data-zoom if non-empty else src, alt, and index = item position |
| `Gallery.CollectImages` | assets/custom.js:241-253 | the loop builds exactly `Descriptors(items)` |
| `Gallery.LastMatch` | assets/custom.js:255-265 | the last item position whose media id equals the clicked item's, or 0 if none matches |
| `Gallery.FindCurrentIndex` | assets/custom.js:255-265 | the loop yields 0 without an enclosing item, else `LastMatch` |
| `Gallery.PositionOf` | assets/custom.js:250 | corrected (see ## Findings): the list position whose descriptor's `index` (line 250) names the target item when one exists, else 0; the source performs no such lookup |
| `Gallery.FindStartPosition` | assets/custom.js:250 | corrected (see ## Findings): the lookup loop yields `PositionOf(allImages, currentIndex)` |
| `Gallery.HandleImageClickAsWritten` | assets/custom.js:235-272 | as written: the overlay is opened iff it exists and the list is non-empty, with `Descriptors(items)` at `CurrentIndex`, an item position |
| `Gallery.HandleImageClick` | assets/custom.js:235-272 | corrected (see ## Findings): opened under the same condition, with `Descriptors(items)` at the clicked image's list position |
| `Gallery.StartPositionNamesMatchedItem` | assets/custom.js:241-270 | corrected (see ## Findings): the start position is inside the list, and when the matched item has an image it is that image's descriptor |
| `Gallery.ClickShowsMatchedImage` | assets/custom.js:267-270 | corrected (see ## Findings): opening at the corrected position after a click shows the matched item's image at zoom 1, centred and visible |
| `Gallery.ItemPositionIsListPositionWithoutGaps` | assets/custom.js:241-269 | when every item has an image, the item position and the list position coincide, so the as-written and corrected handlers agree |
| `Gallery.ItemPositionUsedAsListPosition` | assets/custom.js:255-270 | as written, with an image-less first item, clicking "b" opens "c"'s image and clicking "c" opens past the end of the list |

## Findings

| source | as written | input that shows it | evidently intended | confidence | as-written member | corrected member |
|---|---|---|---|---|---|---|
| assets/custom.js:255-270 | `currentIndex` is an item position among all `galleryItems`, but it is passed to `openREIZoom` as a position in `allImages`, which skips items without an image | items [a (no image), b, c]; click b | the overlay opens on the clicked image, at the list position whose descriptor has `index == currentIndex` | medium (only when an image item lacks its image element); not executed | `Gallery.FindCurrentIndex`, `Gallery.HandleImageClickAsWritten`, `Gallery.ItemPositionUsedAsListPosition` | `Gallery.FindStartPosition`, `Gallery.HandleImageClick` |
| assets/custom.js:508-510 | the re-apply after the section's buttons change calls `setLock(locked)`, which returns at once because the state is unchanged | locked page; the section re-renders an enabled add button | buttons inserted while locked get disabled, is-disabled and aria-busy; while unlocked they are left as inserted | high; not executed | `CartGuard.CartLock.SetLock`, `CartGuard.CartLock.ButtonsReplacedAsWritten`, `CartGuard.ReplacedButtonStaysEnabled` | `CartGuard.CartLock.ButtonsReplaced` |

## Left out

- The Drift override and the suppression of its elements (assets/custom.js:74-217). They wrap a third-party library that is not part of this model and rewrite settings JSON and DOM nodes on timers.
- Event-loop wiring: `DOMContentLoaded`, `MutationObserver` registration, and the `setTimeout` deferrals of `refresh` and of the thumbnail handler. Only the state changes they trigger are modelled (`Refresh`, `WrapperClassChanged`, `ButtonsReplacedAsWritten`, `OnMutations`, `OnFallbackTimeout`).
- The injected `<style>` element, `body.style.overflow`, focus, the inline transform strings (`updateImageTransform`, `resetImageTransform`) and the `is-dragging` class. These are presentation only.
- `createModal`/`bindEvents` element lookups and the error path for a missing overlay element. The model assumes the markup exists.
- The popup-zoom-mode check that decides whether the gallery handler is installed (assets/custom.js:222-229), and the thumbnail re-binding with its `hasREIZoomHandler` flag (assets/custom.js:276-320). The thumbnail handler's list and index logic is the same code, modelled by the same `Gallery` members.
- Patching the `fetch`, `XMLHttpRequest` and `HTMLFormElement` prototypes, and `stopPropagation`. Only each interceptor's forward-or-block decision is modelled.
- The `try`/`catch` around `closest` and `includes`, which cannot throw for the inputs modelled; and the `if (!btn)` check, since a node list holds no nulls.
- `requestSubmit` missing from the browser. The wrapper is then not installed, and calling it fails in the browser as it would without the guard.
- Re-execution of the guard script: each run creates its own `locked` flag, while the guards installed by the first run keep reading the first run's flag. `Window.RunGuardScript` models only the install-once flag.
- Touch versus mouse coordinates, and `preventDefault` on touch events: one pointer position stands for both.
- `AppWrappers.IsAppContent`: `[class*="app-"]` is checked against each class token rather than the whole attribute string. The two agree because "app-" contains no space.
- Element identity in the gallery: the clicked element is represented by its carousel item's media id, and `galleryItems` is given already filtered by media type and `is-filtered`.
- The default `startIndex = 0` of `open` and `openREIZoom` (Theme/assets/rei-zoom-modal.js:83, 286): every caller in the theme passes the index, so `Overlay.Open` takes it as a required argument.

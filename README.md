# Project overlay and image carousel of the portfolio site

This project models the one piece of the portfolio site with real state: the project detail
overlay and its image carousel, in its two variants, together with the page controller that
opens and closes the overlay.

- `carousel.dfy`, module `Carousel`: the wrap-around index updaters behind "next" and
  "previous", repeated "next" presses (`Steps`), and the 50 px swipe rule applied when a drag ends.
- `project_modal.dfy`, module `ProjectModal`: the exported overlay (`Modal`). Its handlers
  mirror those of the component: mouse and touch down/move/up, the keydown listener, dot clicks,
  the three-way tab selector, and the open effect that resets the index and tab and holds the
  body scroll-lock. Every navigation path is guarded by the project's `hasImages` flag.
- `projects_page.dfy`, module `ProjectsPage`: the static `projects` table, the older inline
  overlay (`InlineModal`, guarded only by a null project), and the page controller (`Page`) with
  `openProject`, `closeModal` and the deferred clear that `closeModal` schedules.
- `wrappers.dfy`: `Option`, standing for a `T | null` prop.

Each handler runs to completion on the current state, one after another. A re-render with new
props is `SetProps`. It runs the open effect only when `isOpen` changes, because that effect
depends on `isOpen` alone. The body style `overflow: hidden` is the boolean `scrollLocked`.
The `onClose` callback becomes the `closeRequested` result of `KeyDown`. Pointer coordinates
are integers.

Each class has a `Valid()` invariant that every handler preserves:
- no strip offset outside a drag;
- an in-range index while the overlay is open on a non-empty carousel;
- the scroll-lock is held exactly while the overlay is open.

The page's `Valid()` keeps the inline overlay's props equal to the page's state, and keeps the
overlay's drag and scroll-lock consistent, in every reachable state. The overlay's index-range
invariant (`InlineModal.Valid()`) is stated separately: a stale reopen can break it
(`ProjectsPage.ReopenStaleIndex`).

Several behaviours one might expect of such an overlay do not hold in the code, and the model follows the code:
- Closing the overlay does not reset the drag state (`ProjectModal.CloseDuringDrag`).
- Switching the project under an open overlay does not reset the index. The open effect
  depends on `isOpen` only, so `SetProps` keeps `Valid()` only when the project is unchanged,
  the overlay was closed, the overlay closes, or (inline variant) the project becomes null.
- With a single image, a gesture still starts and ends a drag. Only the index is unaffected.
- A dot click sets the index without a range check. Dots are rendered only for `k` in `[0, n)`
  and only when `n > 1`, and `DotClick` requires exactly that.
- A project with `hasImages` true and no images makes "next" go from 0 to 1
  (`Carousel.EmptyListLeavesRange`). The range invariant therefore assumes at least one image.

## Model

| member | source | states |
|---|---|---|
| `Carousel.NextIndex` | src/components/modals/project-modal.tsx:99-104 | on an in-range index, "next" stays in range and equals `(i + 1) mod n` |
| `Carousel.PrevIndex` | src/components/modals/project-modal.tsx:106-111 | on an in-range index, "previous" stays in range, equals `(i - 1) mod n`, and "next" undoes it |
| `Carousel.PrevUndoesNext` | src/components/modals/project-modal.tsx:99-111 | "previous" undoes "next" on every in-range index |
| `Carousel.SingleImageIsFixed` | src/components/modals/project-modal.tsx:99-111 | with one image, both updaters keep index 0 |
| `Carousel.EmptyListLeavesRange` | src/components/modals/project-modal.tsx:99-104 | with no images, "next" moves index 0 to 1, out of range: the range invariant needs `n >= 1` |
| `Carousel.Steps` | src/components/modals/project-modal.tsx:99-104 | any number of successive "next" presses keeps an in-range index in range |
| `Carousel.FullCycle` | src/components/modals/project-modal.tsx:99-104 | `n` successive "next" presses return to the starting index |
| `Carousel.PrevIsNextRepeated` | src/components/modals/project-modal.tsx:99-111 | one "previous" equals `n - 1` presses of "next" |
| `Carousel.SwipeIndex` | src/components/modals/project-modal.tsx:125-135 | the index after a gesture ends stays in range, and an offset within ±50 px (inclusive) leaves it unchanged |
| `Carousel.SwipeAsSteps` | src/components/modals/project-modal.tsx:125-135 | a swipe past -50 px is one "next"; a swipe past +50 px is `n - 1` presses of "next" |
| `Carousel.SwipeBackRestores` | src/components/modals/project-modal.tsx:125-135 | a swipe past the threshold is undone by the opposite swipe |
| `ProjectModal.Modal.constructor` | src/components/modals/project-modal.tsx:64-82 | mount state: index 0, no drag, zero offsets, overview tab, scroll-lock equal to `isOpen`; establishes `Valid()` |
| `ProjectModal.Modal.SetProps` | src/components/modals/project-modal.tsx:71-82 | opening resets the index to 0 and the tab to overview and locks scrolling; closing releases the lock; the drag state is untouched |
| `ProjectModal.Modal.Unmount` | src/components/modals/project-modal.tsx:79-81 | the effect cleanup always releases the scroll-lock |
| `ProjectModal.Modal.NextImage` | src/components/modals/project-modal.tsx:99-104 | applies `NextIndex` when the project has images; otherwise nothing changes |
| `ProjectModal.Modal.PrevImage` | src/components/modals/project-modal.tsx:106-111 | applies `PrevIndex` when the project has images; otherwise nothing changes |
| `ProjectModal.Modal.MouseDown` | src/components/modals/project-modal.tsx:113-117 | with images, starts a drag at `clientX`; without images, nothing changes |
| `ProjectModal.Modal.MouseMove` | src/components/modals/project-modal.tsx:119-123 | during a drag on images, sets the offset to `clientX - startX`; otherwise nothing changes; the index never changes |
| `ProjectModal.Modal.MouseUp` | src/components/modals/project-modal.tsx:125-135 | ending a drag applies the strict ±50 px rule and always clears the drag and offset; with no drag or no images, nothing changes (also bound to mouse leave, line 306) |
| `ProjectModal.Modal.TouchStart` | src/components/modals/project-modal.tsx:137-141 | with images, starts a drag at the first touch point, or at 0 without one |
| `ProjectModal.Modal.TouchMove` | src/components/modals/project-modal.tsx:143-149 | as `MouseMove` on the first touch point; a move with no touch point changes nothing |
| `ProjectModal.Modal.TouchEnd` | src/components/modals/project-modal.tsx:151-161 | same outcome as `MouseUp` |
| `ProjectModal.Modal.KeyDown` | src/components/modals/project-modal.tsx:84-97 | while open, Escape requests close, and the arrow keys apply `PrevIndex`/`NextIndex` only when the project has images; while closed, nothing happens |
| `ProjectModal.Modal.DotClick` | src/components/modals/project-modal.tsx:381-390 | clicking a rendered dot `k` sets the index to exactly `k`, keeping it in range |
| `ProjectModal.Modal.SelectTab` | src/components/modals/project-modal.tsx:263-271 | the selected tab becomes the active one; the tab type has exactly three values |
| `ProjectModal.Modal.CurrentSlide` | src/components/modals/project-modal.tsx:311-317 | a valid open carousel with images always has a slide to show, and that slide is one of the project's images |
| `ProjectModal.WrapScenario` | src/components/modals/project-modal.tsx:99-104 | on images a, b, c, three "next" presses show b, c and then a |
| `ProjectModal.SwipeScenario` | src/components/modals/project-modal.tsx:113-135 | a drag of `dx` on slide 0 of three ends on slide 2 if `dx > 50`, on slide 1 if `dx < -50`, and otherwise stays on 0 |
| `ProjectModal.NoImagesScenario` | src/components/modals/project-modal.tsx:113-161 | without images, every gesture handler leaves the drag, offset and index unchanged |
| `ProjectModal.CloseDuringDrag` | src/components/modals/project-modal.tsx:71-97 | Escape during a drag closes the overlay, yet after reopening the drag is still active with its offset while the index is back at 0 |
| `ProjectsPage.Projects` | src/app/projects/page.tsx:24-196 | the table has six projects with distinct ids, each with 3 to 4 images |
| `ProjectsPage.TableProjectsHaveImages` | src/app/projects/page.tsx:24-196 | every project the page can open has at least three images |
| `ProjectsPage.InlineModal.constructor` | src/app/projects/page.tsx:223-240 | mount state: index 0, no drag, zero offsets, scroll-lock equal to `isOpen`; establishes `Valid()` |
| `ProjectsPage.InlineModal.SetProps` | src/app/projects/page.tsx:230-240 | opening resets the index to 0 and locks scrolling; closing releases the lock; the drag state is untouched |
| `ProjectsPage.InlineModal.NextImage` | src/app/projects/page.tsx:258-263 | applies `NextIndex` whenever a project is present, with no `hasImages` guard |
| `ProjectsPage.InlineModal.PrevImage` | src/app/projects/page.tsx:265-270 | applies `PrevIndex` whenever a project is present, with no `hasImages` guard |
| `ProjectsPage.InlineModal.MouseDown` | src/app/projects/page.tsx:272-275 | always starts a drag at `clientX` |
| `ProjectsPage.InlineModal.MouseMove` | src/app/projects/page.tsx:277-281 | during a drag, sets the offset to `clientX - startX`; otherwise nothing changes |
| `ProjectsPage.InlineModal.MouseUp` | src/app/projects/page.tsx:283-293 | ending a drag applies the strict ±50 px rule and always clears the drag and offset; with no drag, nothing changes |
| `ProjectsPage.InlineModal.TouchStart` | src/app/projects/page.tsx:295-298 | always starts a drag at the first touch point, or at 0 without one |
| `ProjectsPage.InlineModal.TouchMove` | src/app/projects/page.tsx:300-306 | as `MouseMove` on the first touch point; a move with no touch point changes nothing |
| `ProjectsPage.InlineModal.TouchEnd` | src/app/projects/page.tsx:308-318 | same outcome as `MouseUp` |
| `ProjectsPage.InlineModal.KeyDown` | src/app/projects/page.tsx:242-256 | while open, Escape requests close, and the arrow keys navigate with no `hasImages` guard; while closed, nothing happens |
| `ProjectsPage.InlineModal.DotClick` | src/app/projects/page.tsx:436-444 | clicking a rendered dot `k` sets the index to exactly `k` |
| `ProjectsPage.Page.constructor` | src/app/projects/page.tsx:575-576 | nothing is selected and the overlay is closed |
| `ProjectsPage.Page.OpenProject` | src/app/projects/page.tsx:634-637 | selects the project and opens the overlay with scrolling locked; from closed, the index resets to 0 and the range invariant holds; when the overlay is already open (and empty), the index is kept |
| `ProjectsPage.Page.CloseModal` | src/app/projects/page.tsx:639-642 | closes the overlay and releases the lock at once; the selection, index and drag state are kept, and a deferred clear is scheduled |
| `ProjectsPage.Page.ClearSelection` | src/app/projects/page.tsx:641 | the deferred clear as written: clears the selection even if the overlay was reopened; the open flag, lock, index and drag state are kept |
| `ProjectsPage.Page.ClearSelectionIfClosed` | src/app/projects/page.tsx:641 | the deferred clear as intended: clears only a closed overlay, so an open overlay always has a project; the lock, index and drag state are kept |
| `ProjectsPage.Page.KeyDown` | src/app/projects/page.tsx:242-256 | while open, Escape closes the overlay through `closeModal` (scheduling one deferred clear) and the arrow keys apply `PrevIndex`/`NextIndex` to the overlay's index; no key changes the selection or the drag state |
| `ProjectsPage.ReopenWithinDelay` | src/app/projects/page.tsx:634-642 | opening, closing, reopening and then firing the first deferred clear leaves the overlay open, with no project and scrolling locked |
| `ProjectsPage.ReopenStaleIndex` | src/app/projects/page.tsx:230-270 | after the premature clear, clicking a three-image project on the still-open, empty overlay keeps index 3 from a four-image project, and the arrow button's "next" moves on to 4 |
| `ProjectsPage.ReopenWithinDelayCorrected` | src/app/projects/page.tsx:634-642 | the same sequence with the intended clear keeps the reopened project |
| `ProjectsPage.ReopenResetsIndex` | src/app/projects/page.tsx:230-240 | browsing to the last image, then closing and reopening, starts again at image 0 |

## Left out

- Rendering is left out: JSX markup, Tailwind classes, the `translateX(calc(...))` transform
  string, the image counter and the project details. `CurrentSlide` states which image is centred.
- GSAP and ScrollTrigger animations are left out. They are third-party, time- and
  scroll-driven animation.
- Real time is left out. The 300 ms `setTimeout` in `closeModal` is the separate step
  `ClearSelection`, which may fire only after a `CloseModal` has scheduled it.
- DOM calls are left out: `addEventListener`/`removeEventListener`, `document.body.style`, and
  `window.open`. Listener attachment is modelled by `KeyDown` acting only while open. The body
  style is the boolean `scrollLocked`.
- React batching and stale closures are left out. Each handler runs to completion on the
  current state.
- `ProjectsPage.Page.KeyDown` and `ProjectsPage.InlineModal.KeyDown` use the current project.
  In the source, the inline keydown listener is re-attached only when `isOpen` or the index
  changes, so it keeps the project of the render that last attached it. This matters only after
  the premature deferred clear. On the open, empty overlay the source's arrow keys still move
  the index against the earlier project (3 to 0 in `ReopenStaleIndex`'s sequence), while the
  model leaves the index unchanged.
- Pointer coordinates are JavaScript numbers in the source. The model uses integers, so
  fractional offsets are not captured.
- The exported overlay's parent is not part of this model. `ProjectModal.Modal.SetProps` takes
  any props.
- `ProjectsPage.Page.OpenProject` requires the overlay to be closed or to have no project. While
  the overlay shows a project, its fixed full-screen backdrop covers the project cards, so no card
  can be clicked then.
- Description, technology, tag and feature fields of a project are left out. Only the carousel
  reads a project.

## Findings

| source | as written | input that shows it | evidently intended | confidence | as-written member | corrected member |
|---|---|---|---|---|---|---|
| src/app/projects/page.tsx:639-642 | `closeModal` schedules `setSelectedProject(null)` 300 ms later, and nothing cancels it | open project A, close, open project B within 300 ms; the pending clear then fires | the deferred clear applies only if the overlay is still closed; without that, the overlay stays open with no project to show (it renders nothing) and scrolling stays locked; a card clicked on that empty open overlay does not rerun the open effect, so the index is not reset and can be out of range for the new project (`ReopenStaleIndex`) | medium, not executed | `ProjectsPage.ReopenWithinDelay` | `ProjectsPage.Page.ClearSelectionIfClosed` |

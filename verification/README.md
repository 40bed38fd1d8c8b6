# Centaurion Slidr frontend — verified model of the view logic

Centaurion Slidr's browser frontend lets a user upload images. It sends them
through a backend that stores, upscales and analyses them, and then shows each
original/upscaled pair in a comparison widget. The widget has a reveal slider,
a magnifier with five zoom levels, and a carousel for stepping through the
batch. This project models the frontend's view logic in Dafny as pure
functions over immutable state records and proves properties about them:

- `Comparison` models the comparison widget (`ImageComparison`). Its state is
  the slider position, the zoom index into `[2, 4, 8, 16, 32]`, the magnifier
  anchor and the drag flag. It covers the widget's event handlers and what the
  widget renders: the overlay's clip inset, which buttons are disabled, and the
  magnifier placement.
- `Magnifier` models the magnifier's geometry: where the viewport sits, and
  where the scaled copy of the original image sits inside it.
- `Carousel` models the record list and current index owned by `AppUI`: the
  wrapping previous/next navigation, when the buttons are enabled, and the
  "render nothing when there is no record" rule.
- `Upload` models `handleFileUpload`. The upload, upscale and analyze stages run
  in order. Each stage is an abstract outcome: `Ok`, `Err` for a non-success
  status, or `Thrown` for a raised error. The first stage that does not succeed
  ends the run and leaves the carousel as it was. A full success replaces the
  records with one record per analyze entry, whose URLs are
  `BACKEND_URL + "/image/" + filename`, and shows the first.
- `Shell` puts the carousel and the widget's instance state together. The widget
  is mounted only while there are records, so its state starts fresh with the
  first batch. It then persists across navigation and later non-empty
  batches; an empty batch unmounts it.
- `Records` holds the record datatypes and the image-URL scheme together with
  its inverse. `Basics` holds `Option`, the 0..100 `Percent` type and
  JavaScript's truncating `%`.

The landing page's demo slider (`frontend/src/App.js:346`) uses the same clip
formula as the widget. `Comparison.ClipOf` covers both.

The mouse-move handler (`frontend/src/App.js:33-40`) updates the anchor on
every move, whether or not a drag is in progress. Only showing the magnifier
depends on the drag flag. `Comparison.Step` and `Comparison.MovesOnlyMoveAnchor`
state this.

The widget's rendered magnifier (`Comparison.Render`) is the one the code
computes, `Magnifier.AsWritten`. `Magnifier.Corrected` is the placement that
would put the pointed-at point at the magnifier's centre (see Findings).

## Model

| member | source | states |
|---|---|---|
| `Basics.JsRem` | frontend/src/App.js:254-260 | JavaScript's `%` with a positive divisor: a − r is a multiple of n, and r lies in [0, n) for a non-negative dividend and in (−n, 0] for a negative one (the truncating remainder) |
| `Records.ImageUrl` | frontend/src/App.js:241-242 | an image URL is the backend's base URL, then `/image/`, then the file name, with each part at its own position |
| `Records.FilenameOfImageUrl` | frontend/src/App.js:240-244 | the file name can be recovered from the image URL built for it |
| `Records.ImageUrlOfFilename` | frontend/src/App.js:240-244 | every URL that `FilenameOf` accepts is exactly the image URL of the name it returns (the converse direction) |
| `Records.ImageUrlInjective` | frontend/src/App.js:240-244 | distinct file names never share an image URL |
| `Magnifier.AsWritten` | frontend/src/App.js:89-111 | the magnifier as coded: the viewport's centre is the anchor, content offset + anchor·m = 64 on both axes, the copy is scaled by m, and its box is 128×128 before scaling |
| `Magnifier.Corrected` | frontend/src/App.js:89-111 | the same viewport and offsets with the copy's box sized like the container; the viewport's centre shows exactly the point under the pointer |
| `Magnifier.AsWrittenCentredIffViewportWide` | frontend/src/App.js:98-110 | as coded, for a pointer off the left edge, the centre shows the pointed-at horizontal position if and only if the container is 128 px wide |
| `Magnifier.AsWrittenMissesMidpoint` | frontend/src/App.js:98-110 | in a 512×500 container at zoom 2, pointing at the midpoint (0.5 of the width) puts 2.0 of the width, off the image, at the magnifier's centre |
| `Comparison.Multiplier` | frontend/src/App.js:10 | the zoom level at index i is 2^(i+1), between 2 and 32 |
| `Comparison.ZoomIn` | frontend/src/App.js:25-27 | only the zoom index changes; it stays in [0,4]; it rises by exactly one if and only if the zoom-in button is enabled (index ≠ 4); at 4 nothing changes |
| `Comparison.ZoomOut` | frontend/src/App.js:29-31 | only the zoom index changes; it stays in [0,4]; it falls by exactly one if and only if the zoom-out button is enabled (index ≠ 0); at 0 nothing changes |
| `Comparison.ZoomRoundTrip` | frontend/src/App.js:25-31 | an enabled zoom-in is undone by zoom-out, and an enabled zoom-out by zoom-in |
| `Comparison.ZoomScalesByTwo` | frontend/src/App.js:10-31 | an enabled zoom-in doubles the magnification, and an enabled zoom-out halves it |
| `Comparison.ZoomInSaturates` | frontend/src/App.js:25-27 | k zoom-in presses reach index min(i + k, 4) and never leave the valid range |
| `Comparison.Step` | frontend/src/App.js:21-55 | each handler keeps the state valid and changes only its own field: the slider sets the slider value, mouse-down sets the drag flag, mouse-up and mouse-leave clear it, mouse-move sets only the anchor (dragging or not), and the zoom buttons touch only the zoom index, moving it exactly as `ZoomIn` / `ZoomOut` do |
| `Comparison.Run` | frontend/src/App.js:14-55 | any sequence of events keeps the slider in [0,100] and the zoom index in [0,4] |
| `Comparison.ReachableValid` | frontend/src/App.js:15-18 | the initial state (slider 50, zoom index 0, anchor (0,0), not dragging) and every state reached from it are valid |
| `Comparison.MovesOnlyMoveAnchor` | frontend/src/App.js:33-40 | any run of pointer moves leaves slider, zoom and drag flag alone, and the anchor ends at the last position |
| `Comparison.ClipOf` | frontend/src/App.js:62-66 | the overlay is clipped on the right only, by an inset in [0,100] with inset + slider = 100 |
| `Comparison.RevealIsLeftOfSlider` | frontend/src/App.js:62-73 | a horizontal position lies in the visible part of the upscaled overlay if and only if it is at most the slider value |
| `Comparison.Render` | frontend/src/App.js:62-113 | the clip is exactly `ClipOf(slider)`, so by `Comparison.RevealIsLeftOfSlider` the rendered overlay shows exactly the positions up to the slider; zoom-out is disabled exactly at index 0 and zoom-in exactly at 4; the magnifier is shown exactly while dragging, centred on the anchor, with content offset + anchor·m = 64 on both axes, scaled by the current level, and a 128×128 copy box |
| `Comparison.RenderedMagnifierCentre` | frontend/src/App.js:98-110 | while dragging with the pointer off the left edge, the rendered magnifier's centre shows the horizontal position under the pointer if and only if the container is 128 px wide |
| `Comparison.EnabledZoomChangesScale` | frontend/src/App.js:75-87 | every press of an enabled zoom button changes the magnifier's scale |
| `Carousel.Next` | frontend/src/App.js:254-256 | the records are unchanged; a valid index stays valid, advancing by one and wrapping from the last record to the first |
| `Carousel.Prev` | frontend/src/App.js:258-260 | the records are unchanged; a valid index stays valid, going back by one and wrapping from the first record to the last |
| `Carousel.NextPrevInverse` | frontend/src/App.js:254-260 | next then previous, and previous then next, return to the original state |
| `Carousel.EnabledNavigationMoves` | frontend/src/App.js:279-282 | the buttons are disabled (≤ 1 record) if and only if pressing them leaves the index where it is |
| `Carousel.NextTimesAdvances` | frontend/src/App.js:254-256 | k presses of next move the index to (i + k) mod n |
| `Carousel.NextTimesWithinRound` | frontend/src/App.js:254-256 | within one round (k ≤ n), k presses of next move the index on by k, wrapping past the last record at most once |
| `Carousel.FullRoundReturns` | frontend/src/App.js:254-256 | n presses of next with n records return to the starting state |
| `Carousel.Current` | frontend/src/App.js:42-46 | there is a record to show exactly when the index is in range, and it is `images[index]`; for a valid state there is one exactly when there are records |
| `Carousel.Replace` | frontend/src/App.js:246-247 | the new batch replaces the records entirely, the index is 0, and a non-empty batch shows its first record |
| `Upload.RecordOf` | frontend/src/App.js:240-244 | a record's two URLs are image URLs of the entry's original and upscaled file names, and its analysis is the entry's |
| `Upload.RecordsOf` | frontend/src/App.js:240-244 | one record per analyze entry, in the same order, each pointing at that entry's files and carrying its analysis |
| `Upload.Pipeline` | frontend/src/App.js:175-251 | an empty selection is skipped; the run fails at stage S exactly when every earlier stage returned `Ok` and S did not (upscale gets the upload's file names, analyze gets both lists), with S's failure message; on success the records match the analyze entries in order |
| `Upload.LaterStagesNotConsulted` | frontend/src/App.js:186-235 | after a failure, the run does not depend on how any later stage would have answered |
| `Upload.EmptySelectionConsultsNothing` | frontend/src/App.js:176-177 | an empty selection skips the workflow whatever the backend would answer |
| `Upload.Apply` | frontend/src/App.js:240-251 | the carousel is untouched unless the run succeeded; then it holds the new records with index 0 |
| `Upload.AlertReportsFirstFailure` | frontend/src/App.js:193-251 | for every backend: no notification for an empty selection or a full success; otherwise "Error processing images: Upload failed: " / "Upscale failed: " / "Analysis failed: " + body text for the first stage with a non-success status, or "Error processing images: " + the message of an error raised by the request, with no stage name |
| `Upload.UploadReplacesOrKeeps` | frontend/src/App.js:240-251 | end to end: on success record i has original URL `BACKEND_URL/image/<original_filename>`, upscaled URL `BACKEND_URL/image/<upscaled_filename>` and analysis of analyze entry i, and the index is 0; otherwise the carousel is unchanged |
| `Shell.Remount` | frontend/src/App.js:270-278 | the widget is mounted exactly while there are records; the first non-empty batch mounts a fresh widget, a later non-empty batch keeps the same one, and an empty batch unmounts it |
| `Shell.Step` | frontend/src/App.js:246-285 | each event keeps the view valid; an enabled next/previous button applies `Carousel.Next` / `Carousel.Prev` and a disabled one changes nothing; a widget event applies `Comparison.Step` to the mounted widget and leaves the carousel alone; a failed or skipped upload changes nothing, a successful one installs the records at index 0, and the widget follows `Remount` |
| `Shell.Run` | frontend/src/App.js:170-305 | every sequence of events from a valid view leads to a valid view |
| `Shell.ReachableValid` | frontend/src/App.js:171-172 | the initial view (no records, index 0, no widget) satisfies the mount invariant, and so does every view reached from it |
| `Shell.UploadMountRule` | frontend/src/App.js:270-278 | the first non-empty batch gives a fresh widget (slider 50, zoom 2×, not dragging), and a later non-empty batch keeps the widget's state |
| `Shell.NavigationRoundTrip` | frontend/src/App.js:254-281 | next then previous, and previous then next, restore the whole view, including the widget's state |
| `Shell.Render` | frontend/src/App.js:262-287 | the comparison widget, the navigation buttons and the analysis panel appear exactly when there are records; the record whose two images are displayed is `images[index]` (lines 42-46, 58, 69); the comparison view is `Comparison.Render` of the mounted widget's state; the buttons are disabled exactly when there is at most one record; the panel gets the current record's analysis |

## Left out

- Network I/O is not modelled: `fetch`, `FormData`, CORS options, JSON parsing and `async`/`await`. Each stage is an abstract outcome, a function of its request payload. A malformed response body, or a `.map` on a non-array, counts as a `Thrown` outcome of that stage.
- The workflow's completion is modelled as one atomic event. `setImages` and `setCurrentImageIndex` do not read the state as it was before the run, so other events during the awaits cannot change the result.
- The frontend does not check that the three stages' lists agree in length or order. The records follow the analyze response alone, as the code does.
- `console.log`/`console.error` are not modelled: they have no effect on state.
- `BACKEND_URL` derivation from `window.location` (line 11) is left out. It is the `backendUrl` parameter.
- React hooks, refs and `getBoundingClientRect` are not modelled. Pointer positions are taken as already local to the container. The `containerRef.current` guard (line 34) is omitted because events only reach a mounted container.
- Slider input is not checked in the model. `handleSliderChange` stores `value[0]` as given. The slider component (max 100, step 1, default min 0) supplies an integer in [0,100], which is the `Percent` type.
- The 2-px magnifier border, `object-fit: cover` cropping and CSS rendering itself are not modelled. The magnifier geometry is stated in box-normalised coordinates.
- The Recharts charts of `ImageAnalysis` are not modelled. Only which analysis they receive is modelled, in `Shell.Render`. The data is passed through unchanged.
- `LandingPage`'s markup and marketing content are left out, except for the clip formula. The top-level landing/app tab switch is also left out: it is a two-value toggle with no logic.
- Shell.Step: defined only on states satisfying `Shell.Valid`, the mount invariant that `Shell.Initial` has and every step keeps (`Shell.ReachableValid`). React never produces the other combinations.

## Findings

| source | as written | input that shows it | evidently intended | confidence | as-written member | corrected member |
|---|---|---|---|---|---|---|
| frontend/src/App.js:98-110 | the magnified `<img>` is `width/height: 100%` of the 128 px magnifier, then scaled by m and offset by −anchor·m + 64, so the centre shows the copy's point at the anchor's pixel coordinates inside a 128×128 box | a 512×500 container with the pointer at (256, 250) at zoom 2 has the image midpoint under the pointer, but the magnifier centre shows 2.0 of the image width, outside the image | the copy's box has the container's size, so the point under the pointer appears at the magnifier's centre | not executed; medium (CSS layout modelled as box-normalised coordinates) | `Magnifier.AsWritten`, `Magnifier.AsWrittenMissesMidpoint` | `Magnifier.Corrected` |

# QR editor composition model

A Dafny model of the logic inside the single-page QR code editor `src/App.jsx`.
The user picks a content kind (text/URL, or an uploaded image, audio or video
file) and a style (colours, dot and corner styles). They can also upload a logo
that is clipped to a square, rectangle or circle. On every change the
component sends the current configuration to a QR rendering library.

The model has three parts.

- **Composition state and render request.** The component's state slots are
  the fields of the class `Editor.QrEditor`, and its setters are methods.
  The update effect (`Render`) selects the payload of the active kind and
  passes the style and logo fields straight through to the module-level
  renderer (`RenderPipeline.QrCode`). Each operation keeps the invariant
  `Synced`: the renderer holds exactly `Request(Snapshot())`. The pure value
  `CompositionState.State` and the function `RenderPipeline.Request` carry the
  lemmas: data selection, pass-through, which state changes the request can see,
  and that switching the kind loses no payload.
- **Uploads.** The storage key is `folder/<Date.now()>.<ext>`, where `ext` is
  `name.split(".").pop()`. `UploadPath` models `split`, `join`, `pop` and the
  decimal rendering of the clock value, and proves these facts:
  - the extension is the dot-free segment after the last dot;
  - keys in one folder collide exactly when two uploads share both the
    millisecond and the extension;
  - keys in different upload folders never collide.

  A URL is committed only when it is truthy in the JavaScript sense, and then
  only to its own slot.
- **Logo shaper.** The canvas is 420 × 300 for "rectangle" (`300 * 1.4` is
  exactly 420 in floating point) and 300 × 300 otherwise.
  - For "circle" the clip is the disc of radius 150 at the canvas centre. For
    every other shape it is the whole canvas.
  - The image is always stretched over the whole canvas.
  - The clip region lies on the canvas for every shape.
  - A shape change reshapes the stored raw file, with no new upload.

  A shaped logo is described by its source file and this geometry. The pixels
  are not modelled.

The model follows the code where the code does less than a fuller design would.
There is no document (PDF) kind. There is no clamping of the logo size and no
validation of style values. The storage key has no random suffix, so two
uploads collide when they share the folder, the millisecond and the extension
(`PathCollidesIff`). There is no failure path for an image that never loads.
Such an image simply never produces a logo (`decodes` is false).

The logo handler stores the picked file before it shapes it. If the file picker
is cancelled after a logo was set, `logoFile` is cleared but the old logo stays
on screen. From then on, shape changes no longer reshape it
(`CancelledPickerKeepsStaleLogo`). When every picked image loads, the logo is
always the stored file shaped with the current shape (`LogoCacheKept`).

## Model

| member | source | states |
|---|---|---|
| `Browser.Canvas.constructor` | src/App.jsx:115 | a new canvas starts at the HTML default size, 300 × 150, before the shaper resizes it |
| `UploadPath.Split` | src/App.jsx:76 | `split(".")` yields at least one piece; no piece contains a dot |
| `UploadPath.JoinSplit` | src/App.jsx:76 | joining the pieces with "." gives back the original name (with `Split`: the pieces are exactly the text between the dots) |
| `UploadPath.Ext` | src/App.jsx:76 | the extension taken by `pop()` contains no dot |
| `UploadPath.ExtIsLastSegment` | src/App.jsx:76 | the extension is the whole name exactly when the name has no dot; otherwise it is the proper suffix right after a dot |
| `UploadPath.ExtAfterDot` | src/App.jsx:76 | the extension of `a + "." + b` is the extension of `b` |
| `UploadPath.Decimal` | src/App.jsx:77 | the clock value's text is a non-empty string of decimal digits with no leading zero |
| `UploadPath.ParseDecimalInverts` | src/App.jsx:77 | reading the decimal text of the clock value gives the value back |
| `UploadPath.DecimalInjective` | src/App.jsx:77 | distinct clock values give distinct texts |
| `UploadPath.StoragePath` | src/App.jsx:77 | the key `folder/ts.ext` lies inside the folder (it starts with `folder + "/"`); with `PathKeepsExtension` and `PathCollidesIff`, it carries the file's extension and is determined exactly by the time and that extension |
| `UploadPath.PathKeepsExtension` | src/App.jsx:76-77 | the storage key `folder/ts.ext` has the same extension as the uploaded file |
| `UploadPath.PathCollidesIff` | src/App.jsx:76-77 | in one folder, two keys are equal if and only if the upload times and the file extensions are equal |
| `UploadPath.UploadToSupabase` | src/App.jsx:74-91 | a URL is returned if and only if a file was given and the storage accepted it under its key; the URL is the public URL of that key; a missing file gives null |
| `CompositionState.FoldersKeepSlotsApart` | src/App.jsx:93-106 | image, audio and video uploads go to distinct folders, so their keys never coincide |
| `CompositionState.FolderOf` | src/App.jsx:93-106 | image uploads go to "images", audio to "audio", video to "videos"; `FoldersKeepSlotsApart` proves that keys from different folders never coincide |
| `CompositionState.Truthy` | src/App.jsx:95-105 | the `if (url)` test: null and "" are false, and any other string is true; `CommitUpload` commits exactly the URLs it accepts |
| `CompositionState.CommitUpload` | src/App.jsx:93-106 | a truthy URL replaces its own slot; the other slots and all other fields stay; a null or empty URL changes nothing |
| `CompositionState.UploadLogo` | src/App.jsx:136-140 | the logo-upload transition: store the picked file, then (once it loads) the file shaped with the current shape; its properties are `UploadLogoStoresThenShapes`, `LogoCacheKept` and `CancelledPickerKeepsStaleLogo` |
| `CompositionState.Reshape` | src/App.jsx:142-145 | the shape-change transition: set the shape, and on a real change with a stored file, reshape that file; its properties are `ReshapeReusesStoredFile` and `LogoCacheKept` |
| `CompositionState.UploadLogoStoresThenShapes` | src/App.jsx:136-140 | a logo upload stores the raw file; once the image loads, the logo is that file shaped with the current shape; nothing else changes |
| `CompositionState.ReshapeReusesStoredFile` | src/App.jsx:142-145 | the shape slot becomes the chosen shape and only the logo slot may change besides; a new shape with a stored file and a loaded image recomputes the logo from that same file; an unchanged shape or an image that never loads keeps the logo; with no stored file only the shape changes |
| `CompositionState.LogoCacheKept` | src/App.jsx:136-145 | when images load, the logo stays equal to the stored file shaped with the current shape, from mount through uploads and reshapes |
| `CompositionState.CancelledPickerKeepsStaleLogo` | src/App.jsx:136-145 | for every state, cancelling the picker clears the raw file and changes nothing else, and every later shape change keeps the old logo; a square logo then stays square after a change to "circle" and no longer matches the stored file |
| `LogoShape.CanvasDims` | src/App.jsx:116-118 | height is always 300; width is 420 for "rectangle" and 300 for every other shape |
| `LogoShape.ClipFor` | src/App.jsx:124-128 | the disc at the canvas centre with radius `size / 2` for "circle", else the canvas rectangle; `ClipByShape` and `ClipWithinCanvas` state that the disc is (150, 150, 150) and that every clip lies on its canvas |
| `LogoShape.Shaped` | src/App.jsx:117-131 | the shaped logo: a canvas sized for the shape, its clip, and the file stretched over (0, 0, width, height); `ShapedIff` states the draw rectangle and which shapes coincide, and `ProcessLogo` is proved equal to it |
| `LogoShape.ProcessLogo` | src/App.jsx:109-134 | the canvas is sized and clipped for the shape, and the file is drawn over the whole canvas; the result is `Shaped(file, shape)` |
| `LogoShape.ClipWithinCanvas` | src/App.jsx:124-128 | every point of the clip region lies on the canvas; for the circle this holds because circle implies a square canvas |
| `LogoShape.ClipByShape` | src/App.jsx:124-130 | "circle" clips to the disc (150, 150, r = 150), which keeps the centre and cuts the corners; any other shape clips to exactly the canvas |
| `LogoShape.ShapedIff` | src/App.jsx:117-131 | the logo draws the given file over (0, 0, width, height); two shapes give the same logo if and only if they agree on "rectangle" and on "circle" |
| `RenderPipeline.ComputeData` | src/App.jsx:41-45 | the `if` chain yields the active kind's payload from the kind→slot map, or "" for any other kind |
| `RenderPipeline.ActiveData` | src/App.jsx:41-45 | the selected data is a lookup of the active kind in the kind→slot map; non-empty data only ever comes from one of the four known kinds; `ComputeData` proves the source's `if` chain equal to it |
| `RenderPipeline.DataSelection` | src/App.jsx:41-45 | the data is `text` for "text", `imageQR` for "image", `audioQR` for "audio" and `videoQR` for "video"; it is "" for other kinds and when the active slot is empty |
| `RenderPipeline.RequestPassThrough` | src/App.jsx:47-58 | the request carries `image = logo`, dots `{fgColor, dotStyle}`, corners `{eyeStyle}`, background `{bgColor}`, `imageSize = logoSize` and margin 6 |
| `RenderPipeline.Request` | src/App.jsx:47-58 | the complete request built from a state; `RequestPassThrough` gives each field, `RequestEqualIff` says exactly which state changes the request can see, and `Editor.QrEditor.Render` proves the effect hands it to the renderer |
| `RenderPipeline.RequestEqualIff` | src/App.jsx:47-71 | two states give equal requests if and only if they agree on the selected data, the logo, the four style fields and the logo size |
| `RenderPipeline.KindSwitchKeepsPayloads` | src/App.jsx:41-45 | switching the kind changes no payload slot; switching away and back gives the same request; the new kind's data is its stored slot |
| `RenderPipeline.UploadReachesRequestIff` | src/App.jsx:40-71 | a committed upload sets the request's data when its slot is the active kind; otherwise the request is unchanged |
| `RenderPipeline.QrCode.constructor` | src/App.jsx:5-10 | the renderer is created at 300 × 300 with error correction "H" and no request yet |
| `RenderPipeline.QrCode.Update` | src/App.jsx:47 | after `update`, the renderer holds exactly the given request |
| `Editor.QrEditor.constructor` | src/App.jsx:16-32 | mounting sets every slot to its initial value and leaves the renderer synced |
| `Editor.QrEditor.Render` | src/App.jsx:40-58 | the effect leaves the renderer holding the request for the current state, whatever it held before, so re-submitting is idempotent |
| `Editor.QrEditor.SetQrType` | src/App.jsx:156 | only `qrType` changes; the renderer stays synced |
| `Editor.QrEditor.SetText` | src/App.jsx:164 | only `text` changes; the renderer stays synced |
| `Editor.QrEditor.SetFgColor` | src/App.jsx:182 | only `fgColor` changes; the renderer stays synced |
| `Editor.QrEditor.SetBgColor` | src/App.jsx:185 | only `bgColor` changes; the renderer stays synced |
| `Editor.QrEditor.SetDotStyle` | src/App.jsx:187 | only `dotStyle` changes; the renderer stays synced |
| `Editor.QrEditor.SetEyeStyle` | src/App.jsx:194 | only `eyeStyle` changes; the renderer stays synced |
| `Editor.QrEditor.SetLogoSize` | src/App.jsx:217 | only `logoSize` changes, stored as delivered; the renderer stays synced |
| `Editor.QrEditor.Commit` | src/App.jsx:95-105 | the new state is `CommitUpload` of the old one; the renderer stays synced |
| `Editor.QrEditor.HandleImageQRUpload` | src/App.jsx:93-96 | uploads to "images" and commits the resulting URL into `imageQR` only |
| `Editor.QrEditor.HandleAudioQRUpload` | src/App.jsx:98-101 | uploads to "audio" and commits the resulting URL into `audioQR` only |
| `Editor.QrEditor.HandleVideoQRUpload` | src/App.jsx:103-106 | uploads to "videos" and commits the resulting URL into `videoQR` only |
| `Editor.QrEditor.HandleLogoUpload` | src/App.jsx:136-140 | stores the file, then stores the shaped logo once the image loads; the renderer stays synced |
| `Editor.QrEditor.SetLogoShape` | src/App.jsx:142-145 | sets the shape; when the shape changed and a file is stored, reshapes that file; the renderer stays synced |

## Left out

- The QR library (`qr-code-styling`) is a foreign library: encoding, error correction, drawing, `append` and `download` are left out. `update` is modelled as the renderer holding the last complete request. How the library merges that request into its own options is not modelled.
- Supabase storage is network I/O. The upload and `getPublicUrl` calls are two function parameters: `accepts(path, file)` (the upload returned no error) and `publicUrl(path)`. The bucket name "qr-files", exceptions thrown by the client and the `alert` are not modelled.
- `Date.now()` is a `nat` parameter. `String(n)` is modelled as plain decimal digits; JavaScript switches to exponent notation only at 10^21, far beyond any clock value.
- Image decoding, `Image.onload`, canvas pixel operations, `clearRect`, the `arc` angles and `toDataURL` belong to the browser. Whether `onload` fires is the `decodes` flag, and the PNG is represented by its source file and geometry. So the "only if" directions of `ShapedIff` and `RequestEqualIff` hold for this representation, not for the real data URLs: two files with the same bytes and different names, or a fully transparent image under "square" and "circle", give different logos in the model but equal `toDataURL` strings.
- Asynchrony is collapsed: each handler runs to completion as one step. Out-of-order resolution of overlapping uploads or reshapes is a concurrency concern and is not modelled.
- React effect scheduling: the model re-runs the update effect after every setter of a slot in its dependency list, even when the new value equals the old one, while React skips the effect then. Like React, the model does not run it when only `logoFile` or `logoShape` is set, or for a falsy upload URL. Both leave the renderer with the same request, since `Synced` holds before and after.
- `logoSize` is an opaque string. The source starts it as the number 0.3 and then stores the slider's string value; the model starts it at "0.3". Its `min`/`max` attributes are UI limits, not checks.
- The TypeError that `URL.createObjectURL` throws when the logo selection is empty is not modelled: the promise rejects, the awaiting handler ends in an unhandled rejection, and `setLogo` never runs. The model keeps only the state outcome: `logoFile` is cleared and the old logo stays (`UploadLogo` with no file).
- The JSX layout, labels and the `accept` filters of the file inputs are left out.

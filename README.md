# svg2gcode web front-end: placement and export core

A Dafny model of the decision logic of the svg2gcode web application. The application lets a user
place vector drawings on a machine bed, scale and drag them, and export G-code, either as one file or
as a zip archive. The model covers five parts:

- **Drawing size resolver** (`dimensions.dfy`, module `Dimensions`): `parse_svg_dimensions`. It turns
  the per-axis overrides, the root element's `width`/`height` and its `viewBox` into a size in
  millimetres, or none. The two unit tables differ. The override table refuses bare numbers and
  relative units. The attribute table reads them as pixels at 96 per inch.
- **Placement and drag controller** (`preview.dfy`, module `Preview`): the footprint (size times
  scale), the inclusive "fits on bed" test, the "too large" warning, the pointer-to-bed mapping, and
  the clamp `max(0).min(bed - footprint)`. Because the `min` comes last, a drawing larger than the bed
  is placed at the negative offset `bed - footprint`. The drag state (`is_dragging`, `drag_start`) is
  the class `DragController`.
- **Drawing list reducers** (`drawings.dfy`, module `Drawings`): remove by index, the guarded scale
  update and the unconditional offset replacement.
- **Export planner** (`export.dfy`, module `Export`): each drawing's conversion settings (resolution
  divided by scale, origin set to the offset) and Rust's `Path::with_extension` on plain file names.
  It also covers the file paths, single-file versus archive packaging and the download names. The zip
  writer is a class holding the sequence of entries it was given. The function `Plan` is the reference
  definition of everything one export downloads.
- **Settings upgrade gate** (`settings.dfy`, module `Settings`): upgrade the settings and hydrate the
  form while the session flag is down, then raise the flag.

`app.dfy` (module `Application`) holds the application component as the class `App`. Its fields are
the drawing list, the settings, the form, the gate flag, the `generating` flag and a log of the
downloads the browser was asked for. `App.Generate` is the export loop. It appends to a `ZipWriter`
step by step and is proved to download exactly `Plan(...)`.

All numbers are `real`. Foreign parsers are parameters: `Length::from_str` and `f64` parsing are
`string -> Option<...>`, and `Settings::try_upgrade` is `SettingsRecord -> Option<SettingsRecord>`.
A drawing that does not parse as XML is `None` in place of its root element. A converted program is
a token recording what `svg2program` was called with.

## Model

| member | source | states |
|---|---|---|
| `Dimensions.OverrideToMm` | web/src/ui/preview.rs:26-36 | The override table gives a value exactly for mm, cm, in, px, pt and pc; a bare number or a relative unit gives none; px is the 96-per-inch conversion |
| `Dimensions.AttributeToMm` | web/src/ui/preview.rs:71-79 | The attribute table agrees with the override table on every absolute unit and reads every other unit (bare, em, ex, %) as pixels |
| `Dimensions.AttributeAxis` | web/src/ui/preview.rs:61-67 | An axis takes its attribute when that parses as a length, and falls back to that axis's raw override when it is absent or does not parse |
| `Dimensions.SplitWhitespace` | web/src/ui/preview.rs:96 | Every token of `split_whitespace` is non-empty and contains no Unicode whitespace |
| `Dimensions.SplitJoined` | web/src/ui/preview.rs:96 | Words separated by any non-empty runs of Unicode whitespace, with any leading and trailing whitespace, split back into exactly those words, in order |
| `Dimensions.ParseViewBox` | web/src/ui/preview.rs:95-108 | A viewBox gives a size iff it has exactly four tokens that all parse as numbers; the size is the third and fourth token as 96-per-inch pixels, and min-x/min-y play no part |
| `Dimensions.ParseSvgDimensions` | web/src/ui/preview.rs:21-111 | Unparsable markup has no size; two convertible overrides are the size; otherwise two resolved attribute-or-override axes convert by the attribute table; otherwise the viewBox decides |
| `Dimensions.OverrideFactors` | web/src/ui/preview.rs:26-53 | The override factors are exactly ×1, ×10, ×25.4, ×25.4/96, ×25.4/72 and ×25.4/6, and bare numbers, em, ex and % give none |
| `Dimensions.OneInchInEveryUnit` | web/src/ui/preview.rs:71-89 | 1 in, 2.54 cm, 25.4 mm, 72 pt, 6 pc and 96 px all convert to 25.4 mm |
| `Dimensions.OverridesIgnoreAttributes` | web/src/ui/preview.rs:55-58 | When both overrides convert, two root elements with any attributes and viewBoxes give the same size |
| `Dimensions.AttributeBeatsSingleOverride` | web/src/ui/preview.rs:56-69 | With only one axis overridden there is no short-circuit, and parsable attributes on both axes win even over that override |
| `Dimensions.RefusedOverridesReadAsPixels` | web/src/ui/preview.rs:41-89 | Overrides in a unit the override stage refuses come back in the attribute stage, when the attributes are absent, and are read as pixels |
| `Dimensions.ViewBoxOnlyWhenNoAxisResolves` | web/src/ui/preview.rs:94-110 | With no attributes and no overrides, the size is exactly what the viewBox gives |
| `Dimensions.ViewBoxExample` | web/src/ui/preview.rs:95-105 | The tokens `0 0 200 100` alone, laid out with any whitespace (tabs, newlines, runs of spaces, leading or trailing), give 635/12 × 635/24 mm (200 × 100 px) |
| `Dimensions.SingleSpacedViewBox` | web/src/ui/preview.rs:95-96 | The plain `0 0 200 100` is one of those layouts: single spaces between the tokens and none around them |
| `Preview.Footprint` | web/src/ui/preview.rs:137-143 | An unknown size has the footprint (0, 0); at scale 1 the footprint is the size itself |
| `Preview.FitsOnBed` | web/src/ui/preview.rs:146 | A footprint passes the inclusive fit test exactly when some offset places all of it on the bed |
| `Preview.ShowsTooLarge` | web/src/ui/preview.rs:289 | The warning shows exactly when the size is known and its width or height times the scale exceeds the bed's |
| `Preview.FitsOnBedIff` | web/src/ui/preview.rs:146 | A drawing fits iff width × scale ≤ bed width and height × scale ≤ bed height |
| `Preview.FitsOnBedBoundary` | web/src/ui/preview.rs:146 | A footprint equal to the bed fits; one larger on either single axis does not |
| `Preview.TooLargeOnlyWhenKnown` | web/src/ui/preview.rs:289 | The "too large" warning never shows for an unknown size, and for a known size shows exactly when it does not fit |
| `Preview.ShrinkingKeepsFit` | web/src/ui/preview.rs:137-146 | A drawing that fits at some scale still fits at any smaller non-negative scale |
| `Preview.PointerToBed` | web/src/ui/preview.rs:160-161 | The pointer mapping is linear: the bed position is to the bed's extent as the pointer's distance from the near edge is to the rectangle's extent, so the near edge goes to 0 and the far edge to the bed's extent |
| `Preview.BedPoint` | web/src/ui/preview.rs:160-161 | Both coordinates of the pointer are mapped proportionally, x against the rectangle's width and the bed's width, y against the heights |
| `Preview.ClampAxis` | web/src/ui/preview.rs:184-185 | If the footprint fits on the axis, the result lies in [0, bed − footprint], in-range candidates are kept, candidates below 0 go to 0 and candidates beyond bed − footprint go to bed − footprint; if it does not fit, the result is exactly bed − footprint, which is negative |
| `Preview.ClampPoint` | web/src/ui/preview.rs:184-185 | For a drawing that fits, every clamped offset keeps the whole footprint on the bed and an offset already on the bed is unchanged; on an axis where it does not fit, the offset is bed − footprint |
| `Preview.DragController.constructor` | web/src/ui/preview.rs:119-120 | A preview starts not dragging and with no grab offset |
| `Preview.DragController.MouseDown` | web/src/ui/preview.rs:149-167 | Mouse-down starts a drag and stores grab = pointer's bed position − current offset |
| `Preview.DragController.MouseMove` | web/src/ui/preview.rs:169-192 | In a valid state (a drag always has its grab offset), a move emits an offset iff a drag is in progress; when it does, the offset is the clamped (pointer − grab), and it stays on the bed when the drawing fits |
| `Preview.DragController.MouseUp` | web/src/ui/preview.rs:194-199 | Mouse-up ends the drag, keeps the grab offset and emits nothing |
| `Preview.DragController.MouseLeave` | web/src/ui/preview.rs:201-206 | Leaving the preview also ends the drag, keeps the grab offset and emits nothing |
| `Preview.PressMoveRelease` | web/src/ui/preview.rs:160-187 | A move at the press position emits the old offset, clamped, so no jump (the offset itself when it is on the bed); after release a move emits nothing |
| `Drawings.Removed` | web/src/main.rs:233-235 | Removing index i drops exactly that drawing: the length falls by one, the others keep their order, and the multiset loses only that drawing |
| `Drawings.WithScale` | web/src/main.rs:237-244 | A scale input changes only `svgs[i].scale`, and only when it parsed and is > 0; otherwise the list is unchanged |
| `Drawings.WithOffset` | web/src/main.rs:246-248 | An offset change replaces only `svgs[i].offset`; every other drawing and field stays the same |
| `Drawings.ReducersKeepScalesPositive` | web/src/main.rs:233-248 | None of the three reducers breaks the invariant that every scale is positive |
| `Drawings.RejectedScaleChangesNothing` | web/src/main.rs:239-243 | Zero, negative or unparsable scale input leaves the list unchanged |
| `Drawings.OffsetLastWriteWins` | web/src/main.rs:246-248 | Two offset changes on one drawing leave the second offset |
| `Settings.UpgradeAndHydrateAsWritten` | web/src/main.rs:40-50 | The gate as written: it does nothing once the flag is up; otherwise it upgrades the settings, hydrates the form from the pre-upgrade snapshot, and raises the flag |
| `Settings.UpgradeAndHydrate` | web/src/main.rs:40-50 | The gate as intended: the flag is always up afterwards; once up, nothing changes; otherwise the settings are upgraded and the form is hydrated from the upgraded record |
| `Settings.GateRunsOnce` | web/src/main.rs:40-50 | A second pass is a no-op and never re-hydrates, so form edits made after the first pass survive |
| `Settings.StaleHydration` | web/src/main.rs:42-47 | When the upgrade changes the record, the written gate's form does not match the settings it leaves, while the intended gate's does; both leave the same settings |
| `Settings.NoUpgradeNoDifference` | web/src/main.rs:42-47 | When the upgrade leaves the record as it is, the written and intended gates agree |
| `Export.DrawingConfig` | web/src/main.rs:70-77 | A drawing's config has dpi × scale = the global dpi and origin = (Some(offset x), Some(offset y)), and every other field equals the global settings |
| `Export.DoublingScaleHalvesDpi` | web/src/main.rs:69-71 | Doubling a drawing's scale halves the resolution it is converted at |
| `Export.FileStem` | web/src/main.rs:128-130 | For a name with a file-name component (not "", "." or ".."), the stem is a non-empty prefix of the name: the whole name, or the name cut at its last dot when that dot is not the first character |
| `Export.WithExtension` | web/src/main.rs:128-130 | The result is stem + "." + extension; names with no file-name component ("", ".", "..") are unchanged |
| `Export.WithExtensionIdempotent` | web/src/main.rs:128-130 | Giving an output name the `gcode` extension a second time changes nothing |
| `Export.WithExtensionExamples` | web/src/main.rs:128-130 | `drawing.svg` → `drawing.gcode`, `logo.tar.svg` → `logo.tar.gcode`, `.hidden` → `.hidden.gcode`, `plain` → `plain.gcode`, `trailing.` → `trailing.gcode` |
| `Export.FilePath` | web/src/main.rs:126-131 | With several drawings the path is `svg2gcode_output/` followed by the renamed file name; with one it is the renamed name alone; either way it ends in `.gcode` when the name has a file-name component |
| `Export.GcodeFor` | web/src/main.rs:64-172 | A drawing's G-code converts its own content and dimension overrides with its own resolution (dpi × scale = the global dpi) and origin (its offset), the global machine settings and otherwise global conversion settings, and is formatted with the global post-processing flags |
| `Export.FileEntries` | web/src/main.rs:126-128 | One file entry per drawing, in drawing order, at `svg2gcode_output/<name>.gcode`, holding that drawing's G-code |
| `Export.ArchiveEntries` | web/src/main.rs:60-181 | A batch archive is the `svg2gcode_output` directory entry, then the drawings' files in order, then the comment, and nothing else |
| `Export.Plan` | web/src/main.rs:53-192 | No drawings: no download. One drawing: one download of its G-code under its renamed file name, with no archive. Several: exactly one download, the bulk archive, and no per-drawing download |
| `Export.CommentText` | web/src/main.rs:177-181 | The archive comment starts with `Created with svg2gcode: ` and ends with the crate description, unchanged |
| `Export.BulkName` | web/src/main.rs:183-186 | The archive name is `svg2gcode_bulk_download_` + the full date string + `.zip` |
| `Export.BatchEntriesFollowDrawings` | web/src/main.rs:64-131 | In a batch, each entry converts with the global settings except dpi and origin, and its path is inside `svg2gcode_output/` and ends in `.gcode` |
| `Export.GenerateDisabled` | web/src/main.rs:52 | The Generate button is enabled exactly when no export is running and at least one drawing is loaded |
| `Export.EnabledExportDeliversOne` | web/src/main.rs:52 | When Generate is enabled (not generating, drawings present), the export downloads exactly one file; with no drawings it downloads none |
| `Export.ZipWriter.constructor` | web/src/main.rs:57 | A new archive writer holds no entries |
| `Export.ZipWriter.AddDirectory` | web/src/main.rs:61 | Adding a directory appends exactly one directory entry |
| `Export.ZipWriter.StartFile` | web/src/main.rs:157-172 | Starting a file and formatting G-code into it appends exactly one file entry |
| `Export.ZipWriter.SetComment` | web/src/main.rs:178-181 | Setting the comment appends exactly the comment entry |
| `Export.ZipWriter.Finish` | web/src/main.rs:182 | Finishing gives the archive of every entry, in the order given |
| `Application.App.constructor` | web/src/main.rs:30-40 | The app starts with no drawings, the stored settings, the default form, and both flags down |
| `Application.App.Render` | web/src/main.rs:40-50 | Each render applies the corrected gate `Settings.UpgradeAndHydrate` of the Findings row: upgrade and hydrate from the upgraded record while the flag is down, nothing after; drawings, downloads and `generating` are untouched |
| `Application.App.RemoveSvg` | web/src/main.rs:233-235 | The list becomes `Removed(old list, i)`; nothing else changes and scales stay positive |
| `Application.App.ScaleInput` | web/src/main.rs:237-244 | The list becomes `WithScale(old list, i, input)`; nothing else changes and scales stay positive |
| `Application.App.OffsetChange` | web/src/main.rs:246-248 | The list becomes `WithOffset(old list, i, offset)`; nothing else changes |
| `Application.App.Generate` | web/src/main.rs:53-192 | The loop downloads exactly `Plan(drawings, settings, ...)` and leaves `generating` false; drawings, settings and form are untouched, since the settings are cloned and not modified |

## Left out

- Rendering: the `html!` trees, CSS strings, grid lines, the cursor style and the base64 preview image
  are presentation only.
- Browser calls: the bounding rectangle, the date and the bytes handed to `prompt_download` are
  parameters or tokens. A download is `(name, payload)`. `e.current_target()` is always present for a
  listener on the element, so its absent case is not modelled.
- Compile-time text: the crate description in the archive comment (`CARGO_PKG_DESCRIPTION`) is a
  parameter.
- Foreign collaborators: XML parsing, `Length::from_str`, `f64` parsing, `svg2program`, the G-code
  formatters, `snippet_parser`, `Machine::new` and the zip byte encoding are parameters or opaque
  tokens. The zip writer's own checks (recent zip crates refuse a duplicate entry name, for one) are
  not modelled.
- Panics in the export loop (`unwrap` on snippet, XML, format and zip errors) are not modelled.
  After such a panic `generating` stays true. `App.Generate`'s postcondition describes the successful
  run only.
- `Settings::try_upgrade` and `FormState::from` live in modules that are not part of this model. The
  first is a parameter and the second a token. The upgrade's own idempotence on a current record
  cannot be stated without them.
- Yew state semantics: `use_state` cells are modelled as immediately updated fields. In Yew, a `set`
  takes effect at the next render, and handlers read the values captured at the last render. So the
  two `generating` updates inside one click are not separated by a render in the real program.
- Floating point: `real` replaces `f64`. NaN, infinities and rounding are out, so the string `"inf"`
  passing the `> 0` scale test is out too. The scale input is modelled as the already-parsed
  `Option<real>`.
- Preview.PointerToBed: requires a non-zero rectangle extent. With `f64` a zero extent gives an
  infinite or NaN position, which `real` cannot express.
- Export.DrawingConfig: requires a positive scale, the invariant `App.Valid` keeps. With `f64`, a zero
  scale would give an infinite dpi.
- File names are plain names without `/`. `PathBuf::join` with an absolute name, and
  `with_extension` on a path with directories, are not modelled.
- Adding drawings (the upload form) and the settings form's fields are outside this core.
- Application.App.Render: applies the corrected gate (`Settings.UpgradeAndHydrate`, see Findings), so
  the form is hydrated from the upgraded record, where web/src/main.rs:46 hydrates it from the
  snapshot taken before the upgrade. The gate as written is `Settings.UpgradeAndHydrateAsWritten`.
- Drawings.Removed / WithScale / WithOffset: the index is required to be in range (for `WithScale`,
  whenever the input is accepted). A callback holding an index that a removal has made stale panics
  in the code on the out-of-range `Vec` access; that panic is not modelled.
- Preview.DragController.MouseMove: requires `Valid()`, a drag in progress having its grab offset, as
  every sequence of the controller's own methods keeps it. The code's `if let Some` on a missing grab
  offset, which then emits nothing, is a state the model does not reach.
- Behaviour of the code that the model keeps, though a reader might expect otherwise:
  - A bare number in the override stage gives no value, not pixels.
  - A drawing larger than the bed gets the negative offset `bed - footprint`, not 0.
  - The archive name embeds the full `toISOString` timestamp, not the date portion only.
  - A failed export does not clear the in-progress flag.

## Findings

| source | as written | input that shows it | evidently intended | confidence | as-written member | corrected member |
|---|---|---|---|---|---|---|
| web/src/main.rs:46 | The form is hydrated from `app_store.settings`, the store snapshot taken before `reduce_mut` upgrades `app.settings` | A stored settings record on which `try_upgrade` changes something, e.g. one restored from an older schema version | Hydrate the form from the upgraded record | medium (depends on `try_upgrade` changing fields the form shows); not executed | `Settings.UpgradeAndHydrateAsWritten` with `Settings.StaleHydration` | `Settings.UpgradeAndHydrate` |

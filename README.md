# AnimeV planning core in Dafny

This project models the parts of the AnimeV pose-driven character programs that decide what gets drawn, where and in what order. It covers three programs:

- **The sprite-rig driver** (`my_v.py`, class `AnimeCharacterDriver`). The model covers:
  - loading the fourteen part images, with a translucent red 50x50 placeholder when a load fails;
  - shrinking the detector keypoints toward the centre of the window;
  - placing each part image centred on the pixel of its start keypoint and rotated by the angle to its end keypoint;
  - walking the render order to issue the blits of one frame;
  - handling the quit key and the arrow keys.
- **The stick-figure renderer** (`try.py`, `draw_anime_character`). The model covers the bones drawn for visible connections of the `CONNECTIONS` table, and the head built around the nose.
- **The part-image preprocessor** (`units/img_tf.py`, `process_images`). The model covers:
  - selecting image files by extension, ignoring case;
  - the aspect-preserving fit into a 200x200 transparent canvas, with floor-division centring;
  - the per-file loop, in which one file's failure does not stop the others.

Modules:

- `Wrappers`: the `Option` type.
- `Numerics`: `Trunc`, which is Python's `int()` on a float, truncating toward zero.
- `Pose`: the detector keypoint and the 33 MediaPipe landmark indices.
- `RigTables`: the asset table, the bindings and the render order.
- `SpriteRig`: the driver, including the class `AnimeCharacterDriver`.
- `StickFigure`: the stick-figure renderer.
- `ImagePrep`: the preprocessor.

Imperative code stays imperative, and each method is proved against a function:

- The loader, the keypoint copy-and-shift, the frame loop, the event loop, the stick-figure loop and the preprocessing loop are methods with loop invariants.
- `LoadCharacterParts` is proved against `LoadPart`, and `OffsetLandmarks` against `Normalise`.
- `DrawCharacter` appends to the driver's `screen` exactly the blits of `PlanFrame`, which walks the render order with `PlanWalk`.
- `HandleEvents` moves the offsets as `ApplyEvents` says.
- `DrawAnimeCharacter` emits `Figure`.
- `ProcessImages` yields `ProcessFile` for each selected file.

The driver keeps its tables as constant fields, set in the constructor as the program's `__init__` sets them.

The graphics library is not modelled. Rotation, scaling and `degrees(atan2(.))` are the function values of a `Renderer`. An image is modelled as its size and its origin, and the screen as the sequence of blits drawn onto it. Decoding and saving are per-file outcomes passed in as parameters.

The model follows the code in the following places:

- **The NOSE quirk.** MediaPipe's landmark enumeration is an integer enumeration. So the test `binding[1].value if binding[1] else None` treats an end bound to NOSE (value 0) as absent. `EndIndex` models this as written. `RigTables.NoBindingEndsAtNose` shows that no binding of the table is affected.
- **The missing start keypoint.** `transform_part` indexes the start keypoint without a range check. A detection with fewer keypoints than a binding needs therefore raises `IndexError` out of `draw_character`, after the blits already issued. The model records this: `Transformed.IndexError` for the part, and `Plan.raised` for the frame.
- **The unused offsets.** `handle_events` moves `character_offset_x/y` by 10 per arrow key, but `draw_character` never reads them. The model keeps the offsets as class fields that only `HandleEvents` changes. Nothing in the frame plan depends on them.
- **JPEG outputs.** The canvas is RGBA (units/img_tf.py:54), and the output keeps the input's name (line 73). The imaging library picks the writer from the lower-cased extension, and its JPEG writer has no mode with an alpha channel. So every selected `.jpg` or `.jpeg` file fails at the save and is reported by the handler at line 76; only PNG outputs are written. A name with no stem, such as `..png`, has no extension for the library and fails as well. `SaveFormat` models the choice of writer, and `ImagePrep.JpegFilesNeverSaved` proves the consequence. The `saves` outcome stands for the remaining write errors.
- **Very thin images.** For a very thin image, such as 1x201, the short side truncates to 0. The resize then fails and the file is reported as an error (`ImagePrep.ThinImageFails`).

## Model

| member | source | states |
|---|---|---|
| Numerics.Trunc | my_v.py:143-144 | `int()` of a float truncates toward zero: the result is within 1 of the argument and never moves away from zero |
| Numerics.TruncScaledInRange | my_v.py:143-144 | truncating a fraction in [0, 1] times a size gives a value in [0, size], below size when the fraction is below 1 |
| RigTables.BodyPartNames | my_v.py:85-100 | every part of the rig has an entry in the asset table, so every part name is a key of the loaded dictionary |
| RigTables.AssetTableIsDictionary | my_v.py:85-100 | the fourteen names of the asset table are distinct, as the keys of a dictionary literal are |
| RigTables.TablesAgree | my_v.py:35-62 | the binding table and the render order cover exactly the parts of the asset table, and the render order names each part once |
| RigTables.RenderOrderLayers | my_v.py:53-62 | the head is drawn last, and the torso after every leg and foot part |
| RigTables.BindingsWithinDetection | my_v.py:35-50 | every binding's start and end are landmarks of a full 33-point detection |
| RigTables.NoBindingEndsAtNose | my_v.py:36-49 | no binding ends at NOSE, so the integer-enumeration truth test never drops an end keypoint of the table |
| RigTables.FilesNamedAfterParts | my_v.py:85-100 | each asset's image file is its part's dictionary key followed by .png |
| SpriteRig.LoadPart | my_v.py:104-122 | a loaded image keeps the table's anchor; a failed load gives the 50x50 translucent red placeholder with anchor (0.5, 0.5) |
| SpriteRig.LoadCharacterParts | my_v.py:102-123 | the loop gives an entry to every name of the asset table and to no other name, each built from that file's load outcome |
| SpriteRig.Normalise | my_v.py:193-195 | the visibility is kept, and detector coordinates in [0, 1] land in [0.15, 0.85] |
| SpriteRig.Normalised | my_v.py:193-195 | the whole detection with every keypoint normalised, in the same order; its entries are what OffsetLandmarks yields, and TorsoScenario gives concrete values |
| SpriteRig.OffsetLandmarks | my_v.py:184-195 | the copy-then-shift loops give a list of the same length whose every entry is the normalised keypoint |
| SpriteRig.ToPixel | my_v.py:143-151 | the truncated products of a keypoint's coordinates with the window size; NormalisedPixelOnScreen bounds it on screen, and TorsoScenario gives concrete values |
| SpriteRig.NormalisedPixelOnScreen | my_v.py:143-144 | a normalised in-image keypoint's pixel lies in [0, width) x [0, height) |
| SpriteRig.CalculateRotation | my_v.py:128-133 | degrees(atan2(-dy, dx)) of the pixel difference; properties in RotationTranslationInvariant and RotationOnAxes |
| SpriteRig.RotationTranslationInvariant | my_v.py:128-133 | moving both points by the same vector leaves the angle unchanged |
| SpriteRig.RotationOnAxes | my_v.py:128-133 | with atan2's values on the axes, rightward is 0, leftward 180, screen-up 90 degrees because dy is negated, screen-down -90, and a zero vector 0 |
| SpriteRig.EndIndex | my_v.py:139 | the end landmark, dropped when absent or bound to NOSE because of the integer truth test; NoBindingEndsAtNose shows the table never loses an end this way |
| SpriteRig.PartAngle | my_v.py:147-152 | the angle is 0 when the end is absent or its index is not below the keypoint count |
| SpriteRig.PartAngleReadsOnlyBoundLandmarks | my_v.py:147-152 | the angle depends only on the start keypoint and on the end keypoint when it is in range |
| SpriteRig.TransformPart | my_v.py:135-175 | the part is placed iff its start index is in range, and IndexError is raised otherwise; the start pixel is the centre of the rotated image's box, with the floor-division extra pixel on the right and bottom; at scale 1.0 the image rotated is the original one, by minus the part's angle |
| SpriteRig.AnchorIgnored | my_v.py:166-175 | changing the part's anchor never changes the image or the position |
| SpriteRig.ScaledImage | my_v.py:155-161 | the image unchanged at scale 1.0, otherwise the renderer's scaling to the truncated scaled size; TransformPart and PlanWalkBlitsArePlacements use its scale-1.0 case |
| SpriteRig.Drawable | my_v.py:198-199 | the names kept from the render order are exactly those present in both tables, each once when the order has no repeats |
| SpriteRig.DrawableAppend | my_v.py:198-199 | the filter keeps the order of the walk: filtering a concatenation filters each part in turn |
| SpriteRig.PlanWalk | my_v.py:198-203 | walks the render order, blitting each drawable part and stopping at the first IndexError; properties in PlanWalkFollowsDrawable, PlanWalkRaises and PlanWalkBlitsArePlacements |
| SpriteRig.PlanWalkFollowsDrawable | my_v.py:198-203 | the walk blits exactly the drawable names in render order, or a proper prefix of them when an IndexError stops it |
| SpriteRig.PlanWalkRaises | my_v.py:142 | an IndexError escapes iff some drawable part's start index is not below the keypoint count |
| SpriteRig.PlanWalkBlitsArePlacements | my_v.py:199-203 | each blit is the image and position TransformPart gives for that part at scale 1.0 |
| SpriteRig.PlanFrame | my_v.py:178-203 | nothing for an absent or empty detection, otherwise the walk over the normalised keypoints; properties in NoLandmarksNoBlits, FullFrameDrawsRenderOrder and FrameBlitsCentredOnScreen |
| SpriteRig.NoLandmarksNoBlits | my_v.py:180-181 | an absent or empty detection produces no blits and no error |
| SpriteRig.RenderOrderAllDrawable | my_v.py:53-62 | with every part loaded, the whole render order is drawable |
| SpriteRig.FullFrameDrawsRenderOrder | my_v.py:198-203 | with every part loaded and a full detection, the frame blits the render order exactly, each part once, and raises nothing |
| SpriteRig.FrameBlitsCentredOnScreen | my_v.py:171-175 | for in-image keypoints, every blit's box is centred at a pixel inside the window |
| SpriteRig.TorsoScenario | my_v.py:143-152 | on a 1000x700 window the nose (0.5, 0.3) goes to (500, 252), the shoulders go to (430, 325) and (570, 325), and the torso's angle is 0 |
| SpriteRig.ApplyEvents | my_v.py:213-229 | the batch processed in order, moving the offsets by 10 per arrow key, up to the first QUIT or ESC; properties in SingleEvent, ApplyEventsAppend and StopsIffExitEvent |
| SpriteRig.SingleEvent | my_v.py:216-228 | QUIT or ESC stops without moving; UP/DOWN change y by -10/+10 and LEFT/RIGHT change x by -10/+10; other events change nothing |
| SpriteRig.ApplyEventsAppend | my_v.py:215-229 | a batch handled in two parts continues from the offsets of the first part unless the first part stopped |
| SpriteRig.StopsIffExitEvent | my_v.py:215-220 | the handler returns False iff the batch contains a QUIT or ESC press |
| SpriteRig.AnimeCharacterDriver.constructor | my_v.py:11-69 | every part name has an entry, each its loaded part or the placeholder; the binding table and the render order are set; the offsets start at the window's centre by floor division; the screen starts empty |
| SpriteRig.AnimeCharacterDriver.DrawCharacter | my_v.py:178-203 | the screen gains exactly the frame plan's blits, and the call reports the IndexError iff the plan raises |
| SpriteRig.DriverDrawsWholeRig | my_v.py:178-203 | a constructed driver's frame for a full detection blits the whole render order, each part once and in order, and raises nothing |
| SpriteRig.AnimeCharacterDriver.HandleEvents | my_v.py:213-229 | the result and the new offsets are those of processing the batch in order up to the first exit event |
| StickFigure.Pixel | try.py:107-110 | the truncated products of a keypoint's coordinates with the 800x600 window size; ConnectionPrimitives and HeadPrimitives place every primitive at these pixels |
| StickFigure.ConnectionPrimitives | try.py:99-117 | a connection draws something iff both indices are in range and both visibilities exceed 0.3; it then draws one line between the truncated pixels and a joint circle on each end |
| StickFigure.Bones | try.py:95-117 | at most three primitives per connection |
| StickFigure.BonesAppend | try.py:95-117 | connections are drawn in list order: the bones of a concatenation are those of each part in turn |
| StickFigure.NoLandmarksNoBones | try.py:100 | with no keypoints no connection is in range, so nothing is drawn |
| StickFigure.AllBonesDrawn | try.py:95-117 | when every connection is in range and visible, every connection draws its three primitives |
| StickFigure.HeadPrimitives | try.py:120-157 | the head is drawn iff the nose exists and its visibility exceeds 0.3; the face is centred 40 above the nose pixel, the eyes at x -15 and x +15 and 5 above the face centre, mirror images of each other, each pupil at its eye's centre, the hair and the mouth centred horizontally, the mouth below the face centre |
| StickFigure.Figure | try.py:83-157 | nothing without a detection, otherwise the bones in connection order followed by the head; DrawAnimeCharacter emits it, and NothingWithoutLandmarks and FullVisibleFigure state its properties |
| StickFigure.DrawAnimeCharacter | try.py:83-157 | the loop issues exactly the figure's primitives: nothing for no detection, otherwise the bones in connection order and then the head |
| StickFigure.NothingWithoutLandmarks | try.py:91-100 | no detection draws nothing, and an empty detection draws nothing either |
| StickFigure.ConnectionsWithinDetection | try.py:50-80 | every connection of the table joins two landmarks of a full detection |
| StickFigure.FullVisibleFigure | try.py:95-157 | a full, fully visible detection draws 18 bones of three primitives each plus the seven head primitives |
| ImagePrep.IsImageFile | units/img_tf.py:32 | whether the lower-cased name ends in .png, .jpg or .jpeg; properties in SelectImageFiles, CaseIgnored and UpperCaseExtensionSelected |
| ImagePrep.SelectImageFiles | units/img_tf.py:31-32 | a name is selected iff it is in the listing and its lower-cased form ends in .png, .jpg or .jpeg |
| ImagePrep.SelectImageFilesAppend | units/img_tf.py:31-32 | selection keeps the listing order |
| ImagePrep.CaseIgnored | units/img_tf.py:31-32 | the extension test ignores case: a name is selected iff its upper-cased form is |
| ImagePrep.UpperCaseExtensionSelected | units/img_tf.py:32 | examples: "Body.PNG" and "arm.JpEg" are selected, "notes.txt" is not |
| ImagePrep.FitScale | units/img_tf.py:58 | min(200 / w, 200 / h) in exact reals; FitScaleOfLonger shows it is 200 over the longer side |
| ImagePrep.ScaledSize | units/img_tf.py:57-60 | both sides times the fit scale, truncated; properties in WiderScaledSize, TallerScaledSize and ScaledSizeFits |
| ImagePrep.FitScaleOfLonger | units/img_tf.py:58 | the one scale min(200 / w, 200 / h) is 200 over the longer side |
| ImagePrep.WiderScaledSize | units/img_tf.py:57-60 | for a landscape or square image the width becomes 200 and the height 200 * h // w |
| ImagePrep.TallerScaledSize | units/img_tf.py:57-60 | for a portrait or square image the height becomes 200 and the width 200 * w // h |
| ImagePrep.ScaledSizeFits | units/img_tf.py:57-60 | the longer side becomes exactly 200 and the shorter side 200 * short // long; both lie in [0, 200] |
| ImagePrep.FitAndCentre | units/img_tf.py:57-67 | the pasted image lies inside the 200x200 canvas, and on each axis its two margins differ by 0 or 1 |
| ImagePrep.SaveFormat | units/img_tf.py:73 | the writer chosen from the lower-cased extension of a name with a stem: PNG, JPEG or none; JpegNamesNotPng and PngSavedJpegFailed state its cases |
| ImagePrep.CanWriteRgba | units/img_tf.py:73 | whether that writer is the PNG one, the only one here that accepts an RGBA canvas; ProcessFile saves only when it holds, and JpegFilesNeverSaved follows |
| ImagePrep.JpegNamesNotPng | units/img_tf.py:73 | an output name ending in .jpg or .jpeg, in any case, never selects the PNG writer |
| ImagePrep.ProcessFile | units/img_tf.py:45-77 | a file is saved iff it decodes, both sides are positive, both scaled sides are positive, its name selects the PNG writer and saving succeeds; a saved canvas is 200x200 and transparent, with the image pasted at exactly its fit-and-centre box |
| ImagePrep.JpegFilesNeverSaved | units/img_tf.py:54-76 | every .jpg or .jpeg file is reported as failed, whatever its content |
| ImagePrep.PngSavedJpegFailed | units/img_tf.py:45-77 | a 100x50 PNG is saved as 200x100 at (0, 50); the same image named .jpg fails |
| ImagePrep.ProcessImages | units/img_tf.py:31-77 | nothing is processed iff the selection is empty; otherwise each selected file is attempted exactly once, in order, with its own outcome |
| ImagePrep.ThinImageFails | units/img_tf.py:57-61 | a 1x201 image scales to width 0, and the file fails |

## Left out

- Camera capture, colour conversion and pose detection (`process_frame` in both programs). These are external I/O and a foreign model, so a detection is an input: an optional sequence of keypoints.
- The windows and the main loops (`run` in `my_v.py`, the module loop of `try.py`). This includes window creation, captions, fonts, the status text, `display.flip` and the frame clock. These are user-interface plumbing. Only the draw calls of one frame and the event handler are modelled.
- `try.py`'s own event loop. It is a two-case version of the driver's quit handling, and it is not modelled separately.
- Pixel work. Rotation and scaling of images, the drawing primitives and the imaging library's resize, paste and save are foreign calls. Rotation and scaling are `Renderer` functions, and drawing is recorded as primitives or blits.
- Floating point. Keypoint products, `atan2` and `degrees`, and the fit scale are exact reals. Any angle function can be passed in, and `AxisAngles` states only its values on the axes. Under IEEE arithmetic, `w * (200 / w)` may round to just below 200 and truncate to 199 (a 97x1 image gives 199). The shorter side can also come out one pixel short: a 117x195 image gets width `int(117 * (200 / 195))` = 119 in doubles, where the exact value 200 * 117 // 195 is 120. The exact-real model cannot show either, so `ImagePrep.WiderScaledSize`, `ImagePrep.TallerScaledSize` and `ImagePrep.ScaledSizeFits` hold for exact arithmetic only.
- The mouth arc's angles (0 and pi). The arc is recorded by its colour, rectangle and thickness only.
- The resource directory and the file-path joins. `load` stands for opening `<resource_dir>/<file>` and converting it to per-pixel alpha. The rectangle the program stores beside each part is always the image's own bounds and is not kept.
- Directory creation, `os.listdir` and `os.path.join` in the preprocessor. The listing is an input sequence of names, and opening and saving are outcomes passed in per file.
- The RGBA conversion of opened images. It changes pixels, not sizes.
- The console messages of the loader and the preprocessor.
- `units/argparses.py`. It only reads the input directory from the command line, and it is not part of this model.
- The other programs of the repository (`try2_双视图+镜像.py`, `try3图片加载.py`). They are not part of this model.
- SpriteRig.TorsoScenario: the exact-real model puts the left shoulder at pixel x = 430, while double arithmetic gives 0.4 * 0.7 + 0.15 = 0.42999999999999994 and truncates 429.99999999999994 to 429; the torso's angle is 0 either way, because the two shoulders stay on one row.
- ImagePrep.IsImageFile: lower-cases ASCII letters only, whereas `str.lower` also folds other scripts; extensions are ASCII, so selection is unaffected for them.
- SpriteRig.TransformPart: a scale other than 1.0 is handed to the renderer's scaling function, but no call in the program uses one, so only the scale-1.0 image is pinned down.

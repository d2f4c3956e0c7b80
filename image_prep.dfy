/** The part-image preprocessing script (units/img_tf.py): it selects the image
    files of a directory listing and fits each one, keeping its aspect ratio,
    centred on a transparent 200x200 canvas. Decoding, resampling and saving
    belong to the imaging library and are passed in as per-file outcomes. */
module ImagePrep {
  import opened Wrappers
  import opened Numerics

  const TARGET_WIDTH: nat := 200
  const TARGET_HEIGHT: nat := 200

  datatype Rgba = Rgba(red: nat, green: nat, blue: nat, alpha: nat)

  /** Fully transparent black. */
  const BACKGROUND_COLOR: Rgba := Rgba(0, 0, 0, 0)

  // ---------------------------------------------------------------------------
  // Selection of the image files

  /** `str.lower` on the ASCII letters. */
  function LowerChar(c: char): char {
    if 'A' <= c <= 'Z' then (c as int + 32) as char else c
  }

  function Lower(s: string): string {
    seq(|s|, i requires 0 <= i < |s| => LowerChar(s[i]))
  }

  predicate EndsWith(s: string, suffix: string) {
    |suffix| <= |s| && s[|s| - |suffix|..] == suffix
  }

  /** Whether a file name's lower-cased form ends in .png, .jpg or .jpeg. */
  predicate IsImageFile(name: string) {
    var lower := Lower(name);
    EndsWith(lower, ".png") || EndsWith(lower, ".jpg") || EndsWith(lower, ".jpeg")
  }

  /** The image files of a listing, in listing order. */
  function SelectImageFiles(listing: seq<string>): (files: seq<string>)
    ensures |files| <= |listing|
    ensures forall f :: f in files <==> f in listing && IsImageFile(f)
  {
    if listing == [] then []
    else if IsImageFile(listing[0]) then [listing[0]] + SelectImageFiles(listing[1..])
    else SelectImageFiles(listing[1..])
  }

  /** Selection keeps the listing order: selecting from a concatenation selects
      from each part in turn. */
  lemma {:induction false} SelectImageFilesAppend(a: seq<string>, b: seq<string>)
    ensures SelectImageFiles(a + b) == SelectImageFiles(a) + SelectImageFiles(b)
  {
    if a == [] {
      assert a + b == b;
    } else {
      assert (a + b)[0] == a[0] && (a + b)[1..] == a[1..] + b;
      SelectImageFilesAppend(a[1..], b);
    }
  }

  /** Upper-casing of the ASCII letters, the inverse direction of LowerChar. */
  function UpperChar(c: char): char {
    if 'a' <= c <= 'z' then (c as int - 32) as char else c
  }

  function Upper(s: string): string {
    seq(|s|, i requires 0 <= i < |s| => UpperChar(s[i]))
  }

  /** The extension test ignores case: a name is selected exactly when its
      upper-cased form is. */
  lemma CaseIgnored(name: string)
    ensures IsImageFile(Upper(name)) == IsImageFile(name)
  {
    assert Lower(Upper(name)) == Lower(name);
  }

  /** Examples: "Body.PNG" is selected like "body.png", "arm.JpEg" like
      "arm.jpeg", and a text file is not. */
  lemma UpperCaseExtensionSelected()
    ensures IsImageFile("Body.PNG") && IsImageFile("arm.JpEg") && !IsImageFile("notes.txt")
  {
    assert Lower("Body.PNG") == "body.png";
    assert Lower("arm.JpEg") == "arm.jpeg";
    assert Lower("notes.txt") == "notes.txt";
  }

  // ---------------------------------------------------------------------------
  // Fit and centre

  /** The resized image's size and its top-left position on the canvas. */
  datatype Fit = Fit(newWidth: int, newHeight: int, left: int, top: int)

  function Min(a: real, b: real): real {
    if a <= b then a else b
  }

  /** The size of the resized image: both sides scaled by the one factor
      min(200 / width, 200 / height) and truncated. */
  function ScaledSize(width: nat, height: nat): (int, int)
    requires width > 0 && height > 0
  {
    (Trunc(width as real * FitScale(width, height)), Trunc(height as real * FitScale(width, height)))
  }

  /** Centres the resized image on the canvas by floor division: it lies inside
      the canvas, and on each axis its two margins differ by at most one pixel,
      the extra pixel going to the right or bottom margin. */
  function FitAndCentre(width: nat, height: nat): (f: Fit)
    requires width > 0 && height > 0
    ensures (f.newWidth, f.newHeight) == ScaledSize(width, height)
    ensures 0 <= f.left && f.left + f.newWidth <= TARGET_WIDTH
    ensures 0 <= f.top && f.top + f.newHeight <= TARGET_HEIGHT
    ensures 0 <= (TARGET_WIDTH - f.left - f.newWidth) - f.left <= 1
    ensures 0 <= (TARGET_HEIGHT - f.top - f.newHeight) - f.top <= 1
  {
    ScaledSizeFits(width, height);
    var (newWidth, newHeight) := ScaledSize(width, height);
    Fit(newWidth, newHeight, (TARGET_WIDTH - newWidth) / 2, (TARGET_HEIGHT - newHeight) / 2)
  }

  /** The one scale applied to both sides: min(200 / width, 200 / height). */
  function FitScale(width: nat, height: nat): real
    requires width > 0 && height > 0
  {
    Min(TARGET_WIDTH as real / width as real, TARGET_HEIGHT as real / height as real)
  }

  /** Truncating an exact quotient of naturals is integer division. */
  lemma TruncQuotient(a: nat, b: nat)
    requires b > 0
    ensures Trunc(a as real / b as real) == a / b
  {
    var q, rem := a / b, a % b;
    var x := a as real / b as real;
    assert a as real == q as real * b as real + rem as real;
    assert x == q as real + rem as real / b as real;
    assert 0.0 <= rem as real / b as real < 1.0;
  }

  /** `int(side * (200 / longest))` is `(200 * side) // longest`, which is at
      most 200 when side <= longest. */
  lemma TruncProportional(side: nat, longest: nat)
    requires 0 < longest && side <= longest
    ensures Trunc(side as real * (200.0 / longest as real)) == (200 * side) / longest
    ensures (200 * side) / longest <= 200
  {
    assert side as real * (200.0 / longest as real) == (200 * side) as real / longest as real;
    TruncQuotient(200 * side, longest);
    assert ((200 * side) / longest) * longest <= 200 * side <= 200 * longest;
  }

  /** The longer side has the smaller ratio, so it decides the scale. */
  lemma LongerSideDecides(longer: nat, shorter: nat)
    requires 0 < shorter <= longer
    ensures 200.0 / longer as real <= 200.0 / shorter as real
  {
    var l, s := longer as real, shorter as real;
    assert 200.0 / l * l == 200.0 && 200.0 / s * s == 200.0;
    assert 200.0 / l * s <= 200.0 / l * l;
  }

  /** Scaling `longer` by 200 / longer gives exactly 200. */
  lemma LongerSideBecomesTarget(longer: nat)
    requires 0 < longer
    ensures Trunc(longer as real * (200.0 / longer as real)) == 200
  {
    assert longer as real * (200.0 / longer as real) == 200.0;
  }

  /** The longer side becomes exactly 200 and the shorter side its
      proportional share, rounded down; neither exceeds the target. */
  lemma ScaledSizeFits(width: nat, height: nat)
    requires width > 0 && height > 0
    ensures var size := ScaledSize(width, height);
            (width >= height ==> size.0 == 200 && size.1 == (200 * height) / width) &&
            (height >= width ==> size.1 == 200 && size.0 == (200 * width) / height) &&
            0 <= size.0 <= TARGET_WIDTH && 0 <= size.1 <= TARGET_HEIGHT
  {
    if width >= height {
      WiderScaledSize(width, height);
    }
    if height >= width {
      TallerScaledSize(width, height);
    }
  }

  /** The case of a landscape or square image. */
  lemma WiderScaledSize(width: nat, height: nat)
    requires 0 < height <= width
    ensures ScaledSize(width, height).0 == 200 && ScaledSize(width, height).1 == (200 * height) / width
    ensures (200 * height) / width <= 200
  {
    FitScaleOfLonger(width, height);
    LongerSideBecomesTarget(width);
    TruncProportional(height, width);
  }

  /** The case of a portrait or square image. */
  lemma TallerScaledSize(width: nat, height: nat)
    requires 0 < width <= height
    ensures ScaledSize(width, height).0 == (200 * width) / height && ScaledSize(width, height).1 == 200
    ensures (200 * width) / height <= 200
  {
    FitScaleOfLonger(height, width);
    LongerSideBecomesTarget(height);
    TruncProportional(width, height);
  }

  /** Whichever order the sides come in, the scale is 200 over the longer one. */
  lemma FitScaleOfLonger(longer: nat, shorter: nat)
    requires 0 < shorter <= longer
    ensures FitScale(longer, shorter) == 200.0 / longer as real
    ensures FitScale(shorter, longer) == 200.0 / longer as real
  {
    LongerSideDecides(longer, shorter);
  }

  // ---------------------------------------------------------------------------
  // Output format

  /** The file formats the imaging library writes for the selected extensions. */
  datatype Format = Png | Jpeg

  /** Whether some character before the last `extLength` ones is not a dot: the
      path-splitting rule skips leading dots, so a name such as "..png" has no
      extension at all. */
  predicate HasStem(name: string, extLength: nat) {
    exists k :: 0 <= k < |name| - extLength && name[k] != '.'
  }

  /** The format the imaging library picks from the output name's extension,
      lower-cased; None when the name has no extension it knows. */
  function SaveFormat(name: string): Option<Format> {
    var lower := Lower(name);
    if EndsWith(lower, ".png") && HasStem(name, 4) then Some(Png)
    else if (EndsWith(lower, ".jpg") && HasStem(name, 4)) || (EndsWith(lower, ".jpeg") && HasStem(name, 5)) then
      Some(Jpeg)
    else None
  }

  /** The canvas is RGBA, which only the PNG writer accepts: the JPEG writer
      has no mode with an alpha channel, and an unknown extension is refused. */
  predicate CanWriteRgba(name: string) {
    SaveFormat(name) == Some(Png)
  }

  /** A name selected for its .jpg or .jpeg extension is never written as PNG. */
  lemma JpegNamesNotPng(name: string)
    requires EndsWith(Lower(name), ".jpg") || EndsWith(Lower(name), ".jpeg")
    ensures !CanWriteRgba(name)
  {
    var lower := Lower(name);
    if EndsWith(lower, ".jpg") {
      assert lower[|lower| - 3] == lower[|lower| - 4..][1] == 'j';
    } else {
      assert lower[|lower| - 2] == lower[|lower| - 5..][3] == 'e';
    }
  }

  // ---------------------------------------------------------------------------
  // Processing a directory

  /** What opening one file yields: its size once decoded, or a failure. */
  datatype Decoded = Decoded(width: nat, height: nat) | Undecodable

  /** The saved output: a canvas of the target size and background with the
      resized image pasted at the fit's position. */
  datatype Canvas = Canvas(width: nat, height: nat, background: Rgba, pasted: Fit)

  /** The outcome of one file: saved, or an error that was caught and reported. */
  datatype FileResult = Saved(name: string, canvas: Canvas) | Failed(name: string)

  /** A run either found no image files and stopped, or attempted each of them. */
  datatype Run = NoImages | Processed(results: seq<FileResult>)

  /** One file's try block. Opening may fail; a zero side divides by zero; a
      zero target side makes resizing fail; writing the RGBA canvas fails
      unless the output name asks for PNG; saving may fail for other reasons.
      Each of these is caught and reported as Failed. */
  function ProcessFile(name: string, decoded: Decoded, saves: bool): (r: FileResult)
    ensures r.name == name
    ensures r.Saved? <==>
              decoded.Decoded? && decoded.width > 0 && decoded.height > 0 &&
              FitAndCentre(decoded.width, decoded.height).newWidth > 0 &&
              FitAndCentre(decoded.width, decoded.height).newHeight > 0 &&
              CanWriteRgba(name) && saves
    ensures r.Saved? ==>
              decoded.Decoded? && r.canvas.pasted == FitAndCentre(decoded.width, decoded.height) &&
              r.canvas.width == TARGET_WIDTH && r.canvas.height == TARGET_HEIGHT &&
              r.canvas.background == BACKGROUND_COLOR &&
              0 <= r.canvas.pasted.left && r.canvas.pasted.left + r.canvas.pasted.newWidth <= r.canvas.width &&
              0 <= r.canvas.pasted.top && r.canvas.pasted.top + r.canvas.pasted.newHeight <= r.canvas.height
  {
    match decoded
    case Undecodable => Failed(name)
    case Decoded(width, height) =>
      if width == 0 || height == 0 then
        Failed(name)
      else
        var fit := FitAndCentre(width, height);
        if fit.newWidth == 0 || fit.newHeight == 0 || !CanWriteRgba(name) || !saves then
          Failed(name)
        else
          Saved(name, Canvas(TARGET_WIDTH, TARGET_HEIGHT, BACKGROUND_COLOR, fit))
  }

  /** Every .jpg or .jpeg file fails at the save step, whatever its content. */
  lemma JpegFilesNeverSaved(name: string, decoded: Decoded, saves: bool)
    requires EndsWith(Lower(name), ".jpg") || EndsWith(Lower(name), ".jpeg")
    ensures ProcessFile(name, decoded, saves).Failed?
  {
    JpegNamesNotPng(name);
  }

  /** A 100x50 PNG is saved as a 200x100 image centred 50 pixels from the top;
      the same image named .jpg is not saved. */
  lemma PngSavedJpegFailed()
    ensures ProcessFile("arm.png", Decoded(100, 50), true)
         == Saved("arm.png", Canvas(200, 200, BACKGROUND_COLOR, Fit(200, 100, 0, 50)))
    ensures ProcessFile("arm.jpg", Decoded(100, 50), true) == Failed("arm.jpg")
  {
    WiderScaledSize(100, 50);
    assert FitAndCentre(100, 50) == Fit(200, 100, 0, 50);
    assert Lower("arm.png") == "arm.png";
    assert HasStem("arm.png", 4) by {
      assert "arm.png"[0] != '.';
    }
    assert Lower("arm.jpg") == "arm.jpg";
    JpegFilesNeverSaved("arm.jpg", Decoded(100, 50), true);
  }

  /** Processes the image files of `listing` in order. `open` stands for
      decoding a file and `saves` for writing its output; a failure on one file
      is caught and the loop goes on with the next, so every selected file is
      attempted exactly once. */
  method ProcessImages(listing: seq<string>, open: string -> Decoded, saves: string -> bool) returns (run: Run)
    ensures SelectImageFiles(listing) == [] <==> run == NoImages
    ensures run.Processed? ==>
              var files := SelectImageFiles(listing);
              |run.results| == |files| &&
              forall i :: 0 <= i < |files| ==>
                run.results[i].name == files[i] &&
                run.results[i] == ProcessFile(files[i], open(files[i]), saves(files[i]))
  {
    var imageFiles := SelectImageFiles(listing);
    if imageFiles == [] {
      return NoImages;
    }
    var results: seq<FileResult> := [];
    for i := 0 to |imageFiles|
      invariant |results| == i
      invariant forall j :: 0 <= j < i ==>
                  results[j] == ProcessFile(imageFiles[j], open(imageFiles[j]), saves(imageFiles[j]))
    {
      var filename := imageFiles[i];
      var outcome: FileResult;
      match open(filename) {
        case Undecodable =>
          outcome := Failed(filename);
        case Decoded(width, height) =>
          if width == 0 || height == 0 {
            outcome := Failed(filename);
          } else {
            var fit := FitAndCentre(width, height);
            if fit.newWidth == 0 || fit.newHeight == 0 || !CanWriteRgba(filename) || !saves(filename) {
              outcome := Failed(filename);
            } else {
              outcome := Saved(filename, Canvas(TARGET_WIDTH, TARGET_HEIGHT, BACKGROUND_COLOR, fit));
            }
          }
      }
      assert outcome == ProcessFile(filename, open(filename), saves(filename));
      results := results + [outcome];
    }
    return Processed(results);
  }

  /** A very wide or very tall image shrinks its short side to nothing, and the
      resize step then fails for that file: a 1x201 image cannot be saved. */
  lemma ThinImageFails(name: string)
    ensures FitAndCentre(1, 201).newWidth == 0
    ensures ProcessFile(name, Decoded(1, 201), true).Failed?
  {
  }
}

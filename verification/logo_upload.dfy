/**
 * src/components/LogoUpload.jsx: the logo picker. `handleLogoUpload` clears
 * the error, then keeps an image file only when its width is between one and
 * four times its height; the remove button drops the logo.
 */
module LogoUpload {
  import opened JsCore

  const LandscapeMessage: string := "Please use a landscape oriented logo (width greater than height)"
  const ProcessingMessage: string := "Error processing image. Please try another file."

  /** The picked file: its MIME type and the data URL `FileReader` reads from it. */
  datatype PickedFile = PickedFile(fileType: string, dataUrl: string)

  /** What the browser decoded: the image's size in pixels. */
  datatype Dimensions = Dimensions(width: nat, height: nat)

  /** `width / height` as a JavaScript number. */
  datatype Ratio = Finite(value: real) | Infinite | NotANumber

  function AspectRatio(d: Dimensions): Ratio
  {
    if d.height > 0 then Finite(d.width as real / d.height as real)
    else if d.width > 0 then Infinite
    else NotANumber
  }

  /** `aspectRatio < 1 || aspectRatio > 4`; both comparisons are false for NaN. */
  predicate TooNarrowOrWide(r: Ratio)
  {
    match r
    case Finite(v) => v < 1.0 || v > 4.0
    case Infinite => true
    case NotANumber => false
  }

  /** Dividing by a positive height preserves comparisons with a bound. */
  lemma RatioBelow(w: real, h: real, k: real)
    requires h > 0.0
    ensures w / h < k <==> w < k * h
  {
    var v := w / h;
    assert v * h == w;
    if v < k {
      assert v * h < k * h;
    }
    if v >= k {
      assert v * h >= k * h;
    }
  }

  /** For an image with a height, the test accepts exactly height <= width <= 4 * height. */
  lemma AcceptedIffLandscape(d: Dimensions)
    ensures d.height > 0 ==> (!TooNarrowOrWide(AspectRatio(d)) <==> d.height <= d.width <= 4 * d.height)
  {
    if d.height > 0 {
      var w, h := d.width as real, d.height as real;
      RatioBelow(w, h, 1.0);
      RatioBelow(4.0 * h, h, 1.0);
      RatioBelow(w, h, 4.0);
      assert w / h > 4.0 <==> !(w / h < 4.0) && w / h != 4.0;
      assert w / h == 4.0 <==> w == 4.0 * h;
    }
  }

  /** A 0x0 image divides 0 by 0; NaN passes both comparisons and the image is kept. */
  lemma EmptyImageAccepted()
    ensures !TooNarrowOrWide(AspectRatio(Dimensions(0, 0)))
  {
  }

  /** A file is taken as a candidate image when its type contains "image". */
  predicate IsImageFile(file: Option<PickedFile>)
  {
    file.Some? && Contains(file.value.fileType, "image")
  }

  /** What one upload attempt does. */
  datatype UploadOutcome = Ignored | Refused(message: string) | Accepted(logo: string)

  /**
   * The decision `handleLogoUpload` takes: no file or a non-image file is
   * ignored, a file that does not decode is refused with the processing
   * message, a portrait or too wide image with the landscape message;
   * otherwise the file's data URL becomes the logo.
   */
  function Upload(file: Option<PickedFile>, decoded: Option<Dimensions>): (r: UploadOutcome)
    ensures r.Ignored? <==> !IsImageFile(file)
    ensures r.Refused? && decoded.None? ==> r.message == ProcessingMessage
    ensures r.Refused? && decoded.Some? ==> r.message == LandscapeMessage
    ensures r.Accepted? <==>
              && IsImageFile(file) && decoded.Some?
              && (decoded.value.height > 0 ==> decoded.value.height <= decoded.value.width <= 4 * decoded.value.height)
              && (decoded.value.height == 0 ==> decoded.value.width == 0)
    ensures r.Accepted? ==> r.logo == file.value.dataUrl
  {
    if !IsImageFile(file) then Ignored
    else if decoded.None? then Refused(ProcessingMessage)
    else
      AcceptedIffLandscape(decoded.value);
      if TooNarrowOrWide(AspectRatio(decoded.value)) then Refused(LandscapeMessage)
      else Accepted(file.value.dataUrl)
  }

  /** The picker's state: the logo (the parent's, reached through `setLogo`) and the error shown. */
  class LogoPicker {
    var logo: Option<string>
    var error: string

    constructor(logo: Option<string>)
      ensures this.logo == logo && error == ""
    {
      this.logo := logo;
      error := "";
    }

    /**
     * `handleLogoUpload(event)`: the error is cleared first; then a refused
     * file sets its message and leaves the logo, an accepted one replaces it.
     */
    method HandleLogoUpload(file: Option<PickedFile>, decoded: Option<Dimensions>)
      modifies this
      ensures logo == if Upload(file, decoded).Accepted? then Some(file.value.dataUrl) else old(logo)
      ensures error == if Upload(file, decoded).Refused? then Upload(file, decoded).message else ""
    {
      error := "";
      if file.Some? && Contains(file.value.fileType, "image") {
        if decoded.None? {
          error := ProcessingMessage;
        } else if TooNarrowOrWide(AspectRatio(decoded.value)) {
          error := LandscapeMessage;
        } else {
          logo := Some(file.value.dataUrl);
        }
      }
    }

    /** The remove button: no logo and no error. */
    method Remove()
      modifies this
      ensures logo == None && error == ""
    {
      logo := None;
      error := "";
    }
  }
}

/**
 * The render pipeline: the request that the editor hands to the QR renderer
 * on every change, built from a state snapshot by selecting the active
 * payload and passing the style and logo fields straight through.
 */
module RenderPipeline {
  import opened Wrappers
  import opened LogoShape
  import opened CompositionState

  datatype DotsOptions = DotsOptions(color: string, style: string)
  datatype CornersSquareOptions = CornersSquareOptions(style: string)
  datatype BackgroundOptions = BackgroundOptions(color: string)
  datatype ImageOptions = ImageOptions(margin: nat, imageSize: string, crossOrigin: string)

  /** The argument of `qrCode.update`: a complete configuration, never a partial one. */
  datatype RenderRequest = RenderRequest(
    data: string,
    image: Option<ShapedLogo>,
    dotsOptions: DotsOptions,
    cornersSquareOptions: CornersSquareOptions,
    backgroundOptions: BackgroundOptions,
    imageOptions: ImageOptions)

  /** The fixed gap, in pixels, between the logo and the surrounding modules. */
  const ImageMargin: nat := 6

  /** The payload slot of each content kind. */
  function Payloads(s: State): map<string, string>
  {
    map["text" := s.text, "image" := s.imageQR, "audio" := s.audioQR, "video" := s.videoQR]
  }

  /** The string to encode: the active kind's payload, or "" for a kind without a slot. */
  function ActiveData(s: State): (data: string)
    ensures data != "" ==> s.qrType in {"text", "image", "audio", "video"}
  {
    if s.qrType in Payloads(s) then Payloads(s)[s.qrType] else ""
  }

  /** The update effect's `let data = ""` followed by one `if` per kind. */
  method ComputeData(s: State) returns (data: string)
    ensures data == ActiveData(s)
  {
    data := "";
    if s.qrType == "text" { data := s.text; }
    if s.qrType == "image" { data := s.imageQR; }
    if s.qrType == "audio" { data := s.audioQR; }
    if s.qrType == "video" { data := s.videoQR; }
  }

  /** The request built from a snapshot. */
  function Request(s: State): RenderRequest
  {
    RenderRequest(
      ActiveData(s),
      s.logo,
      DotsOptions(s.fgColor, s.dotStyle),
      CornersSquareOptions(s.eyeStyle),
      BackgroundOptions(s.bgColor),
      ImageOptions(ImageMargin, s.logoSize, "anonymous"))
  }

  /**
   * Data selection: each of the four kinds encodes its own slot, an empty
   * active slot encodes "", and any other kind encodes "".
   */
  lemma DataSelection(s: State)
    ensures s.qrType == "text" ==> Request(s).data == s.text
    ensures s.qrType == "image" ==> Request(s).data == s.imageQR
    ensures s.qrType == "audio" ==> Request(s).data == s.audioQR
    ensures s.qrType == "video" ==> Request(s).data == s.videoQR
    ensures s.qrType !in {"text", "image", "audio", "video"} ==> Request(s).data == ""
    ensures s.qrType in Payloads(s) && Payloads(s)[s.qrType] == "" ==> Request(s).data == ""
  {
  }

  /** The logo, the style fields and the logo size reach the renderer unchanged, with a margin of 6. */
  lemma RequestPassThrough(s: State)
    ensures Request(s).image == s.logo
    ensures Request(s).dotsOptions == DotsOptions(s.fgColor, s.dotStyle)
    ensures Request(s).cornersSquareOptions == CornersSquareOptions(s.eyeStyle)
    ensures Request(s).backgroundOptions == BackgroundOptions(s.bgColor)
    ensures Request(s).imageOptions == ImageOptions(ImageMargin, s.logoSize, "anonymous")
  {
  }

  /**
   * Two snapshots give the same request exactly when they agree on the
   * selected data, the logo, the four style fields and the logo size: the
   * request ignores the inactive slots, the raw logo file and the shape, and
   * loses none of the fields it carries.
   */
  lemma RequestEqualIff(s: State, t: State)
    ensures Request(s) == Request(t) <==>
      ActiveData(s) == ActiveData(t) && s.logo == t.logo &&
      s.fgColor == t.fgColor && s.bgColor == t.bgColor &&
      s.dotStyle == t.dotStyle && s.eyeStyle == t.eyeStyle && s.logoSize == t.logoSize
  {
  }

  /**
   * Switching the kind touches no payload slot, so switching away and back
   * gives the earlier request again without any upload.
   */
  lemma KindSwitchKeepsPayloads(s: State, other: string)
    ensures Payloads(s.(qrType := other)) == Payloads(s)
    ensures Request(s.(qrType := other).(qrType := s.qrType)) == Request(s)
    ensures other in Payloads(s) ==> Request(s.(qrType := other)).data == Payloads(s)[other]
  {
  }

  /**
   * A committed upload shows up in the request only when its slot belongs to
   * the active kind; an upload for another kind leaves the request as it was.
   */
  lemma UploadReachesRequestIff(s: State, slot: UploadSlot, url: Option<string>)
    ensures s.qrType == KindOf(slot) && Truthy(url) ==> Request(CommitUpload(s, slot, url)).data == url.value
    ensures s.qrType != KindOf(slot) || !Truthy(url) ==> Request(CommitUpload(s, slot, url)) == Request(s)
  {
  }

  /**
   * The module-level QR renderer, created once with a 300 x 300 size, empty
   * data and error correction level "H"; `update` replaces its configuration.
   */
  class QrCode {
    const width: nat
    const height: nat
    const errorCorrectionLevel: string
    var current: Option<RenderRequest>

    constructor ()
      ensures width == 300 && height == 300 && errorCorrectionLevel == "H"
      ensures current == None
    {
      width, height, errorCorrectionLevel := 300, 300, "H";
      current := None;
    }

    /** `qrCode.update(request)`: the renderer now shows exactly this request. */
    method Update(request: RenderRequest)
      modifies this
      ensures current == Some(request)
    {
      current := Some(request);
    }
  }
}

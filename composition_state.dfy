/**
 * The editor's composition state as a value: the active content kind with one
 * payload slot per kind, the style fields and the logo slots, together with
 * the state transitions that the upload and logo handlers perform.
 */
module CompositionState {
  import opened Wrappers
  import opened Browser
  import opened LogoShape
  import opened UploadPath

  /**
   * One snapshot of the component's state slots. Kinds, shapes and style
   * values are the strings the form controls deliver; `logoSize` is the
   * slider's value, passed through untouched.
   */
  datatype State = State(
    qrType: string,
    text: string,
    imageQR: string,
    audioQR: string,
    videoQR: string,
    fgColor: string,
    bgColor: string,
    dotStyle: string,
    eyeStyle: string,
    logo: Option<ShapedLogo>,
    logoFile: Option<File>,
    logoShape: string,
    logoSize: string)

  /** The state of a freshly mounted editor. */
  const Initial: State := State(
    "text", "https://google.com", "", "", "",
    "#000000", "#ffffff", "rounded", "rounded",
    None, None, "square", "0.3")

  /** The three payload slots that an upload fills. */
  datatype UploadSlot = ImageSlot | AudioSlot | VideoSlot

  /** The content kind whose payload the slot holds. */
  function KindOf(slot: UploadSlot): string
  {
    match slot
    case ImageSlot => "image"
    case AudioSlot => "audio"
    case VideoSlot => "video"
  }

  /** The storage folder an upload for the slot goes to. */
  function FolderOf(slot: UploadSlot): string
  {
    match slot
    case ImageSlot => "images"
    case AudioSlot => "audio"
    case VideoSlot => "videos"
  }

  /**
   * Uploads for different slots go to different folders, so their storage
   * keys never coincide, whatever their times and file names.
   */
  lemma FoldersKeepSlotsApart(a: UploadSlot, b: UploadSlot, t1: nat, name1: string, t2: nat, name2: string)
    requires a != b
    ensures StoragePath(FolderOf(a), t1, name1) != StoragePath(FolderOf(b), t2, name2)
  {
    assert StoragePath(FolderOf(a), t1, name1)[0] == FolderOf(a)[0];
    assert StoragePath(FolderOf(b), t2, name2)[0] == FolderOf(b)[0];
  }

  /** The current value of an upload slot. */
  function SlotValue(s: State, slot: UploadSlot): string
  {
    match slot
    case ImageSlot => s.imageQR
    case AudioSlot => s.audioQR
    case VideoSlot => s.videoQR
  }

  /** JavaScript truthiness of a URL-or-null: null and the empty string are false. */
  predicate Truthy(url: Option<string>)
  {
    url.Some? && url.value != ""
  }

  /**
   * `if (url) setImageQR(url)` and its audio and video siblings: a truthy URL
   * replaces its own slot and nothing else; any other outcome changes nothing.
   */
  function CommitUpload(s: State, slot: UploadSlot, url: Option<string>): (r: State)
    ensures SlotValue(r, slot) == if Truthy(url) then url.value else SlotValue(s, slot)
    ensures forall other :: other != slot ==> SlotValue(r, other) == SlotValue(s, other)
    ensures r.(imageQR := s.imageQR, audioQR := s.audioQR, videoQR := s.videoQR) == s
    ensures !Truthy(url) ==> r == s
  {
    if !Truthy(url) then s
    else
      match slot
      case ImageSlot => s.(imageQR := url.value)
      case AudioSlot => s.(audioQR := url.value)
      case VideoSlot => s.(videoQR := url.value)
  }

  /**
   * `handleLogoUpload`: the picked file is stored first; once it has loaded
   * (`decodes`) the logo becomes that file shaped with the current shape.
   * With no file picked the raw slot is cleared and `processLogo` throws at
   * `URL.createObjectURL`, so the logo is never set; an image that never
   * loads leaves the old logo in place as well.
   */
  function UploadLogo(s: State, file: Option<File>, decodes: bool): State
  {
    var stored := s.(logoFile := file);
    if file.Some? && decodes then stored.(logo := Some(Shaped(file.value, s.logoShape))) else stored
  }

  /**
   * Choosing a shape, followed by the effect that depends on `logoShape`: when
   * the shape actually changes and a raw file is stored, the logo is reshaped
   * from that stored file once it has loaded.
   */
  function Reshape(s: State, shape: string, decodes: bool): State
  {
    var chosen := s.(logoShape := shape);
    if shape != s.logoShape && s.logoFile.Some? && decodes
    then chosen.(logo := Some(Shaped(s.logoFile.value, shape)))
    else chosen
  }

  /** The shaped logo is the cache of the stored raw file under the current shape. */
  predicate LogoCached(s: State)
  {
    s.logo.Some? ==> s.logoFile.Some? && s.logo.value == Shaped(s.logoFile.value, s.logoShape)
  }

  /**
   * A logo upload stores the raw file, and once the image loads shows it
   * shaped with the shape chosen at that moment; nothing but the two logo
   * slots changes.
   */
  lemma UploadLogoStoresThenShapes(s: State, f: File, decodes: bool)
    ensures UploadLogo(s, Some(f), decodes).logoFile == Some(f)
    ensures decodes ==> UploadLogo(s, Some(f), decodes).logo == Some(Shaped(f, s.logoShape))
    ensures !decodes ==> UploadLogo(s, Some(f), decodes).logo == s.logo
    ensures UploadLogo(s, Some(f), decodes).(logo := s.logo, logoFile := s.logoFile) == s
  {
  }

  /**
   * Reshaping never asks for a new file. The shape slot always takes the
   * chosen shape and only the logo slot may change besides. With a stored
   * raw file, a new shape and a loaded image the logo is recomputed from that
   * same file. An unchanged shape (the effect does not fire) or an image that
   * never loads leaves the logo as it was, and without a stored file only
   * the shape slot changes.
   */
  lemma ReshapeReusesStoredFile(s: State, shape: string, decodes: bool)
    ensures Reshape(s, shape, decodes).logoShape == shape
    ensures Reshape(s, shape, decodes).(logo := s.logo, logoShape := s.logoShape) == s
    ensures decodes && s.logoFile.Some? && shape != s.logoShape ==>
      Reshape(s, shape, decodes).logo == Some(Shaped(s.logoFile.value, shape)) &&
      Reshape(s, shape, decodes).logo.value.source == s.logoFile.value
    ensures shape == s.logoShape || !decodes ==> Reshape(s, shape, decodes).logo == s.logo
    ensures s.logoFile.None? ==> Reshape(s, shape, decodes) == s.(logoShape := shape)
  {
  }

  /**
   * When every picked image loads, the logo stays the cache of the stored
   * file under the current shape: the mount state has no logo, and uploads,
   * reshapes and committed content uploads keep the relation.
   */
  lemma LogoCacheKept(s: State, f: File, shape: string, slot: UploadSlot, url: Option<string>)
    ensures LogoCached(Initial)
    ensures LogoCached(s) ==> LogoCached(UploadLogo(s, Some(f), true))
    ensures LogoCached(s) ==> LogoCached(Reshape(s, shape, true))
    ensures LogoCached(s) ==> LogoCached(CommitUpload(s, slot, url))
  {
  }

  /**
   * Cancelling the file picker clears the raw slot and nothing else, so a
   * logo set earlier stays, and every later shape change leaves that logo as
   * it was. For example, a square logo of `f` stays square after a change to
   * "circle", and is then no longer the cache of the stored file.
   */
  lemma CancelledPickerKeepsStaleLogo(s: State, decodes: bool, shape: string, later: bool, f: File)
    ensures UploadLogo(s, None, decodes) == s.(logoFile := None)
    ensures Reshape(UploadLogo(s, None, decodes), shape, later).logo == s.logo
    ensures var t := Initial.(logo := Some(Shaped(f, "square")), logoFile := Some(f));
      LogoCached(t) &&
      !LogoCached(UploadLogo(t, None, true)) &&
      Reshape(UploadLogo(t, None, true), "circle", true).logo == Some(Shaped(f, "square"))
  {
  }
}

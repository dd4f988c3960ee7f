/**
 * The editor component: its state slots as fields that the setters overwrite
 * one at a time, the update effect that hands the request for the current
 * state to the module-level renderer, and the upload and logo handlers. The
 * renderer is kept in step with the state by every operation (`Synced`).
 */
module Editor {
  import opened Wrappers
  import opened Browser
  import opened UploadPath
  import opened LogoShape
  import opened CompositionState
  import opened RenderPipeline

  class QrEditor {
    var qrType: string
    var text: string
    var imageQR: string
    var audioQR: string
    var videoQR: string
    var fgColor: string
    var bgColor: string
    var dotStyle: string
    var eyeStyle: string
    var logo: Option<ShapedLogo>
    var logoFile: Option<File>
    var logoShape: string
    var logoSize: string

    /** The renderer the component draws into. */
    const qr: QrCode

    /** The current values of all state slots. */
    function Snapshot(): State
      reads this
    {
      State(qrType, text, imageQR, audioQR, videoQR, fgColor, bgColor, dotStyle, eyeStyle,
            logo, logoFile, logoShape, logoSize)
    }

    /** The renderer shows the request for the current state. */
    ghost predicate Synced()
      reads this, qr
    {
      qr.current == Some(Request(Snapshot()))
    }

    /** Mounting: every slot takes its initial value and the update effect runs once. */
    constructor (qr: QrCode)
      modifies qr
      ensures this.qr == qr
      ensures Snapshot() == Initial
      ensures Synced()
    {
      qrType, text, imageQR, audioQR, videoQR := "text", "https://google.com", "", "", "";
      fgColor, bgColor, dotStyle, eyeStyle := "#000000", "#ffffff", "rounded", "rounded";
      logo, logoFile, logoShape, logoSize := None, None, "square", "0.3";
      this.qr := qr;
      new;
      Render();
    }

    /** The update effect: select the data, then hand the full request to the renderer. */
    method Render()
      modifies qr
      ensures Synced()
    {
      var data := ComputeData(Snapshot());
      qr.Update(RenderRequest(
        data,
        logo,
        DotsOptions(fgColor, dotStyle),
        CornersSquareOptions(eyeStyle),
        BackgroundOptions(bgColor),
        ImageOptions(ImageMargin, logoSize, "anonymous")));
    }

    /** Choosing a content kind; no payload slot is touched. */
    method SetQrType(kind: string)
      requires Synced()
      modifies this, qr
      ensures Snapshot() == old(Snapshot()).(qrType := kind)
      ensures Synced()
    {
      qrType := kind;
      Render();
    }

    /** Editing the text payload. */
    method SetText(value: string)
      requires Synced()
      modifies this, qr
      ensures Snapshot() == old(Snapshot()).(text := value)
      ensures Synced()
    {
      text := value;
      Render();
    }

    /** Picking the foreground colour. */
    method SetFgColor(value: string)
      requires Synced()
      modifies this, qr
      ensures Snapshot() == old(Snapshot()).(fgColor := value)
      ensures Synced()
    {
      fgColor := value;
      Render();
    }

    /** Picking the background colour. */
    method SetBgColor(value: string)
      requires Synced()
      modifies this, qr
      ensures Snapshot() == old(Snapshot()).(bgColor := value)
      ensures Synced()
    {
      bgColor := value;
      Render();
    }

    /** Choosing the dot style. */
    method SetDotStyle(value: string)
      requires Synced()
      modifies this, qr
      ensures Snapshot() == old(Snapshot()).(dotStyle := value)
      ensures Synced()
    {
      dotStyle := value;
      Render();
    }

    /** Choosing the corner (eye) style. */
    method SetEyeStyle(value: string)
      requires Synced()
      modifies this, qr
      ensures Snapshot() == old(Snapshot()).(eyeStyle := value)
      ensures Synced()
    {
      eyeStyle := value;
      Render();
    }

    /** Moving the logo-size slider; its value is stored as delivered. */
    method SetLogoSize(value: string)
      requires Synced()
      modifies this, qr
      ensures Snapshot() == old(Snapshot()).(logoSize := value)
      ensures Synced()
    {
      logoSize := value;
      Render();
    }

    /** Writes a truthy upload URL into its slot and re-renders; anything else changes nothing. */
    method Commit(slot: UploadSlot, url: Option<string>)
      requires Synced()
      modifies this, qr
      ensures Snapshot() == CommitUpload(old(Snapshot()), slot, url)
      ensures Synced()
    {
      if Truthy(url) {
        match slot {
          case ImageSlot => imageQR := url.value;
          case AudioSlot => audioQR := url.value;
          case VideoSlot => videoQR := url.value;
        }
        Render();
      }
    }

    /** `handleImageQRUpload`: upload to "images" at clock reading `now`, then commit. */
    method HandleImageQRUpload(file: Option<File>, now: nat,
                               accepts: (string, File) -> bool, publicUrl: string -> string)
      requires Synced()
      modifies this, qr
      ensures Snapshot() == CommitUpload(old(Snapshot()), ImageSlot,
                                         UploadToSupabase(file, "images", now, accepts, publicUrl))
      ensures Synced()
    {
      var url := UploadToSupabase(file, FolderOf(ImageSlot), now, accepts, publicUrl);
      Commit(ImageSlot, url);
    }

    /** `handleAudioQRUpload`: upload to "audio" at clock reading `now`, then commit. */
    method HandleAudioQRUpload(file: Option<File>, now: nat,
                               accepts: (string, File) -> bool, publicUrl: string -> string)
      requires Synced()
      modifies this, qr
      ensures Snapshot() == CommitUpload(old(Snapshot()), AudioSlot,
                                         UploadToSupabase(file, "audio", now, accepts, publicUrl))
      ensures Synced()
    {
      var url := UploadToSupabase(file, FolderOf(AudioSlot), now, accepts, publicUrl);
      Commit(AudioSlot, url);
    }

    /** `handleVideoQRUpload`: upload to "videos" at clock reading `now`, then commit. */
    method HandleVideoQRUpload(file: Option<File>, now: nat,
                               accepts: (string, File) -> bool, publicUrl: string -> string)
      requires Synced()
      modifies this, qr
      ensures Snapshot() == CommitUpload(old(Snapshot()), VideoSlot,
                                         UploadToSupabase(file, "videos", now, accepts, publicUrl))
      ensures Synced()
    {
      var url := UploadToSupabase(file, FolderOf(VideoSlot), now, accepts, publicUrl);
      Commit(VideoSlot, url);
    }

    /**
     * `handleLogoUpload`: store the picked file, then, once the image has
     * loaded, store the logo shaped with the current shape and re-render.
     * The raw file is not part of the request, so storing it alone leaves
     * the renderer as it was.
     */
    method HandleLogoUpload(file: Option<File>, decodes: bool)
      requires Synced()
      modifies this, qr
      ensures Snapshot() == UploadLogo(old(Snapshot()), file, decodes)
      ensures Synced()
    {
      logoFile := file;
      if file.Some? && decodes {
        var png := ProcessLogo(file.value, logoShape);
        logo := Some(png);
        Render();
      }
    }

    /**
     * Choosing a logo shape, then the effect on `logoShape`: when the shape
     * changed and a raw file is stored, reshape that file and re-render.
     */
    method SetLogoShape(shape: string, decodes: bool)
      requires Synced()
      modifies this, qr
      ensures Snapshot() == Reshape(old(Snapshot()), shape, decodes)
      ensures Synced()
    {
      var changed := shape != logoShape;
      logoShape := shape;
      if changed && logoFile.Some? && decodes {
        var png := ProcessLogo(logoFile.value, shape);
        logo := Some(png);
        Render();
      }
    }
  }
}

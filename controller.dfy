/**
 * The `QRCodeGenerator` controller: the widget variables and the held image
 * as fields, and the four button handlers as methods that update them step
 * by step, with the early returns the handlers use as guards. Each handler
 * is proved to leave exactly the state `Session` describes for it.
 */
module Controller {
  import opened Wrappers
  import opened Text
  import opened Session
  import Url

  class QRCodeGenerator {
    var url: string
    var size: int
    var level: string
    var fill: string
    var back: string
    var image: Option<Drawing>
    var saveEnabled: bool
    var copyEnabled: bool
    var status: string

    /** The session these fields hold. */
    function State(): Session.State
      reads this
    {
      Session.State(url, Options(size, level, fill, back), image, saveEnabled, copyEnabled, status)
    }

    /** The window as it opens: empty field, default options, no image, buttons disabled, "Ready". */
    constructor ()
      ensures State() == Initial()
      ensures Consistent(State()) && Invariant(State())
    {
      image := None;
      url := "";
      size := 10;
      level := "H";
      fill := "black";
      back := "white";
      saveEnabled := false;
      copyEnabled := false;
      status := "Ready";
    }

    /** The entry widget writing the field. */
    method EnterUrl(text: string)
      modifies this
      ensures State() == old(State()).(url := text)
    {
      url := text;
    }

    /** The option widgets writing their variables. */
    method ChooseOptions(o: Options)
      modifies this
      ensures State() == old(State()).(options := o)
    {
      size, level, fill, back := o.size, o.level, o.fill, o.back;
    }

    /**
     * `generate_qr_code`, with `outcome` standing for how the encoder and the
     * preview went. The field's text is cleaned as `Url.Normalize` describes
     * (strip, refuse a blank field, put `https://` in front when no scheme is
     * there), and the field is written back only when the scheme was added.
     * Returns the message box shown and the request made to the encoder.
     */
    method GenerateQrCode(outcome: EncodeOutcome) returns (notice: Option<Notice>, effect: Effect)
      modifies this
      ensures Step(State(), notice, effect) == GenerateStep(old(State()), outcome)
    {
      var n := Url.Normalize(url);
      if n.Blank? {
        GenerateBlankChangesNothing(State(), outcome);
        notice, effect := Some(ErrorNotice(NoUrlMessage)), NoEffect;
      } else {
        GenerateUnfolds(State(), outcome);
        if n.prefixed {
          url := n.url;
        }
        notice, effect := Render(n.url, outcome);
      }
    }

    /**
     * The `try` block of `generate_qr_code`, entered with the cleaned URL `u`
     * already written back to the field.
     */
    method Render(u: string, outcome: EncodeOutcome) returns (notice: Option<Notice>, effect: Effect)
      modifies this
      ensures Step(State(), notice, effect) == EncodeStep(old(State()), u, outcome)
    {
      status := Generating;
      var correction := CorrectionFor(level);
      if correction.None? {
        notice := Some(ErrorNotice(GenerateFailure + "'" + level + "'"));
        status := GenerateError;
        effect := NoEffect;
        return;
      }
      var d := Drawing(u, correction.value, size, Border, fill, back);
      effect := Encode(d);
      match outcome {
        case EncodeFailed(reason) =>
          notice := Some(ErrorNotice(GenerateFailure + reason));
          status := GenerateError;
        case DisplayFailed(reason) =>
          image := Some(d);
          notice := Some(ErrorNotice(GenerateFailure + reason));
          status := GenerateError;
        case Encoded =>
          image := Some(d);
          saveEnabled := true;
          copyEnabled := true;
          status := GeneratedPrefix + u;
          notice := None;
      }
    }

    /**
     * `save_image`: `path` is what the save dialog returned (empty when it
     * was cancelled) and `write` how writing the file went.
     */
    method SaveImage(path: string, write: WriteOutcome) returns (notice: Option<Notice>, effect: Effect)
      modifies this
      ensures var st := SaveStep(old(State()), path, write);
        State() == st.after && notice == st.notice && effect == st.effect
      ensures old(State()).(status := status) == State()
    {
      if image.None? {
        notice, effect := Some(ErrorNotice(NoImageToSave)), NoEffect;
        return;
      }
      if path == [] {
        notice, effect := None, NoEffect;
        return;
      }
      effect := WriteFile(path, image.value);
      match write {
        case Written =>
          status := SavedPrefix + Basename(path);
          notice := Some(Notice(InfoBox, "Success", SavedMessage + path));
        case WriteFailed(reason) =>
          notice := Some(ErrorNotice(SaveFailure + reason));
          status := SaveError;
      }
    }

    /** `copy_to_clipboard`, with `clip` standing for how the platform's clipboard call went. */
    method CopyToClipboard(clip: ClipboardOutcome) returns (notice: Option<Notice>, effect: Effect)
      modifies this
      ensures var st := CopyStep(old(State()), clip);
        State() == st.after && notice == st.notice && effect == st.effect
      ensures old(State()).(status := status) == State()
    {
      if image.None? {
        notice, effect := Some(ErrorNotice(NoImageToCopy)), NoEffect;
        return;
      }
      effect := ToClipboard(image.value);
      match clip {
        case Copied =>
          status := CopiedStatus;
          notice := None;
        case ToolMissing =>
          notice := Some(Notice(InfoBox, "Info", NoClipboardTool));
        case CopyFailed(reason) =>
          notice := Some(ErrorNotice(CopyFailure + reason));
          status := CopyError;
      }
    }

    /** `clear`: back to the opening session, options kept. */
    method Clear()
      modifies this
      ensures State() == ClearStep(old(State())).after
      ensures State() == Initial().(options := old(State()).options)
    {
      url := "";
      image := None;
      saveEnabled := false;
      copyEnabled := false;
      status := Ready;
    }
  }

  /**
   * A client: a bare host name such as "example.com" or "httpbin.org" driven through the
   * handlers. Generate rewrites the field and enables both buttons, a
   * cancelled save dialog does nothing, and Clear restores the opening window.
   */
  method Scenario(host: string)
    requires Tight(host) && host != [] && !Url.HasScheme(host)
  {
    var app := new QRCodeGenerator();
    app.EnterUrl(host);
    var notice, effect := app.GenerateQrCode(Encoded);
    HostScenario(host);
    assert app.saveEnabled && app.copyEnabled && app.url == Url.Secure + host;
    notice, effect := app.SaveImage("", Written);
    assert notice.None? && effect.NoEffect?;
    app.Clear();
    assert app.State() == Initial();
  }
}

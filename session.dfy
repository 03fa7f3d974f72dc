/**
 * The controller's session as a value: the URL field, the chosen options,
 * the image held, the enabled flags of the Save ("Download Image") and
 * Copy buttons, and the status line, with one step function per handler.
 * The encoder, the save dialog, the file write and the clipboard are outcome
 * parameters; each step also reports the dialog box it shows and the
 * external call it makes.
 */
module Session {
  import opened Wrappers
  import opened Text
  import Url

  /** The encoder's four redundancy tiers (7%, 15%, 25%, 30%). */
  datatype Correction = CorrectL | CorrectM | CorrectQ | CorrectH

  /**
   * What the encoder is asked to draw. It stands for the image it returns:
   * the pixels are the encoding library's business, not this program's.
   */
  datatype Drawing = Drawing(data: string, correction: Correction, boxSize: int, border: int, fill: string, back: string)

  /** The option widgets' variables: size slider, level radio buttons, two colour lists. */
  datatype Options = Options(size: int, level: string, fill: string, back: string)

  datatype State = State(
    url: string,
    options: Options,
    image: Option<Drawing>,
    saveEnabled: bool,
    copyEnabled: bool,
    status: string)

  datatype NoticeKind = ErrorBox | InfoBox

  /** A modal message box: kind, title and text. */
  datatype Notice = Notice(kind: NoticeKind, title: string, text: string)

  /** The call a step makes to a collaborator, if any. */
  datatype Effect = NoEffect | Encode(request: Drawing) | WriteFile(path: string, image: Drawing) | ToClipboard(image: Drawing)

  datatype Step = Step(after: State, notice: Option<Notice>, effect: Effect)

  /** How the encoding and the preview went: fine, failed inside the encoder, or failed while displaying. */
  datatype EncodeOutcome = Encoded | EncodeFailed(reason: string) | DisplayFailed(reason: string)

  datatype WriteOutcome = Written | WriteFailed(reason: string)

  /** How the platform clipboard call went; `ToolMissing` is the Linux branch without xclip. */
  datatype ClipboardOutcome = Copied | ToolMissing | CopyFailed(reason: string)

  const Border: int := 4
  const Ready: string := "Ready"
  const Generating: string := "Generating QR code..."
  const GenerateError: string := "Error generating QR code"
  const GeneratedPrefix: string := "QR code generated for: "
  const SavedPrefix: string := "QR code saved to: "
  const SaveError: string := "Error saving QR code"
  const CopiedStatus: string := "QR code copied to clipboard"
  const CopyError: string := "Error copying to clipboard"

  // The texts of the message boxes.
  const NoUrlMessage: string := "Please enter a URL"
  const GenerateFailure: string := "Failed to generate QR code: "
  const NoImageToSave: string := "No QR code to save"
  const NoImageToCopy: string := "No QR code to copy"
  const SavedMessage: string := "QR code saved successfully to:\n"
  const SaveFailure: string := "Failed to save QR code: "
  const NoClipboardTool: string := "Clipboard functionality requires xclip on Linux systems."
  const CopyFailure: string := "Failed to copy to clipboard: "

  const Levels: seq<string> := ["L", "M", "Q", "H"]
  const FillColors: seq<string> := ["black", "darkblue", "darkgreen", "darkred", "purple"]
  const BackColors: seq<string> := ["white", "lightgray", "lightblue", "lightyellow"]
  const MinSize: int := 5
  const MaxSize: int := 15

  function DefaultOptions(): Options {
    Options(10, "H", "black", "white")
  }

  /** The session as the window opens. */
  function Initial(): State {
    State("", DefaultOptions(), None, false, false, Ready)
  }

  /**
   * The level-to-constant dictionary; a key outside it raises `KeyError`,
   * modelled as `None`.
   */
  function CorrectionFor(level: string): (r: Option<Correction>)
    ensures r.Some? <==> level in Levels
    ensures level == "L" ==> r == Some(CorrectL)
    ensures level == "M" ==> r == Some(CorrectM)
    ensures level == "Q" ==> r == Some(CorrectQ)
    ensures level == "H" ==> r == Some(CorrectH)
  {
    if level == "L" then Some(CorrectL)
    else if level == "M" then Some(CorrectM)
    else if level == "Q" then Some(CorrectQ)
    else if level == "H" then Some(CorrectH)
    else None
  }

  function ErrorNotice(text: string): Notice {
    Notice(ErrorBox, "Error", text)
  }

  /** `generate_qr_code`: normalise the field, rewrite it if a scheme was added, then encode. */
  function GenerateStep(s: State, outcome: EncodeOutcome): Step {
    match Url.Normalize(s.url)
    case Blank => Step(s, Some(ErrorNotice(NoUrlMessage)), NoEffect)
    case Cleaned(u, prefixed) => EncodeStep(if prefixed then s.(url := u) else s, u, outcome)
  }

  /** The `try` block of `generate_qr_code`, run on the session `s` with the normalised URL `u`. */
  function EncodeStep(s: State, u: string, outcome: EncodeOutcome): Step {
    match CorrectionFor(s.options.level)
    case None =>
      Step(s.(status := GenerateError),
           Some(ErrorNotice(GenerateFailure + "'" + s.options.level + "'")), NoEffect)
    case Some(c) =>
      var d := Drawing(u, c, s.options.size, Border, s.options.fill, s.options.back);
      match outcome
      case Encoded =>
        Step(s.(image := Some(d), saveEnabled := true, copyEnabled := true, status := GeneratedPrefix + u),
             None, Encode(d))
      case EncodeFailed(reason) =>
        Step(s.(status := GenerateError), Some(ErrorNotice(GenerateFailure + reason)), Encode(d))
      case DisplayFailed(reason) =>
        Step(s.(image := Some(d), status := GenerateError),
             Some(ErrorNotice(GenerateFailure + reason)), Encode(d))
  }

  /** `save_image`; `path` is what the dialog returned, empty when it was cancelled. */
  function SaveStep(s: State, path: string, write: WriteOutcome): Step {
    match s.image
    case None => Step(s, Some(ErrorNotice(NoImageToSave)), NoEffect)
    case Some(img) =>
      if path == [] then Step(s, None, NoEffect)
      else
        match write
        case Written =>
          Step(s.(status := SavedPrefix + Basename(path)),
               Some(Notice(InfoBox, "Success", SavedMessage + path)), WriteFile(path, img))
        case WriteFailed(reason) =>
          Step(s.(status := SaveError), Some(ErrorNotice(SaveFailure + reason)), WriteFile(path, img))
  }

  /** `copy_to_clipboard`. */
  function CopyStep(s: State, clip: ClipboardOutcome): Step {
    match s.image
    case None => Step(s, Some(ErrorNotice(NoImageToCopy)), NoEffect)
    case Some(img) =>
      match clip
      case Copied => Step(s.(status := CopiedStatus), None, ToClipboard(img))
      case ToolMissing =>
        Step(s, Some(Notice(InfoBox, "Info", NoClipboardTool)), ToClipboard(img))
      case CopyFailed(reason) =>
        Step(s.(status := CopyError), Some(ErrorNotice(CopyFailure + reason)), ToClipboard(img))
  }

  /** `clear`. */
  function ClearStep(s: State): Step {
    Step(s.(url := "", image := None, saveEnabled := false, copyEnabled := false, status := Ready), None, NoEffect)
  }

  // ---------------------------------------------------------------------
  // Invariants

  /** The two buttons are switched together. */
  predicate ButtonsAgree(s: State) {
    s.saveEnabled == s.copyEnabled
  }

  /** Save and Copy are enabled exactly when an image is held. */
  predicate Consistent(s: State) {
    ButtonsAgree(s) && (s.image.Some? <==> s.saveEnabled)
  }

  /** The options hold only values the widgets can produce. */
  predicate OptionsAllowed(o: Options) {
    MinSize <= o.size <= MaxSize && o.level in Levels && o.fill in FillColors && o.back in BackColors
  }

  lemma InitialState()
    ensures Consistent(Initial()) && OptionsAllowed(Initial().options)
    ensures Initial().image.None? && !Initial().saveEnabled && !Initial().copyEnabled
    ensures Initial().status == "Ready" && Initial().url == ""
    ensures Initial().options == Options(10, "H", "black", "white")
  {
  }

  // ---------------------------------------------------------------------
  // Properties of the steps

  /** A blank field: error box, no encoder call, nothing changes. */
  lemma GenerateBlankChangesNothing(s: State, outcome: EncodeOutcome)
    requires AllSpace(s.url)
    ensures GenerateStep(s, outcome) == Step(s, Some(ErrorNotice(NoUrlMessage)), NoEffect)
  {
  }

  /** A field that is not blank goes on to the encode stage with the cleaned URL. */
  lemma GenerateUnfolds(s: State, outcome: EncodeOutcome)
    requires !AllSpace(s.url)
    ensures var n := Url.Normalize(s.url);
      n.Cleaned? && GenerateStep(s, outcome) == EncodeStep(if n.prefixed then s.(url := n.url) else s, n.url, outcome)
  {
  }

  /**
   * Whatever the encoder does, Generate on a non-blank field leaves the field
   * as the cleaned URL when a scheme was added and as typed otherwise.
   */
  lemma GenerateFieldAsTyped(s: State, outcome: EncodeOutcome)
    requires !AllSpace(s.url)
    ensures var n := Url.Normalize(s.url);
      GenerateStep(s, outcome).after.url == if n.prefixed then n.url else s.url
  {
    GenerateUnfolds(s, outcome);
    var n := Url.Normalize(s.url);
    EncodeKeepsFieldAndOptions(if n.prefixed then s.(url := n.url) else s, n.url, outcome);
  }

  /** The encode stage leaves the field and the options alone. */
  lemma EncodeKeepsFieldAndOptions(s: State, u: string, outcome: EncodeOutcome)
    ensures EncodeStep(s, u, outcome).after.url == s.url
    ensures EncodeStep(s, u, outcome).after.options == s.options
  {
  }

  lemma EncodeSuccess(s: State, u: string)
    requires s.options.level in Levels
    ensures var st := EncodeStep(s, u, Encoded);
      && st.effect == Encode(Drawing(u, CorrectionFor(s.options.level).value, s.options.size, Border, s.options.fill, s.options.back))
      && st.after == s.(image := Some(st.effect.request), saveEnabled := true, copyEnabled := true, status := GeneratedPrefix + u)
      && st.notice.None?
  {
  }

  /**
   * A successful Generate encodes the normalised URL with the current options,
   * replaces whatever image was held, enables both buttons and reports that URL.
   * The field is rewritten to the normalised URL exactly when a scheme was added.
   */
  lemma GenerateSuccess(s: State)
    requires !AllSpace(s.url) && s.options.level in Levels
    ensures var st := GenerateStep(s, Encoded); var n := Url.Normalize(s.url); var u := n.url;
      && st.effect == Encode(Drawing(u, CorrectionFor(s.options.level).value, s.options.size, Border, s.options.fill, s.options.back))
      && st.after.image == Some(st.effect.request)
      && st.after.saveEnabled && st.after.copyEnabled
      && st.after.status == GeneratedPrefix + u
      && st.after.url == (if n.prefixed then u else s.url)
      && st.after.options == s.options
      && st.notice.None?
      && Consistent(st.after)
  {
    GenerateUnfolds(s, Encoded);
    var n := Url.Normalize(s.url);
    EncodeSuccess(if n.prefixed then s.(url := n.url) else s, n.url);
  }

  /**
   * The field rewrite happens before encoding, so it survives every failure
   * that comes after it.
   */
  lemma RewriteSurvivesFailure(s: State, outcome: EncodeOutcome)
    requires Url.Normalize(s.url).Cleaned? && Url.Normalize(s.url).prefixed
    ensures GenerateStep(s, outcome).after.url == Url.Normalize(s.url).url
    ensures Url.HasScheme(GenerateStep(s, outcome).after.url)
  {
    GenerateUnfolds(s, outcome);
    var n := Url.Normalize(s.url);
    EncodeKeepsFieldAndOptions(s.(url := n.url), n.url, outcome);
  }

  lemma EncodeFailure(s: State, u: string, reason: string)
    ensures var st := EncodeStep(s, u, EncodeFailed(reason));
      && st.after == s.(status := GenerateError)
      && st.notice.Some? && st.notice.value.kind == ErrorBox
      && (s.options.level in Levels ==> st.effect == Encode(Drawing(u, CorrectionFor(s.options.level).value, s.options.size, Border, s.options.fill, s.options.back)))
  {
  }

  /** An encoder failure keeps image and buttons and reports the generic error. */
  lemma EncodeFailureKeepsImage(s: State, reason: string)
    requires !AllSpace(s.url)
    ensures var st := GenerateStep(s, EncodeFailed(reason));
      && st.after.image == s.image
      && st.after.saveEnabled == s.saveEnabled && st.after.copyEnabled == s.copyEnabled
      && st.after.status == GenerateError
      && st.notice.Some? && st.notice.value.kind == ErrorBox
  {
    GenerateUnfolds(s, EncodeFailed(reason));
    var n := Url.Normalize(s.url);
    EncodeFailure(if n.prefixed then s.(url := n.url) else s, n.url, reason);
  }

  lemma DisplayFailure(s: State, u: string, reason: string)
    requires s.options.level in Levels
    ensures var st := EncodeStep(s, u, DisplayFailed(reason));
      && st.effect == Encode(Drawing(u, CorrectionFor(s.options.level).value, s.options.size, Border, s.options.fill, s.options.back))
      && st.after == s.(image := Some(st.effect.request), status := GenerateError)
  {
  }

  /**
   * A failure while displaying comes after the image was stored and before the
   * buttons are enabled: from a session without an image it yields one that
   * holds an image with both buttons disabled.
   */
  lemma DisplayFailureBreaksConsistency(s: State, reason: string)
    requires Consistent(s) && s.image.None?
    requires !AllSpace(s.url) && s.options.level in Levels
    ensures var st := GenerateStep(s, DisplayFailed(reason));
      st.after.image.Some? && !st.after.saveEnabled && !st.after.copyEnabled && !Consistent(st.after)
  {
    GenerateUnfolds(s, DisplayFailed(reason));
    var n := Url.Normalize(s.url);
    DisplayFailure(if n.prefixed then s.(url := n.url) else s, n.url, reason);
  }

  /** Save and Copy without an image: error box, nothing changes, no call. */
  lemma NoImageNoExport(s: State, path: string, write: WriteOutcome, clip: ClipboardOutcome)
    requires s.image.None?
    ensures SaveStep(s, path, write) == Step(s, Some(ErrorNotice(NoImageToSave)), NoEffect)
    ensures CopyStep(s, clip) == Step(s, Some(ErrorNotice(NoImageToCopy)), NoEffect)
  {
  }

  /** Cancelling the save dialog does nothing at all. */
  lemma SaveCancelledIsNoOp(s: State, write: WriteOutcome)
    ensures SaveStep(s, "", write).after == s
    ensures s.image.Some? ==> SaveStep(s, "", write) == Step(s, None, NoEffect)
  {
  }

  /**
   * With an image held and a path chosen, the image is written to that path;
   * success puts the file's base name in the status line and shows the full
   * path in an info box, failure sets the save error status and shows the reason.
   */
  lemma SaveOutcomes(s: State, path: string, reason: string)
    requires s.image.Some? && path != []
    ensures var st := SaveStep(s, path, Written);
      && st.after == s.(status := SavedPrefix + Basename(path))
      && st.notice == Some(Notice(InfoBox, "Success", SavedMessage + path))
      && st.effect == WriteFile(path, s.image.value)
    ensures var st := SaveStep(s, path, WriteFailed(reason));
      && st.after == s.(status := SaveError)
      && st.notice == Some(ErrorNotice(SaveFailure + reason))
      && st.effect == WriteFile(path, s.image.value)
  {
    var img := s.image.value;
    assert SaveStep(s, path, Written) == Step(s.(status := SavedPrefix + Basename(path)),
      Some(Notice(InfoBox, "Success", SavedMessage + path)), WriteFile(path, img));
    assert SaveStep(s, path, WriteFailed(reason)) == Step(s.(status := SaveError),
      Some(ErrorNotice(SaveFailure + reason)), WriteFile(path, img));
  }

  /** A successful save names the file, without its directories, in the status line. */
  lemma SaveSuccessStatus(s: State, dir: string, name: string)
    requires s.image.Some? && '/' !in name
    ensures var st := SaveStep(s, dir + "/" + name, Written);
      && st.after == s.(status := "QR code saved to: " + name)
      && st.notice == Some(Notice(InfoBox, "Success", SavedMessage + dir + "/" + name))
      && st.effect == WriteFile(dir + "/" + name, s.image.value)
  {
    var path := dir + "/" + name;
    BasenameOfJoin(dir, name);
    SaveOutcomes(s, path, "");
    assert SavedMessage + path == SavedMessage + dir + "/" + name;
  }

  lemma {:induction false} BasenameOfJoin(dir: string, name: string)
    requires '/' !in name
    ensures Basename(dir + "/" + name) == name
  {
    var path := dir + "/" + name;
    var b := Basename(path);
    assert path[|path| - |name| - 1] == '/';
    assert path[|path| - |name|..] == name;
  }

  /** A missing clipboard tool leaves the session untouched apart from an info box. */
  lemma CopyOutcomes(s: State, reason: string)
    requires s.image.Some?
    ensures CopyStep(s, Copied).after == s.(status := "QR code copied to clipboard")
    ensures CopyStep(s, ToolMissing).after == s && CopyStep(s, ToolMissing).notice.value.kind == InfoBox
    ensures CopyStep(s, CopyFailed(reason)).after == s.(status := "Error copying to clipboard")
    ensures CopyStep(s, Copied).notice.None?
    ensures CopyStep(s, ToolMissing).notice == Some(Notice(InfoBox, "Info", NoClipboardTool))
    ensures CopyStep(s, CopyFailed(reason)).notice == Some(ErrorNotice(CopyFailure + reason))
    ensures CopyStep(s, Copied).effect == ToClipboard(s.image.value)
    ensures CopyStep(s, ToolMissing).effect == ToClipboard(s.image.value)
    ensures CopyStep(s, CopyFailed(reason)).effect == ToClipboard(s.image.value)
  {
  }

  /** Clear always lands in the initial session, keeping only the options. */
  lemma ClearResets(s: State)
    ensures ClearStep(s).after == Initial().(options := s.options)
    ensures Consistent(ClearStep(s).after)
  {
  }

  lemma ClearIdempotent(s: State)
    ensures ClearStep(ClearStep(s).after) == ClearStep(s)
  {
  }

  /** Generate then Clear from the opening state gives back the opening state. */
  lemma GenerateThenClear(text: string, outcome: EncodeOutcome)
    ensures ClearStep(GenerateStep(Initial().(url := text), outcome).after).after == Initial()
  {
    var s := Initial().(url := text);
    if !AllSpace(text) {
      GenerateUnfolds(s, outcome);
      var n := Url.Normalize(text);
      EncodeKeepsFieldAndOptions(if n.prefixed then s.(url := n.url) else s, n.url, outcome);
    }
  }

  // ---------------------------------------------------------------------
  // Event traces

  /**
   * What the user can do: edit the field, move the slider, pick a level or a
   * colour, or press a button (a press carries the outcome of its collaborators).
   */
  datatype Event =
    | TypeUrl(text: string)
    | SlideSize(size: int)
    | PickLevel(level: string)
    | PickFill(fill: string)
    | PickBack(back: string)
    | PressGenerate(encode: EncodeOutcome)
    | PressSave(path: string, write: WriteOutcome)
    | PressCopy(clip: ClipboardOutcome)
    | PressClear

  /** Values the widgets can produce: slider range, radio values, read-only lists. */
  predicate WellFormed(e: Event) {
    match e
    case SlideSize(n) => MinSize <= n <= MaxSize
    case PickLevel(l) => l in Levels
    case PickFill(c) => c in FillColors
    case PickBack(c) => c in BackColors
    case _ => true
  }

  /** One event; a disabled button ignores presses. */
  function Apply(s: State, e: Event): State {
    match e
    case TypeUrl(t) => s.(url := t)
    case SlideSize(n) => s.(options := s.options.(size := n))
    case PickLevel(l) => s.(options := s.options.(level := l))
    case PickFill(c) => s.(options := s.options.(fill := c))
    case PickBack(c) => s.(options := s.options.(back := c))
    case PressGenerate(o) => GenerateStep(s, o).after
    case PressSave(p, w) => if s.saveEnabled then SaveStep(s, p, w).after else s
    case PressCopy(c) => if s.copyEnabled then CopyStep(s, c).after else s
    case PressClear => ClearStep(s).after
  }

  function Run(s: State, es: seq<Event>): State
    decreases |es|
  {
    if es == [] then s else Run(Apply(s, es[0]), es[1..])
  }

  predicate IsDisplayFailure(e: Event) {
    e.PressGenerate? && e.encode.DisplayFailed?
  }

  /** What holds on every trace: allowed options, buttons switched together, enabled only with an image. */
  predicate Invariant(s: State) {
    OptionsAllowed(s.options) && ButtonsAgree(s) && (s.saveEnabled ==> s.image.Some?)
  }

  /** Save changes at most the status line. */
  lemma SaveTouchesOnlyStatus(s: State, p: string, w: WriteOutcome)
    ensures SaveStep(s, p, w).after == s.(status := SaveStep(s, p, w).after.status)
  {
  }

  /** Copy changes at most the status line. */
  lemma CopyTouchesOnlyStatus(s: State, c: ClipboardOutcome)
    ensures CopyStep(s, c).after == s.(status := CopyStep(s, c).after.status)
  {
  }

  lemma EncodeKeepsInvariant(s: State, u: string, o: EncodeOutcome)
    requires Invariant(s)
    ensures Invariant(EncodeStep(s, u, o).after)
  {
  }

  lemma GenerateKeepsInvariant(s: State, o: EncodeOutcome)
    requires Invariant(s)
    ensures Invariant(GenerateStep(s, o).after)
  {
    if !AllSpace(s.url) {
      GenerateUnfolds(s, o);
      var n := Url.Normalize(s.url);
      EncodeKeepsInvariant(if n.prefixed then s.(url := n.url) else s, n.url, o);
    }
  }

  lemma ApplyKeepsInvariant(s: State, e: Event)
    requires Invariant(s) && WellFormed(e)
    ensures Invariant(Apply(s, e))
  {
    if e.PressGenerate? {
      GenerateKeepsInvariant(s, e.encode);
      assert Apply(s, e) == GenerateStep(s, e.encode).after;
    } else {
      OtherEventKeepsInvariant(s, e);
    }
  }

  /** Every event but Generate keeps `Invariant`. */
  lemma OtherEventKeepsInvariant(s: State, e: Event)
    requires Invariant(s) && WellFormed(e) && !e.PressGenerate?
    ensures Invariant(Apply(s, e))
  {
    match e
    case PressSave(p, w) => SaveTouchesOnlyStatus(s, p, w);
    case PressCopy(c) => CopyTouchesOnlyStatus(s, c);
    case _ =>
  }

  lemma EncodeKeepsConsistent(s: State, u: string, o: EncodeOutcome)
    requires Consistent(s)
    ensures !Consistent(EncodeStep(s, u, o).after) ==> o.DisplayFailed? && !s.saveEnabled
  {
  }

  lemma GenerateKeepsConsistent(s: State, o: EncodeOutcome)
    requires Consistent(s)
    ensures !Consistent(GenerateStep(s, o).after) ==> o.DisplayFailed? && !s.saveEnabled
  {
    if !AllSpace(s.url) {
      GenerateUnfolds(s, o);
      var n := Url.Normalize(s.url);
      EncodeKeepsConsistent(if n.prefixed then s.(url := n.url) else s, n.url, o);
    }
  }

  /** Only a display failure with the buttons disabled can break `Consistent`. */
  lemma ApplyKeepsConsistent(s: State, e: Event)
    requires Consistent(s)
    ensures !Consistent(Apply(s, e)) ==> IsDisplayFailure(e) && !s.saveEnabled
  {
    if e.PressGenerate? {
      GenerateKeepsConsistent(s, e.encode);
      assert Apply(s, e) == GenerateStep(s, e.encode).after;
    } else {
      OtherEventKeepsConsistent(s, e);
    }
  }

  /** Every event but Generate keeps `Consistent`. */
  lemma OtherEventKeepsConsistent(s: State, e: Event)
    requires Consistent(s) && !e.PressGenerate?
    ensures Consistent(Apply(s, e))
  {
    match e
    case PressSave(p, w) => SaveTouchesOnlyStatus(s, p, w);
    case PressCopy(c) => CopyTouchesOnlyStatus(s, c);
    case _ =>
  }

  lemma {:induction false} RunKeepsInvariant(s: State, es: seq<Event>)
    requires Invariant(s)
    requires forall i :: 0 <= i < |es| ==> WellFormed(es[i])
    ensures Invariant(Run(s, es))
    decreases |es|
  {
    if es != [] {
      ApplyKeepsInvariant(s, es[0]);
      RunKeepsInvariant(Apply(s, es[0]), es[1..]);
    }
  }

  lemma {:induction false} RunKeepsConsistent(s: State, es: seq<Event>)
    requires Consistent(s)
    requires forall i :: 0 <= i < |es| ==> !IsDisplayFailure(es[i])
    ensures Consistent(Run(s, es))
    decreases |es|
  {
    if es != [] {
      ApplyKeepsConsistent(s, es[0]);
      RunKeepsConsistent(Apply(s, es[0]), es[1..]);
    }
  }

  /** On a session reached through the widgets the level lookup never raises. */
  lemma {:induction false} ReachableLevelIsKnown(es: seq<Event>)
    requires forall i :: 0 <= i < |es| ==> WellFormed(es[i])
    ensures CorrectionFor(Run(Initial(), es).options.level).Some?
  {
    InitialState();
    RunKeepsInvariant(Initial(), es);
  }

  /**
   * Clear ends every trace in the initial session, options aside; after a
   * trace the widgets can produce, those options are allowed ones and the
   * cleared session satisfies both invariants.
   */
  lemma {:induction false} ClearAfterAnything(es: seq<Event>)
    ensures var s := Run(Initial(), es);
      Run(s, [PressClear]) == Initial().(options := s.options)
    ensures (forall i :: 0 <= i < |es| ==> WellFormed(es[i])) ==>
      var c := Run(Run(Initial(), es), [PressClear]);
      OptionsAllowed(c.options) && Invariant(c) && Consistent(c)
  {
    var s := Run(Initial(), es);
    assert Run(s, [PressClear]) == Run(ClearStep(s).after, []);
    if forall i :: 0 <= i < |es| ==> WellFormed(es[i]) {
      InitialState();
      RunKeepsInvariant(Initial(), es);
    }
  }

  /**
   * The scenario of a bare host name (such as "example.com") typed into the
   * opening session: the field gets the scheme, the encoder is asked for it
   * with the default options, both buttons enable and the status names it;
   * Clear then restores the opening session.
   */
  lemma HostScenario(host: string)
    requires Tight(host) && host != [] && !Url.HasScheme(host)
    ensures var st := GenerateStep(Initial().(url := host), Encoded); var u := Url.Secure + host;
      && st.after.url == u
      && st.effect == Encode(Drawing(u, CorrectH, 10, 4, "black", "white"))
      && st.after.image == Some(st.effect.request) && st.after.saveEnabled && st.after.copyEnabled
      && st.after.status == GeneratedPrefix + u
      && ClearStep(st.after).after == Initial()
  {
    Url.NormalizeBareHost(host);
    TypedHostGenerates(Initial().(url := host), Url.Secure + host);
  }

  /** Generate succeeding on a field whose cleaned form `u` needed a scheme. */
  lemma TypedHostGenerates(s: State, u: string)
    requires Url.Normalize(s.url) == Url.Cleaned(u, true)
    requires s.options.level in Levels
    ensures GenerateStep(s, Encoded) ==
      Step(s.(url := u, image := Some(Drawing(u, CorrectionFor(s.options.level).value, s.options.size, Border, s.options.fill, s.options.back)),
              saveEnabled := true, copyEnabled := true, status := GeneratedPrefix + u),
           None, Encode(Drawing(u, CorrectionFor(s.options.level).value, s.options.size, Border, s.options.fill, s.options.back)))
  {
    GenerateUnfolds(s, Encoded);
    EncodeSuccess(s.(url := u), u);
  }

  /**
   * Whatever a display failure left behind, pressing Generate again with a
   * working encoder brings image and buttons back into agreement.
   */
  lemma DisplayFailureRepaired(s: State, reason: string)
    requires !AllSpace(s.url) && s.options.level in Levels
    ensures var s2 := GenerateStep(s, DisplayFailed(reason)).after;
      Consistent(GenerateStep(s2, Encoded).after)
  {
    GenerateUnfolds(s, DisplayFailed(reason));
    var n := Url.Normalize(s.url);
    var s1 := if n.prefixed then s.(url := n.url) else s;
    DisplayFailure(s1, n.url, reason);
    var s2 := GenerateStep(s, DisplayFailed(reason)).after;
    if n.prefixed {
      CleanedNotBlank(n.url);
    }
    GenerateSuccess(s2);
  }

  /** A field that already holds a cleaned URL is not blank. */
  lemma CleanedNotBlank(u: string)
    requires Url.HasScheme(u) && Tight(u)
    ensures !AllSpace(u)
  {
    assert u[0] == u[..|Url.Plain|][0];
  }

  /** A disabled button ignores presses: Save and Copy change nothing while disabled. */
  lemma DisabledButtonsIgnorePresses(s: State, path: string, write: WriteOutcome, clip: ClipboardOutcome)
    requires !s.saveEnabled && !s.copyEnabled
    ensures Apply(s, PressSave(path, write)) == s
    ensures Apply(s, PressCopy(clip)) == s
  {
  }
}

# QR code generator controller — a Dafny model

This project models the controller of the Biox Systems QR code generator, the
`QRCodeGenerator` class of a small Tk desktop program. The user types a URL and
picks a size, an error-correction level and two colours. Four buttons then act on
the session:

- Generate strips the URL and refuses a blank one. It puts `https://` in front
  when the text has neither `http://` nor `https://`, then asks the QR library for
  an image and enables Save and Copy.
- Save ("Download Image") writes the image to a path chosen in a dialog.
- Copy puts the image on the clipboard.
- Clear resets the field, the image, the buttons and the status line.

The model has five modules:

- `Text`: the string primitives the handlers use. These are Python's `str.strip()`,
  with CPython's full whitespace table, `str.startswith`, and `os.path.basename`
  on a POSIX host.
- `Url`: the URL clean-up that Generate performs, as one function `Normalize` that
  returns `Blank` or `Cleaned(url, prefixed)`.
- `Session`: the session as a value (`State`). Each handler is a step function
  returning the new state, the message box shown (`Notice`) and the call made to a
  collaborator (`Effect`). Every source of nondeterminism is an outcome parameter:
  the encoder, the save dialog's answer, the file write and the clipboard tool.
  On top of the steps sits an event-trace model (`Apply`, `Run`). In it the
  widgets produce only their listed values, and a disabled button ignores presses.
  Invariants are proved over whole traces.
- `Controller`: the class `QRCodeGenerator`. Its fields are the Tk variables, the
  held image and the two button states. Its methods update those fields step by
  step, as the Python handlers do. `GenerateQrCode`, `SaveImage` and
  `CopyToClipboard` are proved to leave exactly the state, message box and
  effect that their `Session` step functions describe. `Clear` is proved to
  leave the state of `ClearStep`; it shows no box and calls nothing.
  `EnterUrl` and `ChooseOptions` stand for the widgets writing their Tk
  variables and are proved to change those fields only.
- `Wrappers`: `Option`.

The properties proved are these:

- Stripping is characterised uniquely: leading and trailing whitespace, around a
  tight middle whose ends are not whitespace.
- Normalising is idempotent and ignores padding. It adds the scheme at most once,
  and only when the stripped text lacks one (case-sensitively).
- A blank field changes nothing and calls no encoder.
- A successful Generate encodes the cleaned URL with the chosen options, enables
  both buttons and names the URL in the status line.
- The field rewrite survives every later failure.
- An encoder failure keeps the image and the buttons.
- Save and Copy without an image change nothing.
- A cancelled save dialog is a no-op, and a successful save reports the file's
  base name.
- Clear lands in the opening state with the options kept.
- Along every trace, Save and Copy are enabled together and only while an image
  is held.
- Along every trace, the options stay among the widgets' listed values
  (`OptionsAllowed`), so the level lookup never fails.
- "Image held ⇔ buttons enabled" breaks in exactly one way: a failure while
  displaying the preview, from a session whose buttons were disabled. A later
  successful Generate repairs it.

## Model

| member | source | states |
|---|---|---|
| Text.IsSpace | qr_code_generator.py:219 | the characters `strip()` removes: CPython's whitespace set, as code-point ranges |
| Text.StartsWith | qr_code_generator.py:227 | Python's `startswith`: the text begins with the prefix, case-sensitively, and a prefix longer than the text never matches |
| Text.StripLeft | qr_code_generator.py:219 | the result is a suffix of the input, everything dropped is whitespace, and the result does not start with whitespace |
| Text.StripRight | qr_code_generator.py:219 | the result is a prefix of the input, everything dropped is whitespace, and the result does not end with whitespace |
| Text.Strip | qr_code_generator.py:219 | `strip()` gives the empty string exactly when the text is all whitespace; the result has no whitespace at either end and is no longer than the input |
| Text.StripUnique | qr_code_generator.py:219 | whenever a text is whitespace + tight middle + whitespace, that middle is what `strip()` returns |
| Text.StripSplits | qr_code_generator.py:219 | every text is whitespace + `strip()` of it + whitespace |
| Text.StripTight | qr_code_generator.py:219 | a text with no whitespace at either end comes back from `strip()` unchanged |
| Text.StripIdempotent | qr_code_generator.py:219 | stripping twice is stripping once |
| Text.StripIgnoresPadding | qr_code_generator.py:219 | extra whitespace around the text never changes what `strip()` returns |
| Text.Basename | qr_code_generator.py:332 | `basename` is a suffix of the path without `/`, preceded by `/` or by nothing; it is the part after the last `/` |
| Url.HasScheme | qr_code_generator.py:227 | the test Generate makes before adding a scheme: the text starts with `http://` or with `https://` |
| Url.Normalize | qr_code_generator.py:219-229 | blank exactly when the field is all whitespace; otherwise a tight URL with an `http://` or `https://` scheme, equal to the stripped text, with `https://` in front exactly when the stripped text had no scheme |
| Url.PrefixKeepsTight | qr_code_generator.py:227-229 | putting `https://` in front of a tight, non-empty text gives a tight text with a scheme |
| Url.NormalizeFixed | qr_code_generator.py:227-229 | a tight URL that already has a scheme comes back unchanged, with no rewrite of the field |
| Url.NormalizeIdempotent | qr_code_generator.py:219-229 | normalising an already normalised URL changes nothing and adds no second scheme |
| Url.NormalizeIgnoresPadding | qr_code_generator.py:219 | whitespace around the field's text does not change the outcome |
| Url.NormalizeKeepsText | qr_code_generator.py:219-229 | the field's text is whitespace + the stripped text + whitespace, and the cleaned URL is that stripped text or `https://` + it, so it ends with the whole stripped text |
| Url.NoSchemeWithoutH | qr_code_generator.py:227 | a text whose first character is not `h` passes neither `startswith` test |
| Url.NormalizePaddedHost | qr_code_generator.py:219-229 | a padded host name without a scheme, `httpbin.org` included, becomes `https://` + the host, and the field is rewritten |
| Url.NormalizeBareHost | qr_code_generator.py:227-229 | a tight host name without a scheme becomes `https://` + the host |
| Url.BareHostExample | qr_code_generator.py:227-229 | `example.com` becomes `https://example.com` |
| Url.UpperCaseSchemeExample | qr_code_generator.py:227 | the scheme test is case-sensitive: `HTTP://a.b` becomes `https://HTTP://a.b` |
| Url.BlankExample | qr_code_generator.py:219-224 | a field holding only blanks and a tab is refused |
| Session.Initial | qr_code_generator.py:44-203 | the opening session: the Tk variables' initial values (empty field, size 10, level `H`, black on white, status `Ready`), no image, and both export buttons created disabled |
| Session.GenerateStep | qr_code_generator.py:217-277 | Generate: a blank stripped field gives the "Please enter a URL" box and nothing else; otherwise the field is rewritten when a scheme was added and the encode stage follows |
| Session.EncodeStep | qr_code_generator.py:231-277 | the `try` block: an unknown level is a failure before the encoder is called; otherwise the encoder is called and its outcome decides between storing the image with both buttons enabled and the success status, a failure keeping the prior image, or a display failure after the new image was stored; every failure sets the generic error status and shows an error box |
| Session.SaveStep | qr_code_generator.py:307-339 | Save: no image gives an error box; a cancelled dialog does nothing; otherwise the image is written to the path, and the outcome sets the base-name status with an info box or the save error status with an error box |
| Session.CopyStep | qr_code_generator.py:341-397 | Copy: no image gives an error box; otherwise the clipboard tool's outcome sets the confirmation status, shows the missing-xclip info box, or sets the copy error status with an error box |
| Session.ClearStep | qr_code_generator.py:399-407 | Clear: empties the field, drops the image, disables both buttons and sets `Ready`, keeping the options |
| Session.OptionsAllowed | qr_code_generator.py:82-151 | the option values the widgets can hold: size 5..15 from the slider, a level among `L`, `M`, `Q`, `H` from the radio buttons, and fill and back colours from the two read-only lists |
| Session.WellFormed | qr_code_generator.py:82-151 | the events the widgets can produce: a slider value in 5..15, a listed level, a listed fill or back colour; typing and button presses are unrestricted |
| Session.Apply | qr_code_generator.py:68-190 | one widget event: typing, one of the option widgets, or a button press, which runs that button's step; Generate and Clear are always enabled, and a press of Save or Copy while disabled changes nothing |
| Session.Run | qr_code_generator.py:68-190 | a sequence of widget events applied in order |
| Session.CorrectionFor | qr_code_generator.py:237-243 | the level dictionary maps exactly `L`, `M`, `Q` and `H`, each to its own tier; any other key is a lookup failure |
| Session.InitialState | qr_code_generator.py:68-203 | the window opens with an empty field, size 10, level `H`, black on white, no image, both buttons disabled and status `Ready`, which is consistent |
| Session.GenerateBlankChangesNothing | qr_code_generator.py:222-224 | a blank field gives the "Please enter a URL" error box, no encoder call and an unchanged session |
| Session.GenerateUnfolds | qr_code_generator.py:219-231 | a field that is not blank reaches the encode stage with the cleaned URL, after the field was rewritten if a scheme was added |
| Session.GenerateFieldAsTyped | qr_code_generator.py:219-277 | for every encoder outcome, Generate on a non-blank field leaves it as the cleaned URL when a scheme was added and exactly as typed otherwise |
| Session.EncodeKeepsFieldAndOptions | qr_code_generator.py:231-277 | the encode stage never touches the field or the options |
| Session.EncodeSuccess | qr_code_generator.py:245-273 | a successful encode asks for the URL with the chosen tier, size, border 4 and colours, stores that image, enables both buttons, names the URL in the status line and shows no box |
| Session.GenerateSuccess | qr_code_generator.py:217-273 | the same for a whole Generate from any non-blank field with a known level; the field ends up as the cleaned URL when a scheme was added, else it is unchanged; the result is consistent |
| Session.RewriteSurvivesFailure | qr_code_generator.py:227-277 | when a scheme was added, the field holds the cleaned URL after Generate, whatever the encoder did |
| Session.EncodeFailure | qr_code_generator.py:275-277 | an encoder failure changes only the status line (to the generic error), shows an error box, and the encoder was called with the requested drawing |
| Session.EncodeFailureKeepsImage | qr_code_generator.py:275-277 | after an encoder failure the held image and both buttons are as before |
| Session.DisplayFailure | qr_code_generator.py:262-266 | a failure while displaying comes after the new image was stored: the image is the requested drawing, the status is the generic error, and the buttons are unchanged |
| Session.DisplayFailureBreaksConsistency | qr_code_generator.py:262-270 | from a consistent session without an image, a display failure leaves an image held with both buttons disabled |
| Session.DisplayFailureRepaired | qr_code_generator.py:262-273 | after a display failure, a successful Generate makes the session consistent again |
| Session.NoImageNoExport | qr_code_generator.py:309-345 | Save and Copy without an image show their error box, call nothing and change nothing |
| Session.SaveCancelledIsNoOp | qr_code_generator.py:324-325 | a cancelled save dialog changes nothing, and with an image held also shows nothing and writes nothing |
| Session.SaveOutcomes | qr_code_generator.py:327-339 | with an image held and a path chosen, the image is written to that path; success sets the status to "QR code saved to: " + the base name and shows the full path in an info box; failure sets "Error saving QR code", changes nothing else and shows the reason in an error box |
| Session.SaveSuccessStatus | qr_code_generator.py:329-335 | a successful save of `dir/name` writes the held image to that path, puts only `name` in the status line and the whole path in the info box |
| Session.BasenameOfJoin | qr_code_generator.py:332 | `basename(dir + "/" + name)` is `name` when `name` has no `/` |
| Session.CopyOutcomes | qr_code_generator.py:347-397 | with an image held the clipboard tool is always invoked with it; success sets the confirmation status and shows no box; a missing xclip shows the xclip info box and changes nothing; any other failure sets the copy error status and shows the reason in an error box |
| Session.ClearResets | qr_code_generator.py:399-407 | Clear gives the opening session with the options kept, which is consistent |
| Session.ClearIdempotent | qr_code_generator.py:399-407 | clearing twice is clearing once |
| Session.GenerateThenClear | qr_code_generator.py:217-407 | Generate then Clear from the opening window, whatever the text and the encoder outcome, gives back the opening window |
| Session.SaveTouchesOnlyStatus | qr_code_generator.py:307-339 | Save changes at most the status line |
| Session.CopyTouchesOnlyStatus | qr_code_generator.py:341-397 | Copy changes at most the status line |
| Session.EncodeKeepsInvariant | qr_code_generator.py:262-277 | the encode stage keeps options allowed, the buttons switched together, and the buttons enabled only with an image |
| Session.GenerateKeepsInvariant | qr_code_generator.py:217-277 | so does a whole Generate |
| Session.ApplyKeepsInvariant | qr_code_generator.py:82-190 | so does every widget event and every press of an enabled button |
| Session.OtherEventKeepsInvariant | qr_code_generator.py:68-190 | every widget event other than Generate keeps the invariant |
| Session.RunKeepsInvariant | qr_code_generator.py:82-190 | so does every trace of events the widgets can produce |
| Session.EncodeKeepsConsistent | qr_code_generator.py:262-270 | the encode stage breaks "image held ⇔ buttons enabled" only on a display failure with the buttons disabled |
| Session.GenerateKeepsConsistent | qr_code_generator.py:217-277 | the same for a whole Generate |
| Session.ApplyKeepsConsistent | qr_code_generator.py:157-190 | the same for any event: only a display failure with the buttons disabled breaks it |
| Session.OtherEventKeepsConsistent | qr_code_generator.py:68-190 | every widget event other than Generate keeps "image held ⇔ buttons enabled" |
| Session.RunKeepsConsistent | qr_code_generator.py:157-190 | a trace without display failures keeps the session consistent |
| Session.ReachableLevelIsKnown | qr_code_generator.py:105-121 | on every session reached through the widgets, the level lookup succeeds |
| Session.ClearAfterAnything | qr_code_generator.py:399-407 | any trace followed by Clear lands in the opening session with the trace's options; after a trace the widgets can produce, those options are allowed and the cleared session satisfies both invariants |
| Session.HostScenario | qr_code_generator.py:217-273 | a bare host name without a scheme (`example.com`, `httpbin.org`) typed into the opening window gets `https://`, is encoded with tier H, size 10, border 4, black on white, enables both buttons, is named in the status line, and Clear then restores the opening window |
| Session.TypedHostGenerates | qr_code_generator.py:227-273 | a successful Generate on a field that needed a scheme gives exactly the rewritten field, the new image, both buttons enabled and the success status |
| Session.DisabledButtonsIgnorePresses | qr_code_generator.py:165-190 | with Save and Copy disabled, pressing them changes nothing |
| Controller.QRCodeGenerator.constructor | qr_code_generator.py:28-47 | the new window's fields hold the opening session, which is consistent and satisfies the trace invariant |
| Controller.QRCodeGenerator.EnterUrl | qr_code_generator.py:68-69 | typing replaces the field and nothing else |
| Controller.QRCodeGenerator.ChooseOptions | qr_code_generator.py:82-149 | the option widgets replace the options and nothing else |
| Controller.QRCodeGenerator.GenerateQrCode | qr_code_generator.py:217-277 | the handler leaves exactly the state, message box and encoder call of `Session.GenerateStep` |
| Controller.QRCodeGenerator.Render | qr_code_generator.py:231-277 | the `try` block leaves exactly the state, box and call of `Session.EncodeStep`: a lookup failure sets the error status without calling the encoder, and otherwise the status follows the encoder outcome |
| Controller.QRCodeGenerator.SaveImage | qr_code_generator.py:307-339 | the handler leaves exactly what `Session.SaveStep` describes and changes at most the status line |
| Controller.QRCodeGenerator.CopyToClipboard | qr_code_generator.py:341-397 | the handler leaves exactly what `Session.CopyStep` describes and changes at most the status line |
| Controller.QRCodeGenerator.Clear | qr_code_generator.py:399-407 | the handler gives the opening session with the options kept |
| Controller.Scenario | qr_code_generator.py:217-407 | a client of the class: a bare host without a scheme (`httpbin.org` included) typed into a new window, generated, saved with a cancelled dialog and cleared, leaves the window as it opened; its checks are assertions in the body, as it has no results to constrain |

## Left out

- The widget layout, fonts, title, geometry and credits link (`setup_ui` apart from the variables' initial values and the button states) are not modelled. They carry no state the handlers read.
- The QR encoding library and the image library are collaborators. `Drawing` records what the encoder is asked for: data, tier, box size, border 4 and colours. Its outcome is a parameter, `version=1, fit=True` is not recorded, and no pixels are modelled.
- `display_qr_code` is not modelled: preview scaling, `qr_image` and the label. Its only effect on the handler, an exception after the image was stored, is the `DisplayFailed` outcome.
- The save dialog's answer and the file write are parameters: the returned path, and `Written` or `WriteFailed(reason)`. The dialog's filters and default name are not modelled.
- Clipboard internals are not modelled: the temporary file, the Windows BMP header stripping, `osascript`, `xclip` and the unlink. Only the outcome is: `Copied`, `ToolMissing` or `CopyFailed(reason)`. The `clipboard_clear()` call (qr_code_generator.py:357) is not modelled either. It runs once the image has been written to the temporary file, and from there on it empties the user's clipboard on every path, including `ToolMissing` and any later failure. A failure while creating or writing the temporary file leaves the clipboard alone. The temporary file is left behind by `ToolMissing` and by any failure after the file was created; that is not modelled.
- `launcher.py` is not part of this model.
- Message boxes are returned as a `Notice` value rather than shown. `root.update_idletasks()` is left out. The intermediate status "Generating QR code..." is set by `Render` and then overwritten on every path, so no step result shows it.
- Session.EncodeStep: an unknown level gives the text `'` + level + `'`. Python's `str()` of the `KeyError` is the `repr` of the key, which agrees with this only for keys without quotes, backslashes or non-printable characters. The path is unreachable through the widgets (`Session.ReachableLevelIsKnown`). Other exception texts are the `reason` parameter.
- Text.Basename: models `posixpath.basename` only. On Windows `os.path.basename` also splits at `\` and at the drive colon.
- The size slider is modelled as an integer variable in 5..15. The truncation `IntVar.get()` applies to the slider's fractional values is not modelled.
- Text.IsSpace: the whitespace set is CPython's table for `str.isspace`, written out as code-point ranges. It is not derived from a Unicode database.
- An encoder failure is not a no-op. The handler sets the status line to "Error generating QR code" and keeps a field rewrite made before encoding. When the failure happens while displaying the preview, the new image stays stored with the buttons as they were.

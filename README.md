# Screen translator: scan, pause and size synchronisation

The screen translator shows two windows:

- a frameless overlay (`TrulyTransparentWindow`) with a drawn border, whose inside is grabbed from the screen and run through OCR once a second;
- a result panel (`ResultWindow`) with width and height spin boxes, a pause button, the Vietnamese translation of the latest text and a status line.

The two windows talk through Qt signals. This model covers the three pieces of logic in that exchange:

- **The scan tick** (`detect_text`). It is gated by the scanning flag and by whether the OCR library is available. It computes the capture box inside the border, strips the OCR text and passes it on only when it is non-blank and differs from the last text passed on. A failed grab or OCR passes nothing on. A failed translation is shown as an error and does not undo the new last text.
- **Pause synchronisation.** Pausing from the panel's button or with Alt+P on the overlay leaves both windows agreeing on the flag, and leaves the button and the status line labelled to match. The re-emission in `set_scanning_state` ends because `update_status` emits nothing.
- **Size synchronisation without a feedback loop.**
  - A spin-box edit is bounded to [100, 1200] × [100, 1000].
  - Only if the value changes does it emit exactly one resize request, carrying both current values.
  - The overlay resizes, and its resize event writes the size back into the spin boxes with their signals blocked, so no second request follows.

Modelling choices:

- Each signal emission is a direct call of the slot it is connected to, so every chain of emissions is a chain of method calls whose termination is proved.
- Qt's `blockSignals` becomes two boolean fields.
- A spin box's `setValue` bounds its value and emits `valueChanged` only when the value changed and signals are not blocked.
- `resize` to the current size raises no resize event, and the resize event is delivered synchronously.
- Two ghost logs record what was emitted:
  - `resizeRequests` records every `resize_scanner` emission;
  - `translated` records every text sent to `update_text`.
- The screen grab plus OCR is an opaque function `read: BBox -> OcrResult`, given to each tick. `Failed` stands for an exception raised by either.
- The translator is an opaque function `translate: string -> Translation`, fixed when the panel is created. `TranslationFailed` stands for the exception it raises.
- Python's `str.strip()` is modelled exactly, over the characters Python 3's `str.isspace` accepts.

Files:

- `text.dfy` (module `Text`): `Strip` and its characterisation.
- `detection.dfy` (module `Detection`): the capture box, the accept rule of a tick and the display of a translation.
- `windows.dfy` (module `ScreenTranslator`): the two windows as classes whose methods are the slots and event handlers.
- `scenarios.dfy` (module `Scenarios`): short client methods that create both windows as `main` does and derive, from the contracts alone, what a user sees in one situation. Examples are a repeated text translated once, a small width bounded to 100, and Alt+P followed by the button.

## Model

| member | source | states |
|---|---|---|
| ScreenTranslator.TrulyTransparentWindow.DetectText | screen_translator.py:263-302 | A paused tick, or one without OCR, changes nothing. Otherwise the grab and OCR result decides via `Accept`. If nothing is accepted, the last text and the whole panel are unchanged. If text `t` is accepted, it becomes the last text, is appended to the texts sent for translation, and the panel shows `Display(translate(t))`. The windows' invariant is kept: the sent log has no blanks and no consecutive repeats, and the last text is stripped. |
| Detection.CaptureBox | screen_translator.py:272-275 | The capture box is the window inset by twice the border width on every side. It is non-empty exactly when width and height both exceed four border widths. |
| ScreenTranslator.CaptureAreaNonEmpty | screen_translator.py:142 | While the windows are consistent (border 3, size within the spin-box ranges), the captured area is never empty. |
| Detection.AcceptedIsStripped | screen_translator.py:290-298 | An accepted text comes from a recognised OCR result. It is that result stripped, non-blank, already stripped, and different from the last text. |
| Detection.AcceptRecognized | screen_translator.py:290-296 | Recognised OCR text is passed on if and only if it is not whitespace only and its stripped form differs from the last text. |
| Detection.RepeatNotAccepted | screen_translator.py:296-298 | Once a text is accepted, the same OCR text on the next tick is not passed on again, even with extra whitespace around it. |
| Detection.AcceptKeepsStripped | screen_translator.py:141 | If the last text is stripped before a tick, it is still stripped after the tick, whether or not anything is accepted. |
| Text.LeadingWhitespace | screen_translator.py:290 | Counts the whitespace prefix: every character before the count is whitespace, and the one at the count is not. |
| Text.TrailingWhitespace | screen_translator.py:290 | The mirror image of `LeadingWhitespace` for the whitespace suffix. |
| Text.StripEnd | screen_translator.py:290 | The end of the stripped text: not before its start, followed only by whitespace, and preceded by a non-whitespace character when the result is non-empty. |
| Text.Strip | screen_translator.py:290 | `str.strip()`: the result is empty, or it starts and ends with a non-whitespace character. |
| Text.StripIsTrimmedSlice | screen_translator.py:290 | `Strip` returns the slice of its input obtained by removing exactly the leading and trailing whitespace. |
| Text.StripUnique | screen_translator.py:290 | Any slice obtained by removing exactly the leading and trailing whitespace is what `Strip` returns. Together with `StripIsTrimmedSlice`, this characterises `Strip`. |
| Text.StripIdempotent | screen_translator.py:297 | Stripping twice is stripping once, so the stored last text is its own strip. |
| Text.StripBlank | screen_translator.py:290 | The stripped text is empty if and only if the input is whitespace only. |
| Text.StripIgnoresPadding | screen_translator.py:296 | Whitespace added on either side does not change the stripped text. |
| ScreenTranslator.SentLogExtends | screen_translator.py:296-298 | Appending a non-blank text that differs from the last one keeps the sent log well formed, with that text as the new last. |
| ScreenTranslator.Clamp | screen_translator.py:49 | A spin box's bound: the result lies in the range, a value already in range is kept, a value below the range becomes the minimum and one above becomes the maximum. |
| ScreenTranslator.ResultWindow.constructor | screen_translator.py:27-31 | The panel starts active, with the spin boxes at 600 × 400 and unblocked. The button reads "Pause Scan", the status line "Scanning: Active", and nothing has been emitted yet. |
| ScreenTranslator.TrulyTransparentWindow.constructor | screen_translator.py:138-150 | The overlay connects to the panel, starts scanning at (100, 100) with size 600 × 400 and an empty last text, and announces its size to the panel. It establishes the invariant: sizes and pause flags agree, and no resize request is emitted. |
| ScreenTranslator.ResultWindow.ToggleScan | screen_translator.py:88-96 | The pause button flips the flag and keeps the windows' invariant. Afterwards the overlay's flag, the panel's flag, the button text and the status line all agree. |
| ScreenTranslator.TrulyTransparentWindow.SetScanningState | screen_translator.py:189-192 | Sets the overlay's flag and, through the re-emitted signal, the panel's flag, button text and status line to the given state. |
| ScreenTranslator.ResultWindow.UpdateStatus | screen_translator.py:125-131 | Sets the panel's flag, and labels the status line and the button for the given state. |
| ScreenTranslator.TrulyTransparentWindow.KeyPressEvent | screen_translator.py:250-256 | Exactly Alt+P (no other modifier) flips scanning, and the panel follows. Any other key leaves the flag unchanged. The windows' invariant is kept. |
| ScreenTranslator.ResultWindow.UpdateText | screen_translator.py:115-123 | Records the text as sent for translation. It shows the translation, or "Translation error: " followed by the message when the translator fails. |
| ScreenTranslator.ResultWindow.EditWidth | screen_translator.py:49-51 | An edit of the width box bounds the value to [100, 1200] and leaves the height alone. It emits exactly one resize request with both current values when the value changed, and none otherwise. The windows' invariant is kept: the overlay takes the new size and the echo emits nothing. |
| ScreenTranslator.ResultWindow.EditHeight | screen_translator.py:58-60 | The same as `EditWidth` for the height box, bounded to [100, 1000]. |
| ScreenTranslator.ResultWindow.SetWidthValue | screen_translator.py:49-51 | The width box's `setValue` bounds the value. With signals blocked or no change, it emits nothing and leaves the overlay unchanged. Otherwise it emits one resize request with both values and the overlay takes that size. |
| ScreenTranslator.ResultWindow.SetHeightValue | screen_translator.py:58-60 | The same as `SetWidthValue` for the height box. |
| ScreenTranslator.ResultWindow.OnSizeChanged | screen_translator.py:109-113 | Emits one resize request carrying both spin-box values. The overlay ends up at that size, the spin boxes keep their values and are left unblocked, and no further request follows. |
| ScreenTranslator.TrulyTransparentWindow.SetNewSize | screen_translator.py:214-216 | The overlay takes the requested size. A resize to the current size raises no event and leaves the panel untouched. Otherwise the spin boxes receive the bounded size and are left unblocked, and no resize request is emitted. |
| ScreenTranslator.TrulyTransparentWindow.ResizeEvent | screen_translator.py:218-221 | Hands the overlay's size to the panel, which bounds it into the spin boxes without emitting a resize request. |
| ScreenTranslator.ResultWindow.UpdateScannerSizeInputs | screen_translator.py:98-107 | With both boxes blocked, writes the bounded size into them, then unblocks both. It emits no resize request and leaves the overlay unchanged. |
| ScreenTranslator.TrulyTransparentWindow.Move | screen_translator.py:245-248 | Dragging moves the overlay. Its size is unchanged, nothing is emitted and the invariant is kept. |

## Left out

- Widget construction, layout, fonts, window flags, window titles and the panel's own geometry (screen_translator.py:33-86, 194-212): presentation only. The overlay's initial geometry and its initial `size_changed` emission are modelled in its constructor.
- `paintEvent` (screen_translator.py:223-238): rendering only. The border colour follows `scanning`, which is modelled.
- `mousePressEvent` and the drag offset (screen_translator.py:240-243): `Move` takes the resulting position directly.
- Escape closes the overlay window only (screen_translator.py:258-259): the panel stays open, and the overlay's timer keeps calling `detect_text`, so ticks, captures and translations go on for the hidden overlay's area, while Alt+P can no longer reach it. Window visibility is not part of this model, so `KeyPressEvent` leaves the modelled state unchanged for Escape; other keys go to the base class (screen_translator.py:260-261) and leave it unchanged too.
- `QTimer` scheduling (screen_translator.py:185-187): each timer tick is one call of `DetectText`.
- `print` output and traceback printing: logging only.
- The Tesseract import and version checks and their message boxes (screen_translator.py:11-21, 152-182) are reduced to the constant `ocrAvailable`. A failing version check leaves the library marked available, and every tick then fails inside the `try`, which `read` returning `Failed` covers.
- `ImageGrab.grab`, `pytesseract.image_to_string` and the googletrans `Translator`: foreign code, modelled as the opaque functions `read` and `translate`. The coordinate mapping `mapToGlobal` is taken to give the window's position `(x, y)`.
- `main` (screen_translator.py:304-313): the scenario methods create the two windows in the same order.
- A resize event is delivered synchronously inside `resize`. Qt delivers it at once for a visible window; posted events are not part of this model.
- Qt spin boxes also reject values typed out of range in the editor. `EditWidth` and `EditHeight` take any integer and bound it, which is what `setValue` does.
- The panel's `update_text` blocks while translating, so there are no translations in flight and no out-of-order results.
- `translate` is one fixed function for the whole run, so the same text sent twice (for instance A, then B, then A) shows the same result both times. The real network translator can fail once and succeed later. No proved property depends on this.
- Some natural expectations the code does not meet, and neither does the model:
  - `set_scanning_state` re-emits `scan_status_changed` even when the state does not change;
  - the overlay's `resize` does not bound the size itself, since only the spin boxes do;
  - the deduplication compares the stripped new text with the stored last text, which is itself stripped; unstripped OCR output is never stored.

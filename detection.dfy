/** The pure parts of one scan: where to capture, which OCR output to accept,
    and what the result panel shows for a translation. */
module Detection {
  import opened Text

  datatype Option<T> = None | Some(value: T)

  /** A screen box as the screen grabber takes it: (left, top, right, bottom). */
  datatype BBox = BBox(left: int, top: int, right: int, bottom: int)

  predicate NonEmpty(b: BBox) {
    b.left < b.right && b.top < b.bottom
  }

  /** The area captured from a window at (x, y) of the given size: the window
      shrunk by twice the border width on every side, so that the drawn
      border is never part of the image. */
  function CaptureBox(x: int, y: int, width: int, height: int, border: int): (b: BBox)
    ensures b.left - x == 2 * border && (x + width) - b.right == 2 * border
    ensures b.top - y == 2 * border && (y + height) - b.bottom == 2 * border
    ensures NonEmpty(b) <==> width > 4 * border && height > 4 * border
  {
    var cx := x + border * 2;
    var cy := y + border * 2;
    var cw := width - border * 4;
    var ch := height - border * 4;
    BBox(cx, cy, cx + cw, cy + ch)
  }

  /** The combined outcome of grabbing the screen and running OCR on it; a
      failure stands for an exception raised by either. */
  datatype OcrResult = Recognized(text: string) | Failed(reason: string)

  /** The text a scan passes on to the panel, given the last text passed on:
      the stripped OCR text, unless it is blank or equal to the last one. */
  function Accept(last: string, ocr: OcrResult): Option<string> {
    match ocr
    case Failed(_) => None
    case Recognized(text) =>
      var t := Strip(text);
      if t != [] && t != last then Some(t) else None
  }

  /** What the translator returns: the translated text, or the message of the
      exception it raised. */
  datatype Translation = Translated(text: string) | TranslationFailed(message: string)

  /** What the result panel shows for a translation. */
  function Display(t: Translation): string {
    match t
    case Translated(s) => s
    case TranslationFailed(m) => "Translation error: " + m
  }

  /** An accepted text is non-blank, already stripped, and new. */
  lemma AcceptedIsStripped(last: string, ocr: OcrResult, t: string)
    requires Accept(last, ocr) == Some(t)
    ensures ocr.Recognized? && t == Strip(ocr.text)
    ensures t != [] && Strip(t) == t && t != last
  {
    StripIdempotent(ocr.text);
  }

  /** OCR text is passed on exactly when it is not whitespace only and its
      stripped form differs from the last text passed on. */
  lemma AcceptRecognized(last: string, text: string)
    ensures Accept(last, Recognized(text)).Some? <==> !AllWhitespace(text) && Strip(text) != last
  {
    StripBlank(text);
  }

  /** Once a text is accepted, the same OCR output on the next scan, even with
      different whitespace around it, is not passed on again. */
  lemma RepeatNotAccepted(last: string, text: string, p: string, q: string, t: string)
    requires Accept(last, Recognized(text)) == Some(t)
    requires AllWhitespace(p) && AllWhitespace(q)
    ensures Accept(t, Recognized(p + text + q)) == None
  {
    StripIgnoresPadding(p, text, q);
  }

  /** Accepting keeps the last text in its normal form: stripped. */
  lemma AcceptKeepsStripped(last: string, ocr: OcrResult)
    requires Strip(last) == last
    ensures var next := match Accept(last, ocr) case Some(t) => t case None => last;
            Strip(next) == next
  {
    if Accept(last, ocr).Some? {
      AcceptedIsStripped(last, ocr, Accept(last, ocr).value);
    }
  }
}

/** The two windows of the screen translator and the signals between them.

    ResultWindow is the panel with the size spin boxes, the pause button, the
    translation and the status line; TrulyTransparentWindow is the bordered
    overlay whose inside is scanned once a second. Every signal emission is a
    direct call of the slot it is connected to, so each chain of emissions is
    a chain of calls whose termination Dafny checks. */
module ScreenTranslator {
  import opened Text
  import opened Detection

  /** Ranges of the width and height spin boxes. */
  const MinWidth := 100
  const MaxWidth := 1200
  const MinHeight := 100
  const MaxHeight := 1000

  /** A spin box's bound on a value it is given. */
  function Clamp(v: int, lo: int, hi: int): (r: int)
    requires lo <= hi
    ensures lo <= r <= hi
    ensures lo <= v <= hi ==> r == v
    ensures v < lo ==> r == lo
    ensures v > hi ==> r == hi
  {
    if v < lo then lo else if v > hi then hi else v
  }

  function ButtonLabel(active: bool): string {
    if active then "Pause Scan" else "Resume Scan"
  }

  function StatusLabel(active: bool): string {
    "Scanning: " + if active then "Active" else "Paused"
  }

  datatype Key = KeyP | KeyEscape | OtherKey
  datatype Modifier = Alt | Control | Shift | Meta

  /** A size both spin boxes can hold. */
  predicate InBounds(size: (int, int)) {
    MinWidth <= size.0 <= MaxWidth && MinHeight <= size.1 <= MaxHeight
  }

  /** `sent` is a sequence of texts sent by successive scans and `last` the
      text the overlay remembers: every text is non-blank and stripped, no
      two in a row are equal, and `last` is the latest one ("" before any). */
  ghost predicate SentLog(sent: seq<string>, last: string) {
    && last == (if sent == [] then "" else sent[|sent| - 1])
    && (forall k :: 0 <= k < |sent| ==> sent[k] != [])
    && (forall k :: 0 < k < |sent| ==> sent[k - 1] != sent[k])
  }

  /** A scan that sends a new stripped text keeps the log well formed. */
  lemma SentLogExtends(sent: seq<string>, last: string, t: string)
    requires SentLog(sent, last)
    requires t != [] && t != last
    ensures SentLog(sent + [t], t)
  {
    var next := sent + [t];
    forall k | 0 < k < |next| ensures next[k - 1] != next[k] {
      if k == |sent| {
        assert next[k - 1] == last;
      } else {
        assert next[k - 1] == sent[k - 1] && next[k] == sent[k];
      }
    }
  }

  /** The Alt+P shortcut: the P key with Alt and no other modifier. */
  predicate IsPauseShortcut(key: Key, modifiers: set<Modifier>) {
    key == KeyP && modifiers == {Alt}
  }

  class ResultWindow {
    /** The translation service (English to Vietnamese), outside the model. */
    const translate: string -> Translation
    /** The overlay whose slots this window's signals are connected to. */
    var scanner: TrulyTransparentWindow?
    var scanningActive: bool
    /** The values of the width and height spin boxes. */
    var widthValue: int
    var heightValue: int
    /** Whether each spin box has its signals blocked. */
    var widthBlocked: bool
    var heightBlocked: bool
    var buttonText: string
    var statusText: string
    var displayText: string
    /** Every resize_scanner emission so far, in order. */
    ghost var resizeRequests: seq<(int, int)>
    /** Every text handed to the translator so far, in order. */
    ghost var translated: seq<string>

    ghost predicate Wired()
      reads this
    {
      scanner != null && scanner.panel == this
    }

    /** A spin box never holds a value outside its range. */
    predicate InRange()
      reads this`widthValue, this`heightValue
    {
      MinWidth <= widthValue <= MaxWidth && MinHeight <= heightValue <= MaxHeight
    }

    ghost predicate Valid()
      reads this, scanner
    {
      Wired() && scanner.Valid()
    }

    constructor (translate: string -> Translation)
      ensures this.translate == translate && scanner == null
      ensures scanningActive && buttonText == ButtonLabel(true) && statusText == StatusLabel(true)
      ensures widthValue == 600 && heightValue == 400 && InRange()
      ensures !widthBlocked && !heightBlocked && displayText == ""
      ensures resizeRequests == [] && translated == []
    {
      this.translate := translate;
      scanner := null;
      scanningActive := true;
      widthValue, heightValue := 600, 400;
      widthBlocked, heightBlocked := false, false;
      buttonText := "Pause Scan";
      statusText := "Scanning: Active";
      displayText := "";
      resizeRequests, translated := [], [];
    }

    /** The pause button: flips the state, relabels the button and tells the
        overlay, whose answer brings the status line into line as well. */
    method ToggleScan()
      requires Valid()
      modifies this`scanningActive, this`buttonText, this`statusText, scanner`scanning
      ensures Valid()
      ensures scanningActive == !old(scanningActive)
    {
      scanningActive := !scanningActive;
      buttonText := if !scanningActive then "Resume Scan" else "Pause Scan";
      scanner.SetScanningState(scanningActive);
    }

    /** The slot of the overlay's scan_status_changed signal; emits nothing. */
    method UpdateStatus(isScanning: bool)
      modifies this`scanningActive, this`statusText, this`buttonText
      ensures scanningActive == isScanning
      ensures statusText == StatusLabel(isScanning) && buttonText == ButtonLabel(isScanning)
    {
      scanningActive := isScanning;
      var status := if isScanning then "Active" else "Paused";
      statusText := "Scanning: " + status;
      buttonText := if isScanning then "Pause Scan" else "Resume Scan";
    }

    /** The slot of the overlay's text_detected signal: translate and show the
        translation, or the error the translator raised. */
    method UpdateText(text: string)
      modifies this`translated, this`displayText
      ensures translated == old(translated) + [text]
      ensures displayText == Display(translate(text))
      ensures translate(text).TranslationFailed? ==>
                displayText == "Translation error: " + translate(text).message
    {
      translated := translated + [text];
      var result := translate(text);
      match result {
        case Translated(s) => displayText := s;
        case TranslationFailed(m) => displayText := "Translation error: " + m;
      }
    }

    /** The user edits the width spin box. */
    method EditWidth(v: int)
      requires Valid()
      modifies this`widthValue, this`heightValue, this`widthBlocked, this`heightBlocked, this`resizeRequests
      modifies scanner`width, scanner`height
      ensures Valid()
      ensures widthValue == Clamp(v, MinWidth, MaxWidth) && heightValue == old(heightValue)
      ensures resizeRequests == old(resizeRequests) +
                if widthValue != old(widthValue) then [(widthValue, heightValue)] else []
    {
      SetWidthValue(v);
    }

    /** The user edits the height spin box. */
    method EditHeight(v: int)
      requires Valid()
      modifies this`widthValue, this`heightValue, this`widthBlocked, this`heightBlocked, this`resizeRequests
      modifies scanner`width, scanner`height
      ensures Valid()
      ensures heightValue == Clamp(v, MinHeight, MaxHeight) && widthValue == old(widthValue)
      ensures resizeRequests == old(resizeRequests) +
                if heightValue != old(heightValue) then [(widthValue, heightValue)] else []
    {
      SetHeightValue(v);
    }

    /** The width spin box's setValue: bound the value and, if it changed and
        signals are not blocked, emit valueChanged, which is connected to
        OnSizeChanged. */
    method SetWidthValue(v: int)
      requires Wired() && InRange() && widthBlocked == heightBlocked
      modifies this`widthValue, this`heightValue, this`widthBlocked, this`heightBlocked, this`resizeRequests
      modifies scanner`width, scanner`height
      decreases if widthBlocked then 0 else 5
      ensures InRange() && widthBlocked == old(widthBlocked) && heightBlocked == old(heightBlocked)
      ensures widthValue == Clamp(v, MinWidth, MaxWidth) && heightValue == old(heightValue)
      ensures if old(widthBlocked) || widthValue == old(widthValue)
              then resizeRequests == old(resizeRequests) && unchanged(scanner)
              else resizeRequests == old(resizeRequests) + [(widthValue, heightValue)]
                   && scanner.width == widthValue && scanner.height == heightValue
    {
      var bounded := Clamp(v, MinWidth, MaxWidth);
      if bounded != widthValue {
        widthValue := bounded;
        if !widthBlocked {
          OnSizeChanged();
        }
      }
    }

    /** The height spin box's setValue, as SetWidthValue. */
    method SetHeightValue(v: int)
      requires Wired() && InRange() && widthBlocked == heightBlocked
      modifies this`widthValue, this`heightValue, this`widthBlocked, this`heightBlocked, this`resizeRequests
      modifies scanner`width, scanner`height
      decreases if heightBlocked then 0 else 5
      ensures InRange() && widthBlocked == old(widthBlocked) && heightBlocked == old(heightBlocked)
      ensures heightValue == Clamp(v, MinHeight, MaxHeight) && widthValue == old(widthValue)
      ensures if old(heightBlocked) || heightValue == old(heightValue)
              then resizeRequests == old(resizeRequests) && unchanged(scanner)
              else resizeRequests == old(resizeRequests) + [(widthValue, heightValue)]
                   && scanner.width == widthValue && scanner.height == heightValue
    {
      var bounded := Clamp(v, MinHeight, MaxHeight);
      if bounded != heightValue {
        heightValue := bounded;
        if !heightBlocked {
          OnSizeChanged();
        }
      }
    }

    /** The slot of both spin boxes' valueChanged: emit resize_scanner with
        both current values, once; the overlay's echo changes nothing here. */
    method OnSizeChanged()
      requires Wired() && InRange() && !widthBlocked && !heightBlocked
      modifies this`widthValue, this`heightValue, this`widthBlocked, this`heightBlocked, this`resizeRequests
      modifies scanner`width, scanner`height
      decreases 4
      ensures InRange() && !widthBlocked && !heightBlocked
      ensures widthValue == old(widthValue) && heightValue == old(heightValue)
      ensures resizeRequests == old(resizeRequests) + [(widthValue, heightValue)]
      ensures scanner.width == widthValue && scanner.height == heightValue
    {
      var width := widthValue;
      var height := heightValue;
      resizeRequests := resizeRequests + [(width, height)];
      scanner.SetNewSize(width, height);
    }

    /** The slot of the overlay's size_changed signal: write both spin boxes
        with their signals blocked, so that nothing is emitted back. */
    method UpdateScannerSizeInputs(width: int, height: int)
      requires Wired() && InRange()
      modifies this`widthValue, this`heightValue, this`widthBlocked, this`heightBlocked, this`resizeRequests
      modifies scanner`width, scanner`height
      decreases 1
      ensures InRange() && !widthBlocked && !heightBlocked
      ensures widthValue == Clamp(width, MinWidth, MaxWidth)
      ensures heightValue == Clamp(height, MinHeight, MaxHeight)
      ensures resizeRequests == old(resizeRequests) && unchanged(scanner)
    {
      widthBlocked := true;
      heightBlocked := true;

      SetWidthValue(width);
      SetHeightValue(height);

      widthBlocked := false;
      heightBlocked := false;
    }
  }

  class TrulyTransparentWindow {
    const panel: ResultWindow
    const borderWidth: int
    /** Whether the OCR library could be imported at startup. */
    const ocrAvailable: bool
    /** The window's position on the screen and its size. */
    var x: int
    var y: int
    var width: int
    var height: int
    var scanning: bool
    var lastDetectedText: string

    /** The state after every completed event: the panel's signals reach this
        window, both sides agree on the size and on whether scanning is on,
        and what was emitted so far is well formed. */
    ghost predicate Valid()
      reads this, panel
    {
      && panel.scanner == this
      && borderWidth == 3
      && SizeAgreed()
      && ScanAgreed()
      && LogsValid()
    }

    /** The spin boxes hold this window's size, within their ranges, and
        neither is left with its signals blocked. */
    ghost predicate SizeAgreed()
      reads this`width, this`height
      reads panel`widthValue, panel`heightValue, panel`widthBlocked, panel`heightBlocked
    {
      && panel.InRange() && !panel.widthBlocked && !panel.heightBlocked
      && width == panel.widthValue && height == panel.heightValue
    }

    /** Both windows agree on whether scanning is on, and the button and the
        status line say so. */
    ghost predicate ScanAgreed()
      reads this`scanning, panel`scanningActive, panel`buttonText, panel`statusText
    {
      && scanning == panel.scanningActive
      && panel.buttonText == ButtonLabel(scanning)
      && panel.statusText == StatusLabel(scanning)
    }

    /** What was emitted so far: every resize request lies within the spin
        box ranges; the texts sent to the panel form a well-formed log whose
        latest entry is lastDetectedText, which is stripped. */
    ghost predicate LogsValid()
      reads this`lastDetectedText, panel`translated, panel`resizeRequests
    {
      && (forall k :: 0 <= k < |panel.resizeRequests| ==> InBounds(panel.resizeRequests[k]))
      && SentLog(panel.translated, lastDetectedText)
      && Strip(lastDetectedText) == lastDetectedText
    }

    /** Creation: connect the signals both ways, place the window at
        (100, 100) with size 600x400 and announce that size to the panel. */
    constructor (panel: ResultWindow, ocrAvailable: bool)
      requires panel.scanner == null && panel.InRange()
      requires panel.resizeRequests == [] && panel.translated == []
      requires panel.scanningActive
      requires panel.buttonText == ButtonLabel(true) && panel.statusText == StatusLabel(true)
      modifies panel`scanner, panel`widthValue, panel`heightValue, panel`widthBlocked, panel`heightBlocked
      modifies panel`resizeRequests
      ensures Valid() && this.panel == panel && this.ocrAvailable == ocrAvailable
      ensures panel.resizeRequests == old(panel.resizeRequests)
      ensures x == 100 && y == 100 && width == 600 && height == 400
      ensures scanning && lastDetectedText == ""
    {
      this.panel := panel;
      this.ocrAvailable := ocrAvailable;
      borderWidth := 3;
      lastDetectedText := "";
      scanning := true;
      x, y, width, height := 100, 100, 600, 400;
      new;
      panel.scanner := this;
      panel.UpdateScannerSizeInputs(width, height);
    }

    /** The area handed to the screen grabber. */
    function CaptureArea(): BBox
      reads this
    {
      CaptureBox(x, y, width, height, borderWidth)
    }

    /** The slot of the panel's toggle_scanning signal: it always re-emits
        scan_status_changed, whose slot emits nothing, so the chain ends. */
    method SetScanningState(isScanning: bool)
      requires panel.scanner == this
      modifies this`scanning, panel`scanningActive, panel`statusText, panel`buttonText
      ensures scanning == isScanning && panel.scanningActive == isScanning
      ensures panel.buttonText == ButtonLabel(isScanning) && panel.statusText == StatusLabel(isScanning)
    {
      scanning := isScanning;
      panel.UpdateStatus(isScanning);
    }

    /** The slot of the panel's resize_scanner signal. Resizing to another size
        raises a resize event; resizing to the current size raises none. */
    method SetNewSize(w: int, h: int)
      requires panel.scanner == this && panel.InRange()
      modifies this`width, this`height
      modifies panel`widthValue, panel`heightValue, panel`widthBlocked, panel`heightBlocked, panel`resizeRequests
      decreases 3
      ensures width == w && height == h
      ensures panel.InRange() && panel.resizeRequests == old(panel.resizeRequests)
      ensures if w == old(width) && h == old(height) then unchanged(panel)
              else panel.widthValue == Clamp(w, MinWidth, MaxWidth)
                   && panel.heightValue == Clamp(h, MinHeight, MaxHeight)
                   && !panel.widthBlocked && !panel.heightBlocked
    {
      if w != width || h != height {
        width, height := w, h;
        ResizeEvent();
      }
    }

    /** The resize event handler: emit size_changed with the new size. */
    method ResizeEvent()
      requires panel.scanner == this && panel.InRange()
      modifies this`width, this`height
      modifies panel`widthValue, panel`heightValue, panel`widthBlocked, panel`heightBlocked, panel`resizeRequests
      decreases 2
      ensures unchanged(this)
      ensures panel.InRange() && !panel.widthBlocked && !panel.heightBlocked
      ensures panel.widthValue == Clamp(width, MinWidth, MaxWidth)
      ensures panel.heightValue == Clamp(height, MinHeight, MaxHeight)
      ensures panel.resizeRequests == old(panel.resizeRequests)
    {
      panel.UpdateScannerSizeInputs(width, height);
    }

    /** The window is dragged to a new position; the size is not touched and
        nothing is emitted. */
    method Move(newX: int, newY: int)
      requires Valid()
      modifies this`x, this`y
      ensures Valid() && x == newX && y == newY
    {
      x, y := newX, newY;
    }

    /** A key press: Alt+P flips scanning and tells the panel. */
    method KeyPressEvent(key: Key, modifiers: set<Modifier>)
      requires Valid()
      modifies this`scanning, panel`scanningActive, panel`statusText, panel`buttonText
      ensures Valid()
      ensures scanning == if IsPauseShortcut(key, modifiers) then !old(scanning) else old(scanning)
    {
      if key == KeyP && modifiers == {Alt} {
        scanning := !scanning;
        panel.UpdateStatus(scanning);
      }
    }

    /** One timer tick. `read` grabs the given screen area and runs OCR on
        it; a failure stands for an exception from either, which the tick
        catches. Only a non-blank text that differs from the last one is
        remembered and sent to the panel; a failed translation does not undo
        that. */
    method DetectText(read: BBox -> OcrResult)
      requires Valid()
      modifies this`lastDetectedText, panel`translated, panel`displayText
      ensures Valid()
      ensures var sent := if scanning && ocrAvailable
                          then Accept(old(lastDetectedText), read(CaptureArea())) else None;
              match sent
              case None =>
                lastDetectedText == old(lastDetectedText) && unchanged(panel)
              case Some(t) =>
                && lastDetectedText == t
                && panel.translated == old(panel.translated) + [t]
                && panel.displayText == Display(panel.translate(t))
    {
      if !ocrAvailable || !scanning {
        return;
      }
      var box := CaptureArea();
      var result := read(box);
      match result {
        case Failed(_) =>
        case Recognized(text) =>
          var stripped := Strip(text);
          if stripped != [] {
            if stripped != lastDetectedText {
              StripIdempotent(text);
              SentLogExtends(panel.translated, lastDetectedText, stripped);
              lastDetectedText := stripped;
              panel.UpdateText(lastDetectedText);
            }
          }
      }
    }
  }

  /** While the windows are consistent, the captured area is never empty. */
  lemma CaptureAreaNonEmpty(w: TrulyTransparentWindow)
    requires w.Valid()
    ensures NonEmpty(w.CaptureArea())
  {
  }
}

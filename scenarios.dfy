/** Clients of the two windows: each one starts the application as its main
    function does and checks, from the methods' contracts alone, what a user
    sees in one situation. */
module Scenarios {
  import opened Text
  import opened Detection
  import opened ScreenTranslator

  /** The same text on two ticks is translated once, even when the
      translator fails and the OCR output differs only in whitespace. */
  method RepeatedTextTranslatedOnce() {
    var panel := new ResultWindow((s: string) => TranslationFailed("connection refused"));
    var overlay := new TrulyTransparentWindow(panel, true);
    var first := (b: BBox) => Recognized("Hello");
    assert Strip("Hello") == "Hello" by { StripUnique("Hello", 0, 5); }
    assert Accept("", first(overlay.CaptureArea())) == Some("Hello");
    overlay.DetectText(first);
    assert panel.translated == ["Hello"];

    var second := (b: BBox) => Recognized(" " + "Hello" + "\n");
    assert Accept("Hello", second(overlay.CaptureArea())) == None by {
      StripIgnoresPadding(" ", "Hello", "\n");
    }
    overlay.DetectText(second);
    assert panel.translated == ["Hello"];
  }

  /** A failed translation is shown as an error, and the text still counts
      as sent. */
  method FailedTranslationShown() {
    var panel := new ResultWindow((s: string) => TranslationFailed("connection refused"));
    var overlay := new TrulyTransparentWindow(panel, true);
    assert Strip("Hello") == "Hello" by { StripUnique("Hello", 0, 5); }
    overlay.DetectText((b: BBox) => Recognized("Hello"));
    assert overlay.lastDetectedText == "Hello";
    assert panel.displayText == "Translation error: " + "connection refused";
  }

  /** A tick whose screen grab or OCR fails sends nothing. */
  method FailedCaptureSendsNothing() {
    var panel := new ResultWindow((s: string) => Translated(s));
    var overlay := new TrulyTransparentWindow(panel, true);
    overlay.DetectText((b: BBox) => Failed("screen grab failed"));
    assert panel.translated == [] && overlay.lastDetectedText == "";
  }

  /** Once paused from the panel, ticks send nothing. */
  method PausedTickSendsNothing() {
    var panel := new ResultWindow((s: string) => Translated(s));
    var overlay := new TrulyTransparentWindow(panel, true);
    panel.ToggleScan();
    assert !overlay.scanning && panel.buttonText == ButtonLabel(false);
    overlay.DetectText((b: BBox) => Recognized("Hello"));
    assert panel.translated == [];
  }

  /** A width below the spin box's range is bounded to 100, the overlay is
      resized once, and no second resize request comes back. */
  method SmallWidthIsBounded() {
    var panel := new ResultWindow((s: string) => Translated(s));
    var overlay := new TrulyTransparentWindow(panel, true);
    panel.EditWidth(50);
    assert panel.resizeRequests == [(100, 400)];
    assert overlay.width == 100 && overlay.height == 400;
    panel.EditWidth(50);
    assert panel.resizeRequests == [(100, 400)];
  }

  /** The keyboard shortcut and the pause button leave both windows agreeing. */
  method ShortcutAndButtonAgree() {
    var panel := new ResultWindow((s: string) => Translated(s));
    var overlay := new TrulyTransparentWindow(panel, false);
    overlay.KeyPressEvent(KeyP, {Alt});
    assert !panel.scanningActive && panel.statusText == StatusLabel(false);
    overlay.KeyPressEvent(KeyP, {Alt, Control});
    assert !overlay.scanning;
    panel.ToggleScan();
    assert overlay.scanning && panel.buttonText == ButtonLabel(true);
  }
}

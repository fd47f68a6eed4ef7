/**
 * The source superscript (app/components/SourceIndicator.tsx): a tooltip
 * whose link says "Open PDF" for PDF sources, opened and closed by a click,
 * Escape and focus leaving the wrapper.
 */
module SourceIndicator {
  import opened JsString

  /** isPdf: the lower-cased URL contains ".pdf" or ends with "/pdf". */
  predicate IsPdf(sourceUrl: string) {
    var normalizedUrl := ToLower(sourceUrl);
    Includes(normalizedUrl, ".pdf") || EndsWith(normalizedUrl, "/pdf")
  }

  /** The link label. */
  function LinkLabel(sourceUrl: string): (text: string)
    ensures text == "Open PDF" <==> IsPdf(sourceUrl)
    ensures !IsPdf(sourceUrl) ==> text == "Open source"
  {
    if IsPdf(sourceUrl) then "Open PDF" else "Open source"
  }

  /** The check ignores ASCII case: URLs equal up to case are both PDFs or
      neither. */
  lemma IsPdfIgnoresCase(a: string, b: string)
    requires EqualsIgnoreCase(a, b)
    ensures IsPdf(a) <==> IsPdf(b)
  {
  }

  /** Lower-casing a URL does not change whether it is a PDF. */
  lemma IsPdfOfLower(sourceUrl: string)
    ensures IsPdf(ToLower(sourceUrl)) <==> IsPdf(sourceUrl)
  {
    ToLowerIdempotent(sourceUrl);
  }

  /** A URL with a ".pdf" in any case, anywhere, is a PDF. */
  lemma PdfExtension(before: string, extension: string, after: string)
    requires ToLower(extension) == ".pdf"
    ensures IsPdf(before + extension + after)
  {
    var url := before + extension + after;
    ToLowerConcat(before + extension, after);
    ToLowerConcat(before, extension);
    var lower := ToLower(url);
    assert lower == ToLower(before) + ".pdf" + ToLower(after);
    assert lower[|before|..|before| + 4] == ".pdf";
    assert OccursAt(lower, ".pdf", |before|);
    IncludesAt(lower, ".pdf");
  }

  /** A URL ending in "/pdf" in any case is a PDF. */
  lemma PdfSuffix(before: string, suffix: string)
    requires ToLower(suffix) == "/pdf"
    ensures IsPdf(before + suffix)
  {
    ToLowerConcat(before, suffix);
    var lower := ToLower(before + suffix);
    assert lower[|lower| - 4..] == "/pdf";
  }

  /** A URL without a '.' or a '/' is never a PDF. */
  lemma NoDotNoSlash(sourceUrl: string)
    requires '.' !in sourceUrl && '/' !in sourceUrl
    ensures !IsPdf(sourceUrl)
  {
    var lower := ToLower(sourceUrl);
    assert '.' !in lower && '/' !in lower by {
      forall i | 0 <= i < |lower| ensures lower[i] != '.' && lower[i] != '/' {
        assert sourceUrl[i] in sourceUrl;
      }
    }
    IncludesAt(lower, ".pdf");
    forall i | 0 <= i <= |lower| - 4 ensures !OccursAt(lower, ".pdf", i) {
      assert lower[i..i + 4][0] == lower[i] != '.';
    }
    if |lower| >= 4 {
      assert lower[|lower| - 4..][0] == lower[|lower| - 4] != '/';
    }
  }

  /** The events that change the tooltip's open state: a click on the
      button, a key pressed on it, and focus leaving an element of the
      wrapper for `relatedInside` (whether the newly focused element lies
      inside the wrapper; no element counts as outside). */
  datatype IndicatorEvent = Click | KeyDown(key: string) | Blur(relatedInside: bool)

  /** The open state after an event. */
  function OpenAfter(open: bool, event: IndicatorEvent): (next: bool)
    ensures event == Click ==> next == !open
    ensures event.KeyDown? ==> (next <==> open && event.key != "Escape")
    ensures event.Blur? ==> (next <==> open && event.relatedInside)
  {
    match event
    case Click => !open
    case KeyDown(key) => if key == "Escape" then false else open
    case Blur(relatedInside) => if relatedInside then open else false
  }

  /** Only a click opens the tooltip. */
  lemma OnlyClickOpens(open: bool, event: IndicatorEvent)
    requires !open && OpenAfter(open, event)
    ensures event == Click
  {
  }

  /** Two clicks leave the tooltip as it was. */
  lemma ClickTwice(open: bool)
    ensures OpenAfter(OpenAfter(open, Click), Click) == open
  {
  }

  /** The component's state. */
  class SourceIndicator {
    const sourceUrl: string
    var open: bool

    constructor(sourceUrl: string)
      ensures this.sourceUrl == sourceUrl && !open
    {
      this.sourceUrl := sourceUrl;
      open := false;
    }

    /** The button's onClick. */
    method OnClick()
      modifies this
      ensures open == OpenAfter(old(open), Click)
    {
      open := !open;
    }

    /** The button's onKeyDown. */
    method OnKeyDown(key: string)
      modifies this
      ensures open == OpenAfter(old(open), KeyDown(key))
    {
      if key == "Escape" {
        open := false;
      }
    }

    /** The wrapper's onBlur. */
    method OnBlur(relatedInside: bool)
      modifies this
      ensures open == OpenAfter(old(open), Blur(relatedInside))
    {
      if !relatedInside {
        open := false;
      }
    }
  }
}

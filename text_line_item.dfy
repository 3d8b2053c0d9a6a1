/** The one-line text item of nfb_studio/scheme/text_line_item.py: its stored
    text and modes, the newline guard, and where its bounding rectangle is put. */
module TextLineItems {
  import Common

  /** Horizontal alignment flags (Qt's AlignLeft, AlignRight, AlignHCenter). */
  const AlignLeft: bv32 := 0x1
  const AlignRight: bv32 := 0x2
  const AlignHCenter: bv32 := 0x4

  /** Qt's ElideRight: the ellipsis goes at the end of the text. */
  const ElideRight: int := 1

  /** What the item takes from the font: the width of a text, the text elided
      with a mode to a width, and the small widening applied to every bounding
      rectangle. These are library computations outside this model. */
  datatype Metrics = Metrics(width: string -> real, elide: (string, int, real) -> string, correction: real)

  /** The horizontal extent of the bounding rectangle. */
  datatype Rect = Rect(left: real, width: real)

  /** The left edge that puts the origin where the alignment asks: the left flag
      wins over the right flag, and with neither the rectangle is centred. */
  function OriginLeft(align: bv32, width: real): (left: real)
    ensures align & AlignLeft != 0 ==> left == 0.0
    ensures align & AlignLeft == 0 && align & AlignRight != 0 ==> left + width == 0.0
    ensures align & AlignLeft == 0 && align & AlignRight == 0 ==> left + width / 2.0 == 0.0
  {
    if align & AlignLeft != 0 then 0.0
    else if align & AlignRight != 0 then -width
    else -width / 2.0
  }

  /** The origin lies on the rectangle whatever the alignment, when the width is
      not negative. */
  lemma OriginInside(align: bv32, width: real)
    requires width >= 0.0
    ensures OriginLeft(align, width) <= 0.0 <= OriginLeft(align, width) + width
  {
  }

  /** AlignHCenter needs no bit of its own: any mode without the left and right
      flags is centred, and a mode with both is left-aligned. */
  lemma AlignmentPrecedence(width: real)
    ensures OriginLeft(AlignHCenter, width) == -width / 2.0
    ensures OriginLeft(AlignLeft | AlignRight, width) == 0.0
    ensures OriginLeft(AlignRight | AlignHCenter, width) == -width
  {
  }

  /** The width the text is elided to: the maximum width when there is one,
      otherwise the full text's width. */
  function ElideWidth(m: Metrics, text: string, maxWidth: Common.Option<real>): real
  {
    match maxWidth
    case None => m.width(text)
    case Some(w) => w
  }

  /** The text as drawn. */
  function Elided(m: Metrics, text: string, mode: int, maxWidth: Common.Option<real>): string
  {
    m.elide(text, mode, ElideWidth(m, text, maxWidth))
  }

  /** The bounding rectangle: as wide as the drawn text plus the correction on
      both sides, and placed by the alignment rule. */
  function Layout(m: Metrics, elided: string, align: bv32): (r: Rect)
    ensures r.width == m.width(elided) + 2.0 * m.correction
    ensures r.left == OriginLeft(align, r.width)
  {
    var w := m.width(elided) + 2.0 * m.correction;
    Rect(OriginLeft(align, w), w)
  }

  class TextLineItem {
    const metrics: Metrics
    var text: string
    var elidedText: string
    var elideMode: int
    var alignMode: bv32
    var maxWidth: Common.Option<real>
    var boundingRect: Rect

    /** The drawn text and the rectangle are those `adjust` computes from the
        stored fields. */
    predicate Adjusted()
      reads this
    {
      elidedText == Elided(metrics, text, elideMode, maxWidth) &&
      boundingRect == Layout(metrics, elidedText, alignMode)
    }

    /** `text or ""`: no text gives the empty string. The text is not checked for
        newlines here. */
    constructor (text: Common.Option<string>, metrics: Metrics)
      ensures this.metrics == metrics
      ensures this.text == (if text.Some? then text.value else "")
      ensures elideMode == ElideRight && alignMode == AlignLeft && maxWidth == Common.None
      ensures Adjusted()
      ensures boundingRect.left == 0.0
    {
      this.metrics := metrics;
      var t := if text.Some? then text.value else "";
      this.text := t;
      elidedText := t;
      elideMode := ElideRight;
      alignMode := AlignLeft;
      maxWidth := Common.None;
      boundingRect := Rect(0.0, 0.0);
      new;
      Adjust();
    }

    /** Recompute the drawn text and the rectangle, step by step: the full
        text's width, replaced by the maximum width if there is one; the text
        elided to it; the drawn text's width widened by the correction; then the
        alignment rule. */
    method Adjust()
      modifies this
      ensures text == old(text) && elideMode == old(elideMode) && alignMode == old(alignMode)
      ensures maxWidth == old(maxWidth)
      ensures Adjusted()
    {
      var rect := Rect(0.0, metrics.width(text));
      if maxWidth.Some? {
        rect := rect.(width := maxWidth.value);
      }
      elidedText := metrics.elide(text, elideMode, rect.width);
      rect := Rect(0.0, metrics.width(elidedText));
      rect := Rect(rect.left - metrics.correction, rect.width + 2.0 * metrics.correction);
      if alignMode & AlignLeft != 0 {
        rect := rect.(left := 0.0);
      } else if alignMode & AlignRight != 0 {
        rect := rect.(left := -rect.width);
      } else {
        rect := rect.(left := -rect.width / 2.0);
      }
      boundingRect := rect;
    }

    /** A text with a newline is refused with ValueError and nothing changes;
        any other text is stored and the item adjusted. */
    method SetText(t: string) returns (r: Common.Outcome)
      modifies this
      ensures r == Common.Fail(Common.ValueError) <==> '\n' in t
      ensures r.Pass? <==> '\n' !in t
      ensures r.Fail? ==> unchanged(this)
      ensures r.Pass? ==> text == t && Adjusted()
      ensures elideMode == old(elideMode) && alignMode == old(alignMode) && maxWidth == old(maxWidth)
    {
      if '\n' in t {
        return Common.Fail(Common.ValueError);
      }
      text := t;
      Adjust();
      r := Common.Pass;
    }

    method SetElideMode(mode: int)
      modifies this
      ensures elideMode == mode && Adjusted()
      ensures text == old(text) && alignMode == old(alignMode) && maxWidth == old(maxWidth)
    {
      elideMode := mode;
      Adjust();
    }

    method SetAlignMode(mode: bv32)
      modifies this
      ensures alignMode == mode && Adjusted()
      ensures text == old(text) && elideMode == old(elideMode) && maxWidth == old(maxWidth)
    {
      alignMode := mode;
      Adjust();
    }

    /** `None` means unlimited width. */
    method SetMaximumWidth(width: Common.Option<real>)
      modifies this
      ensures maxWidth == width && Adjusted()
      ensures text == old(text) && elideMode == old(elideMode) && alignMode == old(alignMode)
    {
      maxWidth := width;
      Adjust();
    }

    function Text(): string
      reads this
    {
      text
    }

    function ElidedText(): string
      reads this
    {
      elidedText
    }

    function ElideMode(): int
      reads this
    {
      elideMode
    }

    function AlignMode(): bv32
      reads this
    {
      alignMode
    }

    function MaximumWidth(): Common.Option<real>
      reads this
    {
      maxWidth
    }

    function BoundingRect(): Rect
      reads this
    {
      boundingRect
    }
  }
}

/**
 * The label format measures lengths in twips (1440 per inch); the drawing
 * surface measures them in PDF points (72 per inch).
 */
module Units {

  /** Twips per inch. */
  const Twip: real := 1440.0

  /** PDF points per inch. */
  const PdfPoint: real := 72.0

  /** Twips to points, in the order the object bounds are converted. */
  function TwipsToPoints(v: real): (p: real)
    ensures p * 20.0 == v
    ensures v >= 0.0 ==> 0.0 <= p <= v
  {
    v * PdfPoint / Twip
  }

  /** Twips to points, in the order a rectangle's LineWidth is converted. */
  function LineWidthToPoints(v: real): (p: real)
    ensures p * 20.0 == v
    ensures p == TwipsToPoints(v)
  {
    v / Twip * PdfPoint
  }

  /** The inverse conversion: points back to twips. */
  function PointsToTwips(p: real): real
  {
    p * Twip / PdfPoint
  }

  /** The two conversions are mutually inverse. */
  lemma RoundTrip(v: real, p: real)
    ensures PointsToTwips(TwipsToPoints(v)) == v
    ensures TwipsToPoints(PointsToTwips(p)) == p
  {
  }
}

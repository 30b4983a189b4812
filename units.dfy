/** Centimetre / millimetre conversion used by the fit engine. */
module Units {

  /** Centimetres to millimetres. */
  function CmToMm(cm: real): (mm: real)
    ensures mm / 10.0 == cm
  {
    cm * 10.0
  }

  /** Identity on millimetre values, kept for readability at call sites. */
  function Mm(value: real): (r: real)
    ensures r == value
  {
    value
  }

  /** Millimetres to centimetres. */
  function MmToCm(mm: real): (cm: real)
    ensures cm * 10.0 == mm
  {
    mm / 10.0
  }

  /** The two conversions are mutually inverse. */
  lemma RoundTrip(x: real)
    ensures MmToCm(CmToMm(x)) == x
    ensures CmToMm(MmToCm(x)) == x
  {
  }

  /** CmToMm is additive and strictly monotone. */
  lemma CmToMmLinear(a: real, b: real)
    ensures CmToMm(a + b) == CmToMm(a) + CmToMm(b)
    ensures a < b ==> CmToMm(a) < CmToMm(b)
  {
  }
}

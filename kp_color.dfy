/**
 * Colour banding of the planetary K-index (`utils/get-kp-color.js`).
 *
 * The source is a chain of early returns on the thresholds 2, 3, ..., 9; an
 * index above 9 falls through every test and yields `undefined`. The chain is
 * modelled as written (`GetKpColor`) and compared with an explicit ordered
 * bucket table: the palette `Palette` indexed by the band number `Band`.
 */
module KpColor {
  import opened Wrappers

  /** The eight colours, lowest band first. */
  const Palette: seq<string> :=
    ["#1e3731fa", "#3c6322fa", "#919733fa", "#804b19fa",
     "#58212afa", "#40253bfa", "#232d40fa", "#000000fa"]

  /** The colour the source returns for `kIndex`, or `None` for `undefined`. */
  function GetKpColor(kIndex: real): (colour: Option<string>)
    ensures colour.Some? <==> kIndex <= 9.0
    ensures colour.Some? ==> colour.value in Palette
  {
    if kIndex <= 2.0 then Some("#1e3731fa")
    else if kIndex <= 3.0 then Some("#3c6322fa")
    else if kIndex <= 4.0 then Some("#919733fa")
    else if kIndex <= 5.0 then Some("#804b19fa")
    else if kIndex <= 6.0 then Some("#58212afa")
    else if kIndex <= 7.0 then Some("#40253bfa")
    else if kIndex <= 8.0 then Some("#232d40fa")
    else if kIndex <= 9.0 then Some("#000000fa")
    else None
  }

  /** The least integer not below `x`. */
  function Ceil(x: real): (c: int)
    ensures (c - 1) as real < x <= c as real
  {
    -((-x).Floor)
  }

  /**
   * Band number 1..8 of an index that has a colour: band 1 is everything up
   * to 2, and band b > 1 is the half-open interval (b, b + 1].
   */
  function Band(kIndex: real): (b: int)
    requires kIndex <= 9.0
    ensures 1 <= b <= 8
    ensures b == 1 <==> kIndex <= 2.0
    ensures b > 1 ==> (b as real) < kIndex <= (b + 1) as real
  {
    if kIndex <= 2.0 then 1 else Ceil(kIndex) - 1
  }

  /** The chain of thresholds agrees with the bucket table. */
  lemma ColourFollowsBand(kIndex: real)
    requires kIndex <= 9.0
    ensures GetKpColor(kIndex) == Some(Palette[Band(kIndex) - 1])
  {
  }

  /** Everything up to 2, negative indices included, is drawn in the first colour. */
  lemma LowIndicesFirstColour(kIndex: real)
    requires kIndex <= 2.0
    ensures GetKpColor(kIndex) == Some("#1e3731fa")
  {
  }

  /** For k in 3..9, an index in (k - 1, k] gets the colour of band k - 1. */
  lemma BandBoundary(k: int, kIndex: real)
    requires 3 <= k <= 9
    requires (k - 1) as real < kIndex <= k as real
    ensures GetKpColor(kIndex) == Some(Palette[k - 2])
  {
  }

  /** Above 9 no branch fires and the result is `undefined`. */
  lemma NoColourAboveNine(kIndex: real)
    requires kIndex > 9.0
    ensures GetKpColor(kIndex) == None
  {
  }

  /** A larger index never lands in a lower band. */
  lemma BandMonotonic(a: real, b: real)
    requires a <= b <= 9.0
    ensures Band(a) <= Band(b)
  {
  }

  /** The colour's position in the palette grows with the index. */
  lemma ColourMonotonic(a: real, b: real)
    requires a <= b <= 9.0
    ensures exists i, j ::
              && 0 <= i <= j < |Palette|
              && GetKpColor(a) == Some(Palette[i])
              && GetKpColor(b) == Some(Palette[j])
  {
    ColourFollowsBand(a);
    ColourFollowsBand(b);
    BandMonotonic(a, b);
    var i, j := Band(a) - 1, Band(b) - 1;
    assert GetKpColor(a) == Some(Palette[i]) && GetKpColor(b) == Some(Palette[j]);
  }

  /** Integers up to 2 (0, 1 and 2 among them) share the first band; an integer k in 3..9 lands in band k - 1. */
  lemma IntegerBands(n: int)
    requires n <= 9
    ensures Band(n as real) == (if n <= 2 then 1 else n - 1)
    ensures GetKpColor(n as real) == Some(Palette[if n <= 2 then 0 else n - 2])
  {
  }

  /** The palette holds eight distinct colours and each of them is produced. */
  lemma EightDistinctColours()
    ensures |Palette| == 8
    ensures forall i, j :: 0 <= i < j < |Palette| ==> Palette[i] != Palette[j]
    ensures forall i :: 0 <= i < |Palette| ==> GetKpColor((i + 2) as real) == Some(Palette[i])
  {
  }

  /** Two indices that have a colour share it exactly when they share a band. */
  lemma SameColourSameBand(a: real, b: real)
    requires a <= 9.0 && b <= 9.0
    ensures GetKpColor(a) == GetKpColor(b) <==> Band(a) == Band(b)
  {
  }
}

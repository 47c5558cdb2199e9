/** Index clamping used to place samples into the heat-map grid. */
module MatrixUtil {

  /** `normalizeIndex`: `min` below the range, `max` above it, the index itself inside. */
  function NormalizeIndex(index: int, min: int, max: int): (r: int)
    ensures index < min ==> r == min
    ensures min <= index && max < index ==> r == max
    ensures min <= index <= max ==> r == index
    ensures min <= max ==> min <= r <= max
  {
    if index < min then min
    else if index > max then max
    else index
  }

  /** Clamping a clamped index changes nothing. */
  lemma NormalizeIndexIdempotent(index: int, min: int, max: int)
    requires min <= max
    ensures NormalizeIndex(NormalizeIndex(index, min, max), min, max) == NormalizeIndex(index, min, max)
  {
  }

  /** Clamping is monotone: it never reorders two indices. */
  lemma NormalizeIndexMonotone(i: int, j: int, min: int, max: int)
    requires i <= j && min <= max
    ensures NormalizeIndex(i, min, max) <= NormalizeIndex(j, min, max)
  {
  }
}

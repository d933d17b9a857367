/** src/lib/utils/validation/index.ts: `maskKey`, how a secret key is shown in lists. */
module KeyMask {

  /** Six bullets (U+2022). */
  const Mask := "\U{2022}\U{2022}\U{2022}\U{2022}\U{2022}\U{2022}"

  /** `maskKey(key)`: short keys are hidden entirely; longer ones keep four characters at each end. */
  function MaskKey(key: string): (r: string)
    ensures |key| <= 8 ==> r == Mask
    ensures |key| > 8 ==> |r| == 14 && r[..4] == key[..4] && r[4..10] == Mask && r[10..] == key[|key| - 4..]
  {
    if key == [] || |key| <= 8 then Mask
    else key[..4] + Mask + key[|key| - 4..]
  }

  /** The characters of `r` not covered by the bullets come from the key: at most eight, and none
      from the middle of the key. */
  lemma MaskRevealsAtMostEight(key: string)
    ensures |MaskKey(key)| - |Mask| <= 8
    ensures |key| > 8 ==> forall i :: 0 <= i < |MaskKey(key)| && !(4 <= i < 10) ==>
      MaskKey(key)[i] == (if i < 4 then key[i] else key[|key| - 14 + i])
  {
  }

  /** Two keys that agree on their first and last four characters mask alike. */
  lemma MaskDependsOnlyOnEnds(a: string, b: string)
    requires |a| > 8 && |b| > 8
    requires a[..4] == b[..4] && a[|a| - 4..] == b[|b| - 4..]
    ensures MaskKey(a) == MaskKey(b)
  {
  }
}

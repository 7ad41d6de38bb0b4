/** The decision rules applied to the target source's enabled flag: the
    threshold rule of `blur` and the one-sided rule of the disable button.
    Each rule is given by the writes it issues after reading the flag once. */
module Toggle {

  /** The writes `blur(pred)` issues when the flag it read is `blured`. */
  function BlurWrites(blured: bool, pred: real, threshold: real): seq<bool>
  {
    (if blured && pred <= threshold then [false] else []) +
    (if !blured && pred > threshold then [true] else [])
  }

  /** The writes the disable button issues when the flag it read is `enabled`. */
  function DisableWrites(enabled: bool): seq<bool>
  {
    if enabled then [false] else []
  }

  /** The flag after `writes`, starting from `flag`. */
  function Apply(flag: bool, writes: seq<bool>): bool
  {
    if writes == [] then flag else writes[|writes| - 1]
  }

  /** `blur` issues at most one write, and only one that changes the flag. */
  lemma BlurWritesAtMostOnce(blured: bool, pred: real, threshold: real)
    ensures |BlurWrites(blured, pred, threshold)| <= 1
    ensures forall i :: 0 <= i < |BlurWrites(blured, pred, threshold)| ==>
      BlurWrites(blured, pred, threshold)[i] != blured
  {
  }

  /** The threshold rule, transition by transition; a prediction equal to the
      threshold always ends disabled. */
  lemma BlurTransitions(blured: bool, pred: real, threshold: real)
    ensures blured && pred <= threshold ==> !Apply(blured, BlurWrites(blured, pred, threshold))
    ensures !blured && pred > threshold ==> Apply(blured, BlurWrites(blured, pred, threshold))
    ensures (blured && pred > threshold) || (!blured && pred <= threshold) ==>
      Apply(blured, BlurWrites(blured, pred, threshold)) == blured &&
      BlurWrites(blured, pred, threshold) == []
    ensures pred == threshold ==> !Apply(blured, BlurWrites(blured, pred, threshold))
  {
  }

  /** Level-triggered comparator: the resulting flag depends only on the
      prediction, not on the flag before. */
  lemma BlurIsLevel(blured: bool, pred: real, threshold: real)
    ensures Apply(blured, BlurWrites(blured, pred, threshold)) == (pred > threshold)
  {
  }

  /** Applying `blur` twice with the same prediction gives the flag applying it
      once gives, and the second call writes nothing. */
  lemma {:induction false} BlurIdempotent(blured: bool, pred: real, threshold: real)
    ensures var once := Apply(blured, BlurWrites(blured, pred, threshold));
      BlurWrites(once, pred, threshold) == [] &&
      Apply(once, BlurWrites(once, pred, threshold)) == once
  {
    BlurIsLevel(blured, pred, threshold);
  }

  /** The disable button leaves the flag off and writes only if it was on. */
  lemma DisableLeavesDisabled(enabled: bool)
    ensures !Apply(enabled, DisableWrites(enabled))
    ensures DisableWrites(enabled) != [] <==> enabled
  {
  }
}

/** The progress bar, `src/components/ProgressBar.jsx`: the displayed percentage and when its
    label and percentage text appear. */
module ProgressBar {
  import opened Js

  /** `Math.min(100, Math.max(0, progress))` */
  function Clamp(progress: real): (p: real)
    ensures 0.0 <= p <= 100.0
    ensures 0.0 <= progress <= 100.0 ==> p == progress
    ensures progress < 0.0 ==> p == 0.0
    ensures progress > 100.0 ==> p == 100.0
  {
    var atLeastZero := if progress > 0.0 then progress else 0.0;
    if atLeastZero < 100.0 then atLeastZero else 100.0
  }

  /** Clamping twice is clamping once, and clamping keeps the order of progress values. */
  lemma ClampIdempotentMonotone(a: real, b: real)
    ensures Clamp(Clamp(a)) == Clamp(a)
    ensures a <= b ==> Clamp(a) <= Clamp(b)
  {
  }

  /** The label row is drawn only for a truthy label. */
  predicate ShowLabel(labelText: Option<string>) {
    labelText.Some? && labelText.value != ""
  }

  /** The percentage text sits inside the label row; `showPercentage` defaults to true. */
  predicate ShowPercentageText(labelText: Option<string>, showPercentage: bool := true) {
    ShowLabel(labelText) && showPercentage
  }

  lemma PercentageNeedsLabel(labelText: Option<string>, showPercentage: bool)
    ensures ShowPercentageText(labelText, showPercentage) ==> ShowLabel(labelText)
    ensures ShowPercentageText(labelText) <==> ShowLabel(labelText)
    ensures !ShowPercentageText(None, showPercentage) && !ShowPercentageText(Some(""), showPercentage)
  {
  }
}

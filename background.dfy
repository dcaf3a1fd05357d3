/** `update_bg_pos` / `update_bg`: the background picture scrolls sideways with the curve
    and vertically with the pitch of the segment under the camera. `bg_x` wraps into one
    texture width, `bg_y` is clamped to `[-1, 1]` and drifts back to 0 on flat road. */
module Background {
  import opened Numeric

  /** The final two `if`s of `update_bg_pos`. */
  function Clamp(v: real): (r: real)
    ensures -1.0 <= r <= 1.0
    ensures -1.0 <= v <= 1.0 ==> r == v
    ensures v < -1.0 ==> r == -1.0
    ensures v > 1.0 ==> r == 1.0
  {
    if v < -1.0 then -1.0 else if v > 1.0 then 1.0 else v
  }

  lemma PositiveRatio(spd: real, spdMax: real)
    requires spd > 0.0 && spdMax > 0.0
    ensures spd / spdMax > 0.0
  {
    if spd / spdMax <= 0.0 {
      ScaleAboveEq(spd, spdMax, 0.0);
      assert false;
    }
  }

  /** The new `bg_y`. While moving on a sloped segment it follows the pitch, scaled by
      the speed ratio `spd / spd_max`; while moving on flat road it moves a tenth of
      `0.025 * spd / spd_max` toward 0 and stops at 0; a stopped camera leaves it alone.
      Either way the result is clamped. */
  function NextBgY(bgY: real, pitch: real, spd: real, spdMax: real): (r: real)
    requires spdMax > 0.0
    ensures -1.0 <= r <= 1.0
    ensures spd <= 0.0 ==> r == Clamp(bgY)
    ensures spd > 0.0 && pitch == 0.0 && 0.0 < bgY <= 1.0 ==> 0.0 <= r < bgY
    ensures spd > 0.0 && pitch == 0.0 && -1.0 <= bgY < 0.0 ==> bgY < r <= 0.0
    ensures spd > 0.0 && pitch == 0.0 && bgY == 0.0 ==> r == 0.0
  {
    var y :=
      if spd > 0.0 then
        if pitch != 0.0 then bgY + pitch * (spd / spdMax) * 0.02
        else
          var d := (spd / spdMax) * 0.025;
          PositiveRatio(spd, spdMax);
          var y1 := if bgY < 0.0 then (if bgY + d * 0.1 >= 0.0 then 0.0 else bgY + d * 0.1) else bgY;
          if y1 > 0.0 then (if y1 - d * 0.1 <= 0.0 then 0.0 else y1 - d * 0.1) else y1
      else bgY;
    Clamp(y)
  }

  /** On flat road and moving, `bg_y` never changes sign and its magnitude never grows. */
  lemma DriftTowardLevel(bgY: real, spd: real, spdMax: real)
    requires spdMax > 0.0 && spd > 0.0 && -1.0 <= bgY <= 1.0
    ensures var r := NextBgY(bgY, 0.0, spd, spdMax);
            (0.0 <= bgY ==> 0.0 <= r <= bgY) && (bgY <= 0.0 ==> bgY <= r <= 0.0)
  {
  }

  /** C's `bg_x = fmodf(bg_x + curve * (spd / spd_max) * gain, 1.0)`. */
  function NextBgXC(bgX: real, curve: real, spd: real, spdMax: real, gain: real): (r: real)
    requires spdMax > 0.0
    ensures -1.0 < r < 1.0
  {
    CFmod(bgX + curve * (spd / spdMax) * gain, 1.0)
  }

  /** Proof helper: `NextBgXC` at the sum `v` a caller has already formed. */
  lemma NextBgXCAt(bgX: real, curve: real, spd: real, spdMax: real, gain: real, v: real)
    requires spdMax > 0.0 && v == bgX + curve * (spd / spdMax) * gain
    ensures NextBgXC(bgX, curve, spd, spdMax, gain) == CFmod(v, 1.0)
  {
  }

  /** Python's `bg_x = (bg_x + curve * (spd / spd_max) * gain) % 1.0`. */
  function NextBgXPy(bgX: real, curve: real, spd: real, spdMax: real, gain: real): (r: real)
    requires spdMax > 0.0
    ensures 0.0 <= r < 1.0
  {
    PyFmod(bgX + curve * (spd / spdMax) * gain, 1.0)
  }

  /** Proof helper: `NextBgXPy` at the sum `v` a caller has already formed. */
  lemma NextBgXPyAt(bgX: real, curve: real, spd: real, spdMax: real, gain: real, v: real)
    requires spdMax > 0.0 && v == bgX + curve * (spd / spdMax) * gain
    ensures NextBgXPy(bgX, curve, spd, spdMax, gain) == PyFmod(v, 1.0)
  {
  }

  /** The two scrolls agree while the offset stays non-negative; after a left turn takes it
      below 0, C keeps a negative `bg_x` in `(-1, 0]` where Python wraps into `[0, 1)`. */
  lemma BgXAgree(bgX: real, curve: real, spd: real, spdMax: real, gain: real)
    requires spdMax > 0.0
    ensures var v := bgX + curve * (spd / spdMax) * gain;
            (0.0 <= v ==> NextBgXC(bgX, curve, spd, spdMax, gain) == NextBgXPy(bgX, curve, spd, spdMax, gain)) &&
            (v < 0.0 ==> NextBgXC(bgX, curve, spd, spdMax, gain) <= 0.0)
  {
  }

  /** Without a curve and starting inside one texture width, `bg_x` does not move. */
  lemma BgXStill(bgX: real, spd: real, spdMax: real, gain: real)
    requires spdMax > 0.0 && 0.0 <= bgX < 1.0
    ensures NextBgXC(bgX, 0.0, spd, spdMax, gain) == bgX
    ensures NextBgXPy(bgX, 0.0, spd, spdMax, gain) == bgX
  {
    assert bgX + 0.0 * (spd / spdMax) * gain == bgX;
  }
}

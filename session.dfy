/** The session step machine at the top of `update` in the 04 versions: initialise the
    course, fade in, drive until `laps_limit` laps are done, fade out, and start over.
    `fadev` is the opacity of the black overlay (1 = black). The C port has four steps;
    the Python original has five, with a separate step that clears `fadev` before the
    fade-out. This module covers the `switch` alone; re-creating the course in step 0
    belongs to the classes. */
module Session {

  datatype Phase = Phase(step: int, fadev: real, laps: int)

  const Framerate: real := 60.0

  /** `1.0 / (framerate * 1.3)`: the fade-in takes 78 frames. */
  const FadeInRate: real := 1.0 / (Framerate * 1.3)

  /** `1.0 / (framerate * 2.0)`: the fade-out takes 120 frames. */
  const FadeOutRate: real := 1.0 / (Framerate * 2.0)

  const LapsLimit := 2

  /** The `switch (gw.step)` of the C port. Step 0 stands for `init_work()` (which zeroes
      `laps`) followed by `fadev = 1.0; step++`. */
  function SwitchC(ph: Phase): (r: Phase)
    ensures 0 <= ph.step <= 3 ==> 0 <= r.step <= 3
    ensures r.step == ph.step || r.step == (ph.step + 1) % 4
    ensures 0.0 <= ph.fadev <= 1.0 ==> 0.0 <= r.fadev <= 1.0
    ensures r.step == 0 && ph.step != 0 ==> ph.step == 3 && r == Phase(0, 1.0, 0)
    ensures r.laps == ph.laps || r.laps == 0
  {
    match ph.step
    case 0 => Phase(1, 1.0, 0)
    case 1 =>
      var f := ph.fadev - FadeInRate;
      if f <= 0.0 then Phase(2, 0.0, ph.laps) else Phase(1, f, ph.laps)
    case 2 => if ph.laps >= LapsLimit then Phase(3, 0.0, ph.laps) else ph
    case 3 =>
      var f := ph.fadev + FadeOutRate;
      if f >= 1.0 then Phase(0, 1.0, 0) else Phase(3, f, ph.laps)
    case _ => ph
  }

  /** The `if gw.step == ...` chain of the Python original: step 2 only advances, step 3
      clears `fadev`, step 4 fades out. */
  function SwitchPy(ph: Phase): (r: Phase)
    ensures 0 <= ph.step <= 4 ==> 0 <= r.step <= 4
    ensures r.step == ph.step || r.step == (ph.step + 1) % 5
    ensures 0.0 <= ph.fadev <= 1.0 ==> 0.0 <= r.fadev <= 1.0
    ensures r.step == 0 && ph.step != 0 ==> ph.step == 4 && r == Phase(0, 1.0, 0)
    ensures r.laps == ph.laps || r.laps == 0
  {
    match ph.step
    case 0 => Phase(1, 1.0, 0)
    case 1 =>
      var f := ph.fadev - FadeInRate;
      if f <= 0.0 then Phase(2, 0.0, ph.laps) else Phase(1, f, ph.laps)
    case 2 => if ph.laps >= LapsLimit then Phase(3, ph.fadev, ph.laps) else ph
    case 3 => Phase(4, 0.0, ph.laps)
    case 4 =>
      var f := ph.fadev + FadeOutRate;
      if f >= 1.0 then Phase(0, 1.0, 0) else Phase(4, f, ph.laps)
    case _ => ph
  }

  /** `n` frames of the C machine with the lap count left alone by the camera. */
  function RunC(ph: Phase, n: nat): Phase
  {
    if n == 0 then ph else SwitchC(RunC(ph, n - 1))
  }

  function RunPy(ph: Phase, n: nat): Phase
  {
    if n == 0 then ph else SwitchPy(RunPy(ph, n - 1))
  }

  /** After `t < 78` frames of fade-in the overlay is at `1 - t/78`. */
  lemma {:induction false} FadeInProgressC(laps: int, t: nat)
    requires t < 78
    ensures RunC(Phase(1, 1.0, laps), t) == Phase(1, 1.0 - t as real / 78.0, laps)
  {
    if t > 0 {
      FadeInProgressC(laps, t - 1);
      assert 1.0 - (t - 1) as real / 78.0 - FadeInRate == 1.0 - t as real / 78.0;
    }
  }

  /** The fade-in ends after exactly 78 frames, with the overlay clear and the run step entered. */
  lemma FadeInFramesC(laps: int)
    ensures forall t :: 0 <= t < 78 ==> RunC(Phase(1, 1.0, laps), t).step == 1
    ensures RunC(Phase(1, 1.0, laps), 78) == Phase(2, 0.0, laps)
  {
    forall t | 0 <= t < 78 ensures RunC(Phase(1, 1.0, laps), t).step == 1 {
      FadeInProgressC(laps, t);
    }
    var ph := Phase(1, 1.0, laps);
    FadeInProgressC(laps, 77);
    assert RunC(ph, 78) == SwitchC(RunC(ph, 77));
    FadeInLastFrame(laps);
  }

  /** After `t < 120` frames of fade-out the overlay is at `t/120`. */
  lemma {:induction false} FadeOutProgressC(laps: int, t: nat)
    requires t < 120
    ensures RunC(Phase(3, 0.0, laps), t) == Phase(3, t as real / 120.0, laps)
  {
    if t > 0 {
      FadeOutProgressC(laps, t - 1);
      assert (t - 1) as real / 120.0 + FadeOutRate == t as real / 120.0;
    }
  }

  /** The fade-out ends after exactly 120 frames, back at step 0 with `laps = 0`. */
  lemma FadeOutFramesC(laps: int)
    ensures forall t :: 0 <= t < 120 ==> RunC(Phase(3, 0.0, laps), t).step == 3
    ensures RunC(Phase(3, 0.0, laps), 120) == Phase(0, 1.0, 0)
  {
    forall t | 0 <= t < 120 ensures RunC(Phase(3, 0.0, laps), t).step == 3 {
      FadeOutProgressC(laps, t);
    }
    var ph := Phase(3, 0.0, laps);
    FadeOutProgressC(laps, 119);
    assert RunC(ph, 120) == SwitchC(RunC(ph, 119));
    FadeOutLastFrame(laps);
  }

  lemma FadeInLastFrame(laps: int)
    ensures SwitchC(Phase(1, 1.0 - 77 as real / 78.0, laps)) == Phase(2, 0.0, laps)
  {
  }

  lemma FadeOutLastFrame(laps: int)
    ensures SwitchC(Phase(3, 119 as real / 120.0, laps)) == Phase(0, 1.0, 0)
    ensures SwitchPy(Phase(4, 119 as real / 120.0, laps)) == Phase(0, 1.0, 0)
  {
  }

  /** The run step waits exactly until `laps >= laps_limit`. */
  lemma RunStepWaits(ph: Phase)
    requires ph.step == 2
    ensures SwitchC(ph).step == 3 <==> ph.laps >= LapsLimit
    ensures SwitchPy(ph).step == 3 <==> ph.laps >= LapsLimit
  {
  }

  /** Running `a` frames and then `b` more is running `a + b` frames. */
  lemma {:induction false} RunCShift(ph: Phase, a: nat, b: nat)
    ensures RunC(ph, a + b) == RunC(RunC(ph, a), b)
  {
    if b > 0 {
      RunCShift(ph, a, b - 1);
    }
  }

  /** A whole C cycle: from step 0, 1 frame of initialisation and 78 of fade-in reach the
      run step with the overlay clear and `laps = 0`; once `laps_limit` laps are done, 1
      frame leaves the run step and 120 of fade-out bring the machine back to step 0. */
  lemma CycleC(fadev: real, laps0: int, laps: int)
    ensures RunC(Phase(0, fadev, laps0), 79) == Phase(2, 0.0, 0)
    ensures laps >= LapsLimit ==> RunC(Phase(2, 0.0, laps), 121) == Phase(0, 1.0, 0)
  {
    RunCShift(Phase(0, fadev, laps0), 1, 78);
    assert RunC(Phase(0, fadev, laps0), 1) == Phase(1, 1.0, 0);
    FadeInFramesC(0);
    if laps >= LapsLimit {
      RunCShift(Phase(2, 0.0, laps), 1, 120);
      assert RunC(Phase(2, 0.0, laps), 1) == Phase(3, 0.0, laps);
      FadeOutFramesC(laps);
    }
  }

  /** After `t < 120` frames of the Python fade-out the overlay is at `t/120`. */
  lemma {:induction false} FadeOutProgressPy(laps: int, t: nat)
    requires t < 120
    ensures RunPy(Phase(4, 0.0, laps), t) == Phase(4, t as real / 120.0, laps)
  {
    if t > 0 {
      FadeOutProgressPy(laps, t - 1);
      assert (t - 1) as real / 120.0 + FadeOutRate == t as real / 120.0;
    }
  }

  /** The Python fade-out also takes 120 frames, after the extra step that clears `fadev`. */
  lemma FadeOutFramesPy(laps: int, fadev: real)
    ensures RunPy(Phase(3, fadev, laps), 1) == Phase(4, 0.0, laps)
    ensures RunPy(Phase(4, 0.0, laps), 120) == Phase(0, 1.0, 0)
  {
    var ph := Phase(4, 0.0, laps);
    FadeOutProgressPy(laps, 119);
    assert RunPy(ph, 120) == SwitchPy(RunPy(ph, 119));
    FadeOutLastFrame(laps);
  }
}

/**
  The per-channel gain law of a node: how its volume and stereo pan position
  become one multiplier for the left channel and one for the right.

  Pan runs from -1 (hard left) through 0 (centre) to 1 (hard right). The law
  is linear (equal-gain, not equal-power): the channel the pan points toward
  keeps the full volume and the other is attenuated in proportion to the pan
  distance, reaching zero at the extremes. Nothing is clamped, so a pan
  outside [-1, 1] or a negative volume gives gains outside [0, vol].
*/
module Panning {

  function Abs(x: real): (r: real)
    ensures 0.0 <= r
    ensures r == x || r == -x
  {
    if x < 0.0 then -x else x
  }

  function Min(a: real, b: real): (r: real)
    ensures r <= a && r <= b
    ensures r == a || r == b
  {
    if a <= b then a else b
  }

  /** A two-element gain array: index 0 is the left channel, index 1 the right. */
  datatype Gain = Gain(left: real, right: real) {

    /** The gain of channel `j`, as the source indexes its `[f32; 2]`. */
    function At(j: nat): real
      requires j < 2
    {
      if j == 0 then left else right
    }

    /** The same gains with left and right exchanged. */
    function Swap(): Gain {
      Gain(right, left)
    }
  }

  /** The gain array of a node with volume `vol` and pan `pan`. */
  function VolPerChannel(vol: real, pan: real): (g: Gain)
    // the channel the pan points toward (right on a tie at centre) gets the full volume
    ensures 0.0 <= pan ==> g.right == vol
    ensures pan <= 0.0 ==> g.left == vol
    // the opposite channel is attenuated linearly, reaching zero at the extreme
    ensures 0.0 <= pan <= 1.0 ==> g.left == vol * (1.0 - pan)
    ensures pan <= 0.0 ==> g.right == vol * (1.0 + pan)
    // beyond the extremes nothing is clamped: past hard right the left gain
    // grows again (and, as a corollary of the clause above, past hard left
    // the right gain changes sign)
    ensures 1.0 < pan ==> g.left == vol * (pan - 1.0)
    ensures pan < -1.0 && 0.0 < vol ==> g.right < 0.0
  {
    if pan >= 0.0 then
      Gain(vol * Abs(pan - 1.0), vol)
    else
      Gain(vol, vol * (pan + 1.0))
  }

  /**
    An independent statement of the linear pan law on the valid pan range:
    each channel gets the volume scaled by how far the pan is from the
    opposite extreme, capped at full volume.
  */
  function LinearPanLaw(vol: real, pan: real): Gain {
    Gain(vol * Min(1.0, 1.0 - pan), vol * Min(1.0, 1.0 + pan))
  }

  /** On the valid pan range, the source's gain law is the linear pan law. */
  lemma VolPerChannelIsLinearPanLaw(vol: real, pan: real)
    requires -1.0 <= pan <= 1.0
    ensures VolPerChannel(vol, pan) == LinearPanLaw(vol, pan)
  {
    if pan >= 0.0 {
      assert Min(1.0, 1.0 - pan) == 1.0 - pan;
      assert Min(1.0, 1.0 + pan) == 1.0;
    } else {
      assert Min(1.0, 1.0 - pan) == 1.0;
      assert Min(1.0, 1.0 + pan) == 1.0 + pan;
    }
  }

  /** The default volume 1 and centre pan give unity gain on both channels. */
  lemma DefaultGainIsUnity()
    ensures VolPerChannel(1.0, 0.0) == Gain(1.0, 1.0)
  {
  }

  /** At the extremes the far channel is silent and the near one at full volume. */
  lemma ExtremePansSilenceOneChannel(vol: real)
    ensures VolPerChannel(vol, 1.0) == Gain(0.0, vol)
    ensures VolPerChannel(vol, -1.0) == Gain(vol, 0.0)
  {
  }

  /** Half right at volume 2 gives [1, 2]. */
  lemma HalfRightAtDoubleVolume()
    ensures VolPerChannel(2.0, 0.5) == Gain(1.0, 2.0)
  {
  }

  /** Scaling a non-negative volume by a factor in [0, 1] stays in [0, vol]. */
  lemma MulBetweenZeroAndOne(v: real, t: real)
    requires 0.0 <= v
    requires 0.0 <= t <= 1.0
    ensures 0.0 <= v * t <= v
  {
    assert v - v * t == v * (1.0 - t);
  }

  /**
    With a non-negative volume and a pan in [-1, 1], both gains lie in
    [0, vol] and at least one of them is exactly `vol`.
  */
  lemma GainBounded(vol: real, pan: real)
    requires 0.0 <= vol
    requires -1.0 <= pan <= 1.0
    ensures 0.0 <= VolPerChannel(vol, pan).left <= vol
    ensures 0.0 <= VolPerChannel(vol, pan).right <= vol
    ensures VolPerChannel(vol, pan).left == vol || VolPerChannel(vol, pan).right == vol
  {
    var g := VolPerChannel(vol, pan);
    if pan >= 0.0 {
      var t := 1.0 - pan;
      assert g.left == vol * t;
      MulBetweenZeroAndOne(vol, t);
    } else {
      var t := 1.0 + pan;
      assert g.right == vol * t;
      MulBetweenZeroAndOne(vol, t);
    }
  }

  /**
    On the valid pan range the law is mirror-symmetric: panning by `-pan`
    gives the gains of `pan` with the channels exchanged.
  */
  lemma GainMirrorSymmetric(vol: real, pan: real)
    requires -1.0 <= pan <= 1.0
    ensures VolPerChannel(vol, -pan) == VolPerChannel(vol, pan).Swap()
  {
    if pan > 0.0 {
      assert VolPerChannel(vol, -pan).right == vol * (1.0 - pan);
    } else if pan < 0.0 {
      assert VolPerChannel(vol, -pan).left == vol * (1.0 + pan);
    }
  }

  /**
    Outside the valid range the symmetry is lost: the left branch takes an
    absolute value and the right branch does not, so pan 2 gives [1, 1]
    while pan -2 gives [1, -1].
  */
  lemma GainAsymmetricOutsideRange()
    ensures VolPerChannel(1.0, 2.0) == Gain(1.0, 1.0)
    ensures VolPerChannel(1.0, -2.0) == Gain(1.0, -1.0)
    ensures VolPerChannel(1.0, -2.0) != VolPerChannel(1.0, 2.0).Swap()
  {
  }
}

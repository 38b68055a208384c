/** The volume scale transform between PipeWire's cubic channel volumes and the
    linear percentage sent outward, and its inverse for dispatch. `f32`
    arithmetic is modelled by exact real arithmetic. */
module Scale {
  import opened Base

  function Cube(x: int): int { x * x * x }

  lemma CubeMonotonic(a: nat, b: nat)
    requires a <= b
    ensures Cube(a) <= Cube(b)
  {
    assert a * a <= b * b by { assert a * a <= a * b <= b * b; }
    assert a * a * a <= b * b * b by { assert a * a * a <= b * b * a <= b * b * b; }
  }

  lemma CubeGrows(n: nat)
    ensures Cube(n) < Cube(n + 1)
  {
    assert Cube(n + 1) == Cube(n) + 3 * n * n + 3 * n + 1;
  }

  /** The largest `r >= n` whose cube is at most `k`. */
  function CubeRootFrom(k: nat, n: nat): (r: nat)
    requires Cube(n) <= k
    ensures n <= r && Cube(r) <= k < Cube(r + 1)
    decreases k - Cube(n)
  {
    CubeGrows(n);
    if Cube(n + 1) <= k then CubeRootFrom(k, n + 1) else n
  }

  /** Integer cube root: the floor of the real cube root of `k`. */
  function IntCubeRoot(k: nat): (r: nat)
    ensures Cube(r) <= k < Cube(r + 1)
  {
    CubeRootFrom(k, 0)
  }

  lemma CubeRootUnique(k: nat, r: nat, s: nat)
    requires Cube(r) <= k < Cube(r + 1)
    requires Cube(s) <= k < Cube(s + 1)
    ensures r == s
  {
    if r < s { CubeMonotonic(r + 1, s); }
    if s < r { CubeMonotonic(s + 1, r); }
  }

  /** The mean of the two channel volumes (`(floats[0] + floats[1]) / 2.0`). */
  function ChannelMean(left: real, right: real): real { (left + right) / 2.0 }

  /** `(cubic.powf(1.0 / 3.0) * 100.0) as u32`: the floor of one hundred times
      the cube root, which is the largest `n` with `n^3 <= 10^6 * cubic`. A
      negative base gives NaN in `powf`, which `as u32` turns into 0; values
      beyond 32 bits saturate. */
  function ToLinearPercent(cubic: real): (r: U32)
    ensures cubic <= 0.0 ==> r == 0
    ensures cubic <= 1.0 ==> r <= 100
  {
    if cubic <= 0.0 then 0
    else
      var k := (1_000_000.0 * cubic).Floor;
      var root := IntCubeRoot(k);
      RootOfMillionth(k, root);
      if root > U32_MAX then U32_MAX else root
  }

  /** A cube at most `10^6` has a root of at most 100. */
  lemma RootOfMillionth(k: int, root: nat)
    requires Cube(root) <= k
    ensures k <= 1_000_000 ==> root <= 100
  {
    if k <= 1_000_000 && root > 100 {
      assert Cube(101) == 1_030_301;
      CubeMonotonic(101, root);
    }
  }

  /** Ingest transform (sink_props.rs and audio_sink.rs): two channel volumes
      to one linear percentage. */
  function IngestVolume(left: real, right: real): (pct: U32)
    ensures left + right <= 0.0 ==> pct == 0
    ensures left <= 1.0 && right <= 1.0 ==> pct <= 100
  {
    ToLinearPercent(ChannelMean(left, right))
  }

  /** Dispatch transform (command.rs): `volume.powf(3.0)`. A volume in
      [0, 1] stays in [0, 1] and does not grow. */
  function ToCubic(volume: real): (cubic: real)
    ensures 0.0 <= volume <= 1.0 ==> 0.0 <= cubic <= volume
  {
    assert 0.0 <= volume <= 1.0 ==> 0.0 <= volume * volume <= volume;
    assert 0.0 <= volume <= 1.0 ==> 0.0 <= volume * volume * volume <= volume * volume;
    volume * volume * volume
  }

  /** The ingest transform only sees the mean, so the channel order does not matter. */
  lemma IngestSymmetric(left: real, right: real)
    ensures IngestVolume(left, right) == IngestVolume(right, left)
  {
    assert ChannelMean(left, right) == ChannelMean(right, left);
  }

  /** Full volume on both channels is 100 per cent; silence is 0. */
  lemma IngestExtremes()
    ensures IngestVolume(1.0, 1.0) == 100
    ensures IngestVolume(0.0, 0.0) == 0
  {
    var k := (1_000_000.0 * ChannelMean(1.0, 1.0)).Floor;
    assert k == 1_000_000;
    assert Cube(100) == 1_000_000 && Cube(101) == 1_030_301;
    CubeRootUnique(k, IntCubeRoot(k), 100);
  }
}

/**
 * Substrate connection track selection (`draw_substrate_connection`).
 * Tracks are given as doubled track indices `v2 = 2 * v`, so that half-track
 * `int(2 * v + 1)` is `v2 + 1` and no rounding is involved.  Port tracks go
 * up to M3, dummy tracks stop at M2; the selection adds dummy tracks and
 * then free even half-tracks to the ports wherever that leaves no two
 * added ports two half-tracks apart.
 */
module SubTracks {
  import opened GridMath
  import opened SortedSets

  /** `set(int(2 * v + 1) for v in tracks)` for doubled track indices. */
  function HalfTracks(tracks: seq<int>): (s: set<int>)
    ensures forall h :: h in s <==> h - 1 in tracks
  {
    set v | v in tracks :: v + 1
  }

  /** The half-tracks `range(0, 2 * fg + 1, 2)` the second step tries. */
  function EvenSlots(fg: int): set<int> {
    set h | 0 <= h <= 2 * fg && h % 2 == 0
  }

  /** A port two half-tracks away on either side. */
  predicate Blocked(s: set<int>, h: int) {
    h + 2 in s || h - 2 in s
  }

  /** Half-track h is a port, or a port two half-tracks away keeps it out. */
  predicate Settled(s: set<int>, h: int) {
    h in s || Blocked(s, h)
  }

  /** Any two ports two half-tracks apart were both requested by the caller. */
  predicate AddedIsolated(s: set<int>, given: set<int>) {
    forall a, b :: a in s && b in s && b - a == 2 ==> a in given && b in given
  }

  /** Adding an unblocked half-track keeps the added ports isolated. */
  lemma LemmaAddKeepsIsolated(p: set<int>, given: set<int>, h: int)
    requires AddedIsolated(p, given) && !Blocked(p, h)
    ensures AddedIsolated(p + {h}, given)
  {
  }

  /** `phtr_set.add(h)` unless a port sits two half-tracks away. */
  function AddIfFree(p: set<int>, h: int): (q: set<int>)
    ensures p <= q <= p + {h}
    ensures Settled(q, h)
    ensures h in q <==> h in p || !Blocked(p, h)
  {
    if h + 2 !in p && h - 2 !in p then p + {h} else p
  }

  /** Step 1: every dummy half-track, in the caller's order, that no port blocks. */
  method AddDummies(given: set<int>, dums: seq<int>) returns (p: set<int>)
    ensures given <= p <= given + HalfTracks(dums)
    ensures AddedIsolated(p, given)
    ensures forall v :: v in dums ==> Settled(p, v + 1)
  {
    p := given;
    var i := 0;
    while i < |dums|
      invariant 0 <= i <= |dums|
      invariant given <= p <= given + HalfTracks(dums)
      invariant AddedIsolated(p, given)
      invariant forall v :: v in dums[..i] ==> Settled(p, v + 1)
    {
      var d := dums[i] + 1;
      assert dums[..i + 1] == dums[..i] + [dums[i]];
      assert dums[i] in dums;
      if !Blocked(p, d) {
        LemmaAddKeepsIsolated(p, given, d);
      }
      p := AddIfFree(p, d);
      i := i + 1;
    }
    assert dums[..i] == dums;
  }

  /** Step 2: every even half-track in [0, 2 fg], in increasing order, that no port blocks. */
  method AddEvenSlots(p0: set<int>, given: set<int>, fg: int) returns (p: set<int>)
    requires AddedIsolated(p0, given)
    ensures p0 <= p <= p0 + EvenSlots(fg)
    ensures AddedIsolated(p, given)
    ensures forall h :: h in EvenSlots(fg) ==> Settled(p, h)
  {
    p := p0;
    var htr := 0;
    while htr < 2 * fg + 1
      invariant htr >= 0 && htr % 2 == 0
      invariant p0 <= p <= p0 + EvenSlots(fg)
      invariant AddedIsolated(p, given)
      invariant forall h :: h in EvenSlots(fg) && h < htr ==> Settled(p, h)
    {
      if !Blocked(p, htr) {
        LemmaAddKeepsIsolated(p, given, htr);
      }
      p := AddIfFree(p, htr);
      htr := htr + 2;
    }
  }

  /**
   * The port half-tracks: the requested ports, then every dummy half-track
   * (in the caller's order) and every even half-track in [0, 2 fg] that is
   * not two half-tracks from a port chosen so far.
   */
  method SelectPorts(ports: seq<int>, dums: seq<int>, fg: int) returns (p: set<int>)
    ensures HalfTracks(ports) <= p
    ensures p <= HalfTracks(ports) + HalfTracks(dums) + EvenSlots(fg)
    ensures AddedIsolated(p, HalfTracks(ports))
    // neither step could add more: every candidate left out is blocked
    ensures forall v :: v in dums ==> Settled(p, v + 1)
    ensures forall h :: h in EvenSlots(fg) ==> Settled(p, h)
  {
    var given := HalfTracks(ports);
    var p1 := AddDummies(given, dums);
    p := AddEvenSlots(p1, given, fg);
    forall v | v in dums
      ensures Settled(p, v + 1)
    {
      assert Settled(p1, v + 1);
    }
    assert p <= given + HalfTracks(dums) + EvenSlots(fg) by {
      forall h | h in p
        ensures h in given + HalfTracks(dums) + EvenSlots(fg)
      {
        assert h in p1 || h in EvenSlots(fg);
      }
    }
  }

  /**
   * Every port the selection added had no port two half-tracks away when it
   * was added, and none was added next to it later.
   */
  lemma LemmaAddedHasNoNeighbour(p: set<int>, given: set<int>, a: int)
    requires AddedIsolated(p, given)
    requires a in p && a !in given
    ensures a + 2 !in p && a - 2 !in p
  {
  }

  /** `[k * v for v in s]`. */
  function Scale(s: seq<int>, k: int): (r: seq<int>)
    ensures |r| == |s|
    ensures forall i :: 0 <= i < |s| ==> r[i] == k * s[i]
  {
    seq(|s|, i requires 0 <= i < |s| => k * s[i])
  }

  /** Scaling by a positive factor keeps a sequence strictly increasing. */
  lemma LemmaScaleIncreasing(s: seq<int>, k: int)
    requires k > 0 && StrictlyIncreasing(s)
    ensures StrictlyIncreasing(Scale(s, k))
  {
    var r := Scale(s, k);
    forall i, j | 0 <= i < j < |r|
      ensures r[i] < r[j]
    {
      assert k * s[j] - k * s[i] == (s[j] - s[i]) * k;
      LemmaMulAtLeast(s[j] - s[i], k);
    }
  }

  /** Scaling keeps membership: `k * h` is in the scaled sequence when h is in the original. */
  lemma LemmaScaleMember(s: seq<int>, k: int, h: int)
    requires h in s
    ensures k * h in Scale(s, k)
  {
    var i :| 0 <= i < |s| && s[i] == h;
    assert Scale(s, k)[i] == k * h;
  }

  /** Scaling keeps inclusion between the elements of two sequences. */
  lemma LemmaScaleSubset(a: seq<int>, b: seq<int>, k: int)
    requires forall x :: x in a ==> x in b
    ensures forall y :: y in Scale(a, k) ==> y in Scale(b, k)
  {
    forall y | y in Scale(a, k)
      ensures y in Scale(b, k)
    {
      var i :| 0 <= i < |a| && Scale(a, k)[i] == y;
      LemmaScaleMember(b, k, a[i]);
    }
  }

  /** x is k times a member of s. */
  predicate OnScale(x: int, k: int, s: set<int>)
    requires k > 0
  {
    x % k == 0 && x / k in s
  }

  /** Every element of a scaled sequence is k times an element of the original. */
  lemma LemmaScaleOnScale(a: seq<int>, s: set<int>, k: int)
    requires k > 0
    requires forall h :: h in a ==> h in s
    ensures forall x :: x in Scale(a, k) ==> OnScale(x, k, s)
  {
    forall x | x in Scale(a, k)
      ensures OnScale(x, k, s)
    {
      var i :| 0 <= i < |a| && Scale(a, k)[i] == x;
      LemmaDivUnique(x, k, a[i], 0);
    }
  }

  /** `[k * v for v in sorted(s)]`: strictly increasing, and exactly the multiples of k by members of s. */
  function SortedXs(s: set<int>, k: int): (r: seq<int>)
    requires k > 0
    ensures |r| == |s|
    ensures StrictlyIncreasing(r)
    ensures forall x :: x in r ==> OnScale(x, k, s)
  {
    var sorted := Sorted(s);
    LemmaScaleIncreasing(sorted, k);
    LemmaScaleOnScale(sorted, s, k);
    Scale(sorted, k)
  }

  /** Every member of s appears, times k, among the sorted coordinates. */
  lemma LemmaSortedXsMember(s: set<int>, k: int, h: int)
    requires k > 0 && h in s
    ensures k * h in SortedXs(s, k)
  {
    LemmaScaleMember(Sorted(s), k, h);
  }

  /** Two multiples of k that lie 2k apart are two steps apart after dividing by k. */
  lemma LemmaScaledGap(x: int, y: int, k: int)
    requires k > 0 && x % k == 0 && y % k == 0 && y - x == 2 * k
    ensures y / k == x / k + 2
  {
    assert x == (x / k) * k;
    LemmaDivUnique(y, k, x / k + 2, 0);
  }

  /** A multiple of k is k times its quotient. */
  lemma LemmaRecompose(x: int, k: int)
    requires k > 0 && x % k == 0
    ensures x == k * (x / k)
  {
  }

  /** An M1 coordinate of a port or dummy half-track is a port coordinate or a dummy one. */
  lemma LemmaM1Tracks(p: set<int>, dhtr: set<int>, k: int, x: int)
    requires k > 0 && x in SortedXs(dhtr + p, k)
    ensures x in SortedXs(p, k) || OnScale(x, k, dhtr)
  {
    if x / k in p {
      LemmaSortedXsMember(p, k, x / k);
      LemmaRecompose(x, k);
    }
  }

  /** A port coordinate is also an M1 coordinate. */
  lemma LemmaM1HasPorts(p: set<int>, dhtr: set<int>, k: int, x: int)
    requires k > 0 && x in SortedXs(p, k)
    ensures x in SortedXs(dhtr + p, k)
  {
    LemmaSortedXsMember(dhtr + p, k, x / k);
    LemmaRecompose(x, k);
  }

  /** A dummy coordinate is also an M1 coordinate. */
  lemma LemmaM1HasDummies(p: set<int>, dhtr: set<int>, k: int, x: int)
    requires k > 0 && OnScale(x, k, dhtr)
    ensures x in SortedXs(dhtr + p, k)
  {
    LemmaSortedXsMember(dhtr + p, k, x / k);
    LemmaRecompose(x, k);
  }

  /** Two port coordinates one track apart come from two requested ports. */
  lemma LemmaM3Isolated(p: set<int>, given: set<int>, k: int, x: int, y: int)
    requires k > 0 && AddedIsolated(p, given)
    requires x in SortedXs(p, k) && y in SortedXs(p, k) && y - x == k * 2
    ensures OnScale(x, k, given) && OnScale(y, k, given)
  {
    LemmaScaledGap(x, y, k);
  }

  /** A settled half-track stays settled in coordinates. */
  lemma LemmaM3Settled(p: set<int>, k: int, h: int)
    requires k > 0 && Settled(p, h)
    ensures TrackSettled(SortedXs(p, k), k, h)
  {
    if h in p {
      LemmaSortedXsMember(p, k, h);
    } else if h + 2 in p {
      LemmaSortedXsMember(p, k, h + 2);
    } else {
      LemmaSortedXsMember(p, k, h - 2);
    }
  }

  /** Half-track h, or one two half-tracks away on either side, is an x coordinate in xs at scale k. */
  predicate TrackSettled(xs: seq<int>, k: int, h: int) {
    k * h in xs || k * (h + 2) in xs || k * (h - 2) in xs
  }

  /**
   * The M1 (dummy) and M3 (port) x coordinates of a substrate connection,
   * and the port half-tracks behind them.  With `dummyOnly` the dummy tracks
   * are used as given and no port is drawn; otherwise the ports are chosen
   * by `SelectPorts`, M3 holds exactly the port half-tracks and M1 exactly
   * the dummy half-tracks plus the ports, both sorted.
   */
  method SubstrateTrackXs(ports: seq<int>, dums: seq<int>, fg: int, sdPitch: int, dummyOnly: bool)
    returns (m1X: seq<int>, m3X: seq<int>, portHtr: set<int>)
    requires sdPitch >= 2
    ensures dummyOnly ==> m3X == [] && portHtr == {} && |m1X| == |dums|
    ensures dummyOnly ==> forall i :: 0 <= i < |dums| ==> m1X[i] == sdPitch / 2 * (dums[i] + 1)
    ensures !dummyOnly ==> StrictlyIncreasing(m1X) && StrictlyIncreasing(m3X)
    // the port half-tracks: every requested port, otherwise only candidates, isolated and settled
    ensures !dummyOnly ==> HalfTracks(ports) <= portHtr <= HalfTracks(ports) + HalfTracks(dums) + EvenSlots(fg)
    ensures !dummyOnly ==> AddedIsolated(portHtr, HalfTracks(ports))
    ensures !dummyOnly ==> forall v :: v in dums ==> Settled(portHtr, v + 1)
    ensures !dummyOnly ==> forall h :: h in EvenSlots(fg) ==> Settled(portHtr, h)
    // M3 is exactly the ports' coordinates, M1 exactly the dummies' and the ports'
    ensures !dummyOnly ==> m3X == SortedXs(portHtr, sdPitch / 2)
    ensures !dummyOnly ==> m1X == SortedXs(HalfTracks(dums) + portHtr, sdPitch / 2)
    ensures !dummyOnly ==> forall x :: x in m3X ==> OnScale(x, sdPitch / 2, portHtr)
    ensures !dummyOnly ==> forall x :: x in m1X ==> OnScale(x, sdPitch / 2, HalfTracks(dums) + portHtr)
  {
    var k := sdPitch / 2;
    if dummyOnly {
      m1X := Scale(seq(|dums|, i requires 0 <= i < |dums| => dums[i] + 1), k);
      m3X := [];
      portHtr := {};
    } else {
      portHtr := SelectPorts(ports, dums, fg);
      m1X := SortedXs(HalfTracks(dums) + portHtr, k);
      m3X := SortedXs(portHtr, k);
    }
  }
}

/**
 * The pure decisions inside `draw_mos` and `_draw_ds_via`: which neighbour
 * records stand in for absent ones, which PO and MD positions sit on OD,
 * which POs are live poly, which MD positions are drawn, how FinArea snaps
 * to the fin grid, and where a drain/source M3 wire sits.
 */
module Draw {
  import opened Results
  import opened Tech
  import opened GridMath
  import opened Records
  import opened Vias

  // ---------------------------------------------------------------------
  // Neighbour records
  // ---------------------------------------------------------------------

  /** The record `draw_mos` assumes for an absent neighbour: no OD. */
  const DefaultEdge := EdgeInfo(NoOd)

  /**
   * The left and right neighbour records `draw_mos` uses.  A given record is
   * kept; an absent one is the default, except in a one-finger block, where
   * it copies the other side so that the single PO still follows a real
   * neighbour.
   */
  function ResolveEdges(fg: int, left: Option<EdgeInfo>, right: Option<EdgeInfo>): (e: (EdgeInfo, EdgeInfo))
    ensures left.Some? ==> e.0 == left.value
    ensures right.Some? ==> e.1 == right.value
    ensures left.None? && right.None? ==> e == (DefaultEdge, DefaultEdge)
    ensures fg == 1 && left.None? && right.Some? ==> e.0 == right.value
    ensures fg == 1 && left.Some? && right.None? ==> e.1 == left.value
    ensures fg != 1 ==> (left.None? ==> e.0 == DefaultEdge) && (right.None? ==> e.1 == DefaultEdge)
  {
    var l := if left.Some? then left.value else if fg == 1 && right.Some? then right.value else DefaultEdge;
    var r := if right.Some? then right.value else if fg == 1 then l else DefaultEdge;
    (l, r)
  }

  // ---------------------------------------------------------------------
  // PO and MD positions on OD
  // ---------------------------------------------------------------------

  /** Every OD finger interval indexes inside the block's PO and MD lists. */
  predicate WithinFingers(odX: seq<Span>, fg: nat) {
    forall k :: 0 <= k < |odX| ==> 0 <= odX[k].lo <= fg && odX[k].hi <= fg
  }

  /** PO `i` is marked by OD interval `s`: the PO left of its first finger, or a PO over it. */
  predicate PoMarkedBy(s: Span, i: int) {
    i == s.lo - 1 || s.lo <= i <= s.hi
  }

  /** PO `i` is on some OD interval. */
  predicate PoOnOd(odX: seq<Span>, i: int) {
    exists k :: 0 <= k < |odX| && PoMarkedBy(odX[k], i)
  }

  /** MD position `i` (a finger boundary) is on some OD interval. */
  predicate MdOnOd(odX: seq<Span>, i: int) {
    exists k :: 0 <= k < |odX| && odX[k].lo <= i <= odX[k].hi
  }

  /**
   * `for od_start, od_stop in od_x_list`: a list yields its pairs; a bare
   * pair yields its two ints, and unpacking the first one raises.
   */
  function OdIntervals(v: OdXValue): (r: Result<seq<Span>>)
    ensures r.Success? <==> v.PairList?
    ensures v.PairList? ==> r.value == v.pairs
    ensures v.BarePair? ==> r.error == CannotUnpackInt(v.start)
  {
    match v
    case PairList(pairs) => Success(pairs)
    case BarePair(start, _) => Failure(CannotUnpackInt(start))
  }

  /**
   * The dummy-OD extension row as `get_ext_info` stores it, `(0, fg)`
   * unwrapped: `draw_mos` raises on it, for every finger count.
   */
  lemma LemmaBareOdPairRaises(fg: int)
    ensures OdIntervals(BarePair(0, fg)) == Failure(CannotUnpackInt(0))
  {
  }

  /**
   * The dummy-OD extension row with `[(0, fg)]`: the loop visits the one
   * interval, and every PO and every MD position of the row is on OD.
   */
  lemma LemmaWholeRowOd(fg: nat)
    ensures OdIntervals(PairList([Span(0, fg)])) == Success([Span(0, fg)])
    ensures WithinFingers([Span(0, fg)], fg)
    ensures forall i :: 0 <= i < fg ==> PoOnOd([Span(0, fg)], i)
    ensures forall i :: 0 <= i <= fg ==> MdOnOd([Span(0, fg)], i)
  {
    var odX := [Span(0, fg)];
    forall i | 0 <= i < fg
      ensures PoOnOd(odX, i)
    {
      assert PoMarkedBy(odX[0], i);
    }
    forall i | 0 <= i <= fg
      ensures MdOnOd(odX, i)
    {
      assert odX[0].lo <= i <= odX[0].hi;
    }
  }

  /**
   * The `po_on_od` and `md_on_od` lists of one row: all false when the row's
   * OD is empty; otherwise each OD finger interval marks the PO left of it
   * and every PO and MD position from its start to its stop.
   */
  method OnOdMasks(fg: nat, odX: seq<Span>, odY: Span) returns (po: seq<bool>, md: seq<bool>)
    requires WithinFingers(odX, fg)
    ensures |po| == fg && |md| == fg + 1
    ensures forall i :: 0 <= i < fg ==> (po[i] <==> odY.hi > odY.lo && PoOnOd(odX, i))
    ensures forall i :: 0 <= i <= fg ==> (md[i] <==> odY.hi > odY.lo && MdOnOd(odX, i))
  {
    po := seq(fg, _ => false);
    md := seq(fg + 1, _ => false);
    if odY.hi > odY.lo {
      var k := 0;
      while k < |odX|
        invariant 0 <= k <= |odX|
        invariant |po| == fg && |md| == fg + 1
        invariant forall i :: 0 <= i < fg ==> (po[i] <==> exists j :: 0 <= j < k && PoMarkedBy(odX[j], i))
        invariant forall i :: 0 <= i <= fg ==> (md[i] <==> exists j :: 0 <= j < k && odX[j].lo <= i <= odX[j].hi)
      {
        var s := odX[k];
        if s.lo - 1 >= 0 {
          po := po[s.lo - 1 := true];
        }
        var idx := s.lo;
        while idx < s.hi + 1
          invariant s.lo <= idx <= Max(s.lo, s.hi + 1)
          invariant |po| == fg && |md| == fg + 1
          invariant forall i :: 0 <= i < fg ==>
            (po[i] <==> (exists j :: 0 <= j < k && PoMarkedBy(odX[j], i)) || i == s.lo - 1 || s.lo <= i < idx)
          invariant forall i :: 0 <= i <= fg ==>
            (md[i] <==> (exists j :: 0 <= j < k && odX[j].lo <= i <= odX[j].hi) || s.lo <= i < idx)
        {
          md := md[idx := true];
          if idx < fg {
            po := po[idx := true];
          }
          idx := idx + 1;
        }
        assert forall i :: PoMarkedBy(s, i) <==> i == s.lo - 1 || s.lo <= i < idx;
        k := k + 1;
      }
    }
  }

  /** The x extent of PO `idx`: the gate, centred half a pitch right of the block's left edge. */
  function PoX(arrXl: int, sdPitch: int, lch: int, idx: int): Span {
    var poXc := arrXl + sdPitch / 2;
    Span(poXc + idx * sdPitch - lch / 2, poXc + idx * sdPitch - lch / 2 + lch)
  }

  /** The x extent of the OD drawn for finger interval `s`: from the PO left of it to the PO at its stop. */
  function OdX(arrXl: int, sdPitch: int, lch: int, s: Span): Span {
    var poXc := arrXl + sdPitch / 2;
    Span(poXc - lch / 2 + (s.lo - 1) * sdPitch, poXc + lch / 2 + s.hi * sdPitch)
  }

  /** The sign of a multiple of a positive number is the sign of the factor. */
  lemma LemmaMulSign(d: int, p: int)
    requires p > 0
    ensures d * p >= 0 <==> d >= 0
  {
    if d >= 1 {
      LemmaMulAtLeast(d, p);
    } else if d <= -1 {
      assert d * p == -((-d) * p);
      LemmaMulAtLeast(-d, p);
    }
  }

  /**
   * With an even gate length the OD rectangle of a finger interval covers
   * exactly the POs the interval marks: a PO lies inside it iff it is the PO
   * left of the first finger or a PO up to the stop.
   */
  lemma LemmaOdCoversMarkedPo(arrXl: int, sdPitch: int, lch: int, s: Span, idx: int)
    requires sdPitch > 0 && lch >= 0 && lch % 2 == 0
    requires s.lo <= s.hi
    ensures var po := PoX(arrXl, sdPitch, lch, idx);
            var od := OdX(arrXl, sdPitch, lch, s);
      (od.lo <= po.lo && po.hi <= od.hi) <==> PoMarkedBy(s, idx)
  {
    var po := PoX(arrXl, sdPitch, lch, idx);
    var od := OdX(arrXl, sdPitch, lch, s);
    assert lch / 2 * 2 == lch;
    assert po.lo - od.lo == (idx - (s.lo - 1)) * sdPitch;
    assert od.hi - po.hi == (s.hi - idx) * sdPitch;
    LemmaMulSign(idx - (s.lo - 1), sdPitch);
    LemmaMulSign(s.hi - idx, sdPitch);
  }

  // ---------------------------------------------------------------------
  // PO purpose
  // ---------------------------------------------------------------------

  /**
   * The OD kind that decides PO `idx`'s purpose: the row's own kind over OD,
   * else the left neighbour's at the first PO, the right neighbour's at the
   * last, and no OD in between.
   */
  function PoOdKind(fg: int, idx: int, onOd: bool, rowKind: OdKind, left: EdgeInfo, right: EdgeInfo): OdKind {
    if onOd then rowKind
    else if idx == 0 then left.odType
    else if idx == fg - 1 then right.odType
    else NoOd
  }

  /** Live (`drawing`) or dummy poly for every PO of a row. */
  function PoLive(fg: nat, onOd: seq<bool>, rowKind: OdKind, left: EdgeInfo, right: EdgeInfo): (live: seq<bool>)
    requires |onOd| == fg
    ensures |live| == fg
    // over OD the row's own kind decides; off OD the edge POs follow their neighbour, inner POs are dummy
    ensures forall i :: 0 <= i < fg && onOd[i] ==> (live[i] <==> IsLive(rowKind))
    ensures fg > 0 && !onOd[0] ==> (live[0] <==> IsLive(left.odType))
    ensures fg > 1 && !onOd[fg - 1] ==> (live[fg - 1] <==> IsLive(right.odType))
    ensures forall i :: 0 < i < fg - 1 && !onOd[i] ==> !live[i]
  {
    seq(fg, i requires 0 <= i < fg => IsLive(PoOdKind(fg, i, onOd[i], rowKind, left, right)))
  }

  /**
   * The consequences of the purpose rule: POs off OD strictly inside the
   * block are dummy; POs on a dummy row's OD are dummy; on a transistor or
   * substrate row's OD they are live.
   */
  lemma LemmaPoLiveCases(fg: nat, onOd: seq<bool>, rowKind: OdKind, left: EdgeInfo, right: EdgeInfo, i: int)
    requires |onOd| == fg && 0 <= i < fg
    ensures var live := PoLive(fg, onOd, rowKind, left, right);
      && (!onOd[i] && 0 < i < fg - 1 ==> !live[i])
      && (onOd[i] ==> (live[i] <==> rowKind == MosOd || rowKind == SubOd))
      && (!onOd[i] && i == 0 ==> (live[i] <==> IsLive(left.odType)))
  {
  }

  /**
   * The one-finger fallback does what it is there for: with a single PO off
   * OD and only one neighbour given, the PO is live iff that neighbour's OD
   * is live.
   */
  lemma LemmaSingleFingerFollowsNeighbour(left: Option<EdgeInfo>, right: Option<EdgeInfo>, rowKind: OdKind)
    requires left.Some? != right.Some?
    ensures var e := ResolveEdges(1, left, right);
            var given := if left.Some? then left.value else right.value;
      PoLive(1, [false], rowKind, e.0, e.1)[0] <==> IsLive(given.odType)
  {
  }

  // ---------------------------------------------------------------------
  // MD positions
  // ---------------------------------------------------------------------

  /**
   * The MD positions `draw_mos` draws, with the neighbours' "draw MD at the
   * boundary" flags as the parameters `leftDrawMd` and `rightDrawMd`: only
   * when the row's MD is not empty and the block has fingers; interior
   * positions on OD always; boundary positions on OD when the flag is set,
   * except in a guard-ring substrate block, which never draws them.
   */
  function MdMask(blkType: BlkType, fg: nat, mdY: Span, mdOnOd: seq<bool>, leftDrawMd: bool, rightDrawMd: bool)
    : (m: seq<bool>)
    requires |mdOnOd| == fg + 1
    ensures |m| == fg + 1
    ensures forall i :: 0 <= i <= fg ==>
      (m[i] <==> && mdY.hi > mdY.lo && fg > 0 && mdOnOd[i]
                 && (|| 0 < i < fg
                     || (i == 0 && blkType != GrSubBlk && leftDrawMd)
                     || (i == fg && blkType != GrSubBlk && rightDrawMd)))
  {
    if mdY.hi > mdY.lo && fg > 0 then
      seq(fg + 1, i requires 0 <= i <= fg =>
        var inRange := if blkType == GrSubBlk then 1 <= i < fg else true;
        inRange && ((0 < i < fg) || (i == 0 && leftDrawMd) || (i == fg && rightDrawMd)) && mdOnOd[i])
    else Repeat(false, fg + 1)
  }

  /**
   * The MD decision as written: the first boundary position reads
   * `draw_md` from the left neighbour's record, which has no such field.
   * Every row with MD in a block with fingers raises, except in a guard-ring
   * substrate block, whose range skips both boundary positions.
   */
  function MdMaskAsWritten(blkType: BlkType, fg: nat, mdY: Span, mdOnOd: seq<bool>): (r: Result<seq<bool>>)
    requires |mdOnOd| == fg + 1
    ensures r.Failure? <==> mdY.hi > mdY.lo && fg > 0 && blkType != GrSubBlk
    ensures r.Failure? ==> r.error == MissingAttribute("EdgeInfo", "draw_md")
    ensures r.Success? ==> forall l, rt :: r.value == MdMask(blkType, fg, mdY, mdOnOd, l, rt)
  {
    if mdY.hi > mdY.lo && fg > 0 then
      if blkType == GrSubBlk then Success(seq(fg + 1, i requires 0 <= i <= fg => 0 < i < fg && mdOnOd[i]))
      else Failure(MissingAttribute("EdgeInfo", "draw_md"))
    else Success(Repeat(false, fg + 1))
  }

  /** A transistor row of one finger whose MD is on OD: the as-written rule raises. */
  lemma LemmaMdMaskAsWrittenRaises()
    ensures MdMaskAsWritten(MosBlk, 1, Span(0, 68), [true, true]) == Failure(MissingAttribute("EdgeInfo", "draw_md"))
  {
  }

  // ---------------------------------------------------------------------
  // FinArea snapping
  // ---------------------------------------------------------------------

  /** A fin bottom: fins are centred half a fin pitch above every multiple of the pitch. */
  predicate OnFinBottom(y: int) {
    (y - (FinP2 - FinH2)) % FinPitch == 0
  }

  /** A fin top. */
  predicate OnFinTop(y: int) {
    (y - (FinP2 + FinH2)) % FinPitch == 0
  }

  /**
   * FinArea rounding: the bottom moves down to the nearest fin bottom and
   * the top up to the nearest fin top, so the layer covers whole fins.
   */
  function FinAreaSpan(y: Span): (r: Span)
    ensures OnFinBottom(r.lo) && r.lo <= y.lo < r.lo + FinPitch
    ensures OnFinTop(r.hi) && y.hi <= r.hi < y.hi + FinPitch
  {
    var qb := FloorDiv(y.lo - FinP2 + FinH2, FinPitch);
    var qt := CeilDiv(y.hi - FinP2 - FinH2, FinPitch);
    LemmaMultipleMod(qb, FinPitch);
    LemmaMultipleMod(qt, FinPitch);
    Span(qb * FinPitch + FinP2 - FinH2, qt * FinPitch + FinP2 + FinH2)
  }

  /** Snapping an already snapped FinArea changes nothing. */
  lemma LemmaFinAreaIdempotent(y: Span)
    ensures FinAreaSpan(FinAreaSpan(y)) == FinAreaSpan(y)
  {
    var r := FinAreaSpan(y);
    var r2 := FinAreaSpan(r);
    assert OnFinBottom(r2.lo) && r2.lo <= r.lo < r2.lo + FinPitch;
    LemmaSameGridPoint(r.lo - (FinP2 - FinH2), r2.lo - (FinP2 - FinH2), FinPitch);
    LemmaSameGridPoint(r.hi - (FinP2 + FinH2), r2.hi - (FinP2 + FinH2), FinPitch);
  }

  /** Two multiples of p less than p apart are equal. */
  lemma LemmaSameGridPoint(a: int, b: int, p: int)
    requires p > 0 && a % p == 0 && b % p == 0
    requires -p < a - b < p
    ensures a == b
  {
    var qa, qb := a / p, b / p;
    assert a == qa * p && b == qb * p;
    assert (qa - qb) * p == a - b;
    LemmaSmallMultiple(qa - qb, p);
  }

  // ---------------------------------------------------------------------
  // Drain/source M3 wires
  // ---------------------------------------------------------------------

  /** The two V1/V2 via rows of a drain/source M1 bar centred on `odYc`: (bottom, top). */
  function ViaRows(v: ViaStack, odYc: int): (rows: (int, int))
    requires v.WellFormed()
    ensures rows.0 - (odYc - v.m1H / 2) == v.botEncy[1] + v.h[1] / 2
    ensures (odYc - v.m1H / 2 + v.m1H) - rows.1 == v.botEncy[1] + v.h[1] / 2
  {
    var m1Yb := odYc - v.m1H / 2;
    var m1Yt := m1Yb + v.m1H;
    (m1Yb + v.botEncy[1] + v.h[1] / 2, m1Yt - v.botEncy[1] - v.h[1] / 2)
  }

  /**
   * Which via row an M3 wire at `xloc` lands on: even pitch slots are
   * sources, odd ones drains; sources use the bottom row when `sbot` and
   * drains the other one.  Returns (on the bottom row, direction).
   */
  function M3Slot(wirePitch: int, xloc: int, sbot: bool, sdir: int, ddir: int): (slot: (bool, int))
    requires wirePitch > 0
    ensures (xloc / wirePitch) % 2 == 0 ==> slot == (sbot, sdir)
    ensures (xloc / wirePitch) % 2 == 1 ==> slot == (!sbot, ddir)
  {
    var parity := FloorDiv(xloc, wirePitch);
    if parity % 2 == 0 then (sbot, sdir) else (!sbot, ddir)
  }

  /**
   * The M3 wire's y interval: direction 0 hangs it down from just above the
   * via, direction 2 stands it up from just below, anything else centres it;
   * the enclosure used is the stack's first top enclosure (`enc2`).
   */
  function M3Span(v: ViaStack, viaYc: int, vdir: int): (s: Span)
    requires v.WellFormed()
    ensures s.Length() == v.m3H
    ensures vdir == 0 ==> s.hi == viaYc + v.h[2] / 2 + v.topEncy[0]
    ensures vdir == 2 ==> s.lo == viaYc - v.h[2] / 2 - v.topEncy[0]
    ensures vdir != 0 && vdir != 2 ==> s.lo == viaYc - v.m3H / 2
  {
    if vdir == 0 then
      var yt := viaYc + v.h[2] / 2 + v.topEncy[0];
      Span(yt - v.m3H, yt)
    else if vdir == 2 then
      var yb := viaYc - v.h[2] / 2 - v.topEncy[0];
      Span(yb, yb + v.m3H)
    else
      var yb := viaYc - v.m3H / 2;
      Span(yb, yb + v.m3H)
  }

  /** The M3 interval of the wire at `xloc` in `_draw_ds_via`. */
  function DsM3Span(v: ViaStack, odYc: int, wirePitch: int, xloc: int, sbot: bool, sdir: int, ddir: int)
    : (s: Span)
    requires v.WellFormed() && wirePitch > 0
    ensures s.Length() == v.m3H
    // on the via row its slot picks, an M3 at least a V2 plus two enclosures high covers the V2 cut
    ensures var rows := ViaRows(v, odYc);
            var viaYc := if M3Slot(wirePitch, xloc, sbot, sdir, ddir).0 then rows.0 else rows.1;
      v.topEncy[0] >= 0 && v.m3H >= v.h[2] + 2 * v.topEncy[0] ==>
        s.lo <= viaYc - v.h[2] / 2 && viaYc + v.h[2] / 2 <= s.hi
  {
    var rows := ViaRows(v, odYc);
    var slot := M3Slot(wirePitch, xloc, sbot, sdir, ddir);
    M3Span(v, if slot.0 then rows.0 else rows.1, slot.1)
  }

  /**
   * Sources and drains never share a via row: wires one pitch apart land on
   * different rows.
   */
  lemma LemmaAdjacentSlotsAlternate(wirePitch: int, xloc: int, sbot: bool, sdir: int, ddir: int)
    requires wirePitch > 0
    ensures M3Slot(wirePitch, xloc, sbot, sdir, ddir).0 != M3Slot(wirePitch, xloc + wirePitch, sbot, sdir, ddir).0
  {
    var q := FloorDiv(xloc, wirePitch);
    LemmaDivUnique(xloc + wirePitch, wirePitch, q + 1, xloc - q * wirePitch);
    assert FloorDiv(xloc + wirePitch, wirePitch) == q + 1;
  }

  /**
   * With the drain/source stack the M3 wire covers its V2 cut in every
   * direction, and a directed wire encloses it by the stack's top
   * enclosure on the side it points to.
   */
  lemma LemmaM3CoversCut(lch: int, w: int, compact: bool, viaYc: int, vdir: int)
    ensures var v := DsViaInfo(lch, w, compact).stack;
            var s := M3Span(v, viaYc, vdir);
      && s.lo <= viaYc - v.h[2] / 2 && viaYc + v.h[2] / 2 <= s.hi
      && (vdir == 0 ==> s.hi - (viaYc + v.h[2] / 2) == v.topEncy[0])
      && (vdir == 2 ==> (viaYc - v.h[2] / 2) - s.lo == v.topEncy[0])
  {
    var v := DsViaInfo(lch, w, compact).stack;
    assert v.h == DsH && v.topEncy == DsTopEncy;
    assert v.m3H >= 104;
  }
}

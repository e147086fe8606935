/**
 * Edge and guard-ring blocks: the edge constants, the edge geometry
 * (`get_edge_info`) and the three layout transforms that turn a row's
 * layout record into an outer edge, a guard-ring substrate block or a
 * guard-ring separator.
 */
module Edge {
  import opened Results
  import opened Tech
  import opened GridMath
  import opened Records

  /** `get_edge_tech_constants`: finger counts of the edge and guard-ring blocks. */
  datatype EdgeConstants = EdgeConstants(
    grNfMin: int,
    outerFg: int,
    grOuterFg: int,
    grSubFgMargin: int,
    grSepFg: int,
    cpoExtx: int)

  /** Space between a PO edge and its finger boundary: half of what the pitch leaves beside the gate. */
  function LeftMargin(sdPitch: int, lch: int): int {
    (sdPitch - lch) / 2
  }

  /**
   * The edge constants: the implant margin is the least number of fingers
   * that covers the implant's OD enclosure beyond the PO margin, and the
   * separator is one finger wider.
   */
  function GetEdgeTechConstants(lch: int): (r: Result<EdgeConstants>)
    ensures r.Success? <==> lch == SupportedLch
    ensures r.Failure? ==> r.error == UnsupportedChannelLength(lch)
    ensures r.Success? ==>
      var c := r.value;
      var sdPitch := GetMosTechConstants(lch).value.sdPitch;
      var need := ImpOdEncx - LeftMargin(sdPitch, lch);
      && c.grSubFgMargin * sdPitch >= need && (c.grSubFgMargin - 1) * sdPitch < need
      && c.grSepFg == c.grSubFgMargin + 1
      && c.grNfMin == 2 && c.outerFg == 3 && c.grOuterFg == 0 && c.cpoExtx == 34
  {
    var mc :- GetMosTechConstants(lch);
    var odFgMargin := CeilDiv(ImpOdEncx - LeftMargin(mc.sdPitch, lch), mc.sdPitch);
    Success(EdgeConstants(2, 3, 0, odFgMargin, odFgMargin + 1, 34))
  }

  /** For the supported channel length one finger covers the implant enclosure. */
  lemma LemmaEdgeConstantsAt18()
    ensures GetEdgeTechConstants(SupportedLch) == Success(EdgeConstants(2, 3, 0, 1, 2, 34))
  {
    var c := GetEdgeTechConstants(SupportedLch).value;
    assert GetMosTechConstants(SupportedLch).value.sdPitch == 90;
    assert LeftMargin(90, SupportedLch) == 36;
    assert c.grSubFgMargin * 90 >= 29 && (c.grSubFgMargin - 1) * 90 < 29;
  }

  /** What `get_edge_info` returns. */
  datatype EdgeGeom = EdgeGeom(
    edgeWidth: int,
    dxEdge: int,
    cpoXl: int,
    outerFg: int,
    grSubFg: int,
    grSepFg: int)

  /**
   * The end-of-array shift: the least multiple of the vertical-metal pitch
   * that, added to the PO margin, covers both that margin and the CPO's x
   * extension.
   */
  function EndShift(leftMargin: int, cpoExtx: int, vmPitch: int): (xshift: int)
    requires vmPitch > 0
    ensures xshift >= 0 && xshift % vmPitch == 0
    ensures leftMargin + xshift >= cpoExtx
    ensures xshift >= vmPitch ==> leftMargin + xshift - vmPitch < cpoExtx
  {
    var need := Max(leftMargin, cpoExtx) - leftMargin;
    var q := CeilDiv(need, vmPitch);
    assert q >= 0 by {
      LemmaCeilDivMonotone(0, need, vmPitch);
      assert CeilDiv(0, vmPitch) == 0;
    }
    assert q * vmPitch >= vmPitch ==> q >= 1;
    LemmaMultipleMod(q, vmPitch);
    q * vmPitch
  }

  /**
   * `get_edge_info`: the guard-ring check, the end shift and the edge block
   * width.  `vmPitch` is the routing grid's block width on the top layer.
   */
  function GetEdgeInfo(lch: int, guardRingNf: int, vmPitch: int, isEnd: bool): (r: Result<EdgeGeom>)
    requires vmPitch > 0
    ensures lch != SupportedLch ==> r == Failure(UnsupportedChannelLength(lch))
    ensures lch == SupportedLch && 0 < guardRingNf < 2 ==> r == Failure(GuardRingTooSmall(guardRingNf, 2))
    ensures r.Success? <==> lch == SupportedLch && !(0 < guardRingNf < 2)
    ensures r.Success? ==>
      var g := r.value;
      var sdPitch := GetMosTechConstants(lch).value.sdPitch;
      var lm := LeftMargin(sdPitch, lch);
      // the shift: a non-negative multiple of the pitch, zero away from the array end
      && g.dxEdge >= 0 && g.dxEdge % vmPitch == 0
      && (!isEnd ==> g.dxEdge == 0 && g.cpoXl == 0)
      // at the end: the CPO starts at or right of x = 0, and no smaller shift does it
      && (isEnd ==> g.cpoXl == lm - 34 + g.dxEdge && g.cpoXl >= 0
                    && (g.dxEdge >= vmPitch ==> g.cpoXl < vmPitch))
      // finger counts and the total width
      && g.grSepFg == 2
      && (guardRingNf == 0 ==> g.outerFg == 3 && g.grSubFg == 0 && g.edgeWidth == 3 * sdPitch + g.dxEdge)
      && (guardRingNf != 0 ==> g.outerFg == 0 && g.grSubFg == guardRingNf + 4
                               && g.edgeWidth == (guardRingNf + 6) * sdPitch + g.dxEdge)
  {
    var ec :- GetEdgeTechConstants(lch);
    var mc := GetMosTechConstants(lch).value;
    LemmaEdgeConstantsAt18();
    if 0 < guardRingNf < ec.grNfMin then Failure(GuardRingTooSmall(guardRingNf, ec.grNfMin))
    else
      var lm := LeftMargin(mc.sdPitch, lch);
      var xshift := if isEnd then EndShift(lm, ec.cpoExtx, vmPitch) else 0;
      var cpoXl := if isEnd then lm - ec.cpoExtx + xshift else 0;
      var outerFg := if guardRingNf == 0 then ec.outerFg else ec.grOuterFg;
      var grSubFg := if guardRingNf == 0 then 0 else guardRingNf + 2 + 2 * ec.grSubFgMargin;
      var fgTot := if guardRingNf == 0 then outerFg else outerFg + grSubFg + ec.grSepFg;
      Success(EdgeGeom(fgTot * mc.sdPitch + xshift, xshift, cpoXl, outerFg, grSubFg, ec.grSepFg))
  }

  /** For the supported channel length the PO margin already covers the CPO extension: no end ever shifts. */
  lemma LemmaNoEndShiftAt18(guardRingNf: int, vmPitch: int, isEnd: bool)
    requires vmPitch > 0
    requires !(0 < guardRingNf < 2)
    ensures var r := GetEdgeInfo(SupportedLch, guardRingNf, vmPitch, isEnd);
      r.Success? && r.value.dxEdge == 0 && r.value.cpoXl == (if isEnd then 2 else 0)
  {
    var g := GetEdgeInfo(SupportedLch, guardRingNf, vmPitch, isEnd).value;
    assert LeftMargin(90, SupportedLch) == 36;
    if isEnd {
      assert g.dxEdge < vmPitch;
      LemmaDivUnique(g.dxEdge, vmPitch, 0, g.dxEdge);
    }
  }

  /** A wider guard ring makes a wider edge block, by one finger pitch per finger. */
  lemma LemmaEdgeWidthGrows(lch: int, nf1: int, nf2: int, vmPitch: int, isEnd: bool)
    requires vmPitch > 0 && lch == SupportedLch
    requires 2 <= nf1 <= nf2
    ensures var g1 := GetEdgeInfo(lch, nf1, vmPitch, isEnd);
            var g2 := GetEdgeInfo(lch, nf2, vmPitch, isEnd);
      g1.Success? && g2.Success?
      && g2.value.edgeWidth - g1.value.edgeWidth == (nf2 - nf1) * GetMosTechConstants(lch).value.sdPitch
  {
  }

  /** `rinfo._replace(od_x_list=[])` on every row. */
  function ClearOdX(rows: seq<RowInfo>): (r: seq<RowInfo>)
    ensures |r| == |rows|
    ensures forall i :: 0 <= i < |r| ==> r[i] == rows[i].(odXList := [])
  {
    seq(|rows|, i requires 0 <= i < |rows| => rows[i].(odXList := []))
  }

  /** `f._replace(x_intv_list=xs)` on every fill. */
  function SetFillX(fills: seq<FillInfo>, xs: seq<Span>): (r: seq<FillInfo>)
    ensures |r| == |fills|
    ensures forall i :: 0 <= i < |r| ==> r[i] == fills[i].(xIntvList := xs)
  {
    seq(|fills|, i requires 0 <= i < |fills| => fills[i].(xIntvList := xs))
  }

  /**
   * The PO mask an edge block draws next to a row: all dummy, except the
   * last finger, which is live poly when the neighbour's OD is a transistor
   * or substrate OD.
   */
  function EdgePoTypes(fg: int, adj: Option<EdgeInfo>): (p: seq<bool>)
    requires fg >= 1
    ensures |p| == fg
    ensures forall i :: 0 <= i < fg - 1 ==> !p[i]
    ensures p[fg - 1] <==> adj.Some? && IsLive(adj.value.odType)
  {
    if adj.Some? && IsLive(adj.value.odType) then Repeat(false, fg - 1) + Repeat(true, 1)
    else Repeat(false, fg)
  }

  /** Python's `zip(adj_edges, adj_rows)` with each row's PO mask replaced by `EdgePoTypes`. */
  function EdgeAdjs(fg: int, edges: seq<Option<EdgeInfo>>, adjs: seq<AdjRowInfo>): (r: seq<AdjRowInfo>)
    requires fg >= 1
    ensures |r| == Min(|edges|, |adjs|)
    ensures forall i :: 0 <= i < |r| ==> r[i] == adjs[i].(poTypes := EdgePoTypes(fg, edges[i]))
  {
    var n := Min(|edges|, |adjs|);
    seq(n, i requires 0 <= i < n => adjs[i].(poTypes := EdgePoTypes(fg, edges[i])))
  }

  /** The CPO rectangles of a layer list, in order. */
  function CpoOnly(lays: seq<LayInfo>): (r: seq<LayInfo>)
    ensures |r| <= |lays|
    ensures forall l :: l in r <==> l in lays && l.layer == CutPoly
  {
    if lays == [] then []
    else
      var rest := CpoOnly(lays[1..]);
      assert forall l :: l in lays <==> l == lays[0] || l in lays[1..];
      if lays[0].layer == CutPoly then [lays[0]] + rest else rest
  }

  /** `(lay, xl, yb, yt)` for every rectangle: the same layers and heights at a new left edge. */
  function MoveLays(lays: seq<LayInfo>, cpoXl: int, otherXl: int): (r: seq<LayInfo>)
    ensures |r| == |lays|
    ensures forall i :: 0 <= i < |r| ==>
      r[i] == lays[i].(xl := if lays[i].layer == CutPoly then cpoXl else otherXl)
  {
    seq(|lays|, i requires 0 <= i < |lays| => lays[i].(xl := if lays[i].layer == CutPoly then cpoXl else otherXl))
  }

  /** Every implant split's threshold is one `get_mos_layers` accepts. */
  predicate ThresholdsParse(params: seq<ImpParam>) {
    forall i :: 0 <= i < |params| ==> ParseThreshold(params[i].thres).Success?
  }

  /** `l` is one of the substrate-tap layers of split `p`, spanning its implant Y at left edge `xl`. */
  predicate IsTapImplant(l: LayInfo, p: ImpParam, xl: int) {
    var layers := GetMosLayers(p.mtype.SubType(), p.thres);
    && layers.Success? && l.layer in layers.value
    && l == LayInfo(l.layer, xl, p.impY.lo, p.impY.hi)
  }

  /**
   * The implant-to-tap conversion: for every implant split, every layer of
   * the matching substrate tap type over the split's implant Y.  An
   * unrecognised threshold raises.
   */
  function SubImplantLays(params: seq<ImpParam>, xl: int): (r: Result<seq<LayInfo>>)
    ensures r.Success? <==> ThresholdsParse(params)
    ensures r.Failure? ==> r.error.UnrecognizedThreshold?
    ensures r.Success? ==> forall l :: l in r.value ==> exists p :: p in params && IsTapImplant(l, p, xl)
    ensures r.Success? ==>
      forall p, x ::
        (p in params && GetMosLayers(p.mtype.SubType(), p.thres).Success? &&
         x in GetMosLayers(p.mtype.SubType(), p.thres).value) ==>
        LayInfo(x, xl, p.impY.lo, p.impY.hi) in r.value
  {
    if params == [] then Success([])
    else
      var p := params[0];
      assert ThresholdsParse(params) <==> ParseThreshold(p.thres).Success? && ThresholdsParse(params[1..]) by {
        if ParseThreshold(p.thres).Success? && ThresholdsParse(params[1..]) {
          forall i | 0 <= i < |params| ensures ParseThreshold(params[i].thres).Success? {
            if i > 0 { assert params[i] == params[1..][i - 1]; }
          }
        }
        if ThresholdsParse(params) {
          forall i | 0 <= i < |params| - 1 ensures ParseThreshold(params[1..][i].thres).Success? {
            assert params[1..][i] == params[i + 1];
          }
        }
      }
      var layers :- GetMosLayers(p.mtype.SubType(), p.thres);
      var rest :- SubImplantLays(params[1..], xl);
      var here := seq(|layers|, i requires 0 <= i < |layers| => LayInfo(layers[i], xl, p.impY.lo, p.impY.hi));
      assert forall q :: q in params <==> q == p || q in params[1..];
      assert forall l :: l in here ==> IsTapImplant(l, p, xl);
      assert forall x :: x in layers ==> LayInfo(x, xl, p.impY.lo, p.impY.hi) in here by {
        forall x | x in layers ensures LayInfo(x, xl, p.impY.lo, p.impY.hi) in here {
          var i :| 0 <= i < |layers| && layers[i] == x;
          assert here[i] == LayInfo(x, xl, p.impY.lo, p.impY.hi);
        }
      }
      Success(here + rest)
  }

  /** The right neighbour and the edge records of the rows next to an edge block. */
  datatype AdjBlkInfo = AdjBlkInfo(right: Option<EdgeInfo>, adjEdges: seq<Option<EdgeInfo>>)

  /**
   * The outer edge's layers: every rectangle moved to the new left edges, or,
   * with a guard ring and an implant split, the CPO rectangles followed by
   * the substrate-tap implants of every split.
   */
  function OuterLays(guardRingNf: int, layout: LayoutInfo, cpoXl: int, edgeXl: int): (r: Result<seq<LayInfo>>)
    ensures r.Success? <==> guardRingNf == 0 || layout.impParams.None? || ThresholdsParse(layout.impParams.value)
    ensures r.Failure? ==> r.error.UnrecognizedThreshold?
    ensures r.Success? && (guardRingNf == 0 || layout.impParams.None?) ==>
      && |r.value| == |layout.lays|
      && forall i :: 0 <= i < |r.value| ==>
           && r.value[i].layer == layout.lays[i].layer
           && r.value[i].yb == layout.lays[i].yb && r.value[i].yt == layout.lays[i].yt
           && r.value[i].xl == (if layout.lays[i].layer == CutPoly then cpoXl else edgeXl)
    ensures r.Success? && guardRingNf != 0 && layout.impParams.Some? ==>
      forall l :: l in r.value ==>
        || (l.layer == CutPoly && l.xl == cpoXl && exists k :: k in layout.lays && l == k.(xl := cpoXl))
        || (exists p :: p in layout.impParams.value && IsTapImplant(l, p, edgeXl))
    // ... and every CPO rectangle, moved, and every tap layer of every split is emitted
    ensures r.Success? && guardRingNf != 0 && layout.impParams.Some? ==>
      forall k :: k in layout.lays && k.layer == CutPoly ==> k.(xl := cpoXl) in r.value
    ensures r.Success? && guardRingNf != 0 && layout.impParams.Some? ==>
      forall p, x ::
        (p in layout.impParams.value && GetMosLayers(p.mtype.SubType(), p.thres).Success? &&
         x in GetMosLayers(p.mtype.SubType(), p.thres).value) ==>
        LayInfo(x, edgeXl, p.impY.lo, p.impY.hi) in r.value
  {
    if guardRingNf == 0 || layout.impParams.None? then Success(MoveLays(layout.lays, cpoXl, edgeXl))
    else
      var sub :- SubImplantLays(layout.impParams.value, edgeXl);
      var cpos := CpoOnly(layout.lays);
      var moved := MoveLays(cpos, cpoXl, edgeXl);
      assert forall l :: l in moved ==> l.layer == CutPoly && l.xl == cpoXl && exists k :: k in layout.lays && l == k.(xl := cpoXl) by {
        forall l | l in moved
          ensures l.layer == CutPoly && l.xl == cpoXl && exists k :: k in layout.lays && l == k.(xl := cpoXl)
        {
          var i :| 0 <= i < |moved| && moved[i] == l;
          assert cpos[i] in cpos;
        }
      }
      Success(moved + sub)
  }

  /** Every row of `rows` is the matching row of `orig` with its OD x list emptied. */
  predicate OdXCleared(rows: seq<RowInfo>, orig: seq<RowInfo>) {
    |rows| == |orig| && forall i :: 0 <= i < |rows| ==> rows[i] == orig[i].(odXList := [])
  }

  /** Every fill of `fills` is the matching fill of `orig` over the X intervals `xs`. */
  predicate FillsOver(fills: seq<FillInfo>, orig: seq<FillInfo>, xs: seq<Span>) {
    |fills| == |orig| && forall i :: 0 <= i < |fills| ==> fills[i] == orig[i].(xIntvList := xs)
  }

  /**
   * `get_outer_edge_info`: the edge block beside a row.  Rows lose their OD,
   * the layers move to the edge's left boundary (CPO to the CPO boundary),
   * the neighbouring rows' PO masks become edge masks and the M1 fill sits
   * one finger in from the edge.
   */
  function GetOuterEdgeInfo(vmPitch: int, guardRingNf: int, layout: LayoutInfo, isEnd: bool,
                            adjBlk: Option<AdjBlkInfo>)
    : (r: Result<LayoutInfo>)
    requires vmPitch > 0
    ensures r.Success? <==>
      && GetEdgeInfo(layout.lch, guardRingNf, vmPitch, isEnd).Success?
      && (guardRingNf == 0 || layout.impParams.None? || ThresholdsParse(layout.impParams.value))
    ensures GetEdgeInfo(layout.lch, guardRingNf, vmPitch, isEnd).Failure? ==>
      r == Failure(GetEdgeInfo(layout.lch, guardRingNf, vmPitch, isEnd).error)
    ensures r.Success? ==>
      var e := GetEdgeInfo(layout.lch, guardRingNf, vmPitch, isEnd).value;
      var o := r.value;
      var edges := if adjBlk.Some? then adjBlk.value.adjEdges else Repeat0(|layout.adjs|);
      var xc := e.dxEdge + layout.sdPitch;
      && o.blkType == (if guardRingNf == 0 then EdgeBlk else GrEdgeBlk)
      && o.fg == e.outerFg && o.arrayBoxXl == e.dxEdge
      && o.lch == layout.lch && o.sdPitch == layout.sdPitch && o.arrayBoxY == layout.arrayBoxY && o.drawOd
      && OdXCleared(o.rows, layout.rows)
      && o.lays == OuterLays(guardRingNf, layout, Min(e.dxEdge, e.cpoXl), e.dxEdge).value
      && o.leftBlk == Some(EdgeInfo(NoOd))
      && o.rightBlk == (if adjBlk.Some? then adjBlk.value.right else None)
      // PO masks next to the rows: one per row that has an edge record, only when the edge has fingers
      && (e.outerFg == 0 ==> o.adjs == [] && FillsOver(o.fills, layout.fills, []))
      && (e.outerFg > 0 ==>
            && |o.adjs| == Min(|edges|, |layout.adjs|)
            && (forall i :: 0 <= i < |o.adjs| ==>
                 && o.adjs[i].poY == layout.adjs[i].poY && |o.adjs[i].poTypes| == e.outerFg
                 && (forall j :: 0 <= j < e.outerFg - 1 ==> !o.adjs[i].poTypes[j])
                 && (o.adjs[i].poTypes[e.outerFg - 1] <==> edges[i].Some? && IsLive(edges[i].value.odType)))
            // the M1 fill is one M1 width wide, centred one finger pitch in from the edge
            && FillsOver(o.fills, layout.fills, [Span(xc - MdW / 2, xc + MdW / 2)]))
  {
    var e :- GetEdgeInfo(layout.lch, guardRingNf, vmPitch, isEnd);
    var mc := GetMosTechConstants(layout.lch).value;
    var edgeXl := e.dxEdge;
    var cpoXl := Min(edgeXl, e.cpoXl);
    var lays :- OuterLays(guardRingNf, layout, cpoXl, edgeXl);
    var blk := if adjBlk.Some? then adjBlk.value else AdjBlkInfo(None, Repeat0(|layout.adjs|));
    var fg := e.outerFg;
    var adjs := if fg > 0 then EdgeAdjs(fg, blk.adjEdges, layout.adjs) else [];
    var xs := if fg > 0 then [Span(edgeXl + layout.sdPitch - mc.connW / 2, edgeXl + layout.sdPitch + mc.connW / 2)]
              else [];
    Success(LayoutInfo(if guardRingNf == 0 then EdgeBlk else GrEdgeBlk, layout.lch, layout.mdW, fg,
                       layout.sdPitch, edgeXl, layout.arrayBoxY, true, ClearOdX(layout.rows), lays, adjs,
                       Some(EdgeInfo(NoOd)), blk.right, SetFillX(layout.fills, xs), None))
  }

  /** Python's `[None] * n`. */
  function Repeat0(n: nat): (r: seq<Option<EdgeInfo>>)
    ensures |r| == n && forall i :: 0 <= i < n ==> r[i] == None
  {
    seq(n, _ => None)
  }

  /** The guard ring's OD: `gr_nf_min` fingers, one implant margin plus one finger in from the left. */
  function GrSubOdX(c: EdgeConstants): Span {
    Span(c.grSubFgMargin + 1, c.grSubFgMargin + 1 + c.grNfMin)
  }

  /** The guard ring's PO mask: live poly over the OD fingers and one finger beyond each side. */
  function GrSubPoTypes(c: EdgeConstants): seq<bool> {
    Repeat(false, c.grSubFgMargin) + Repeat(true, c.grNfMin + 2) + Repeat(false, c.grSubFgMargin)
  }

  /** The layers of a guard-ring substrate block: unchanged, or the CPO rectangles plus the tap implants at x = 0. */
  function GrSubLays(layout: LayoutInfo): (r: Result<seq<LayInfo>>)
    ensures r.Success? <==> layout.impParams.None? || ThresholdsParse(layout.impParams.value)
    ensures r.Failure? ==> r.error.UnrecognizedThreshold?
    ensures r.Success? && layout.impParams.None? ==> r.value == layout.lays
    ensures r.Success? && layout.impParams.Some? ==>
      forall l :: l in r.value ==>
        || (l.layer == CutPoly && l in layout.lays)
        || (exists p :: p in layout.impParams.value && IsTapImplant(l, p, 0))
    // ... and every CPO rectangle and every tap layer of every split is kept
    ensures r.Success? && layout.impParams.Some? ==>
      forall k :: k in layout.lays && k.layer == CutPoly ==> k in r.value
    ensures r.Success? && layout.impParams.Some? ==>
      forall p, x ::
        (p in layout.impParams.value && GetMosLayers(p.mtype.SubType(), p.thres).Success? &&
         x in GetMosLayers(p.mtype.SubType(), p.thres).value) ==>
        LayInfo(x, 0, p.impY.lo, p.impY.hi) in r.value
  {
    if layout.impParams.None? then Success(layout.lays)
    else
      var sub :- SubImplantLays(layout.impParams.value, 0);
      Success(CpoOnly(layout.lays) + sub)
  }

  /**
   * `get_gr_sub_info`: the guard-ring substrate block.  Every row becomes a
   * substrate row whose OD sits in the middle of the block; poly is live
   * over the OD and one finger beyond it.
   */
  function GetGrSubInfo(guardRingNf: int, layout: LayoutInfo): (r: Result<LayoutInfo>)
    ensures layout.lch != SupportedLch ==> r == Failure(UnsupportedChannelLength(layout.lch))
    ensures layout.lch == SupportedLch && guardRingNf < 2 ==> r == Failure(GuardRingTooSmall(guardRingNf, 2))
    ensures r.Success? <==>
      && layout.lch == SupportedLch && guardRingNf >= 2
      && (layout.impParams.None? || ThresholdsParse(layout.impParams.value))
    ensures r.Success? ==>
      var o := r.value;
      && o.blkType == GrSubBlk && o.fg == 6 && o.arrayBoxXl == 0 && o.arrayBoxY == layout.arrayBoxY && o.drawOd
      && o.leftBlk == None && o.rightBlk == None
      && o.lays == GrSubLays(layout).value
      && FillsOver(o.fills, layout.fills, [])
      // every row is a substrate row whose OD is centred in the block's fingers
      && |o.rows| == |layout.rows|
      && (forall i :: 0 <= i < |o.rows| ==>
            o.rows[i] == layout.rows[i].(odXList := [Span(2, 4)], odKind := SubOd))
      && (forall i :: 0 <= i < |o.rows| ==> o.rows[i].odXList[0].lo + o.rows[i].odXList[0].hi == o.fg)
      // live poly exactly over the OD fingers and one finger beyond each side
      && |o.adjs| == |layout.adjs|
      && (forall i :: 0 <= i < |o.adjs| ==>
            && o.adjs[i].poY == layout.adjs[i].poY && |o.adjs[i].poTypes| == o.fg
            && forall j :: 0 <= j < o.fg ==> (o.adjs[i].poTypes[j] <==> 1 <= j <= 4))
  {
    var ec :- GetEdgeTechConstants(layout.lch);
    LemmaEdgeConstantsAt18();
    if guardRingNf < ec.grNfMin then Failure(GuardRingTooSmall(guardRingNf, ec.grNfMin))
    else
      var lays :- GrSubLays(layout);
      var fg := ec.grNfMin + 2 + 2 * ec.grSubFgMargin;
      var odX := [GrSubOdX(ec)];
      var rows := seq(|layout.rows|, i requires 0 <= i < |layout.rows| =>
                        layout.rows[i].(odXList := odX, odKind := SubOd));
      var poTypes := GrSubPoTypes(ec);
      var adjs := seq(|layout.adjs|, i requires 0 <= i < |layout.adjs| => layout.adjs[i].(poTypes := poTypes));
      Success(LayoutInfo(GrSubBlk, layout.lch, layout.mdW, fg, layout.sdPitch, 0, layout.arrayBoxY, true,
                         rows, lays, adjs, None, None, SetFillX(layout.fills, []), None))
  }

  /** The guard-ring substrate block does not depend on the requested guard-ring width beyond its minimum check. */
  lemma LemmaGrSubIgnoresWidth(nf1: int, nf2: int, layout: LayoutInfo)
    requires nf1 >= 2 && nf2 >= 2
    ensures GetGrSubInfo(nf1, layout) == GetGrSubInfo(nf2, layout)
  {
  }

  /**
   * `get_gr_sep_info`: the separator between the guard ring and the array.
   * It reads the OD kind of every neighbouring row's edge record, so an
   * absent record in the zipped range raises.
   */
  function GetGrSepInfo(layout: LayoutInfo, adjBlk: AdjBlkInfo): (r: Result<LayoutInfo>)
    ensures layout.lch != SupportedLch ==> r == Failure(UnsupportedChannelLength(layout.lch))
    ensures r.Success? <==>
      && layout.lch == SupportedLch
      && forall i :: 0 <= i < Min(|adjBlk.adjEdges|, |layout.adjs|) ==> adjBlk.adjEdges[i].Some?
    ensures layout.lch == SupportedLch && r.Failure? ==> r.error == AbsentEdgeInfo
    ensures r.Success? ==>
      var o := r.value;
      && o.blkType == GrSepBlk && o.fg == 2 && o.arrayBoxXl == 0 && o.arrayBoxY == layout.arrayBoxY && o.drawOd
      && o.lays == layout.lays && OdXCleared(o.rows, layout.rows)
      && o.leftBlk == None && o.rightBlk == adjBlk.right
      && |o.adjs| == Min(|adjBlk.adjEdges|, |layout.adjs|)
      && (forall i :: 0 <= i < |o.adjs| ==>
            && o.adjs[i].poY == layout.adjs[i].poY
            && o.adjs[i].poTypes == [false, IsLive(adjBlk.adjEdges[i].value.odType)])
      // the M1 fill is one M1 width wide, centred on the block's left boundary
      && FillsOver(o.fills, layout.fills, [Span(-MdW / 2, MdW / 2)])
  {
    var ec :- GetEdgeTechConstants(layout.lch);
    LemmaEdgeConstantsAt18();
    var n := Min(|adjBlk.adjEdges|, |layout.adjs|);
    if exists i :: 0 <= i < n && adjBlk.adjEdges[i].None? then Failure(AbsentEdgeInfo)
    else
      var mc := GetMosTechConstants(layout.lch).value;
      var adjs := EdgeAdjs(ec.grSepFg, adjBlk.adjEdges, layout.adjs);
      assert forall i :: 0 <= i < |adjs| ==> adjs[i].poTypes == [false, IsLive(adjBlk.adjEdges[i].value.odType)] by {
        forall i | 0 <= i < |adjs| ensures adjs[i].poTypes == [false, IsLive(adjBlk.adjEdges[i].value.odType)] {
          var p := adjs[i].poTypes;
          assert |p| == 2 && !p[0];
        }
      }
      Success(LayoutInfo(GrSepBlk, layout.lch, layout.mdW, ec.grSepFg, layout.sdPitch, 0, layout.arrayBoxY, true,
                         ClearOdX(layout.rows), layout.lays, adjs, None, adjBlk.right,
                         SetFillX(layout.fills, [Span((-mc.connW) / 2, mc.connW / 2)]), None))
  }
}

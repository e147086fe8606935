/**
 * Substrate and end rows (`get_substrate_info`, `_get_sub_m1_y`,
 * `get_analog_end_info`).  A substrate row stacks a CPO, an M0PO and the OD
 * from the bottom, mirrors the stack to get the block height, rounds that
 * height up to a common multiple of the block pitch and the fin pitch, and
 * re-centres the OD (and the MD and M1 with it) on the fin grid.  An end row
 * is only a CPO, shifted up by whole block pitches when it sits on the array
 * end so that every shape lies in the first quadrant.
 */
module Substrate {
  import opened Results
  import opened GridMath
  import opened Tech
  import opened Records
  import opened Vias

  /** The substrate MD height: the minimum MD height or the OD height plus the requested extension on both sides. */
  function SubMdHeight(w: int, mdOdExt: int): (mdH: int)
    ensures mdH >= MdHMin && mdH >= OdHeight(w) + 2 * mdOdExt
    ensures mdH == MdHMin || mdH == OdHeight(w) + 2 * mdOdExt
  {
    Max(MdHMin, OdHeight(w) + 2 * mdOdExt)
  }

  /** The top of the bottom M0PO: above half the M0PO spacing and a CPO-to-M0PO space above the bottom CPO. */
  const SubMpYt := Max(MpSpy / 2, CpoH / 2 + MpCpoSp) + MpH

  /**
   * Step 3 of the substrate solver: the centre of the OD's bottom fin is the
   * lowest fin centre that leaves the MD-to-M0PO space and the MD's overhang
   * (half of what the MD height adds to the OD) above the bottom M0PO.
   */
  function SubBottomFinYc(w: int, mdOdExt: int): (yc: int)
    ensures (yc - FinP2) % FinPitch == 0
    ensures var lo := SubMpYt + MpMdSp + (SubMdHeight(w, mdOdExt) - OdHeight(w)) / 2;
      lo <= yc < lo + FinPitch
  {
    RoundUpOffset(SubMpYt + MpMdSp + (SubMdHeight(w, mdOdExt) - OdHeight(w)) / 2, FinPitch, FinP2)
  }

  /** `od_yt + od_yb` of the first placement: twice the OD centre, the height a symmetric row needs. */
  function SubOdSum(w: int, mdOdExt: int): int {
    var odYb := SubBottomFinYc(w, mdOdExt) - FinH2;
    odYb + (odYb + OdHeight(w))
  }

  /** The quantum of substrate and end row heights: the least common multiple of the block pitch and the fin pitch. */
  function SubPitch(blkPitch: int): (p: int)
    requires blkPitch > 0
    ensures p > 0 && p % blkPitch == 0 && p % FinPitch == 0
    ensures forall m :: 0 < m < p ==> !IsCommonMultiple(m, blkPitch, FinPitch)
  {
    Lcm(blkPitch, FinPitch)
  }

  /** The substrate block height: the least multiple of `SubPitch` that holds the symmetric row. */
  function SubBlockHeight(w: int, mdOdExt: int, blkPitch: int): (blkH: int)
    requires blkPitch > 0
    ensures blkH % SubPitch(blkPitch) == 0
    ensures SubOdSum(w, mdOdExt) <= blkH < SubOdSum(w, mdOdExt) + SubPitch(blkPitch)
  {
    RoundUp(SubOdSum(w, mdOdExt), SubPitch(blkPitch))
  }

  /** A multiple of a multiple of a is a multiple of a. */
  lemma LemmaMultipleOfMultiple(m: int, p: int, a: int)
    requires p > 0 && a > 0
    requires m % p == 0 && p % a == 0
    ensures m % a == 0
  {
    var q, k := m / p, p / a;
    assert m == q * p;
    assert p == k * a;
    assert m == (q * k) * a;
    LemmaMultipleMod(q * k, a);
  }

  /** The difference of two multiples of a is a multiple of a. */
  lemma LemmaDiffMultiple(x: int, y: int, a: int)
    requires a > 0
    requires x % a == 0 && y % a == 0
    ensures (x - y) % a == 0
  {
    var i, j := x / a, y / a;
    assert x == i * a;
    assert y == j * a;
    assert x - y == (i - j) * a;
    LemmaMultipleMod(i - j, a);
  }

  /** Every positive common multiple of a and b is a multiple of their least common multiple. */
  lemma LemmaLcmDivides(m: int, a: int, b: int)
    requires a > 0 && b > 0
    requires IsCommonMultiple(m, a, b)
    ensures m % Lcm(a, b) == 0
  {
    var l := Lcm(a, b);
    var q := FloorDiv(m, l);
    var r := m - q * l;
    LemmaMultipleMod(q, l);
    LemmaMultipleOfMultiple(q * l, l, a);
    LemmaMultipleOfMultiple(q * l, l, b);
    LemmaDiffMultiple(m, q * l, a);
    LemmaDiffMultiple(m, q * l, b);
    if r > 0 {
      // r would be a positive common multiple below the least one
      assert IsCommonMultiple(r, a, b);
      assert false;
    }
    assert m == q * l;
  }

  /**
   * Rounding s up to the least common multiple of a and b gives a multiple
   * of both, and no larger than any positive common multiple at least s.
   */
  lemma LemmaRoundUpToLcm(s: int, a: int, b: int, m: int)
    requires a > 0 && b > 0
    ensures RoundUp(s, Lcm(a, b)) % a == 0 && RoundUp(s, Lcm(a, b)) % b == 0
    ensures m > 0 && m % a == 0 && m % b == 0 && m >= s ==> RoundUp(s, Lcm(a, b)) <= m
  {
    var p := Lcm(a, b);
    var q := CeilDiv(s, p);
    assert RoundUp(s, p) == q * p;
    LemmaMultipleMod(q, p);
    LemmaMultipleOfMultiple(q * p, p, a);
    LemmaMultipleOfMultiple(q * p, p, b);
    if m > 0 && m % a == 0 && m % b == 0 && m >= s {
      LemmaLcmDivides(m, a, b);
      var k := m / p;
      assert m == k * p;
      LemmaCeilDivLeast(s, p, k);
      LemmaMulMonotone(q, k, p);
    }
  }

  /**
   * The substrate height is a multiple of both the block pitch and the fin
   * pitch, and no smaller such multiple holds the symmetric row.
   */
  lemma LemmaSubBlockHeightLeast(w: int, mdOdExt: int, blkPitch: int, m: int)
    requires blkPitch > 0
    ensures SubBlockHeight(w, mdOdExt, blkPitch) % blkPitch == 0
    ensures SubBlockHeight(w, mdOdExt, blkPitch) % FinPitch == 0
    ensures m > 0 && m % blkPitch == 0 && m % FinPitch == 0 && m >= SubOdSum(w, mdOdExt) ==>
      SubBlockHeight(w, mdOdExt, blkPitch) <= m
  {
    LemmaRoundUpToLcm(SubOdSum(w, mdOdExt), blkPitch, FinPitch, m);
  }

  /** Multiplying by a positive factor keeps the order. */
  lemma LemmaMulMonotone(a: int, b: int, p: int)
    requires p > 0 && a <= b
    ensures a * p <= b * p
  {
    if a < b {
      LemmaMulAtLeast(b - a, p);
      assert b * p - a * p == (b - a) * p;
    }
  }

  /** The substrate geometry once the block height is known. */
  datatype SubGeometry = SubGeometry(blkH: int, od: Span, md: Span, conn: Span)

  /** The offset of the OD bottom on the fin grid: a fin centre less half a fin. */
  const OdYbResidue := FinP2 - FinH2

  /**
   * The re-centred substrate OD: its bottom is the greatest fin-grid OD
   * bottom at or below the position that would centre it in the block.
   */
  function RecentredOd(blkH: int, odH: int): (od: Span)
    ensures od.Length() == odH
    ensures (od.lo - OdYbResidue) % FinPitch == 0
    ensures blkH / 2 - odH / 2 - FinPitch < od.lo <= blkH / 2 - odH / 2
  {
    var odYb := RoundDownOffset(blkH / 2 - odH / 2, FinPitch, OdYbResidue);
    Span(odYb, odYb + odH)
  }

  /** An interval of height h centred on `od`, as `(od_yb + od_yt - h) // 2` places it. */
  function CentreOn(od: Span, h: int): (s: Span)
    ensures s.Length() == h
    ensures (od.lo + od.hi - h) % 2 == 0 ==> s.lo + s.hi == od.lo + od.hi
  {
    var lo := (od.lo + od.hi - h) / 2;
    Span(lo, lo + h)
  }

  /**
   * The substrate M1 connection: from the gate-via reach below the bottom
   * M0PO (placed an MD-to-M0PO space under the MD) to the same reach above
   * the top M0PO; it is symmetric about the MD.
   */
  function SubConnY(md: Span, gm1Delta: int): (conn: Span)
    ensures conn.lo + conn.hi == md.lo + md.hi
    ensures conn.lo == md.lo - MpMdSp - MpH / 2 - gm1Delta
  {
    var botMpYt := md.lo - MpMdSp;
    var botMpYc := (botMpYt + (botMpYt - MpH)) / 2;
    var topMpYb := md.hi + MpMdSp;
    var topMpYc := (topMpYb + (topMpYb + MpH)) / 2;
    Span(botMpYc - gm1Delta, topMpYc + gm1Delta)
  }

  /** Half the V0 height plus its M1 enclosure: how far the gate-via M1 reaches past the M0PO centre. */
  function SubGm1Delta(lch: int, w: int): (d: int)
    ensures 2 * d == DsViaInfo(lch, w, false).stack.h[0] + 2 * DsViaInfo(lch, w, false).stack.topEncy[0]
  {
    var dv := DsViaInfo(lch, w, false);
    dv.stack.h[0] / 2 + dv.stack.topEncy[0]
  }

  /** Every OD height is even: a whole number of fin pitches plus one fin, both even. */
  lemma LemmaOdHeightEven(w: int)
    ensures OdHeight(w) == 2 * (OdHeight(w) / 2)
  {
    var k := (w - 1) * 24 + 7;
    assert OdHeight(w) == k * 2;
    LemmaDivUnique(k * 2, 2, k, 0);
  }

  /** Steps 3 to 3.5 of `get_substrate_info`: block height, re-centred OD, MD and M1 connection. */
  function SubstrateGeometry(lch: int, w: int, blkPitch: int, mdOdExt: int): (g: SubGeometry)
    requires blkPitch > 0
    ensures g.blkH == SubBlockHeight(w, mdOdExt, blkPitch)
    ensures g.od == RecentredOd(g.blkH, OdHeight(w))
    ensures g.md.Length() == SubMdHeight(w, mdOdExt)
    ensures g.md.lo + g.md.hi == g.od.lo + g.od.hi
    ensures g.conn.lo + g.conn.hi == g.od.lo + g.od.hi
    ensures g.conn.lo == g.md.lo - MpMdSp - MpH / 2 - SubGm1Delta(lch, w)
  {
    var blkH := SubBlockHeight(w, mdOdExt, blkPitch);
    var odH := OdHeight(w);
    var mdH := SubMdHeight(w, mdOdExt);
    var od := RecentredOd(blkH, odH);
    // both heights are even, so the MD is exactly centred on the OD
    LemmaOdHeightEven(w);
    var k := if mdH == MdHMin then od.lo + odH / 2 - MdHMin / 2 else od.lo - mdOdExt;
    assert MdHMin / 2 == 34;
    assert od.lo + od.hi - mdH == k * 2;
    LemmaMultipleMod(k, 2);
    var md := CentreOn(od, mdH);
    SubGeometry(blkH, od, md, SubConnY(md, SubGm1Delta(lch, w)))
  }

  /** Over a whole multiple of the fin pitch the re-centred OD sits at most two fin pitches below the centre line. */
  lemma LemmaSubOdNearCentre(lch: int, w: int, blkPitch: int, mdOdExt: int)
    requires blkPitch > 0
    ensures var g := SubstrateGeometry(lch, w, blkPitch, mdOdExt);
      0 <= (g.blkH - g.od.hi) - g.od.lo < 2 * FinPitch
  {
    var g := SubstrateGeometry(lch, w, blkPitch, mdOdExt);
    var odH := OdHeight(w);
    LemmaSubBlockHeightLeast(w, mdOdExt, blkPitch, 0);
    assert g.blkH == 2 * (g.blkH / 2) by {
      LemmaMultipleOfMultiple(g.blkH, FinPitch, 2);
    }
    LemmaOdHeightEven(w);
  }

  /** What `get_substrate_info` returns. */
  datatype SubstrateInfo = SubstrateInfo(
    layout: LayoutInfo,
    sdYc: int,
    extTop: ExtInfo,
    extBot: ExtInfo,
    leftEdge: SideEdgeInfo,
    rightEdge: SideEdgeInfo,
    blkHeight: int,
    gbConnY: Span,
    dsConnY: Span)

  /** The substrate block around a geometry: one substrate row over the whole block and the published margins. */
  function SubstrateBlock(lch: int, g: SubGeometry, sdPitch: int, layers: seq<Layer>, subType: MosType,
                          threshold: string, fg: int)
    : (s: SubstrateInfo)
    ensures s.blkHeight == g.blkH && s.layout.arrayBoxY == Span(0, g.blkH)
    ensures s.layout.blkType == SubBlk && s.layout.impParams == None && s.layout.drawOd
    ensures s.layout.rows == [RowInfo([Span(0, fg)], g.od, SubOd, subType, Span(0, g.blkH), g.md)]
    ensures |s.layout.lays| == |layers|
    ensures forall i :: 0 <= i < |layers| ==> s.layout.lays[i] == LayInfo(layers[i], 0, 0, g.blkH)
    ensures s.layout.fills == [FillInfo(Metal1, [], [g.conn])]
    ensures s.dsConnY == s.gbConnY == g.conn
    ensures s.sdYc == (g.od.lo + g.od.hi) / 2
    // the margins each side publishes add up to the block height
    ensures s.extBot.odMargin + g.od.Length() + s.extTop.odMargin == g.blkH
    ensures s.extBot.mdMargin + g.md.Length() + s.extTop.mdMargin == g.blkH
    ensures s.extBot.m1Margin + g.conn.Length() + s.extTop.m1Margin == g.blkH
    ensures s.extBot.mxMargin == s.extBot.m1Margin && s.extTop.mxMargin == s.extTop.m1Margin
    ensures s.extBot.odMargin == g.od.lo && s.extBot.mdMargin == g.md.lo && s.extBot.m1Margin == g.conn.lo
    ensures s.extTop.mtype == s.extTop.rowType == s.extBot.mtype == s.extBot.rowType == subType
    ensures s.extTop.poTypes == s.extBot.poTypes == Repeat(true, fg)
    ensures s.leftEdge == s.rightEdge == SideEdgeInfo(EdgeInfo(SubOd), [])
  {
    var lrEdge := EdgeInfo(SubOd);
    var poTypes := Repeat(true, fg);
    var lays := seq(|layers|, i requires 0 <= i < |layers| => LayInfo(layers[i], 0, 0, g.blkH));
    var row := RowInfo([Span(0, fg)], g.od, SubOd, subType, Span(0, g.blkH), g.md);
    var layout := LayoutInfo(SubBlk, lch, MdW, fg, sdPitch, 0, Span(0, g.blkH), true, [row], lays, [],
                             None, None, [FillInfo(Metal1, [], [g.conn])], None);
    var extTop := ExtInfo(g.blkH - g.conn.hi, g.blkH - g.od.hi, g.blkH - g.md.hi, g.blkH - g.conn.hi,
                          0, subType, subType, threshold, poTypes, lrEdge, lrEdge);
    var extBot := ExtInfo(g.conn.lo, g.od.lo, g.md.lo, g.conn.lo,
                          0, subType, subType, threshold, poTypes, lrEdge, lrEdge);
    SubstrateInfo(layout, (g.od.lo + g.od.hi) / 2, extTop, extBot, SideEdgeInfo(lrEdge, []),
                  SideEdgeInfo(lrEdge, []), g.blkH, g.conn, g.conn)
  }

  /**
   * `get_substrate_info` with the MD overhang as the parameter `mdOdExt`
   * (the source reads a table key that does not exist; see
   * `GetSubstrateInfoAsWritten`).  Fails for an unsupported channel length
   * or an unrecognised threshold.
   */
  function GetSubstrateInfo(lch: int, w: int, subType: MosType, threshold: string, fg: int, blkPitch: int,
                            mdOdExt: int)
    : (r: Result<SubstrateInfo>)
    requires blkPitch > 0
    ensures r.Success? <==> lch == SupportedLch && ParseThreshold(threshold).Success?
    ensures lch != SupportedLch ==> r == Failure(UnsupportedChannelLength(lch))
    ensures lch == SupportedLch && r.Failure? ==> r == Failure(UnrecognizedThreshold(threshold))
    ensures r.Success? ==>
      var s := r.value;
      && s.blkHeight == SubBlockHeight(w, mdOdExt, blkPitch)
      && |s.layout.rows| == 1
      && s.layout.rows[0].odY.Length() == OdHeight(w)
      && (s.layout.rows[0].odY.lo - OdYbResidue) % FinPitch == 0
      && s.layout.rows[0].mdY.Length() == SubMdHeight(w, mdOdExt)
      && s.layout.rows[0].mdY.lo + s.layout.rows[0].mdY.hi == s.layout.rows[0].odY.lo + s.layout.rows[0].odY.hi
      && s.dsConnY.lo + s.dsConnY.hi == s.layout.rows[0].odY.lo + s.layout.rows[0].odY.hi
      && s.layout.rows[0].poY == Span(0, s.blkHeight)
  {
    var mc :- GetMosTechConstants(lch);
    var layers :- GetMosLayers(subType, threshold);
    var g := SubstrateGeometry(lch, w, blkPitch, mdOdExt);
    Success(SubstrateBlock(lch, g, mc.sdPitch, layers, subType, threshold, fg))
  }

  /**
   * `get_substrate_info` as written: its first line reads
   * `tech_constants['md_od_ext']`, a key the table does not define, so every
   * call raises before anything else is checked.
   */
  function GetSubstrateInfoAsWritten(lch: int, w: int, subType: MosType, threshold: string, fg: int,
                                     blkPitch: int)
    : (r: Result<SubstrateInfo>)
    requires blkPitch > 0
    ensures r == Failure(MissingKey("md_od_ext"))
  {
    match TechLookup("md_od_ext")
    case Failure(e) => Failure(e)
    case Success(_) => assert false; Failure(MissingKey("md_od_ext"))
  }

  /** `_get_sub_m1_y`: the drain/source M1 of an OD with `nfin` fins, centred on `odYc`. */
  function SubM1Y(lch: int, odYc: int, nfin: int): (m1: Span)
    ensures m1.lo + m1.hi == 2 * odYc
    ensures DsViaInfo(lch, nfin, false).stack.m1H - 1 <= m1.Length() <= DsViaInfo(lch, nfin, false).stack.m1H
  {
    var m1H := DsViaInfo(lch, nfin, false).stack.m1H;
    Span(odYc - m1H / 2, odYc + m1H / 2)
  }

  // ---------------------------------------------------------------- end rows

  /** What `get_analog_end_info` returns. */
  datatype EndInfo = EndInfo(layout: LayoutInfo, leftEdge: SideEdgeInfo, rightEdge: SideEdgeInfo)

  /** The y extent of a CPO of height h whose top sits half a mid-array CPO above the array top. */
  function EndCpo(arrYt: int, cpoHEnd: int): (cpo: Span)
    ensures cpo.hi == arrYt + CpoH / 2 && cpo.Length() == cpoHEnd
  {
    Span(arrYt + CpoH / 2 - cpoHEnd, arrYt + CpoH / 2)
  }

  /** The fin boundary of an end row: half a fin pitch plus half a fin on each side of the array top. */
  function EndFinBound(arrYt: int): (fb: Span)
    ensures fb.lo + fb.hi == 2 * arrYt
  {
    Span(arrYt - FinP2 - FinH2, arrYt + FinP2 + FinH2)
  }

  /**
   * The array top of an end row: 0, shifted up by the least multiple of the
   * pitch that brings the CPO bottom and the fin boundary to y >= 0.
   */
  function EndArrYt(cpoHEnd: int, p: int): (arrYt: int)
    requires p > 0
    ensures arrYt >= 0 && arrYt % p == 0
    ensures EndCpo(arrYt, cpoHEnd).lo >= 0 && EndFinBound(arrYt).lo >= 0
    ensures arrYt > 0 ==> EndCpo(arrYt - p, cpoHEnd).lo < 0 || EndFinBound(arrYt - p).lo < 0
  {
    var minYb := Min(EndFinBound(0).lo, EndCpo(0, cpoHEnd).lo);
    if minYb < 0 then
      var yshift := -FloorDiv(minYb, p) * p;
      LemmaMultipleMod(-FloorDiv(minYb, p), p);
      yshift
    else
      LemmaMultipleMod(0, p);
      0
  }

  /**
   * The rectangle an end row would draw for one layer: FinArea over the fin
   * boundary, every other layer from `min(poYb, cpoYc)` up to the array top.
   */
  function EndLayerRect(x: Layer, finBound: Span, poYb: int, cpoYc: int, arrYt: int): LayInfo {
    if x == FinArea then LayInfo(x, 0, finBound.lo, finBound.hi)
    else LayInfo(x, 0, Min(poYb, cpoYc), arrYt)
  }

  /** The implant and fin layers of an end row, each kept only when its rectangle is not empty. */
  function EndLayers(layers: seq<Layer>, finBound: Span, poYb: int, cpoYc: int, arrYt: int): (r: seq<LayInfo>)
    ensures |r| <= |layers|
    ensures forall l :: l in r ==>
      && l.layer in layers && l == EndLayerRect(l.layer, finBound, poYb, cpoYc, arrYt) && l.yb < l.yt
    ensures forall x :: x in layers && EndLayerRect(x, finBound, poYb, cpoYc, arrYt).yb <
                                       EndLayerRect(x, finBound, poYb, cpoYc, arrYt).yt ==>
      EndLayerRect(x, finBound, poYb, cpoYc, arrYt) in r
    decreases |layers|
  {
    if layers == [] then []
    else
      var li := EndLayerRect(layers[0], finBound, poYb, cpoYc, arrYt);
      var rest := EndLayers(layers[1..], finBound, poYb, cpoYc, arrYt);
      assert forall x :: x in layers ==> x == layers[0] || x in layers[1..];
      if li.yt > li.yb then [li] + rest else rest
  }

  /**
   * The end row drawn for the array top `arrYt`: the CPO, the layer shapes
   * and the poly stub above the CPO. With the CPO and the fin boundary in the
   * first quadrant every shape is.
   */
  function EndRowAt(lch: int, sdPitch: int, fg: int, layers: seq<Layer>, arrYt: int, cpoHEnd: int)
    : (e: EndInfo)
    requires EndCpo(arrYt, cpoHEnd).lo >= 0 && EndFinBound(arrYt).lo >= 0
    ensures
      var l := e.layout;
      var cpo := EndCpo(arrYt, cpoHEnd);
      && l.blkType == EndBlk && l.rows == [] && l.fills == [] && l.impParams == None
      && l.arrayBoxY == Span(0, arrYt)
      && |l.lays| >= 1 && l.lays[0] == LayInfo(CutPoly, 0, cpo.lo, cpo.hi)
      && (forall i :: 1 <= i < |l.lays| ==> 0 <= l.lays[i].yb < l.lays[i].yt)
      && (l.adjs != [] <==> cpo.hi - CpoPoEncy < arrYt)
      && (l.adjs != [] ==> l.adjs == [AdjRowInfo(Span(cpo.hi - CpoPoEncy, arrYt), Repeat(true, fg))])
      && e.leftEdge == e.rightEdge && |e.leftEdge.adjEdges| == |l.adjs|
  {
    var lrEdge := EdgeInfo(SubOd);
    var cpo := EndCpo(arrYt, cpoHEnd);
    var finBound := EndFinBound(arrYt);
    var cpoYc := (cpo.lo + cpo.hi) / 2;
    var poYb := cpo.hi - CpoPoEncy;
    assert Min(poYb, cpoYc) >= 0;
    var adjs := if arrYt > poYb then [AdjRowInfo(Span(poYb, arrYt), Repeat(true, fg))] else [];
    var adjEdges := if arrYt > poYb then [lrEdge] else [];
    var rects := EndLayers(layers, finBound, poYb, cpoYc, arrYt);
    var lays := [LayInfo(CutPoly, 0, cpo.lo, cpo.hi)] + rects;
    assert forall i :: 1 <= i < |lays| ==> lays[i] in rects;
    var layout := LayoutInfo(EndBlk, lch, MdW, fg, sdPitch, 0, Span(0, arrYt), true, [], lays, adjs,
                             None, None, [], None);
    EndInfo(layout, SideEdgeInfo(lrEdge, adjEdges), SideEdgeInfo(lrEdge, adjEdges))
  }

  /**
   * The end row proper (`is_end` set): the array top is the least multiple of
   * lcm(blkPitch, fin pitch) that puts the CPO and the fin boundary in the
   * first quadrant.
   */
  function EndRow(lch: int, sdPitch: int, fg: int, layers: seq<Layer>, blkPitch: int, cpoHEnd: int)
    : (e: EndInfo)
    requires blkPitch > 0
    ensures
      var arrYt := e.layout.arrayBoxY.hi;
      && arrYt == EndArrYt(cpoHEnd, SubPitch(blkPitch))
      && arrYt % blkPitch == 0 && arrYt % FinPitch == 0
      && e == EndRowAt(lch, sdPitch, fg, layers, arrYt, cpoHEnd)
  {
    var p := SubPitch(blkPitch);
    var arrYt := EndArrYt(cpoHEnd, p);
    LemmaMultipleOfMultiple(arrYt, p, blkPitch);
    LemmaMultipleOfMultiple(arrYt, p, FinPitch);
    EndRowAt(lch, sdPitch, fg, layers, arrYt, cpoHEnd)
  }

  /**
   * `get_analog_end_info` with the end CPO height as the parameter `cpoHEnd`
   * and the mid-array CPO height read from the process table (the source
   * reads two keys that do not exist; see `GetAnalogEndInfoAsWritten`).
   */
  function GetAnalogEndInfo(lch: int, subType: MosType, threshold: string, fg: int, isEnd: bool, blkPitch: int,
                            cpoHEnd: int)
    : (r: Result<EndInfo>)
    requires blkPitch > 0
    ensures lch != SupportedLch ==> r == Failure(UnsupportedChannelLength(lch))
    ensures r.Success? <==> lch == SupportedLch && (!isEnd || ParseThreshold(threshold).Success?)
    ensures !r.Success? && lch == SupportedLch ==> r == Failure(UnrecognizedThreshold(threshold))
    // not on the array end: a mid-array CPO centred on y = 0 and nothing else
    ensures r.Success? && !isEnd ==>
      var l := r.value.layout;
      && l.blkType == EndBlk && l.rows == [] && l.fills == [] && l.impParams == None
      && l.arrayBoxY == Span(0, 0) && l.lays == [LayInfo(CutPoly, 0, -CpoH / 2, CpoH / 2)] && l.adjs == []
      && r.value.leftEdge == r.value.rightEdge && r.value.leftEdge.adjEdges == []
    // on the array end: the row built from the threshold's layers on the common pitch
    ensures r.Success? && isEnd ==>
      r.value == EndRow(lch, GetMosTechConstants(lch).value.sdPitch, fg, GetMosLayers(subType, threshold).value, blkPitch, cpoHEnd)
  {
    var mc :- GetMosTechConstants(lch);
    if isEnd then
      var layers :- GetMosLayers(subType, threshold);
      Success(EndRow(lch, mc.sdPitch, fg, layers, blkPitch, cpoHEnd))
    else
      var lrEdge := EdgeInfo(SubOd);
      var layout := LayoutInfo(EndBlk, lch, MdW, fg, mc.sdPitch, 0, Span(0, 0), true, [],
                               [LayInfo(CutPoly, 0, -CpoH / 2, CpoH / 2)], [], None, None, [], None);
      Success(EndInfo(layout, SideEdgeInfo(lrEdge, []), SideEdgeInfo(lrEdge, [])))
  }

  /** The process table has no end-row CPO height. */
  lemma LemmaNoEndCpoKey()
    ensures "cpo_h_end" !in TechTable
  {
  }

  /**
   * `get_analog_end_info` as written: after the channel-length check an end
   * row reads `tech_constants['cpo_h_end']` and a mid-array row reads
   * `mos_constants['cpo_h']`, and neither table has that key, so every call
   * with a supported channel length raises.
   */
  function GetAnalogEndInfoAsWritten(lch: int, subType: MosType, threshold: string, fg: int, isEnd: bool,
                                     blkPitch: int)
    : (r: Result<EndInfo>)
    requires blkPitch > 0
    ensures lch != SupportedLch ==> r == Failure(UnsupportedChannelLength(lch))
    ensures lch == SupportedLch && isEnd ==> r == Failure(MissingKey("cpo_h_end"))
    ensures lch == SupportedLch && !isEnd ==> r == Failure(MissingKey("cpo_h"))
  {
    match GetMosTechConstants(lch)
    case Failure(e) => Failure(e)
    case Success(mc) =>
      LemmaNoEndCpoKey();
      assert "cpo_h" !in mc.Table();
      var cpoH := if isEnd then TechLookup("cpo_h_end") else mc.Lookup("cpo_h");
      match cpoH
      case Failure(e) => Failure(e)
      case Success(_) => assert false; Failure(MissingKey("cpo_h"))
  }
}

/**
 * The transistor row solver (`get_mos_info`): bottom CPO, gate M1, OD
 * rounded to the fin grid by fin-count parity, drain/source MD and M1
 * centred on the OD, the gate M1 tightened to the minimum line-end space,
 * the top CPO rounded up to the fin grid, the M3 connection intervals, and
 * the margins published to the rows above and below.
 */
module MosRow {
  import opened Results
  import opened Tech
  import opened GridMath
  import opened Records
  import opened Vias

  /** Every vertical coordinate of one transistor row (block bottom at 0). */
  datatype RowGeometry = RowGeometry(
    odYcRaw: int,
    odYc: int,
    od: Span,
    md: Span,
    dsM1: Span,
    gM1: Span,
    gM2: Span,
    gM3: Span,
    dM3: Span,
    sM3: Span,
    blkYt: int)

  /** Step 1C: the OD centre rounded up onto the fin grid, shifted by half a pitch for an odd fin count. */
  function RoundOdCentre(odYc: int, w: int): (r: int)
    ensures odYc <= r < odYc + FinPitch
    ensures w % 2 == 0 ==> r % FinPitch == 0
    ensures w % 2 != 0 ==> r % FinPitch == FinP2
  {
    if w % 2 == 0 then RoundUp(odYc, FinPitch)
    else
      var r := RoundUpOffset(odYc, FinPitch, FinP2);
      LemmaSameResidue(r, FinP2, FinPitch);
      assert (r - FinP2) % FinPitch == 0;
      r
  }

  /** Gate M3 centred on the gate M2 centre, where the V2 cut sits. */
  function GateM3(gM2: Span, m3H: int): (r: Span)
    requires m3H >= 0
    ensures r.Length() == m3H
    ensures r.lo <= (gM2.lo + gM2.hi) / 2 <= r.hi
  {
    var gM2Yc := (gM2.lo + gM2.hi) / 2;
    var yt := gM2Yc + m3H / 2;
    Span(yt - m3H, yt)
  }

  /**
   * Gate M3 as the source computes it: the M2 "centre" is the sum of its two
   * edges, not their average, so the M3 interval sits near twice the M2
   * height and misses the V2 cut once the M2 is high enough.
   */
  function GateM3AsWritten(gM2: Span, m3H: int): (r: Span)
    requires m3H >= 0
    ensures r.Length() == m3H
    ensures gM2.lo + gM2.hi >= m3H + 2 ==> (gM2.lo + gM2.hi) / 2 < r.lo
  {
    var gM2Yc := gM2.lo + gM2.hi;
    var yt := gM2Yc + m3H / 2;
    Span(yt - m3H, yt)
  }

  function Geometry(lch: int, w: int): (g: RowGeometry)
    ensures g.od.Length() == OdHeight(w)
    ensures g.odYcRaw <= g.odYc < g.odYcRaw + FinPitch
    ensures w % 2 == 0 ==> g.odYc % FinPitch == 0
    ensures w % 2 != 0 ==> g.odYc % FinPitch == FinP2
    ensures g.blkYt % FinPitch == 0
    ensures g.od.hi + CpoOdSp + CpoH / 2 <= g.blkYt < g.od.hi + CpoOdSp + CpoH / 2 + FinPitch
    ensures g.dsM1.lo - g.gM1.hi == MxSpyMin
    ensures (g.od.lo - (FinP2 - FinH2)) % FinPitch == 0
    ensures (g.od.hi - (FinP2 + FinH2)) % FinPitch == 0
    ensures g.md.Length() == DsViaInfo(lch, w, false).mdH
    ensures g.dsM1.Length() == DsViaInfo(lch, w, false).stack.m1H
    ensures g.odYcRaw == 189 + DsViaInfo(lch, w, false).stack.m1H / 2
    ensures g.dsM1.lo == g.odYc - DsViaInfo(lch, w, false).stack.m1H / 2
    ensures g.gM1.Length() == GateViaInfo(lch).m1H
    ensures g.gM2.Length() == GateViaInfo(lch).m2H
    ensures g.gM2.hi == (g.gM1.lo + g.gM1.hi) / 2 + GateViaInfo(lch).h[1] / 2
  {
    var gv := GateViaInfo(lch);
    var dv := DsViaInfo(lch, w, false);
    var mdH, m1H, m3H := dv.mdH, dv.stack.m1H, dv.stack.m3H;
    // step 1: bottom CPO centred on the block bottom, gate M1 above it
    var blkYb := 0;
    var cpoBotYb := blkYb - CpoH / 2;
    var cpoBotYt := cpoBotYb + CpoH;
    var mpYb := cpoBotYt + MpCpoSp;
    var mpYt := mpYb + MpH;
    var mpYc := (mpYt + mpYb) / 2;
    var gM1Yt0 := mpYc + gv.h[0] / 2 + gv.topEncy[0];
    // OD centre from the gate-drain M1 line-end space, then onto the fin grid
    var odYcRaw := gM1Yt0 + MxSpyMin + m1H / 2;
    var odYc := RoundOdCentre(odYcRaw, w);
    var odH := OdHeight(w);
    var odYb := odYc - odH / 2;
    var odYt := odYb + odH;
    LemmaOdOnFinGrid(odYc, w);
    var mdYb := odYc - mdH / 2;
    var dsM1Yb := odYc - m1H / 2;
    // tighten the gate M1 to the minimum line-end space
    var gM1Yt := dsM1Yb - MxSpyMin;
    var gM1Yb := gM1Yt - gv.m1H;
    var gM1Yc := (gM1Yb + gM1Yt) / 2;
    // step 2: top CPO
    var blkYt := RoundUp(odYt + CpoOdSp + CpoH / 2, FinPitch);
    // step 3: gate M2/M3
    var gM2Yt := gM1Yc + gv.h[1] / 2 + gv.topEncy[1];
    var gM2 := Span(gM2Yt - gv.m2H, gM2Yt);
    // step 4: drain M3 going up from the top V1, source M3 going down from the bottom V1
    var dsM1Yt := dsM1Yb + m1H;
    var dV1Yc := dsM1Yt - dv.stack.botEncy[1] - dv.stack.h[1] / 2;
    var dM3Yb := dV1Yc - dv.stack.h[2] / 2 - dv.stack.topEncy[2];
    var sV1Yc := dsM1Yb + dv.stack.botEncy[1] + dv.stack.h[1] / 2;
    var sM3Yt := sV1Yc + dv.stack.h[2] / 2 + dv.stack.topEncy[2];
    RowGeometry(odYcRaw, odYc, Span(odYb, odYt), Span(mdYb, mdYb + mdH), Span(dsM1Yb, dsM1Yt),
                Span(gM1Yb, gM1Yt), gM2, GateM3(gM2, gv.m3H),
                Span(dM3Yb, dM3Yb + m3H), Span(sM3Yt - m3H, sM3Yt), blkYt)
  }

  /**
   * The parity rule puts both OD edges on fin boundaries: the bottom edge
   * half a fin below a fin centre line, the top edge half a fin above one.
   */
  lemma LemmaOdOnFinGrid(odYc: int, w: int)
    requires w % 2 == 0 ==> odYc % FinPitch == 0
    requires w % 2 != 0 ==> odYc % FinPitch == FinP2
    ensures (odYc - OdHeight(w) / 2 - (FinP2 - FinH2)) % FinPitch == 0
    ensures (odYc - OdHeight(w) / 2 + OdHeight(w) - (FinP2 + FinH2)) % FinPitch == 0
  {
    var k := odYc / FinPitch;
    assert odYc == k * FinPitch + odYc % FinPitch;
    if w % 2 == 0 {
      var j := (w - 2) / 2;
      assert w == 2 * j + 2;
      assert OdHeight(w) == 2 * (j * FinPitch + FinP2 + FinH2);
      assert OdHeight(w) / 2 == j * FinPitch + FinP2 + FinH2;
      assert odYc - OdHeight(w) / 2 - (FinP2 - FinH2) == (k - j - 1) * FinPitch;
      LemmaMultipleMod(k - j - 1, FinPitch);
      assert odYc - OdHeight(w) / 2 + OdHeight(w) - (FinP2 + FinH2) == (k + j) * FinPitch;
      LemmaMultipleMod(k + j, FinPitch);
    } else {
      var j := (w - 1) / 2;
      assert w == 2 * j + 1;
      assert OdHeight(w) == 2 * (j * FinPitch + FinH2);
      assert OdHeight(w) / 2 == j * FinPitch + FinH2;
      assert odYc - OdHeight(w) / 2 - (FinP2 - FinH2) == (k - j) * FinPitch;
      LemmaMultipleMod(k - j, FinPitch);
      assert odYc - OdHeight(w) / 2 + OdHeight(w) - (FinP2 + FinH2) == (k + j) * FinPitch;
      LemmaMultipleMod(k + j, FinPitch);
    }
  }

  /** What `get_mos_info` returns. */
  datatype MosInfo = MosInfo(
    layout: LayoutInfo,
    extTop: ExtInfo,
    extBot: ExtInfo,
    leftEdge: SideEdgeInfo,
    rightEdge: SideEdgeInfo,
    sdYc: int,
    gConnY: Span,
    dConnY: Span,
    sConnY: Span,
    gLoc: seq<Span>,
    m3W: int,
    sdPitch: int,
    numSdPerTrack: int)

  /** The block `get_mos_info` builds around a row geometry, with the row's layers and constants. */
  function MosBlock(lch: int, g: RowGeometry, mc: MosConstants, layers: seq<Layer>, mosType: MosType,
                    threshold: string, fg: int, dsDummy: bool)
    : (m: MosInfo)
    ensures m.layout.arrayBoxY == Span(0, g.blkYt) && m.layout.arrayBoxXl == 0
    ensures m.layout.blkType == MosBlk
    ensures m.layout.lch == lch && m.layout.mdW == MdW && m.layout.fg == fg && m.layout.sdPitch == mc.sdPitch
    ensures m.layout.drawOd == !dsDummy
    // the single row: OD over all fingers, poly over the whole block, tap type opposite to an nch row
    ensures |m.layout.rows| == 1
    ensures m.layout.rows[0].odY == g.od && m.layout.rows[0].odXList == [Span(0, fg)]
    ensures m.layout.rows[0].odKind == MosOd && m.layout.rows[0].mdY == g.md
    ensures m.layout.rows[0].poY == m.layout.arrayBoxY
    ensures m.layout.rows[0].subType == Ptap <==> mosType == Nch
    ensures mosType.IsTransistor() ==> m.layout.rows[0].subType == mosType.SubType()
    // one full-height rectangle per layer of the device, in order
    ensures |m.layout.lays| == |layers|
    ensures forall i :: 0 <= i < |layers| ==> m.layout.lays[i] == LayInfo(layers[i], 0, 0, g.blkYt)
    ensures m.layout.adjs == [] && m.layout.leftBlk == None && m.layout.rightBlk == None
    ensures m.layout.fills == [FillInfo(Metal1, [], [g.dsM1])]
    ensures m.layout.impParams == Some([ImpParam(mosType, threshold, m.layout.arrayBoxY, m.layout.arrayBoxY)])
    // the margins published to the rows above and below: distances from each shape to the block edge
    ensures m.extTop.odMargin == g.blkYt - g.od.hi && m.extBot.odMargin == g.od.lo
    ensures m.extTop.mdMargin == g.blkYt - g.md.hi && m.extBot.mdMargin == g.md.lo
    ensures m.extTop.m1Margin == g.blkYt - g.dsM1.hi && m.extBot.m1Margin == g.gM1.lo
    ensures m.extTop.mxMargin == g.blkYt - g.dM3.hi && m.extBot.mxMargin == g.gM3.lo
    ensures m.extBot.m1Margin + (g.dsM1.hi - g.gM1.lo) + m.extTop.m1Margin == g.blkYt
    ensures m.extTop.impMinW == 0 && m.extBot.impMinW == 0
    ensures m.extTop.mtype == m.extTop.rowType == m.extBot.mtype == m.extBot.rowType == mosType
    ensures m.extTop.thres == m.extBot.thres == threshold
    ensures m.extTop.poTypes == m.extBot.poTypes
    ensures |m.extTop.poTypes| == (if fg > 0 then fg else 0)
    ensures forall i :: 0 <= i < |m.extTop.poTypes| ==> m.extTop.poTypes[i]
    ensures m.extTop.edgel == m.extTop.edger == m.extBot.edgel == m.extBot.edger == EdgeInfo(MosOd)
    ensures m.leftEdge == m.rightEdge == SideEdgeInfo(EdgeInfo(MosOd), [])
    // the connection intervals: gate on the (corrected) gate M3, drain and source on their M3
    ensures m.sdYc == g.odYc
    ensures m.gConnY == g.gM3 && m.dConnY == g.dM3 && m.sConnY == g.sM3
    ensures m.gLoc == [g.gM1, g.gM2, g.gM3]
    ensures m.m3W == mc.connW && m.sdPitch == mc.sdPitch && m.numSdPerTrack == 1
  {
    var lrEdge := EdgeInfo(MosOd);
    var poTypes := Repeat(true, fg);
    var extTop := ExtInfo(g.blkYt - g.dM3.hi, g.blkYt - g.od.hi, g.blkYt - g.md.hi, g.blkYt - g.dsM1.hi,
                          0, mosType, mosType, threshold, poTypes, lrEdge, lrEdge);
    var extBot := ExtInfo(g.gM3.lo, g.od.lo, g.md.lo, g.gM1.lo,
                          0, mosType, mosType, threshold, poTypes, lrEdge, lrEdge);
    var lays := seq(|layers|, i requires 0 <= i < |layers| => LayInfo(layers[i], 0, 0, g.blkYt));
    var subType := if mosType == Nch then Ptap else Ntap;
    var fill := FillInfo(Metal1, [], [g.dsM1]);
    var row := RowInfo([Span(0, fg)], g.od, MosOd, subType, Span(0, g.blkYt), g.md);
    var layout := LayoutInfo(MosBlk, lch, MdW, fg, mc.sdPitch, 0, Span(0, g.blkYt), !dsDummy,
                             [row], lays, [], None, None, [fill],
                             Some([ImpParam(mosType, threshold, Span(0, g.blkYt), Span(0, g.blkYt))]));
    MosInfo(layout, extTop, extBot, SideEdgeInfo(lrEdge, []), SideEdgeInfo(lrEdge, []),
            g.odYc, g.gM3, g.dM3, g.sM3, [g.gM1, g.gM2, g.gM3], mc.connW, mc.sdPitch, 1)
  }

  /**
   * `get_mos_info`.  Fails for an unsupported channel length or an
   * unrecognised threshold; the gate M3 uses the corrected M2 centre.  The
   * OD leaves room above it for the CPO spacing and half a CPO.
   */
  function GetMosInfo(lch: int, w: int, mosType: MosType, threshold: string, fg: int, dsDummy: bool)
    : (r: Result<MosInfo>)
    ensures r.Success? <==> lch == SupportedLch && ParseThreshold(threshold).Success?
    ensures lch != SupportedLch ==> r == Failure(UnsupportedChannelLength(lch))
    ensures r.Success? ==>
      var m := r.value;
      var g := Geometry(lch, w);
      && m.layout.arrayBoxY == Span(0, g.blkYt)
      && m.layout.drawOd == !dsDummy
      && |m.layout.rows| == 1 && m.layout.rows[0].odY == g.od
      && m.extTop.odMargin >= CpoOdSp + CpoH / 2
      && m.extBot.odMargin == g.od.lo
      && m.extTop.mdMargin == g.blkYt - g.md.hi && m.extBot.mdMargin == g.md.lo
      && m.extTop.m1Margin == g.blkYt - g.dsM1.hi && m.extBot.m1Margin == g.gM1.lo
      && m.extTop.mxMargin == g.blkYt - g.dM3.hi && m.extBot.mxMargin == g.gM3.lo
      && m.sdYc == g.odYc
      && m.gConnY == g.gM3
      && m.sdPitch == 90 && m.m3W == MdW
    ensures r.Success? ==>
      r.value == MosBlock(lch, Geometry(lch, w), GetMosTechConstants(lch).value,
                          GetMosLayers(mosType, threshold).value, mosType, threshold, fg, dsDummy)
  {
    var mc :- GetMosTechConstants(lch);
    var layers :- GetMosLayers(mosType, threshold);
    Success(MosBlock(lch, Geometry(lch, w), mc, layers, mosType, threshold, fg, dsDummy))
  }

  /** The drain/source stack of a four-fin row: MD 198 high, two V0 cuts, M1 210 high. */
  lemma LemmaFourFinStack(w: int)
    requires w == 4
    ensures DsViaInfo(SupportedLch, w, false).mdH == 198
    ensures DsViaInfo(SupportedLch, w, false).numV0 == 2
    ensures DsViaInfo(SupportedLch, w, false).stack.m1H == 210
  {
    var dv := DsViaInfo(SupportedLch, w, false);
    assert OdHeight(w) == 158;
    assert dv.mdH == 198;
    assert V0Fits(2, 198) && !V0Fits(3, 198);
  }

  /** The drain/source M1 of a four-fin row starts at 231. */
  lemma LemmaFourFinDrainM1(w: int)
    requires w == 4
    ensures Geometry(SupportedLch, w).dsM1.lo == 231
  {
    LemmaFourFinStack(w);
    var g := Geometry(SupportedLch, w);
    assert g.odYcRaw == 294;
    assert g.odYc == 336;
  }

  /** The gate via stack: M1 and M3 155 high (minimum area), M2 32 high. */
  lemma LemmaGateStackHeights()
    ensures GateViaInfo(SupportedLch).m1H == 155
    ensures GateViaInfo(SupportedLch).m2H == 32
    ensures GateViaInfo(SupportedLch).m3H == 155
    ensures GateViaInfo(SupportedLch).h[1] == 32
  {
  }

  /** The gate spans implied by a drain M1 starting at 231. */
  lemma LemmaGateSpansFromDrain(g: RowGeometry)
    requires g.dsM1.lo == 231
    requires g.dsM1.lo - g.gM1.hi == MxSpyMin
    requires g.gM1.Length() == 155
    requires g.gM2.Length() == 32
    requires g.gM2.hi == (g.gM1.lo + g.gM1.hi) / 2 + 16
    ensures g.gM2 == Span(73, 105)
  {
  }

  /**
   * For a four-fin row the gate M2 lies at [73, 105]: the corrected gate M3
   * [11, 166] covers the V2 cut at the M2 centre 89, the as-written one
   * [100, 255] starts above it.
   */
  lemma LemmaGateM3Counterexample(w: int)
    requires w == 4
    ensures Geometry(SupportedLch, w).gM2 == Span(73, 105)
    ensures GateM3AsWritten(Geometry(SupportedLch, w).gM2, GateViaInfo(SupportedLch).m3H) == Span(100, 255)
    ensures GateM3(Geometry(SupportedLch, w).gM2, GateViaInfo(SupportedLch).m3H) == Span(11, 166)
  {
    LemmaFourFinDrainM1(w);
    LemmaGateStackHeights();
    LemmaGateSpansFromDrain(Geometry(SupportedLch, w));
    LemmaGateM3Spans(GateViaInfo(SupportedLch).m3H);
  }

  /** Both gate M3 placements for the M2 interval [73, 105] and a 155-high M3. */
  lemma LemmaGateM3Spans(m3H: int)
    requires m3H == 155
    ensures GateM3AsWritten(Span(73, 105), m3H) == Span(100, 255)
    ensures GateM3(Span(73, 105), m3H) == Span(11, 166)
  {
    assert m3H / 2 == 77;
    assert (73 + 105) / 2 == 89;
  }
}

/**
 * The extension-block solver: the legal extension heights between two rows
 * (`get_valid_extension_widths`), the placement of a single dummy OD
 * (`_get_ext_dummy_loc`) and the extension block itself (`get_ext_info`),
 * including the six-case implant split.  Widths are counted in fin pitches;
 * coordinates are in resolution units with the extension bottom at 0.
 */
module Extension {
  import opened Results
  import opened Tech
  import opened GridMath
  import opened Records
  import opened Lex
  import opened SortedSets

  // ---------------------------------------------------------------------
  // Legal extension widths
  // ---------------------------------------------------------------------

  /**
   * Width k (in fin pitches) meets the three rules that bound an extension
   * from below: metal line-end space, MD space and the two implant minimum
   * widths.
   */
  predicate MeetsMinRules(k: int, top: ExtInfo, bot: ExtInfo) {
    && k >= 0
    && k * FinPitch >= MxSpyMin - Min(top.mxMargin + bot.mxMargin, top.m1Margin + bot.m1Margin)
    && k * FinPitch >= MdSp - (top.mdMargin + bot.mdMargin)
    && k * FinPitch >= bot.impMinW + top.impMinW
  }

  /** Step 1: the least width that meets the line-end, MD-space and implant-width rules. */
  function MinExtW(top: ExtInfo, bot: ExtInfo): (k: int)
    ensures MeetsMinRules(k, top, bot)
    ensures forall j :: 0 <= j < k ==> !MeetsMinRules(j, top, bot)
  {
    var mxMargin := top.mxMargin + bot.mxMargin;
    var m1Margin := top.m1Margin + bot.m1Margin;
    var a := MxSpyMin - Min(mxMargin, m1Margin);
    var b := MdSp - (top.mdMargin + bot.mdMargin);
    var c := bot.impMinW + top.impMinW;
    var k := Max(Max(0, CeilDiv(a, FinPitch)), Max(CeilDiv(b, FinPitch), CeilDiv(c, FinPitch)));
    forall j | 0 <= j < k && MeetsMinRules(j, top, bot)
      ensures false
    {
      LemmaCeilDivLeast(a, FinPitch, j);
      LemmaCeilDivLeast(b, FinPitch, j);
      LemmaCeilDivLeast(c, FinPitch, j);
    }
    k
  }

  /** Step 2: the widest extension that needs no dummy OD. */
  function MaxExtWNoOd(top: ExtInfo, bot: ExtInfo): (r: int)
    ensures r * FinPitch + top.odMargin + bot.odMargin + FinH < (OdSpNfinMax + 1) * FinPitch
    ensures (r + 1) * FinPitch + top.odMargin + bot.odMargin + FinH >= (OdSpNfinMax + 1) * FinPitch
  {
    OdSpNfinMax - FloorDiv(top.odMargin + bot.odMargin + FinH, FinPitch)
  }

  /**
   * The fin count between the two rows' ODs stays within the maximum OD
   * spacing exactly for the widths up to `MaxExtWNoOd`.
   */
  lemma LemmaNoDummyWidths(top: ExtInfo, bot: ExtInfo, k: int)
    ensures k <= MaxExtWNoOd(top, bot) <==>
      FloorDiv(k * FinPitch + top.odMargin + bot.odMargin + FinH, FinPitch) <= OdSpNfinMax
  {
    var x := top.odMargin + bot.odMargin + FinH;
    var q := FloorDiv(x, FinPitch);
    LemmaDivUnique(k * FinPitch + x, FinPitch, k + q, x - q * FinPitch);
  }

  /** The MD of a lone dummy may start no lower than an MD space above the bottom row's MD. */
  function DumMdYb(bot: ExtInfo): int { -bot.mdMargin + MdSp }

  /** ... and must end an MD space below the top row's MD (with the extension top at 0). */
  function DumMdYt(top: ExtInfo): int { top.mdMargin - MdSp }

  /** A bottom OD edge sits half a fin below a fin centre line: fin index j puts it at j * pitch + 17. */
  function OdBottomAt(j: int): int { j * FinPitch + FinP2 - FinH2 }

  /** A top OD edge sits half a fin above a fin centre line. */
  function OdTopAt(j: int): int { j * FinPitch + FinP2 + FinH2 }

  /** Fin index j gives a dummy OD bottom edge clear of the bottom row's MD, the CPO and the implant. */
  predicate BottomEdgeClear(j: int, bot: ExtInfo) {
    && OdBottomAt(j) >= DumMdYb(bot) + MdOdExty
    && OdBottomAt(j) >= CpoH / 2 + CpoOdSp
    && OdBottomAt(j) >= bot.impMinW + ImpOdEncy
  }

  /** Fin index j gives a dummy OD top edge clear of the top row's MD, the CPO and the implant (top at 0). */
  predicate TopEdgeClear(j: int, top: ExtInfo) {
    && OdTopAt(j) <= DumMdYt(top) - MdOdExty
    && OdTopAt(j) <= -(CpoH / 2) - CpoOdSp
    && OdTopAt(j) <= -top.impMinW - ImpOdEncy
  }

  /** `od_yb_max`: the lowest fin index where a dummy OD may start. */
  function OdYbMaxFin(bot: ExtInfo): (j: int)
    ensures BottomEdgeClear(j, bot)
    ensures forall i :: i < j ==> !BottomEdgeClear(i, bot)
  {
    var a := Max(DumMdYb(bot) + MdOdExty, CpoH / 2 + CpoOdSp);
    var j1 := CeilDiv(a - FinP2 + FinH2, FinPitch);
    var c := bot.impMinW + ImpOdEncy;
    var j := Max(j1, CeilDiv(c - FinP2 + FinH2, FinPitch));
    forall i | i < j && BottomEdgeClear(i, bot)
      ensures false
    {
      LemmaCeilDivLeast(a - FinP2 + FinH2, FinPitch, i);
      LemmaCeilDivLeast(c - FinP2 + FinH2, FinPitch, i);
    }
    j
  }

  /** `od_yt_min`: the highest fin index (below the top at 0) where a dummy OD may end. */
  function OdYtMinFin(top: ExtInfo): (j: int)
    ensures TopEdgeClear(j, top)
    ensures forall i :: i > j ==> !TopEdgeClear(i, top)
  {
    var a := Min(DumMdYt(top) - MdOdExty, -(CpoH / 2) - CpoOdSp);
    var j1 := FloorDiv(a - FinP2 - FinH2, FinPitch);
    var c := -top.impMinW - ImpOdEncy;
    var j := Min(j1, FloorDiv(c - FinP2 - FinH2, FinPitch));
    forall i | i > j && TopEdgeClear(i, top)
      ensures false
    {
      LemmaFloorDivGreatest(a - FinP2 - FinH2, FinPitch, i);
      LemmaFloorDivGreatest(c - FinP2 - FinH2, FinPitch, i);
    }
    j
  }

  /**
   * Width k (in fin pitches) leaves room for a minimum-size dummy OD between
   * the two clear edges, spaces the two CPOs apart, and gives the dummy MD
   * its minimum height.
   */
  predicate DummyFits(k: int, top: ExtInfo, bot: ExtInfo) {
    && k * FinPitch >= Max(0, OdNfinMin - (OdYtMinFin(top) - OdYbMaxFin(bot)) - 1) * FinPitch
    && k * FinPitch >= CpoSpy + CpoH
    && k * FinPitch >= MdHMin - (DumMdYt(top) - DumMdYb(bot))
  }

  /** Step 3: the least width at which a DRC-clean dummy OD can be drawn. */
  function MinExtWOd(top: ExtInfo, bot: ExtInfo): (k: int)
    ensures DummyFits(k, top, bot)
    ensures forall j :: j < k ==> !DummyFits(j, top, bot)
    ensures k > 0
  {
    var a := Max(0, OdNfinMin - (OdYtMinFin(top) - OdYbMaxFin(bot)) - 1) * FinPitch;
    var b := CpoSpy + CpoH;
    var c := MdHMin - (DumMdYt(top) - DumMdYb(bot));
    var raw := Max(Max(a, b), c);
    var k := CeilDiv(raw, FinPitch);
    forall j | j < k && DummyFits(j, top, bot)
      ensures false
    {
      LemmaCeilDivLeast(raw, FinPitch, j);
    }
    k
  }

  /** `list(range(lo, hi))`. */
  function Range(lo: int, hi: int): (r: seq<int>)
    ensures |r| == if lo <= hi then hi - lo else 0
    ensures forall i :: 0 <= i < |r| ==> r[i] == lo + i
  {
    if lo < hi then seq(hi - lo, i => lo + i) else []
  }

  /**
   * `get_valid_extension_widths`: the minimum width alone when the
   * no-dummy and dummy regimes meet; otherwise every width from the minimum
   * up to the no-dummy maximum, then the dummy minimum, skipping the gap of
   * widths that need a dummy OD but cannot hold one.
   */
  function ValidExtensionWidths(top: ExtInfo, bot: ExtInfo): (r: seq<int>)
    ensures |r| >= 1
    ensures StrictlyIncreasing(r)
    ensures MinExtWOd(top, bot) <= MaxExtWNoOd(top, bot) + 1 ==> r == [MinExtW(top, bot)]
    ensures MinExtWOd(top, bot) > MaxExtWNoOd(top, bot) + 1 ==>
      && r[|r| - 1] == MinExtWOd(top, bot)
      && (forall i :: 0 <= i < |r| - 1 ==> r[i] == MinExtW(top, bot) + i)
      && (forall i :: 0 <= i < |r| - 1 ==> r[i] <= MaxExtWNoOd(top, bot) < MinExtWOd(top, bot) - 1)
      && (forall x :: x in r <==> x == MinExtWOd(top, bot) ||
                                  MinExtW(top, bot) <= x <= MaxExtWNoOd(top, bot))
  {
    var minW := MinExtW(top, bot);
    var maxNoOd := MaxExtWNoOd(top, bot);
    var minOd := MinExtWOd(top, bot);
    if minOd <= maxNoOd + 1 then [minW]
    else
      var r := Range(minW, maxNoOd + 1) + [minOd];
      forall x | MinExtW(top, bot) <= x <= MaxExtWNoOd(top, bot)
        ensures x in r
      {
        assert r[x - minW] == x;
      }
      r
  }

  // ---------------------------------------------------------------------
  // A single dummy OD
  // ---------------------------------------------------------------------

  /** Both OD edges on fin boundaries: the bottom half a fin below a fin centre line, the top half a fin above one. */
  predicate OnFinGrid(od: Span) {
    && (od.lo - (FinP2 - FinH2)) % FinPitch == 0
    && (od.hi - (FinP2 + FinH2)) % FinPitch == 0
  }

  /** The height of the smallest legal OD (`od_h_min`). */
  function OdHMin(): int { OdHeight(OdNfinMin) }

  /** An OD from a bottom fin index to a top fin index lies on the fin grid. */
  lemma LemmaFinEdgesOnGrid(a: int, b: int)
    ensures OnFinGrid(Span(OdBottomAt(a), OdTopAt(b)))
  {
    LemmaMultipleMod(a, FinPitch);
    LemmaMultipleMod(b, FinPitch);
  }

  /** An OD on the fin grid has an even height, so its centre is exact. */
  lemma LemmaGridOdEven(od: Span)
    requires OnFinGrid(od)
    ensures od.Length() % 2 == 0
  {
    var p := (od.hi - (FinP2 + FinH2)) / FinPitch;
    var q := (od.lo - (FinP2 - FinH2)) / FinPitch;
    assert od.hi == p * FinPitch + FinP2 + FinH2;
    assert od.lo == q * FinPitch + FinP2 - FinH2;
    assert od.Length() == 2 * ((p - q) * FinP2 + FinH2);
  }

  /** The fin space left on each side of a lone dummy OD: `min((area - od_nfin_min) // 2, od_sp_nfin_max)`. */
  function DummySpace(area: int): int {
    Min(FloorDiv(area - OdNfinMin, 2), OdSpNfinMax)
  }

  /**
   * The lone dummy OD before clamping: the same fin space on both sides
   * between the neighbouring rows' OD fin indices, and never fewer than
   * od_nfin_min + 1 fins.
   */
  function CentredDummyOd(botOdIdx: int, topOdIdx: int): (od: Span)
    ensures od == Span(OdBottomAt(botOdIdx + DummySpace(topOdIdx - botOdIdx)),
                       OdTopAt(topOdIdx - DummySpace(topOdIdx - botOdIdx)))
    ensures OnFinGrid(od)
    ensures od.Length() >= OdHeight(OdNfinMin + 1)
  {
    var area := topOdIdx - botOdIdx;
    var odSp := DummySpace(area);
    var odNfin := area - odSp * 2 + 1;
    var odYb := OdBottomAt(botOdIdx + odSp);
    var odYt := odYb + (odNfin - 1) * FinPitch + FinH;
    LemmaFinEdgesOnGrid(botOdIdx + odSp, topOdIdx - odSp);
    Span(odYb, odYt)
  }

  /**
   * The two-pass OD clamp: raise the bottom edge onto the fin grid above its
   * lower bound (keeping a minimum OD), then lower the top edge onto the fin
   * grid below its upper bound (keeping a minimum OD).
   */
  function ClampDummyOd(od: Span, odYbMin: int, odYtMax: int): (r: Span)
    requires OnFinGrid(od) && od.Length() >= OdHMin()
    ensures OnFinGrid(r)
    ensures r.Length() >= OdHMin()
    ensures r.hi <= odYtMax
    ensures r.lo >= odYbMin || r.Length() == OdHMin()
    ensures od.lo >= odYbMin && od.hi <= odYtMax ==> r == od
    ensures od.lo < odYbMin && RoundUpOffset(odYbMin, FinPitch, FinP2 - FinH2) + OdHMin() <= odYtMax
              && od.hi <= odYtMax ==>
      r.lo == RoundUpOffset(odYbMin, FinPitch, FinP2 - FinH2)
  {
    var od1 :=
      if od.lo < odYbMin then
        var yb := RoundUpOffset(odYbMin, FinPitch, FinP2 - FinH2);
        assert (yb + OdHMin() - (FinP2 + FinH2)) % FinPitch == 0 by {
          LemmaShiftResidue(yb - (FinP2 - FinH2), 1, FinPitch);
        }
        Span(yb, Max(yb + OdHMin(), od.hi))
      else od;
    if od1.hi > odYtMax then
      var yt := RoundDownOffset(odYtMax, FinPitch, FinP2 + FinH2);
      assert (yt - OdHMin() - (FinP2 - FinH2)) % FinPitch == 0 by {
        LemmaShiftResidue(yt - (FinP2 + FinH2), -1, FinPitch);
      }
      Span(Min(yt - OdHMin(), od1.lo), yt)
    else od1
  }

  /** The MD encloses the OD by md_od_exty above and below. */
  predicate MdEnclosesOd(md: Span, od: Span) {
    md.lo <= od.lo - MdOdExty && md.hi >= od.hi + MdOdExty
  }

  /**
   * The lone dummy's MD: centred on the OD and tall enough for the OD plus
   * its extensions and for md_h_min, then clamped above the bottom MD
   * bound and below the top MD bound (keeping md_h_min each time).
   */
  function PlaceDummyMd(od: Span, mdYbMin: int, mdYtMax: int): (md: Span)
    requires OnFinGrid(od)
    ensures md.Length() >= MdHMin
    ensures md.hi <= mdYtMax
    ensures md.lo >= mdYbMin || md.Length() == MdHMin
    ensures od.lo - MdOdExty >= mdYbMin && od.hi + MdOdExty <= mdYtMax ==> MdEnclosesOd(md, od)
  {
    LemmaGridOdEven(od);
    var mdH := Max(MdHMin, od.hi - od.lo + 2 * MdOdExty);
    var odYc := (od.lo + od.hi) / 2;
    var mdYb := odYc - mdH / 2;
    var md0 := Span(mdYb, mdYb + mdH);
    assert MdEnclosesOd(md0, od);
    var md1 := if md0.lo < mdYbMin then Span(mdYbMin, Max(md0.hi, mdYbMin + MdHMin)) else md0;
    if md1.hi > mdYtMax then Span(Min(mdYtMax - MdHMin, md1.lo), mdYtMax) else md1
  }

  /** What `_get_ext_dummy_loc` returns: the OD and MD Y intervals of the lone dummy. */
  datatype DummyLoc = DummyLoc(od: Span, md: Span)

  /**
   * `_get_ext_dummy_loc`.  The OD always lands on the fin grid with at
   * least od_nfin_min fins and respects every upper bound; the MD is always
   * at least md_h_min tall and respects the upper MD space.  A lower bound
   * gives way only when the upper clamp shrank the shape to its minimum.
   */
  function ExtDummyLoc(botOdIdx: int, topOdIdx: int, botCpoYt: int, topCpoYb: int,
                       botMdYt: int, topMdYb: int, botImpY: int, topImpY: int): (r: DummyLoc)
    ensures OnFinGrid(r.od)
    ensures r.od.Length() >= OdHMin()
    ensures r.od.hi <= topCpoYb - CpoOdSp
    ensures r.od.hi <= topMdYb - MdSp - MdOdExty
    ensures r.od.hi <= topImpY - ImpOdEncy
    ensures r.od.Length() == OdHMin() ||
      (r.od.lo >= botCpoYt + CpoOdSp && r.od.lo >= botMdYt + MdSp + MdOdExty && r.od.lo >= botImpY + ImpOdEncy)
    ensures r.md.Length() >= MdHMin
    ensures r.md.hi <= topMdYb - MdSp
    ensures r.md.lo >= botMdYt + MdSp || r.md.Length() == MdHMin
    ensures r.od.lo >= botMdYt + MdSp + MdOdExty ==> MdEnclosesOd(r.md, r.od)
  {
    var mdYbMin := botMdYt + MdSp;
    var mdYtMax := topMdYb - MdSp;
    var odYbMin := Max(Max(botCpoYt + CpoOdSp, mdYbMin + MdOdExty), botImpY + ImpOdEncy);
    var odYtMax := Min(Min(topCpoYb - CpoOdSp, mdYtMax - MdOdExty), topImpY - ImpOdEncy);
    var od := ClampDummyOd(CentredDummyOd(botOdIdx, topOdIdx), odYbMin, odYtMax);
    DummyLoc(od, PlaceDummyMd(od, mdYbMin, mdYtMax))
  }

  // ---------------------------------------------------------------------
  // Implant split
  // ---------------------------------------------------------------------

  /** `bot_imp`/`top_imp`: the nch implant for nch and ptap rows, the pch implant otherwise. */
  function ImplantOf(rowType: MosType): (t: MosType)
    ensures t == Nch || t == Pch
    ensures t == Nch <==> rowType == Nch || rowType == Ptap
  {
    if rowType == Nch || rowType == Ptap then Nch else Pch
  }

  /**
   * The implant/threshold of the lower and upper half of an extension, and
   * which of the two split coordinates (`imp_split_y[sep_idx]`) separates them.
   */
  datatype Split = Split(botMtype: MosType, botThres: string, topMtype: MosType, topThres: string, sepIdx: int)

  datatype Side = Bottom | Top

  /**
   * The side whose implant covers the middle of the extension: split index 0
   * takes the lower coordinate (the top half reaches down past the middle),
   * index 1 the upper one.
   */
  function MiddleOwner(s: Split): Side {
    if s.sepIdx == 0 then Top else Bottom
  }

  /** The six-case implant split of `get_ext_info`; `hasOd` is whether dummy OD is drawn. */
  function ImplantSplit(bot: ExtInfo, top: ExtInfo, hasOd: bool): (s: Split)
    ensures s.sepIdx == 0 || s.sepIdx == 1
    // same flavour, one transistor and one tap: the tap side takes the middle
    ensures ImplantOf(bot.rowType) == ImplantOf(top.rowType) &&
            bot.rowType.IsTransistor() != top.rowType.IsTransistor() ==>
      && MiddleOwner(s) == (if bot.rowType.IsTransistor() then Top else Bottom)
      && s == Split(bot.mtype, bot.thres, top.mtype, top.thres, s.sepIdx)
    // same flavour, both transistors or both taps: the threshold later in
    // string order takes the middle (the top one on a tie)
    ensures ImplantOf(bot.rowType) == ImplantOf(top.rowType) &&
            bot.rowType.IsTransistor() == top.rowType.IsTransistor() ==>
      && (MiddleOwner(s) == Top <==> LexLe(bot.thres, top.thres))
      && s.botThres == bot.thres && s.topThres == top.thres
    // ... and two transistors with dummy OD share the one device implant
    ensures ImplantOf(bot.rowType) == ImplantOf(top.rowType) && bot.rowType.IsTransistor() &&
            top.rowType.IsTransistor() && hasOd ==>
      s.botMtype == s.topMtype == ImplantOf(bot.rowType)
    ensures ImplantOf(bot.rowType) == ImplantOf(top.rowType) &&
            bot.rowType.IsTransistor() == top.rowType.IsTransistor() &&
            !(bot.rowType.IsTransistor() && hasOd) ==>
      s.botMtype == bot.mtype && s.topMtype == top.mtype
    // different flavour, one transistor and one tap: the tap adopts the
    // transistor's implant and threshold, and the transistor takes the middle
    ensures ImplantOf(bot.rowType) != ImplantOf(top.rowType) &&
            bot.rowType.IsTransistor() && !top.rowType.IsTransistor() ==>
      s == Split(bot.mtype, bot.thres, ImplantOf(bot.rowType), bot.thres, 1)
    ensures ImplantOf(bot.rowType) != ImplantOf(top.rowType) &&
            !bot.rowType.IsTransistor() && top.rowType.IsTransistor() ==>
      s == Split(ImplantOf(top.rowType), top.thres, top.mtype, top.thres, 0)
    // different flavour, both transistors or both taps: the nch-implant side
    // takes the middle; transistors are forced to their own device implant
    ensures ImplantOf(bot.rowType) != ImplantOf(top.rowType) &&
            bot.rowType.IsTransistor() == top.rowType.IsTransistor() ==>
      && MiddleOwner(s) == (if ImplantOf(bot.rowType) == Nch then Bottom else Top)
      && s.botThres == bot.thres && s.topThres == top.thres
      && s.botMtype == (if bot.rowType.IsTransistor() then ImplantOf(bot.rowType) else bot.mtype)
      && s.topMtype == (if top.rowType.IsTransistor() then ImplantOf(top.rowType) else top.mtype)
  {
    var botImp := ImplantOf(bot.rowType);
    var topImp := ImplantOf(top.rowType);
    var botTran := bot.rowType.IsTransistor();
    var topTran := top.rowType.IsTransistor();
    if botImp == topImp then
      if botTran != topTran then
        // case 1
        Split(bot.mtype, bot.thres, top.mtype, top.thres, if botTran then 0 else 1)
      else if botTran then
        // case 3
        var sepIdx := if LexLe(bot.thres, top.thres) then 0 else 1;
        if hasOd then Split(botImp, bot.thres, botImp, top.thres, sepIdx)
        else Split(bot.mtype, bot.thres, top.mtype, top.thres, sepIdx)
      else
        // case 2
        Split(bot.mtype, bot.thres, top.mtype, top.thres, if LexLe(bot.thres, top.thres) then 0 else 1)
    else if botTran != topTran then
      // case 5
      if botTran then Split(bot.mtype, bot.thres, botImp, bot.thres, 1)
      else Split(topImp, top.thres, top.mtype, top.thres, 0)
    else if botTran then
      // case 6
      Split(botImp, bot.thres, topImp, top.thres, if botImp == Nch then 1 else 0)
    else
      // case 4
      Split(bot.mtype, bot.thres, top.mtype, top.thres, if botImp == Nch then 1 else 0)
  }

  /**
   * The split does not depend on which row is drawn on top: swapping the
   * two rows hands the middle to the same row, except when the rows agree in
   * implant, device kind and threshold (and the tie-break has nothing to break).
   */
  lemma LemmaSplitOrientation(bot: ExtInfo, top: ExtInfo, hasOd: bool)
    requires !(ImplantOf(bot.rowType) == ImplantOf(top.rowType) &&
               bot.rowType.IsTransistor() == top.rowType.IsTransistor() && bot.thres == top.thres)
    ensures MiddleOwner(ImplantSplit(bot, top, hasOd)) != MiddleOwner(ImplantSplit(top, bot, hasOd))
  {
    if ImplantOf(bot.rowType) == ImplantOf(top.rowType) &&
       bot.rowType.IsTransistor() == top.rowType.IsTransistor() {
      LemmaLexLeTotal(bot.thres, top.thres);
      if LexLe(bot.thres, top.thres) && LexLe(top.thres, bot.thres) {
        LemmaLexLeAntisymmetric(bot.thres, top.thres);
      }
    }
  }

  // ---------------------------------------------------------------------
  // The extension block
  // ---------------------------------------------------------------------

  /**
   * `fill_symmetric_const_space(area, sp_max, n_min, n_max, offset)`: the
   * interval packer the source imports.  Its body is not part of this model,
   * so every operation that needs it takes it as a parameter.
   */
  type Packer = (int, int, int, int, int) -> seq<Span>

  /** A CPO centred on `yc`. */
  function CpoLay(yc: int): LayInfo {
    LayInfo(CutPoly, 0, yc - CpoH / 2, yc + CpoH / 2)
  }

  /** The dummy OD of fins `fins.lo .. fins.hi` and its MD, centred, when two or more dummies are drawn. */
  function DummyFromFins(fins: Span): (r: DummyLoc)
    ensures r.od == Span(OdBottomAt(fins.lo), OdTopAt(fins.hi))
    ensures OnFinGrid(r.od)
    ensures r.md.Length() >= MdHMin && MdEnclosesOd(r.md, r.od)
    ensures r.md.lo + r.md.hi == r.od.lo + r.od.hi
  {
    var odYb := OdBottomAt(fins.lo);
    var odYt := OdTopAt(fins.hi);
    LemmaFinEdgesOnGrid(fins.lo, fins.hi);
    LemmaGridOdEven(Span(odYb, odYt));
    var odYc := (odYb + odYt) / 2;
    var mdH := Max(MdHMin, odYt - odYb + 2 * MdOdExty);
    DummyLoc(Span(odYb, odYt), Span(odYc - mdH / 2, odYc + mdH / 2))
  }

  /** `(a + b) // 2`: between a and b when a <= b. */
  function Mid(a: int, b: int): (m: int)
    ensures a <= b ==> a <= m <= b
  {
    LemmaDivBounds(a + b, 2);
    (a + b) / 2
  }

  /**
   * The CPO centre lines of an extension with dummy ODs: the block bottom,
   * midway between consecutive dummies, and the block top.
   */
  function CpoCentres(ods: seq<Span>, yt: int): (c: seq<int>)
    requires |ods| >= 1
    ensures |c| == |ods| + 1
    ensures c[0] == 0 && c[|ods|] == yt
    ensures forall i, j :: 0 <= i < |ods| && 0 <= j < |ods| && j == i + 1 && ods[i].hi <= ods[j].lo ==>
      ods[i].hi <= c[j] <= ods[j].lo
  {
    var c := seq(|ods| + 1, i requires 0 <= i <= |ods| =>
      if i == 0 then 0 else if i == |ods| then yt else Mid(ods[i - 1].hi, ods[i].lo));
    forall i, j | 0 <= i < |ods| && 0 <= j < |ods| && j == i + 1 && ods[i].hi <= ods[j].lo
      ensures ods[i].hi <= c[j] <= ods[j].lo
    {
      assert c[j] == Mid(ods[i].hi, ods[j].lo);
    }
    c
  }

  /** One CPO on every centre line. */
  function CpoLays(c: seq<int>): (r: seq<LayInfo>)
    ensures |r| == |c|
    ensures forall i :: 0 <= i < |c| ==> r[i] == CpoLay(c[i])
  {
    seq(|c|, i requires 0 <= i < |c| => CpoLay(c[i]))
  }

  /** The poly strips between consecutive CPO centre lines. */
  function PoSpans(c: seq<int>): (po: seq<Span>)
    requires |c| >= 1
    ensures |po| == |c| - 1
    ensures forall i :: 0 <= i < |po| ==> po[i].lo == c[i]
    ensures forall i, j :: 0 <= i && j == i + 1 && j < |c| ==> po[i].hi == c[j]
    ensures |c| >= 2 ==> Tiles(po, c[0], c[|c| - 1])
  {
    seq(|c| - 1, i requires 0 <= i < |c| - 1 => Span(c[i], c[i + 1]))
  }

  /** Consecutive strips tile [lo, hi] without gap or overlap. */
  predicate Tiles(po: seq<Span>, lo: int, hi: int) {
    && |po| >= 1
    && po[0].lo == lo
    && po[|po| - 1].hi == hi
    && (forall i, j :: 0 <= i < |po| && 0 <= j < |po| && j == i + 1 ==> po[i].hi == po[j].lo)
  }

  /** The dummy rows, CPOs and implant split coordinates of an extension, before the implant types are known. */
  datatype ExtRows = ExtRows(
    odXList: seq<Span>,
    ods: seq<Span>,
    mds: seq<Span>,
    pos: seq<Span>,
    cpoLays: seq<LayInfo>,
    impSplitY: Span,
    adjs: seq<AdjRowInfo>,
    adjL: seq<EdgeInfo>,
    adjR: seq<EdgeInfo>)

  /** The smallest extension, in fin pitches, that has room for two CPOs. */
  function TwoCpoWidth(): int { CeilDiv(CpoSpy + CpoH, FinPitch) }

  /**
   * No dummy OD: one CPO in the middle of a narrow extension (the poly of
   * each neighbouring row runs up to it), otherwise one CPO on each edge.
   */
  function ExtRowsNoOd(w: int, top: ExtInfo, bot: ExtInfo): (r: ExtRows)
    ensures r.odXList == [] && r.ods == [Span(0, 0)] && r.mds == [Span(0, 0)]
    ensures w < TwoCpoWidth() ==>
      && r.cpoLays == [CpoLay(w * FinPitch / 2)]
      && r.pos == [Span(0, 0)]
      && r.impSplitY == Span(w * FinPitch / 2, w * FinPitch / 2)
      && r.adjs == [AdjRowInfo(Span(0, w * FinPitch / 2), bot.poTypes),
                    AdjRowInfo(Span(w * FinPitch / 2, w * FinPitch), top.poTypes)]
      && r.adjL == [bot.edgel, top.edgel] && r.adjR == [bot.edger, top.edger]
    ensures w >= TwoCpoWidth() ==>
      && r.cpoLays == [CpoLay(0), CpoLay(w * FinPitch)]
      && r.pos == [Span(0, w * FinPitch)]
      && r.impSplitY == Span(0, w * FinPitch)
      && r.adjs == [] && r.adjL == [] && r.adjR == []
  {
    var yt := w * FinPitch;
    var yc := yt / 2;
    if w < TwoCpoWidth() then
      ExtRows([], [Span(0, 0)], [Span(0, 0)], [Span(0, 0)], [CpoLay(yc)], Span(yc, yc),
              [AdjRowInfo(Span(0, yc), bot.poTypes), AdjRowInfo(Span(yc, yt), top.poTypes)],
              [bot.edgel, top.edgel], [bot.edger, top.edger])
    else
      ExtRows([], [Span(0, 0)], [Span(0, 0)], [Span(0, yt)], [CpoLay(0), CpoLay(yt)], Span(0, yt),
              [], [], [])
  }

  /** The fin index of the top edge of the bottom row's OD. */
  function BotOdYtFin(bot: ExtInfo): int {
    FloorDiv(-bot.odMargin - FinP2 - FinH2, FinPitch)
  }

  /** The fin index of the bottom edge of the top row's OD. */
  function TopOdYbFin(w: int, top: ExtInfo): int {
    FloorDiv(w * FinPitch + top.odMargin - FinP2 + FinH2, FinPitch)
  }

  /** Two or more dummies: each OD and MD as `DummyFromFins` derives it from its fin interval. */
  function FinDummies(odFins: seq<Span>): (r: (seq<Span>, seq<Span>))
    ensures |r.0| == |r.1| == |odFins|
    ensures forall i :: 0 <= i < |odFins| ==>
      && r.0[i] == DummyFromFins(odFins[i]).od && OnFinGrid(r.0[i])
      && r.1[i].Length() >= MdHMin && MdEnclosesOd(r.1[i], r.0[i])
  {
    var n := |odFins|;
    (seq(n, i requires 0 <= i < n => DummyFromFins(odFins[i]).od),
     seq(n, i requires 0 <= i < n => DummyFromFins(odFins[i]).md))
  }

  /**
   * The dummy OD and MD intervals: a lone dummy is placed by `ExtDummyLoc`
   * between the neighbouring rows' ODs; two or more follow the packer's fin
   * intervals.
   */
  function DummyLocs(w: int, top: ExtInfo, bot: ExtInfo, odFins: seq<Span>): (r: (seq<Span>, seq<Span>))
    requires |odFins| >= 1
    ensures |r.0| == |r.1| == |odFins|
    ensures forall i :: 0 <= i < |odFins| ==> OnFinGrid(r.0[i]) && r.1[i].Length() >= MdHMin
    ensures |odFins| == 1 ==>
      var loc := ExtDummyLoc(BotOdYtFin(bot), TopOdYbFin(w, top), CpoH / 2, w * FinPitch - CpoH / 2,
                             -bot.mdMargin, w * FinPitch + top.mdMargin,
                             bot.impMinW, w * FinPitch - top.impMinW);
      r.0 == [loc.od] && r.1 == [loc.md]
    ensures |odFins| > 1 ==> forall i :: 0 <= i < |odFins| ==>
      r.0[i] == DummyFromFins(odFins[i]).od && MdEnclosesOd(r.1[i], r.0[i])
  {
    var yt := w * FinPitch;
    var n := |odFins|;
    if n == 1 then
      var loc := ExtDummyLoc(BotOdYtFin(bot), TopOdYbFin(w, top), CpoH / 2, yt - CpoH / 2,
                             -bot.mdMargin, yt + top.mdMargin, bot.impMinW, yt - top.impMinW);
      ([loc.od], [loc.md])
    else
      FinDummies(odFins)
  }

  /**
   * With dummy ODs (placed by `DummyLocs`): a CPO sits on both block edges and
   * between consecutive dummies, and the poly strips tile the block.
   */
  function ExtRowsWithOd(w: int, fg: int, top: ExtInfo, bot: ExtInfo, odFins: seq<Span>): (r: ExtRows)
    requires |odFins| >= 1
    ensures r.odXList == [Span(0, fg)]
    ensures |r.ods| == |r.mds| == |r.pos| == |odFins|
    ensures |r.cpoLays| == |odFins| + 1
    ensures Tiles(r.pos, 0, w * FinPitch)
    ensures forall i :: 0 <= i < |odFins| ==> r.cpoLays[i] == CpoLay(r.pos[i].lo)
    ensures r.cpoLays[|odFins|] == CpoLay(w * FinPitch)
    ensures (r.ods, r.mds) == DummyLocs(w, top, bot, odFins)
    ensures |odFins| % 2 == 0 ==> r.impSplitY == Span(w * FinPitch / 2, w * FinPitch / 2)
    ensures |odFins| % 2 == 1 ==>
      var mid := r.ods[|odFins| / 2];
      r.impSplitY == Span(mid.lo - ImpOdEncy, mid.hi + ImpOdEncy)
    ensures r.adjs == [] && r.adjL == [] && r.adjR == []
  {
    var yt := w * FinPitch;
    var yc := yt / 2;
    var n := |odFins|;
    var (ods, mds) := DummyLocs(w, top, bot, odFins);
    var c := CpoCentres(ods, yt);
    var pos := PoSpans(c);
    var cpoLays := CpoLays(c);
    forall i | 0 <= i < n
      ensures cpoLays[i] == CpoLay(pos[i].lo)
    {
      assert cpoLays[i] == CpoLay(c[i]);
      assert pos[i].lo == c[i];
    }
    var impSplitY :=
      if n % 2 == 0 then Span(yc, yc)
      else Span(ods[n / 2].lo - ImpOdEncy, ods[n / 2].hi + ImpOdEncy);
    ExtRows([Span(0, fg)], ods, mds, pos, cpoLays, impSplitY, [], [], [])
  }

  /** What `get_ext_info` returns. */
  datatype ExtResult = ExtResult(layout: LayoutInfo, leftEdge: SideEdgeInfo, rightEdge: SideEdgeInfo)

  /** The implant of row i: the bottom half's when the whole OD lies below the split. */
  function RowMtype(od: Span, impYsep: int, split: Split): (t: MosType)
    ensures od.lo <= od.hi < impYsep ==> t == split.botMtype
    ensures od.lo >= impYsep || od.hi >= impYsep ==> t == split.topMtype
  {
    if Max(od.lo, od.hi) < impYsep then split.botMtype else split.topMtype
  }

  /** The M1 fill columns: one on every finger boundary 0 .. fg. */
  function FillColumns(fg: int, sdPitch: int, m1W: int): (r: seq<Span>)
    ensures |r| == if fg >= 0 then fg + 1 else 0
    ensures forall i :: 0 <= i < |r| ==> r[i] == Span(i * sdPitch - m1W / 2, i * sdPitch + m1W / 2)
  {
    if fg >= 0 then seq(fg + 1, i => Span(i * sdPitch - m1W / 2, i * sdPitch + m1W / 2)) else []
  }

  /**
   * The rows of the extension, zipped from the OD, poly and MD lists; each
   * dummy OD takes the tap type of the implant that covers it.
   */
  function ExtRowInfos(rows: ExtRows, impYsep: int, split: Split): (r: seq<RowInfo>)
    ensures |r| == Min(|rows.ods|, Min(|rows.pos|, |rows.mds|))
    ensures forall i :: 0 <= i < |r| ==>
      r[i] == RowInfo(rows.odXList, rows.ods[i], DumOd, RowMtype(rows.ods[i], impYsep, split).SubType(),
                      rows.pos[i], rows.mds[i])
  {
    var n := Min(|rows.ods|, Min(|rows.pos|, |rows.mds|));
    seq(n, i requires 0 <= i < n =>
      RowInfo(rows.odXList, rows.ods[i], DumOd, RowMtype(rows.ods[i], impYsep, split).SubType(),
              rows.pos[i], rows.mds[i]))
  }

  /**
   * The rows of a non-empty extension: all dummy rows; a single empty row
   * when the packer placed no dummy OD; otherwise one row per dummy, each on
   * the fin grid with a legal MD, and poly strips that tile the block.
   */
  predicate ExtRowsShape(rs: seq<RowInfo>, odFins: seq<Span>, fg: int, yt: int) {
    && (forall i :: 0 <= i < |rs| ==> rs[i].odKind == DumOd)
    && (odFins == [] ==> |rs| == 1 && rs[0].odXList == [] && rs[0].odY == Span(0, 0))
    && (odFins != [] ==>
          && |rs| == |odFins|
          && (forall i :: 0 <= i < |rs| ==>
                rs[i].odXList == [Span(0, fg)] && OnFinGrid(rs[i].odY) && rs[i].mdY.Length() >= MdHMin)
          && rs[0].poY.lo == 0 && rs[|rs| - 1].poY.hi == yt
          && (forall i, j :: 0 <= i < |rs| && 0 <= j < |rs| && j == i + 1 ==> rs[i].poY.hi == rs[j].poY.lo))
  }

  /**
   * The row lists of a non-empty extension before zipping: one empty row
   * without dummies; otherwise one OD, MD and poly strip per dummy, with the
   * strips tiling the block.
   */
  predicate RowsReady(rows: ExtRows, odFins: seq<Span>, fg: int, yt: int) {
    && (odFins == [] ==>
          rows.odXList == [] && rows.ods == [Span(0, 0)] && rows.mds == [Span(0, 0)] && |rows.pos| == 1)
    && (odFins != [] ==>
          && rows.odXList == [Span(0, fg)]
          && |rows.ods| == |rows.mds| == |rows.pos| == |odFins|
          && Tiles(rows.pos, 0, yt)
          && (forall i :: 0 <= i < |odFins| ==> OnFinGrid(rows.ods[i]) && rows.mds[i].Length() >= MdHMin))
  }

  /** The boundary between the implant halves: the band's bottom when the top half takes the middle. */
  function ImpYsep(band: Span, split: Split): (y: int)
    ensures MiddleOwner(split) == Top ==> y == band.lo
    ensures MiddleOwner(split) == Bottom ==> y == band.hi
  {
    if split.sepIdx == 0 then band.lo else band.hi
  }

  /** The extension's row lists: none of dummy OD, or the dummies the packer asked for. */
  method ExtRowsFor(w: int, fg: int, top: ExtInfo, bot: ExtInfo, odFins: seq<Span>) returns (rows: ExtRows)
    ensures RowsReady(rows, odFins, fg, w * FinPitch)
  {
    if odFins == [] {
      rows := ExtRowsNoOd(w, top, bot);
    } else {
      rows := ExtRowsWithOd(w, fg, top, bot, odFins);
    }
  }

  /** The rows zipped from a no-dummy or a dummy row set have the extension's row shape. */
  lemma LemmaExtRowInfos(rows: ExtRows, odFins: seq<Span>, fg: int, yt: int, impYsep: int, split: Split)
    requires RowsReady(rows, odFins, fg, yt)
    ensures ExtRowsShape(ExtRowInfos(rows, impYsep, split), odFins, fg, yt)
  {
  }

  /**
   * The layout record of a non-empty extension: the dummy rows typed by the
   * implant that covers them, the CPOs followed by the two implant halves'
   * layers, and the M1 fill.
   */
  function ExtBlockLayout(lch: int, w: int, fg: int, sdPitch: int, m1W: int, odFins: seq<Span>, rows: ExtRows,
                          split: Split, impYsep: int, botLayers: seq<Layer>, topLayers: seq<Layer>,
                          fillY: seq<Span>)
    : (l: LayoutInfo)
    requires RowsReady(rows, odFins, fg, w * FinPitch)
    ensures ExtRowsShape(l.rows, odFins, fg, w * FinPitch)
    ensures l.blkType == ExtBlk && l.arrayBoxY == Span(0, w * FinPitch) && l.drawOd
    ensures l.impParams == Some([ImpParam(split.botMtype, split.botThres, Span(0, impYsep), Span(0, impYsep)),
                                 ImpParam(split.topMtype, split.topThres, Span(impYsep, w * FinPitch),
                                          Span(impYsep, w * FinPitch))])
    ensures l.rows == ExtRowInfos(rows, impYsep, split)
    ensures l.lays == rows.cpoLays +
      seq(|botLayers|, i requires 0 <= i < |botLayers| => LayInfo(botLayers[i], 0, 0, impYsep)) +
      seq(|topLayers|, i requires 0 <= i < |topLayers| => LayInfo(topLayers[i], 0, impYsep, w * FinPitch))
    ensures l.adjs == rows.adjs
    ensures l.fills == [FillInfo(Metal1, FillColumns(fg, sdPitch, m1W), fillY)]
  {
    var yt := w * FinPitch;
    var impParams := [ImpParam(split.botMtype, split.botThres, Span(0, impYsep), Span(0, impYsep)),
                      ImpParam(split.topMtype, split.topThres, Span(impYsep, yt), Span(impYsep, yt))];
    var impLays := seq(|botLayers|, i requires 0 <= i < |botLayers| => LayInfo(botLayers[i], 0, 0, impYsep)) +
                   seq(|topLayers|, i requires 0 <= i < |topLayers| => LayInfo(topLayers[i], 0, impYsep, yt));
    var fillInfo := FillInfo(Metal1, FillColumns(fg, sdPitch, m1W), fillY);
    LemmaExtRowInfos(rows, odFins, fg, yt, impYsep, split);
    LayoutInfo(ExtBlk, lch, MdW, fg, sdPitch, 0, Span(0, yt), true, ExtRowInfos(rows, impYsep, split),
               rows.cpoLays + impLays, rows.adjs, None, None, [fillInfo], Some(impParams))
  }

  /** The non-empty extension block of `get_ext_info`, once the channel length is known. */
  method NonEmptyExtInfo(lch: int, sdPitch: int, m1W: int, w: int, fg: int, top: ExtInfo, bot: ExtInfo,
                         fill: Packer)
    returns (r: Result<ExtResult>)
    ensures (ParseThreshold(bot.thres).Success? && ParseThreshold(top.thres).Success?) ==> r.Success?
    ensures r.Failure? ==> r.error.UnrecognizedThreshold?
    // it fails exactly when a threshold the split gives one of the halves is not recognised
    ensures var odFins := fill(TopOdYbFin(w, top) - BotOdYtFin(bot), OdSpNfinMax, OdNfinMin, OdNfinMax, BotOdYtFin(bot));
            var sp := ImplantSplit(bot, top, odFins != []);
      r.Success? <==> ParseThreshold(sp.botThres).Success? && ParseThreshold(sp.topThres).Success?
    ensures r.Success? ==>
      var l := r.value.layout;
      var yt := w * FinPitch;
      var odFins := fill(TopOdYbFin(w, top) - BotOdYtFin(bot), OdSpNfinMax, OdNfinMin, OdNfinMax, BotOdYtFin(bot));
      && l.blkType == ExtBlk && l.arrayBoxY == Span(0, yt) && l.drawOd
      && l.impParams.Some? && |l.impParams.value| == 2
      && l.impParams.value[0].impY.lo == 0
      && l.impParams.value[0].impY.hi == l.impParams.value[1].impY.lo
      && l.impParams.value[1].impY.hi == yt
      && ExtRowsShape(l.rows, odFins, fg, yt)
      && |l.fills| == 1 && l.fills[0].layer == Metal1
      && l.fills[0].yIntvList == fill(yt + top.m1Margin + bot.m1Margin, M1SpMax, M1FillLmin, M1FillLmax, -bot.m1Margin)
      && r.value.leftEdge.edge == r.value.rightEdge.edge == EdgeInfo(DumOd)
    // the two halves carry the implants and thresholds the six-case split picks
    ensures r.Success? ==>
      var l := r.value.layout;
      var odFins := fill(TopOdYbFin(w, top) - BotOdYtFin(bot), OdSpNfinMax, OdNfinMin, OdNfinMax, BotOdYtFin(bot));
      var sp := ImplantSplit(bot, top, odFins != []);
      && l.impParams.Some? && |l.impParams.value| == 2
      && l.impParams.value[0].mtype == sp.botMtype && l.impParams.value[0].thres == sp.botThres
      && l.impParams.value[1].mtype == sp.topMtype && l.impParams.value[1].thres == sp.topThres
  {
    var yt := w * FinPitch;
    // step 1: dummy OD fin intervals, CPOs and implant split coordinates
    var botOdYtFin := BotOdYtFin(bot);
    var odFins := fill(TopOdYbFin(w, top) - botOdYtFin, OdSpNfinMax, OdNfinMin, OdNfinMax, botOdYtFin);
    var fillY := fill(yt + top.m1Margin + bot.m1Margin, M1SpMax, M1FillLmin, M1FillLmax, -bot.m1Margin);
    var rows := ExtRowsFor(w, fg, top, bot, odFins);
    var split := ImplantSplit(bot, top, rows.odXList != []);
    var impYsep := ImpYsep(rows.impSplitY, split);
    // step 2: implant and threshold layers
    var botLayers :- GetMosLayers(split.botMtype, split.botThres);
    var topLayers :- GetMosLayers(split.topMtype, split.topThres);
    // step 3: rows and M1 fill
    var layout := ExtBlockLayout(lch, w, fg, sdPitch, m1W, odFins, rows, split, impYsep, botLayers, topLayers, fillY);
    r := Success(ExtResult(layout, SideEdgeInfo(EdgeInfo(DumOd), rows.adjL), SideEdgeInfo(EdgeInfo(DumOd), rows.adjR)));
  }

  /**
   * `get_ext_info` with the MD width read from the process table (the source
   * reads it from the per-channel-length constants, which lack it; see
   * `GetExtInfoAsWritten`).  Width 0 draws only a CPO on the boundary.
   * Otherwise the extension holds no dummy OD (one CPO when narrow, else
   * two) or the packer's dummies; the two implant halves tile the block.
   */
  method GetExtInfo(lch: int, w: int, fg: int, top: ExtInfo, bot: ExtInfo, fill: Packer)
    returns (r: Result<ExtResult>)
    ensures lch != SupportedLch ==> r == Failure(UnsupportedChannelLength(lch))
    ensures (lch == SupportedLch &&
             (w == 0 || (ParseThreshold(bot.thres).Success? && ParseThreshold(top.thres).Success?))) ==>
      r.Success?
    ensures r.Failure? ==> r.error.UnsupportedChannelLength? || r.error.UnrecognizedThreshold?
    // a non-empty extension fails exactly when a threshold the split gives one of the halves is not recognised
    ensures lch == SupportedLch && w != 0 ==>
      var odFins := fill(TopOdYbFin(w, top) - BotOdYtFin(bot), OdSpNfinMax, OdNfinMin, OdNfinMax, BotOdYtFin(bot));
      var sp := ImplantSplit(bot, top, odFins != []);
      r.Success? <==> ParseThreshold(sp.botThres).Success? && ParseThreshold(sp.topThres).Success?
    ensures r.Success? && w == 0 ==>
      var l := r.value.layout;
      && l.rows == [] && l.fills == [] && l.impParams == None
      && l.lays == [CpoLay(0)] && l.arrayBoxY == Span(0, 0)
      && r.value.leftEdge == r.value.rightEdge == SideEdgeInfo(EdgeInfo(DumOd), [])
    ensures r.Success? && w != 0 ==>
      var l := r.value.layout;
      var yt := w * FinPitch;
      var odFins := fill(TopOdYbFin(w, top) - BotOdYtFin(bot), OdSpNfinMax, OdNfinMin, OdNfinMax, BotOdYtFin(bot));
      && l.blkType == ExtBlk && l.arrayBoxY == Span(0, yt) && l.drawOd
      && l.impParams.Some? && |l.impParams.value| == 2
      && l.impParams.value[0].impY.lo == 0
      && l.impParams.value[0].impY.hi == l.impParams.value[1].impY.lo
      && l.impParams.value[1].impY.hi == yt
      && ExtRowsShape(l.rows, odFins, fg, yt)
      && |l.fills| == 1 && l.fills[0].layer == Metal1
      && l.fills[0].yIntvList == fill(yt + top.m1Margin + bot.m1Margin, M1SpMax, M1FillLmin, M1FillLmax, -bot.m1Margin)
      && r.value.leftEdge.edge == r.value.rightEdge.edge == EdgeInfo(DumOd)
    // the two halves carry the implants and thresholds the six-case split picks
    ensures r.Success? && w != 0 ==>
      var l := r.value.layout;
      var odFins := fill(TopOdYbFin(w, top) - BotOdYtFin(bot), OdSpNfinMax, OdNfinMin, OdNfinMax, BotOdYtFin(bot));
      var sp := ImplantSplit(bot, top, odFins != []);
      && l.impParams.Some? && |l.impParams.value| == 2
      && l.impParams.value[0].mtype == sp.botMtype && l.impParams.value[0].thres == sp.botThres
      && l.impParams.value[1].mtype == sp.topMtype && l.impParams.value[1].thres == sp.topThres
  {
    var mc :- GetMosTechConstants(lch);
    if w == 0 {
      var layout := LayoutInfo(ExtBlk, lch, MdW, fg, mc.sdPitch, 0, Span(0, 0), true, [], [CpoLay(0)], [],
                               None, None, [], None);
      r := Success(ExtResult(layout, SideEdgeInfo(EdgeInfo(DumOd), []), SideEdgeInfo(EdgeInfo(DumOd), [])));
    } else {
      r := NonEmptyExtInfo(lch, mc.sdPitch, mc.connW, w, fg, top, bot, fill);
    }
  }

  /**
   * `get_ext_info` as written: after the channel-length check it reads
   * `mos_constants['md_w']`, a key the per-channel-length constants do not
   * define, so every call with a supported channel length raises.
   */
  method GetExtInfoAsWritten(lch: int, w: int, fg: int, top: ExtInfo, bot: ExtInfo, fill: Packer)
    returns (r: Result<ExtResult>)
    ensures lch != SupportedLch ==> r == Failure(UnsupportedChannelLength(lch))
    ensures lch == SupportedLch ==> r == Failure(MissingKey("md_w"))
  {
    var mc :- GetMosTechConstants(lch);
    match mc.Lookup("md_w") {
      case Failure(e) => r := Failure(e);
      case Success(_) => r := GetExtInfo(lch, w, fg, top, bot, fill);
    }
  }

}

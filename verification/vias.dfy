/**
 * Via-stack sizing (`get_gate_via_info`, `get_ds_via_info`): each metal is
 * as tall as its via enclosure needs and at least as tall as the
 * minimum-area rule at the fixed MD width needs; the drain/source stack also
 * packs as many V0 cuts as fit in the MD height.
 */
module Vias {
  import opened Results
  import opened Tech
  import opened GridMath

  /**
   * Per via level (V0, V1, V2): cut height and width, bottom-metal and
   * top-metal enclosures, then the derived metal heights.
   */
  datatype ViaStack = ViaStack(
    h: seq<int>, w: seq<int>,
    botEncx: seq<int>, botEncy: seq<int>,
    topEncx: seq<int>, topEncy: seq<int>,
    m1H: int, m2H: int, m3H: int)
  {
    predicate WellFormed() {
      |h| == 3 && |w| == 3 && |botEncx| == 3 && |botEncy| == 3 && |topEncx| == 3 && |topEncy| == 3
    }
  }

  /** The drain/source stack also carries the V0 count and the MD height. */
  datatype DsVia = DsVia(stack: ViaStack, numV0: int, mdH: int)

  /** `-(-mx_area_min // md_w)`: the least metal height that passes the minimum-area rule. */
  function MinAreaHeight(): (r: int)
    ensures r * MdW >= MxAreaMin
    ensures (r - 1) * MdW < MxAreaMin
  {
    CeilDiv(MxAreaMin, MdW)
  }

  /** h is the least height that both encloses the via (encReq) and passes the minimum-area rule. */
  predicate LeastLegalHeight(h: int, encReq: int) {
    && h >= encReq
    && h * MdW >= MxAreaMin
    && (h == encReq || (h - 1) * MdW < MxAreaMin)
  }

  /** `get_gate_via_info` (the channel length is not consulted). */
  function GateViaInfo(lch: int): (r: ViaStack)
    ensures r.WellFormed()
    ensures LeastLegalHeight(r.m1H, r.h[0] + 2 * r.topEncy[0])
    ensures LeastLegalHeight(r.m3H, r.h[2] + 2 * r.topEncy[2])
    ensures r.m2H - r.h[1] == 2 * r.topEncy[1]
  {
    var h := [32, 32, 32];
    var topEncy := [40, 0, 40];
    ViaStack(h, [32, 32, 32], [18, 4, 40], [4, 40, 0], [4, 40, 4], topEncy,
             Max(h[0] + 2 * topEncy[0], MinAreaHeight()),
             h[1] + 2 * topEncy[1],
             Max(h[2] + 2 * topEncy[2], MinAreaHeight()))
  }

  /** The drain/source via table, before heights are derived. */
  const DsH := [32, 64, 64]
  const DsW := [32, 32, 32]
  const DsBotEncx := [3, 4, 10]
  const DsBotEncy := [18, 20, 10]
  const DsTopEncx := [4, 10, 4]
  const DsTopEncy := [40, 10, 20]

  /** n V0 cuts with spacing v0_sp, plus one spacing, fit inside the MD height less its two enclosures. */
  predicate V0Fits(n: int, mdH: int) {
    n * (DsH[0] + V0Sp) + V0Sp <= mdH - 2 * DsBotEncy[0]
  }

  /** M1 must hold two V1 cuts with their bottom enclosures and the V1 spacing between them. */
  function TwoM2Height(): int {
    2 * DsBotEncy[1] + 2 * DsH[1] + VxSp
  }

  /** M1 height that encloses an array of n V0 cuts. */
  function V0ArrayM1Height(n: int): int {
    n * (DsH[0] + V0Sp) - V0Sp + 2 * DsTopEncy[0]
  }

  /**
   * `get_ds_via_info` with the fin pitch read from the table's `fin_pitch`
   * entry (`compact` and the channel length are not consulted).
   */
  function DsViaInfo(lch: int, w: int, compact: bool): (r: DsVia)
    ensures r.stack.WellFormed()
    ensures r.mdH >= MdHMin && r.mdH >= OdHeight(w) + 2 * MdOdExty
    ensures r.mdH == MdHMin || r.mdH == OdHeight(w) + 2 * MdOdExty
    ensures r.numV0 >= 0 && V0Fits(r.numV0, r.mdH) && !V0Fits(r.numV0 + 1, r.mdH)
    ensures r.stack.m1H >= MinAreaHeight() && r.stack.m1H * MdW >= MxAreaMin
    ensures r.stack.m1H >= TwoM2Height() && r.stack.m1H >= V0ArrayM1Height(r.numV0)
    ensures r.stack.m1H in {MinAreaHeight(), TwoM2Height(), V0ArrayM1Height(r.numV0)}
    ensures LeastLegalHeight(r.stack.m3H, r.stack.h[2] + 2 * r.stack.topEncy[2])
    ensures r.stack.m2H - r.stack.h[1] == 2 * r.stack.topEncy[1]
  {
    var odH := OdHeight(w);
    var mdH := Max(odH + 2 * MdOdExty, MdHMin);
    var numV0 := FloorDiv(mdH - DsBotEncy[0] * 2 - V0Sp, V0Sp + DsH[0]);
    var m1H := Max(Max(V0ArrayM1Height(numV0), TwoM2Height()), MinAreaHeight());
    var m2H := DsH[1] + 2 * DsTopEncy[1];
    var m3H := Max(DsH[2] + 2 * DsTopEncy[2], MinAreaHeight());
    DsVia(ViaStack(DsH, DsW, DsBotEncx, DsBotEncy, DsTopEncx, DsTopEncy, m1H, m2H, m3H), numV0, mdH)
  }

  /**
   * `get_ds_via_info` as written: it reads `tech_constants['fin_p']`, a key
   * the table does not define, so every call raises.
   */
  function DsViaInfoAsWritten(lch: int, w: int, compact: bool): (r: Result<DsVia>)
    ensures r == Failure(MissingKey("fin_p"))
  {
    match TechLookup("fin_p")
    case Failure(e) => Failure(e)
    case Success(_) => Success(DsViaInfo(lch, w, compact))
  }

  /** A taller OD never shrinks the drain/source stack. */
  lemma LemmaDsViaMonotone(lch: int, w1: int, w2: int)
    requires w1 <= w2
    ensures DsViaInfo(lch, w1, false).mdH <= DsViaInfo(lch, w2, false).mdH
    ensures DsViaInfo(lch, w1, false).numV0 <= DsViaInfo(lch, w2, false).numV0
    ensures DsViaInfo(lch, w1, false).stack.m1H <= DsViaInfo(lch, w2, false).stack.m1H
  {
    var a, b := DsViaInfo(lch, w1, false), DsViaInfo(lch, w2, false);
    assert OdHeight(w1) <= OdHeight(w2);
    LemmaFloorDivMonotone(a.mdH - 68, b.mdH - 68, 64);
  }
}

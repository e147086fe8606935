/**
 * The process constant table of `MOSTechTSMC16` (channel length 18 only),
 * the per-channel-length constants, and the implant/well/threshold layer
 * names of a device flavour.  All lengths are integer resolution units.
 */
module Tech {
  import opened Results

  const FinH := 14
  const FinPitch := 48
  const MpCpoSp := 19
  const MpH := 40
  const MpPoOvl := 16
  const MpMdSp := 13
  const MpSpy := 34
  const MdW := 40
  const MdSp := 46
  const MdOdSpy := 40
  const MdOdExty := 20
  const MdHMin := 68
  const V0Sp := 32
  const VxSp := 42
  const CpoH := 60
  const CpoOdSp := 20
  const CpoSpy := 90
  const CpoPoEncy := 34
  const OdSpNfinMax := 16
  const OdNfinMin := 2
  const OdNfinMax := 20
  const DumOdFgMin := 2
  const DumOdFgSpace := 2
  const ImpOdEncy := 45
  const ImpOdEncx := 65
  const ImpWmin := 52
  const MxAreaMin := 6176
  const M1SpMax := 1600
  const M1SpBnd := 800
  const M1FillLmin := 200
  const M1FillLmax := 400
  const MxSpyMin := 64

  /** Half a fin pitch and half a fin height, as the source rounds them. */
  const FinP2 := FinPitch / 2
  const FinH2 := FinH / 2

  /** The integer entries of the table, under the names the source reads them by. */
  const TechTable: map<string, int> := map[
    "fin_h" := FinH, "fin_pitch" := FinPitch, "mp_cpo_sp" := MpCpoSp, "mp_h" := MpH,
    "mp_po_ovl" := MpPoOvl, "mp_md_sp" := MpMdSp, "mp_spy" := MpSpy, "md_w" := MdW,
    "md_sp" := MdSp, "md_od_spy" := MdOdSpy, "md_od_exty" := MdOdExty, "md_h_min" := MdHMin,
    "v0_sp" := V0Sp, "vx_sp" := VxSp, "cpo_h" := CpoH, "cpo_od_sp" := CpoOdSp,
    "cpo_spy" := CpoSpy, "cpo_po_ency" := CpoPoEncy, "od_sp_nfin_max" := OdSpNfinMax,
    "od_nfin_min" := OdNfinMin, "od_nfin_max" := OdNfinMax, "dum_od_fg_min" := DumOdFgMin,
    "dum_od_fg_space" := DumOdFgSpace, "imp_od_ency" := ImpOdEncy, "imp_od_encx" := ImpOdEncx,
    "imp_wmin" := ImpWmin, "mx_area_min" := MxAreaMin, "m1_sp_max" := M1SpMax,
    "m1_sp_bnd" := M1SpBnd, "m1_fill_lmin" := M1FillLmin, "m1_fill_lmax" := M1FillLmax,
    "mx_spy_min" := MxSpyMin]

  /** `cls.tech_constants[key]`: a key the table lacks raises a KeyError. */
  function TechLookup(key: string): (r: Result<int>)
    ensures r.Success? <==> key in TechTable
    ensures r.Success? ==> r.value == TechTable[key]
    ensures r.Failure? ==> r.error == MissingKey(key)
  {
    if key in TechTable then Success(TechTable[key]) else Failure(MissingKey(key))
  }

  /** The per-channel-length constants `get_mos_tech_constants` returns. */
  datatype MosConstants = MosConstants(sdPitch: int, numSdPerTrack: int, connW: int) {

    /** The dictionary the source builds, under its own key names. */
    function Table(): map<string, int> {
      map["sd_pitch" := sdPitch, "laygo_num_sd_per_track" := numSdPerTrack,
          "num_sd_per_track" := numSdPerTrack, "laygo_conn_w" := connW,
          "mos_conn_w" := connW, "dum_conn_w" := connW, "m1_w" := connW]
    }

    /** `mos_constants[key]`. */
    function Lookup(key: string): (r: Result<int>)
      ensures r.Success? <==> key in Table()
      ensures r.Failure? ==> r.error == MissingKey(key)
    {
      if key in Table() then Success(Table()[key]) else Failure(MissingKey(key))
    }
  }

  const SupportedLch := 18

  /** The keys of the dictionary `get_mos_tech_constants` returns. */
  const MosConstantKeys: set<string> := {"sd_pitch", "laygo_num_sd_per_track", "num_sd_per_track",
    "laygo_conn_w", "mos_conn_w", "dum_conn_w", "m1_w"}

  /** Only channel length 18 is supported; its finger pitch is 90 and every connection width is the MD width. */
  function GetMosTechConstants(lch: int): (r: Result<MosConstants>)
    ensures r.Success? <==> lch == SupportedLch
    ensures r.Failure? ==> r.error == UnsupportedChannelLength(lch)
    ensures r.Success? ==> r.value.sdPitch == 90
    ensures r.Success? ==> r.value.sdPitch > lch && (r.value.sdPitch - lch) % 2 == 0
    ensures r.Success? ==> r.value.connW == MdW && r.value.numSdPerTrack == 1
    ensures r.Success? ==> forall key :: key in r.value.Table() <==> key in MosConstantKeys
  {
    if lch == SupportedLch then Success(MosConstants(90, 1, MdW))
    else Failure(UnsupportedChannelLength(lch))
  }

  /** Row/device types: transistors and substrate taps of either polarity. */
  datatype MosType = Nch | Pch | Ntap | Ptap {
    predicate IsTransistor() { this == Nch || this == Pch }

    /** The substrate tap type whose implant matches this type's. */
    function SubType(): MosType {
      if this == Nch || this == Ptap then Ptap else Ntap
    }
  }

  datatype Polarity = PType | NType
  datatype Vt = Lvt | Svt | Hvt

  datatype Layer =
    | FinArea
    | NWell
    | ThresholdLayer(polarity: Polarity, vt: Vt)
    | CutPoly
    | Metal1

  /** The (layer, purpose) names the drawing code sees. */
  function LayerName(l: Layer): (string, string) {
    match l
    case FinArea => ("FinArea", "fin48")
    case NWell => ("NWell", "drawing")
    case ThresholdLayer(p, vt) =>
      var pc := if p == PType then "P" else "N";
      var vs := match vt case Lvt => "lvt" case Svt => "svt" case Hvt => "hvt";
      (pc + vs, "drawing")
    case CutPoly => ("CutPoly", "drawing")
    case Metal1 => ("M1", "drawing")
  }

  /** The threshold spellings `get_mos_layers` accepts. */
  function ParseThreshold(threshold: string): (r: Result<Vt>)
    ensures r == Success(Lvt) <==> threshold == "lvt" || threshold == "fast"
    ensures r == Success(Svt) <==> threshold == "svt" || threshold == "standard"
    ensures r == Success(Hvt) <==> threshold == "hvt" || threshold == "low_power"
    ensures r.Failure? ==> r.error == UnrecognizedThreshold(threshold)
  {
    if threshold == "lvt" || threshold == "fast" then Success(Lvt)
    else if threshold == "svt" || threshold == "standard" then Success(Svt)
    else if threshold == "hvt" || threshold == "low_power" then Success(Hvt)
    else Failure(UnrecognizedThreshold(threshold))
  }

  /** The canonical spelling of a threshold flavour. */
  function ThresholdName(vt: Vt): string {
    match vt case Lvt => "lvt" case Svt => "svt" case Hvt => "hvt"
  }

  /** Every flavour's canonical spelling parses back to the flavour. */
  lemma LemmaThresholdRoundTrip(vt: Vt)
    ensures ParseThreshold(ThresholdName(vt)) == Success(vt)
  {
  }

  /** Exactly six spellings are accepted; each names one flavour. */
  lemma LemmaThresholdAccepted(threshold: string)
    ensures ParseThreshold(threshold).Success? <==>
      threshold in {"lvt", "fast", "svt", "standard", "hvt", "low_power"}
  {
  }

  /** NWell is drawn for P-type devices and N-type taps. */
  predicate HasNWell(t: MosType) {
    t == Pch || t == Ntap
  }

  /** The threshold layer polarity: P for pch and ptap, N otherwise. */
  function ThresholdPolarity(t: MosType): Polarity {
    if t == Pch || t == Ptap then PType else NType
  }

  /**
   * `get_mos_layers`: FinArea, then NWell when the type needs it, then the
   * threshold layer; an unrecognised threshold raises.
   */
  function GetMosLayers(t: MosType, threshold: string): (r: Result<seq<Layer>>)
    ensures r.Success? <==> ParseThreshold(threshold).Success?
    ensures r.Failure? ==> r.error == UnrecognizedThreshold(threshold)
    ensures r.Success? ==>
      && |r.value| == (if HasNWell(t) then 3 else 2)
      && r.value[0] == FinArea
      && (NWell in r.value <==> HasNWell(t))
      && r.value[|r.value| - 1] == ThresholdLayer(ThresholdPolarity(t), ParseThreshold(threshold).value)
      && CutPoly !in r.value && Metal1 !in r.value
  {
    var vt :- ParseThreshold(threshold);
    var base := if HasNWell(t) then [FinArea, NWell] else [FinArea];
    Success(base + [ThresholdLayer(ThresholdPolarity(t), vt)])
  }

  /** Height of an OD of `nfin` fins: nfin - 1 pitches plus one fin. */
  function OdHeight(nfin: int): int {
    (nfin - 1) * FinPitch + FinH
  }

  /** The fin count the substrate connection recovers from an OD height. */
  function FinCount(odH: int): int {
    (odH - FinH) / FinPitch + 1
  }

  /** Recovering the fin count from the OD height gives back the fin count. */
  lemma LemmaFinCountRoundTrip(nfin: int)
    ensures FinCount(OdHeight(nfin)) == nfin
  {
    assert OdHeight(nfin) - FinH == (nfin - 1) * FinPitch;
  }
}

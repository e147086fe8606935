/**
 * The immutable records the solvers publish and consume (`ExtInfo`,
 * `RowInfo`, `AdjRowInfo`, `EdgeInfo`, `FillInfo` and the layout record).
 * Python's "replace one field" becomes Dafny's `r.(field := v)`.
 */
module Records {
  import opened Results
  import opened Tech

  datatype Option<+T> = None | Some(value: T)

  /** A closed interval of coordinates, usually (bottom, top) or (left, right). */
  datatype Span = Span(lo: int, hi: int) {
    function Length(): int { hi - lo }
  }

  /** The OD category: 'mos', 'dum', 'sub', or None. */
  datatype OdKind = MosOd | DumOd | SubOd | NoOd

  /** Does a boundary poly next to this kind of OD count as live (drawn) poly? */
  predicate IsLive(k: OdKind) {
    k == MosOd || k == SubOd
  }

  datatype EdgeInfo = EdgeInfo(odType: OdKind)

  /** `(edge_info, adjacent_row_edge_infos)` published for a left or right edge. */
  datatype SideEdgeInfo = SideEdgeInfo(edge: EdgeInfo, adjEdges: seq<EdgeInfo>)

  /** The margins a row publishes on one of its horizontal boundaries. */
  datatype ExtInfo = ExtInfo(
    mxMargin: int,
    odMargin: int,
    mdMargin: int,
    m1Margin: int,
    impMinW: int,
    mtype: MosType,
    rowType: MosType,
    thres: string,
    poTypes: seq<bool>,
    edgel: EdgeInfo,
    edger: EdgeInfo)

  /** One drawable row; `odType` is the pair (category, substrate type). */
  datatype RowInfo = RowInfo(
    odXList: seq<Span>,
    odY: Span,
    odKind: OdKind,
    subType: MosType,
    poY: Span,
    mdY: Span)

  /**
   * The Python value stored as a row's `od_x_list`: a list of (start, stop)
   * finger pairs, or a bare (start, stop) pair that is not wrapped in a list.
   */
  datatype OdXValue = PairList(pairs: seq<Span>) | BarePair(start: int, stop: int)

  /** Gate strips of a neighbouring row; `true` marks drawn poly, `false` dummy poly. */
  datatype AdjRowInfo = AdjRowInfo(poY: Span, poTypes: seq<bool>)

  /** A metal fill request: the cross product of its X and Y intervals. */
  datatype FillInfo = FillInfo(layer: Layer, xIntvList: seq<Span>, yIntvList: seq<Span>)

  /** One non-row layer rectangle: layer, left edge, bottom, top. */
  datatype LayInfo = LayInfo(layer: Layer, xl: int, yb: int, yt: int)

  /** The (device type, threshold, implant Y, threshold Y) tuple behind an implant split. */
  datatype ImpParam = ImpParam(mtype: MosType, thres: string, impY: Span, thresY: Span)

  datatype BlkType = MosBlk | ExtBlk | SubBlk | EndBlk | EdgeBlk | GrEdgeBlk | GrSubBlk | GrSepBlk

  datatype LayoutInfo = LayoutInfo(
    blkType: BlkType,
    lch: int,
    mdW: int,
    fg: int,
    sdPitch: int,
    arrayBoxXl: int,
    arrayBoxY: Span,
    drawOd: bool,
    rows: seq<RowInfo>,
    lays: seq<LayInfo>,
    adjs: seq<AdjRowInfo>,
    leftBlk: Option<EdgeInfo>,
    rightBlk: Option<EdgeInfo>,
    fills: seq<FillInfo>,
    impParams: Option<seq<ImpParam>>)

  /** Python's `(1,) * n` and `(0,) * n`: empty for n <= 0. */
  function Repeat(b: bool, n: int): (r: seq<bool>)
    ensures |r| == if n > 0 then n else 0
    ensures forall i :: 0 <= i < |r| ==> r[i] == b
  {
    if n > 0 then seq(n, _ => b) else []
  }
}

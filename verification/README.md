# MOSTechTSMC16 geometry engine, in Dafny

This project models the integer layout geometry of the `MOSTechTSMC16`
class (`templates_cds_ff_mpt/mos/base.py`). That class places the shapes
of a FinFET transistor array on the process grid. From a channel length,
a fin count, a finger count and the margins the neighbouring rows
publish, it computes the following:

- the via stacks of the gate and of the drain/source;
- the vertical placement of a transistor row, a substrate row and an end
  row;
- the legal extension widths between two rows, and the extension block
  itself: dummy OD, CPO cuts, poly strips and the implant split;
- the edge and guard-ring blocks: finger counts, the CPO shift onto the
  routing pitch, tap-implant conversion and the poly-type masks;
- the pure decisions inside the drawing routines: the OD masks of
  `draw_mos` and its poly purpose, MD mask and FinArea rounding; the port
  and dummy track selection of `draw_substrate_connection`; and the M3
  interval rule of `_draw_ds_via`.

Coordinates are integers in layout units. Python's `//` by a positive
constant is Dafny's `/`. The source's ceiling idiom `-(-a // b)` is
`GridMath.CeilDiv`. Every raised exception is a `Results.Failure` whose
error names the cause:

- an unsupported channel length;
- an unrecognised threshold;
- a guard ring narrower than the minimum;
- a missing table key or attribute;
- an absent neighbour edge;
- an int unpacked as a pair.

The modules follow the class's structure:

| module | models |
|---|---|
| `Results` | the outcome datatype and its error causes |
| `GridMath` | floor and ceiling division, rounding onto a grid, `lcm` |
| `Lex` | Python's string order |
| `SortedSets` | `sorted` on a set of integers |
| `Tech` | the process table, the per-channel-length constants and the layer lists |
| `Records` | the records the class passes around |
| `Vias` | the via stacks |
| `MosRow` | the transistor row |
| `Extension` | the extension widths and the extension block |
| `Substrate` | the substrate and end rows |
| `Edge` | the edge and guard-ring blocks |
| `Draw` | the drawing decisions |
| `SubTracks` | the substrate-connection track selection |

Several source lines read a key or an attribute that does not exist, or
store a value in a form its reader cannot unpack, and so raise. For each of them the model keeps both versions:

- an as-written member that fails the way the source does;
- a corrected member, which the rest of the model uses.

A corrected member whose intended value the source does not state takes
that value as a parameter. The table under "## Findings" lists these
lines.

## Model

| member | source | states |
|---|---|---|
| Tech.TechLookup | templates_cds_ff_mpt/mos/base.py:62-131 | a table read succeeds exactly for the keys the process table defines and returns that key's value; any other key is a missing-key failure naming the key |
| Tech.GetMosTechConstants | templates_cds_ff_mpt/mos/base.py:292-306 | succeeds exactly for channel length 18, otherwise fails with the unsupported length; the S/D pitch is 90 (an even amount above the channel length), every connection width equals the MD width, one S/D per track, and the dictionary holds exactly the seven keys the source sets |
| Tech.ParseThreshold | templates_cds_ff_mpt/mos/base.py:155-162 | lvt and fast give LVT, svt and standard give SVT, hvt and low_power give HVT, each flavour from exactly its two spellings; any other threshold fails naming it |
| Tech.LemmaThresholdAccepted | templates_cds_ff_mpt/mos/base.py:155-162 | a threshold is accepted exactly when it is one of lvt, fast, svt, standard, hvt, low_power |
| Tech.LemmaThresholdRoundTrip | templates_cds_ff_mpt/mos/base.py:155-160 | every threshold flavour's canonical name parses back to that flavour |
| Tech.GetMosLayers | templates_cds_ff_mpt/mos/base.py:134-165 | succeeds exactly when the threshold is recognised; the list starts with FinArea, holds NWell exactly for pch and ntap, ends with the threshold layer of the device's polarity, has 3 or 2 entries accordingly and never holds CutPoly or M1 |
| Tech.LemmaFinCountRoundTrip | templates_cds_ff_mpt/mos/base.py:1740 | the fin count recovered from an OD height inverts the OD height formula `(w - 1) * fin_pitch + fin_h` |
| Vias.MinAreaHeight | templates_cds_ff_mpt/mos/base.py:192 | the least metal height whose area at MD width reaches the minimum metal area |
| Vias.GateViaInfo | templates_cds_ff_mpt/mos/base.py:168-201 | the gate stack is well formed; M1 and M3 are the least heights that both enclose their via and meet minimum area; M2 is the via plus both enclosures |
| Vias.DsViaInfo | templates_cds_ff_mpt/mos/base.py:204-266 | MD height is the larger of the OD height plus both extensions and the minimum MD height; `num_v0` is the largest V0 count that fits in the MD; M1 is at least the minimum-area, two-M2 and V0-array heights and equals one of them; M2 and M3 as for the gate |
| Vias.DsViaInfoAsWritten | templates_cds_ff_mpt/mos/base.py:223-224 | every call fails reading the key `fin_p`, which the table lacks |
| Vias.LemmaDsViaMonotone | templates_cds_ff_mpt/mos/base.py:235-252 | more fins never give a shorter MD, fewer V0 cuts or a shorter M1 |
| MosRow.RoundOdCentre | templates_cds_ff_mpt/mos/base.py:466-470 | the OD centre moves up by less than a fin pitch onto a multiple of the fin pitch for an even fin count, onto half a pitch past one for an odd count |
| MosRow.LemmaOdOnFinGrid | templates_cds_ff_mpt/mos/base.py:466-474 | with the parity rule both OD edges land on fin boundaries, the bottom half a fin below a fin centre line and the top half a fin above one |
| MosRow.GateM3 | templates_cds_ff_mpt/mos/base.py:488-493 | the corrected gate M3 has the M3 height and covers the gate M2 centre, where the V2 cut sits |
| MosRow.GateM3AsWritten | templates_cds_ff_mpt/mos/base.py:488-493 | the gate M3 as written has the M3 height and, once the two M2 edges sum to more than the M3 height, starts above the M2 centre |
| MosRow.LemmaGateM3Counterexample | templates_cds_ff_mpt/mos/base.py:488-493 | for a four-fin row the gate M2 is [73, 105]; the as-written M3 [100, 255] misses the cut at 89 and the corrected M3 [11, 166] covers it |
| MosRow.Geometry | templates_cds_ff_mpt/mos/base.py:455-493 | OD height from the fin count; the rounded OD centre is at least the unrounded one and obeys the parity rule; both OD edges on fin boundaries; the block top is the least fin-pitch multiple above the top CPO requirement; the gate-to-drain M1 space is exactly the minimum; MD, M1 and M2 heights come from the via stacks |
| MosRow.MosBlock | templates_cds_ff_mpt/mos/base.py:504-583 | every published value in terms of the row geometry: the OD, MD, M1 and MX margins are the distances from the OD, MD, M1 and M3 shapes to the block edges (the bottom MX margin from the corrected gate M3), and the two M1 margins plus the M1 stack make up the block height; one row with OD over all fingers, poly over the block and tap type ptap exactly for an nch row; one full-height rectangle per device layer in order; implant parameters over the whole block; live poly on every finger; gate, drain and source connections on their M3 (gate on the corrected gate M3) |
| MosRow.GetMosInfo | templates_cds_ff_mpt/mos/base.py:409-583 | succeeds exactly for channel length 18 and a recognised threshold; then equals `MosBlock` of the row geometry, so the OD, MD, M1 and MX margins are the row's (the bottom MX margin and the gate connection from the corrected gate M3), the OD leaves at least a CPO-to-OD space plus half a CPO to the block top, the S/D pitch is 90 and OD is drawn unless `ds_dummy` |
| MosRow.LemmaFourFinStack | templates_cds_ff_mpt/mos/base.py:235-252 | example: a four-fin drain/source stack has a 198-high MD, two V0 cuts and a 210-high M1 |
| MosRow.LemmaGateStackHeights | templates_cds_ff_mpt/mos/base.py:189-199 | example: the gate M1 and M3 are 155 high (minimum area) and the gate M2 is 32 high |
| Extension.MinExtW | templates_cds_ff_mpt/mos/base.py:630-635 | the least non-negative width, in fin pitches, that meets the line-end, MD-space and implant-width rules |
| Extension.MaxExtWNoOd | templates_cds_ff_mpt/mos/base.py:637-639 | the greatest width whose fin space between the two rows' ODs stays below one more than the maximum OD spacing: one more fin would reach it |
| Extension.LemmaNoDummyWidths | templates_cds_ff_mpt/mos/base.py:637-639 | a width is at most the no-dummy maximum exactly when the fin space between the two rows' ODs stays within the maximum OD spacing |
| Extension.OdYbMaxFin | templates_cds_ff_mpt/mos/base.py:648-654 | the lowest fin index whose OD bottom edge clears the bottom row's MD, the CPO and the implant |
| Extension.OdYtMinFin | templates_cds_ff_mpt/mos/base.py:656-662 | the highest fin index whose OD top edge clears the top row's MD, the CPO and the implant |
| Extension.MinExtWOd | templates_cds_ff_mpt/mos/base.py:664-671 | the least width that holds a minimum dummy OD between the clear edges, spaces two CPOs and gives the dummy MD its minimum height; it is positive |
| Extension.Range | templates_cds_ff_mpt/mos/base.py:678 | `list(range(lo, hi))`: consecutive integers from lo, empty when hi <= lo |
| Extension.ValidExtensionWidths | templates_cds_ff_mpt/mos/base.py:673-680 | exactly the minimum width when the no-dummy and dummy regimes meet; otherwise the widths from the minimum to the no-dummy maximum followed by the dummy minimum; never empty, strictly increasing, every width but the last below the dummy minimum less one |
| Extension.LemmaFinEdgesOnGrid | templates_cds_ff_mpt/mos/base.py:895-896 | an OD from a bottom fin index to a top fin index has both edges on fin boundaries |
| Extension.LemmaGridOdEven | templates_cds_ff_mpt/mos/base.py:897 | an OD on fin boundaries has an even height, so its centre is exact |
| Extension.CentredDummyOd | templates_cds_ff_mpt/mos/base.py:705-709 | the lone dummy leaves the same fin space above and below, lies on fin boundaries and has at least one fin more than the minimum |
| Extension.ClampDummyOd | templates_cds_ff_mpt/mos/base.py:712-718 | the clamped OD stays on fin boundaries with at least the minimum height and respects the upper bound; it respects the lower bound unless it shrank to the minimum; a legal OD is unchanged; a lower clamp with room lands on the first fin boundary above the bound |
| Extension.PlaceDummyMd | templates_cds_ff_mpt/mos/base.py:720-731 | whichever clamps fire the MD is at least the minimum MD height and respects the upper bound; it respects the lower bound unless at minimum height; with room it encloses the OD by the MD extension |
| Extension.ExtDummyLoc | templates_cds_ff_mpt/mos/base.py:683-733 | the dummy OD lands on fin boundaries with at least the minimum fins, below every upper bound (CPO, MD space, implant), and above every lower bound unless at its minimum; the MD is at least the minimum MD height, respects the MD space above, and encloses the OD when the OD clears the lower MD |
| Extension.ImplantOf | templates_cds_ff_mpt/mos/base.py:943-944 | a row takes the nch implant exactly when it is nch or ptap, otherwise pch |
| Extension.ImplantSplit | templates_cds_ff_mpt/mos/base.py:939-978 | the six implant cases: with equal implants and one transistor side, the tap side takes the middle; with equal kinds the threshold later in Python string order takes it, the top on a tie; two transistors with dummy OD share the device implant; with different implants a tap side adopts the transistor side's implant and threshold and the transistor takes the middle; with different implants and equal kinds the nch-implant side takes the middle, a transistor forced to its own implant |
| Extension.LemmaSplitOrientation | templates_cds_ff_mpt/mos/base.py:948-978 | swapping the two rows hands the middle to the same row, except when implant, device kind and threshold all agree |
| Lex.LemmaLexLeTotal | templates_cds_ff_mpt/mos/base.py:954 | Python's string `<=` compares any two thresholds, so the tie-break always decides |
| Lex.LemmaLexLeAntisymmetric | templates_cds_ff_mpt/mos/base.py:954 | two thresholds ordered both ways are equal |
| Lex.LemmaLexLeTransitive | templates_cds_ff_mpt/mos/base.py:954 | the threshold order is transitive |
| Extension.DummyFromFins | templates_cds_ff_mpt/mos/base.py:894-902 | a packed dummy's OD runs from its bottom fin's lower boundary to its top fin's upper boundary; its MD is centred on it, encloses it and is at least the minimum MD height |
| Extension.Mid | templates_cds_ff_mpt/mos/base.py:911 | the floor midpoint of two ordered coordinates lies between them |
| Extension.CpoCentres | templates_cds_ff_mpt/mos/base.py:904-926 | one CPO centre per dummy plus the top: the first at 0, the last at the block top, each between the two dummies it separates |
| Extension.CpoLays | templates_cds_ff_mpt/mos/base.py:918-925 | one CPO shape centred on every CPO centre |
| Extension.PoSpans | templates_cds_ff_mpt/mos/base.py:915-916 | the poly strips run between consecutive CPO centres and tile the block |
| Extension.ExtRowsNoOd | templates_cds_ff_mpt/mos/base.py:843-868 | without dummy OD a narrow extension gets one CPO in the middle and hands each half's poly to the neighbouring row; a wide one gets a CPO on each edge and one poly strip |
| Extension.FinDummies | templates_cds_ff_mpt/mos/base.py:889-902 | two or more packed dummies each lie on fin boundaries with an MD that encloses them |
| Extension.DummyLocs | templates_cds_ff_mpt/mos/base.py:876-902 | a lone dummy is placed between the neighbouring rows by the dummy clamp; several follow the packer's fin intervals |
| Extension.ExtRowsWithOd | templates_cds_ff_mpt/mos/base.py:870-936 | with dummies, a CPO sits on both block edges and between consecutive dummies, the poly strips tile the block, and the implant splits in the middle for an even count or around the middle dummy for an odd one |
| Extension.FillColumns | templates_cds_ff_mpt/mos/base.py:1002-1003 | one M1 fill column of M1 width centred on every finger boundary 0..fg |
| Extension.ImpYsep | templates_cds_ff_mpt/mos/base.py:981 | the implant boundary is the middle band's bottom when the top half takes the middle, and its top when the bottom half does |
| Extension.RowMtype | templates_cds_ff_mpt/mos/base.py:996 | a dummy row whose OD lies wholly below the implant boundary takes the bottom half's implant; one reaching the boundary takes the top half's |
| Extension.ExtRowInfos | templates_cds_ff_mpt/mos/base.py:993-999 | the rows zip the OD, poly and MD lists; each dummy takes the tap type of the implant half that covers it |
| Extension.ExtRowsFor | templates_cds_ff_mpt/mos/base.py:843-936 | the row lists of a non-empty extension: one empty row without dummies, otherwise one legal dummy per packed interval with poly strips tiling the block |
| Extension.LemmaExtRowInfos | templates_cds_ff_mpt/mos/base.py:993-999 | zipping row lists of that shape gives dummy rows of the extension's row shape |
| Extension.ExtBlockLayout | templates_cds_ff_mpt/mos/base.py:980-1025 | the extension block: dummy rows typed by their implant, the CPOs followed by the lower half's layers up to the split and the upper half's from it, the two implant parameters, and the M1 fill |
| Extension.NonEmptyExtInfo | templates_cds_ff_mpt/mos/base.py:820-1031 | a non-empty extension succeeds when both input thresholds parse, and fails exactly when a threshold the six-case split gives one of its halves does not parse; its two implant halves tile the block and carry the implant types and thresholds that the six-case implant split picks, its rows have the extension's row shape, and its fill follows the packer |
| Extension.GetExtInfo | templates_cds_ff_mpt/mos/base.py:736-1031 | fails for an unsupported channel length; for a non-zero width at a supported length, fails exactly when a threshold the six-case split gives one of the halves does not parse; width 0 draws only a CPO on the boundary; otherwise as for a non-empty extension, including the implant types and thresholds the six-case split gives the two halves; both edges are dummy edges |
| Extension.GetExtInfoAsWritten | templates_cds_ff_mpt/mos/base.py:781-784 | at channel length 18 every call fails reading `md_w` from the per-channel-length constants |
| Substrate.SubMdHeight | templates_cds_ff_mpt/mos/base.py:1078-1080 | the substrate MD is the larger of the minimum MD height and the OD plus the extension on both sides |
| Substrate.SubBottomFinYc | templates_cds_ff_mpt/mos/base.py:1082-1091 | the centre of the bottom fin is the lowest fin centre that leaves the MD space and the MD overhang above the bottom M0PO |
| Substrate.SubPitch | templates_cds_ff_mpt/mos/base.py:1096 | `lcm(blk_pitch, fin_pitch)`: a positive common multiple, and no smaller positive one exists |
| GridMath.Lcm | templates_cds_ff_mpt/mos/base.py:1096 | the least positive common multiple of two positive integers |
| Substrate.SubBlockHeight | templates_cds_ff_mpt/mos/base.py:1094-1097 | the block height is the least multiple of the quantum at or above the symmetric row's height |
| Substrate.LemmaSubBlockHeightLeast | templates_cds_ff_mpt/mos/base.py:1094-1098 | the block height is a multiple of both the block pitch and the fin pitch, and no positive common multiple that holds the row is smaller |
| Substrate.RecentredOd | templates_cds_ff_mpt/mos/base.py:1099-1101 | the re-centred OD keeps its height, its bottom lies on the fin grid and is the highest such position at or below the centring one |
| Substrate.CentreOn | templates_cds_ff_mpt/mos/base.py:1105-1106 | an interval of the given height centred on the OD whenever the parity allows |
| Substrate.SubGm1Delta | templates_cds_ff_mpt/mos/base.py:1110-1113 | twice the gate-via M1 reach past the M0PO centre is the V0 height plus both its M1 enclosures |
| Substrate.SubConnY | templates_cds_ff_mpt/mos/base.py:1108-1122 | the M1 connection is symmetric about the MD and reaches the gate-via M1 edge past the bottom M0PO |
| Substrate.SubstrateGeometry | templates_cds_ff_mpt/mos/base.py:1077-1122 | block height, re-centred OD, MD of the substrate MD height centred on the OD, and an M1 connection centred on the OD |
| Substrate.LemmaSubOdNearCentre | templates_cds_ff_mpt/mos/base.py:1097-1101 | the re-centred OD leaves less than two fin pitches more space above it than below |
| Substrate.SubstrateBlock | templates_cds_ff_mpt/mos/base.py:1124-1197 | one substrate row over the whole block; every layer spans the block; the published margins plus the OD, MD and M1 heights add up to the block height; poly types cover every finger; both edges are substrate edges |
| Substrate.GetSubstrateInfo | templates_cds_ff_mpt/mos/base.py:1045-1197 | succeeds exactly for channel length 18 and a recognised threshold; the row's OD lies on the fin grid with the fin count's height, the MD and the connection are centred on it, the poly spans the block |
| Substrate.GetSubstrateInfoAsWritten | templates_cds_ff_mpt/mos/base.py:1060 | every call fails reading the key `md_od_ext`, which the table lacks |
| Substrate.SubM1Y | templates_cds_ff_mpt/mos/base.py:1034-1042 | the substrate M1 is centred on the OD centre and one unit short of the via-stack M1 height at most |
| Substrate.EndCpo | templates_cds_ff_mpt/mos/base.py:1233-1234 | the end CPO has the end height and tops half a mid-array CPO above the array top |
| Substrate.EndFinBound | templates_cds_ff_mpt/mos/base.py:1235-1245 | the fin boundary is symmetric about the array top |
| Substrate.EndArrYt | templates_cds_ff_mpt/mos/base.py:1230-1243 | the array top is the least non-negative multiple of the quantum that puts the CPO and the fin boundary in the first quadrant |
| Substrate.EndLayers | templates_cds_ff_mpt/mos/base.py:1256-1263 | each layer's rectangle is kept exactly when it is not empty, and only those |
| Substrate.EndRowAt | templates_cds_ff_mpt/mos/base.py:1245-1263 | the end row draws the CPO first and every other shape in the first quadrant; it has a poly stub exactly when the poly above the CPO enclosure is not empty |
| Substrate.EndRow | templates_cds_ff_mpt/mos/base.py:1226-1263 | the end row's array top is a multiple of both the block pitch and the fin pitch |
| Substrate.GetAnalogEndInfo | templates_cds_ff_mpt/mos/base.py:1200-1299 | fails for an unsupported channel length, and for an unrecognised threshold only in an end row; a mid-array row draws one CPO on the boundary; an end row is the end row above |
| Substrate.LemmaNoEndCpoKey | templates_cds_ff_mpt/mos/base.py:1227 | the process table has no end CPO height |
| Substrate.GetAnalogEndInfoAsWritten | templates_cds_ff_mpt/mos/base.py:1226-1268 | at channel length 18 an end row fails reading `cpo_h_end` and a mid-array row fails reading `cpo_h` from the per-channel-length constants |
| Edge.GetEdgeTechConstants | templates_cds_ff_mpt/mos/base.py:269-289 | succeeds exactly for channel length 18; the guard-ring margin is the least finger count whose width covers the implant enclosure past the poly margin; the separation is one finger more |
| Edge.LemmaEdgeConstantsAt18 | templates_cds_ff_mpt/mos/base.py:277-287 | example: at channel length 18 the edge constants are 2, 3, 0, 1, 2 and 34 |
| Edge.EndShift | templates_cds_ff_mpt/mos/base.py:383-386 | the end shift is the least non-negative multiple of the routing pitch that makes room for the CPO extension |
| Edge.GetEdgeInfo | templates_cds_ff_mpt/mos/base.py:360-407 | fails for an unsupported channel length and exactly for a guard ring of one finger; the shift is a non-negative multiple of the pitch, 0 away from an end; at an end the CPO starts at or right of 0 and within one pitch when shifted; the edge width is the finger total times the S/D pitch plus the shift |
| Edge.LemmaNoEndShiftAt18 | templates_cds_ff_mpt/mos/base.py:378-388 | at channel length 18 no shift is needed and an end CPO starts at 2 |
| Edge.LemmaEdgeWidthGrows | templates_cds_ff_mpt/mos/base.py:394-400 | each extra guard-ring finger widens the edge by one S/D pitch |
| Edge.EdgePoTypes | templates_cds_ff_mpt/mos/base.py:1339-1342 | the poly types are all off but the last, which is on exactly when the neighbour edge exists and is a live (mos or sub) OD |
| Edge.SubImplantLays | templates_cds_ff_mpt/mos/base.py:1324-1328 | tap implants succeed exactly when every threshold parses; each shape is a layer of some implant half's tap type over that half, and every such layer is present |
| Edge.OuterLays | templates_cds_ff_mpt/mos/base.py:1315-1328 | without a guard ring or implant parameters every layer keeps its extent and moves to the CPO or edge x; otherwise the result holds exactly the moved CPOs and the tap implants: every CPO moved to the CPO x and every tap layer of every implant split is present, and nothing else |
| Edge.MoveLays | templates_cds_ff_mpt/mos/base.py:1317-1318 | every rectangle keeps its layer and heights; CPOs move to the CPO x, the rest to the edge x |
| Edge.CpoOnly | templates_cds_ff_mpt/mos/base.py:1322 | a rectangle is kept exactly when it is a CPO of the input |
| Edge.EdgeAdjs | templates_cds_ff_mpt/mos/base.py:1336-1344 | one adjacent-row record per pair of neighbour edge and row, each with its poly types set by the neighbour edge |
| Edge.GetOuterEdgeInfo | templates_cds_ff_mpt/mos/base.py:1302-1373 | succeeds exactly when the edge info does and the tap implants parse; ODs are cleared, layers moved, the left side is an empty edge, the right is the neighbour's; the poly types follow the neighbour edges; the fill column sits one S/D pitch past the edge, or is dropped without outer fingers |
| Edge.GrSubLays | templates_cds_ff_mpt/mos/base.py:1396-1410 | layers are kept without implant parameters; otherwise the result holds exactly the CPOs and the tap implants: every CPO and every tap layer of every implant split is present, and nothing else |
| Edge.GetGrSubInfo | templates_cds_ff_mpt/mos/base.py:1376-1437 | fails for an unsupported channel length or a guard ring below 2 fingers; six fingers; every row becomes a substrate row with one OD centred on the block; poly types on exactly for fingers 1 to 4; fill columns dropped |
| Edge.LemmaGrSubIgnoresWidth | templates_cds_ff_mpt/mos/base.py:1376-1437 | the guard-ring substrate block is the same for every legal guard-ring width |
| Edge.GetGrSepInfo | templates_cds_ff_mpt/mos/base.py:1440-1485 | fails exactly when a neighbour edge within the zipped range is absent; two fingers; ODs cleared, layers unchanged; the last poly type follows the neighbour; one fill column on the boundary |
| Draw.ResolveEdges | templates_cds_ff_mpt/mos/base.py:1590-1602 | a given edge is kept; a single finger borrows the other side's edge; otherwise a missing edge is the empty edge |
| Draw.OnOdMasks | templates_cds_ff_mpt/mos/base.py:1624-1635 | a poly is on OD exactly when the OD is not empty and some OD interval marks it (its own fingers or the one before); an MD exactly when some interval covers it |
| Draw.OdIntervals | templates_cds_ff_mpt/mos/base.py:1619-1628 | the loop over `od_x_list` yields the pairs of a list and raises on a bare pair, whose first element is an int |
| Draw.LemmaBareOdPairRaises | templates_cds_ff_mpt/mos/base.py:875 | the bare `(0, fg)` that `get_ext_info` stores for dummy OD raises in `draw_mos`, for every finger count |
| Draw.LemmaWholeRowOd | templates_cds_ff_mpt/mos/base.py:1619-1635 | the list `[(0, fg)]` yields its one interval and puts every poly and every MD of the row on OD |
| Draw.LemmaOdCoversMarkedPo | templates_cds_ff_mpt/mos/base.py:1630-1646 | a poly lies inside the OD rectangle exactly when the mask marks it |
| Draw.PoLive | templates_cds_ff_mpt/mos/base.py:1643-1657 | a poly on OD is live exactly when the row's OD is mos or sub; off OD the first poly follows the left edge, the last the right edge, and an inner poly is dummy |
| Draw.LemmaPoLiveCases | templates_cds_ff_mpt/mos/base.py:1647-1655 | an inner poly off OD is dummy; a poly on OD follows the row; the first poly off OD follows the left edge |
| Draw.LemmaSingleFingerFollowsNeighbour | templates_cds_ff_mpt/mos/base.py:1591-1600 | a single finger off OD with one neighbour takes that neighbour's purpose |
| Draw.MdMask | templates_cds_ff_mpt/mos/base.py:1661-1669 | an MD is drawn exactly when the MD is not empty, on OD, and inner or an end whose edge asks for it (never at the ends of a guard-ring substrate) |
| Draw.MdMaskAsWritten | templates_cds_ff_mpt/mos/base.py:1661-1665 | the as-written mask fails reading `draw_md` exactly when the MD is not empty, there is a finger and the block is not a guard-ring substrate; otherwise it equals the corrected mask |
| Draw.LemmaMdMaskAsWrittenRaises | templates_cds_ff_mpt/mos/base.py:1664 | a one-finger transistor row with a 68-high MD raises |
| Draw.FinAreaSpan | templates_cds_ff_mpt/mos/base.py:1673-1676 | FinArea rounds outward onto fin boundaries by less than a fin pitch on each side |
| Draw.LemmaFinAreaIdempotent | templates_cds_ff_mpt/mos/base.py:1673-1676 | rounding a rounded FinArea changes nothing |
| Draw.ViaRows | templates_cds_ff_mpt/mos/base.py:1853-1864 | the two via rows sit a V1 enclosure plus half a V1 inside the M1 ends |
| Draw.M3Slot | templates_cds_ff_mpt/mos/base.py:1874-1891 | even wire-pitch columns use the source row and direction, odd ones the other row and the drain direction |
| Draw.LemmaAdjacentSlotsAlternate | templates_cds_ff_mpt/mos/base.py:1874-1891 | adjacent wire-pitch columns always use opposite via rows |
| Draw.DsM3Span | templates_cds_ff_mpt/mos/base.py:1863-1900 | the M3 over a drain/source column has the M3 height and, on the via row its parity and direction pick, covers the V2 cut whenever it is at least a V2 plus two enclosures high |
| Draw.M3Span | templates_cds_ff_mpt/mos/base.py:1892-1900 | the M3 has the M3 height; going up or down it ends the enclosure past the cut, otherwise it is centred |
| Draw.LemmaM3CoversCut | templates_cds_ff_mpt/mos/base.py:1892-1900 | the M3 always covers the V2 cut, with exactly the enclosure at its end going up or down |
| SubTracks.HalfTracks | templates_cds_ff_mpt/mos/base.py:1761-1762 | a half-track is selected exactly when it is one past a doubled track index |
| SubTracks.AddIfFree | templates_cds_ff_mpt/mos/base.py:1765-1770 | adds at most the half-track itself, which afterwards is a port or blocked; it is a port exactly when it was one or no port sat two half-tracks away |
| SubTracks.LemmaAddKeepsIsolated | templates_cds_ff_mpt/mos/base.py:1765-1770 | adding an unblocked half-track keeps every pair of ports two apart among the requested ones |
| SubTracks.AddDummies | templates_cds_ff_mpt/mos/base.py:1763-1766 | adds only dummy half-tracks, keeps the added ports isolated, and leaves every dummy a port or blocked |
| SubTracks.AddEvenSlots | templates_cds_ff_mpt/mos/base.py:1767-1770 | adds only even half-tracks in [0, 2 fg], keeps the added ports isolated, and leaves every such slot a port or blocked |
| SubTracks.SelectPorts | templates_cds_ff_mpt/mos/base.py:1760-1770 | keeps every requested port, adds only dummy or even half-tracks, any two ports two apart were both requested, and no candidate left out could have been added |
| SubTracks.LemmaAddedHasNoNeighbour | templates_cds_ff_mpt/mos/base.py:1763-1770 | an added port has no port two half-tracks away |
| SortedSets.Sorted | templates_cds_ff_mpt/mos/base.py:1774-1775 | `sorted` of a set: the same elements, strictly increasing |
| SubTracks.SortedXs | templates_cds_ff_mpt/mos/base.py:1774-1775 | the x list of a half-track set is strictly increasing, as long as the set, and holds only multiples of the half pitch by members of the set |
| SubTracks.LemmaSortedXsMember | templates_cds_ff_mpt/mos/base.py:1774-1775 | every member of the set appears, times the half pitch, in its x list |
| SubTracks.SubstrateTrackXs | templates_cds_ff_mpt/mos/base.py:1745-1775 | dummy-only: one M1 per dummy track at its half-track x, no M3 and no port; otherwise it returns the port half-tracks, which keep every requested port, add only dummy or even half-tracks, are isolated and settled as in `SelectPorts`; the M3 list is exactly their sorted coordinates and the M1 list exactly those of the dummy half-tracks plus the ports |
| SubTracks.LemmaM1Tracks | templates_cds_ff_mpt/mos/base.py:1772-1775 | an M1 coordinate is a port coordinate or a dummy half-track coordinate |
| SubTracks.LemmaM1HasPorts | templates_cds_ff_mpt/mos/base.py:1772-1775 | every port (M3) coordinate is an M1 coordinate |
| SubTracks.LemmaM1HasDummies | templates_cds_ff_mpt/mos/base.py:1772-1775 | every dummy half-track coordinate is an M1 coordinate |
| SubTracks.LemmaM3Isolated | templates_cds_ff_mpt/mos/base.py:1763-1775 | two M3 coordinates one track apart are both coordinates of requested ports |
| SubTracks.LemmaM3Settled | templates_cds_ff_mpt/mos/base.py:1763-1775 | a candidate the selection left out has an M3 wire on it or one track away |
| GridMath.FloorDiv | templates_cds_ff_mpt/mos/base.py:1100 | Python floor division by a positive divisor: the greatest quotient whose multiple is at most the dividend |
| GridMath.CeilDiv | templates_cds_ff_mpt/mos/base.py:1097 | `-(-a // b)`: the least quotient whose multiple is at least the dividend |

## Left out

- Drawing: every canvas call is left out (`add_rect`, `add_via_primitive`, `add_wires`, `add_pin`, boundaries and bounding boxes). The model keeps only the values that feed them.
- Routing grid: `grid.get_block_size`, track lookup and `_to_warr` are library calls. The routing pitch is the parameter `vmPitch` and tracks are plain integers.
- `Edge.GetEdgeInfo`: requires `vmPitch > 0`. A routing block size is always positive, and the source's division needs it.
- `fill_symmetric_const_space`: its body belongs to a library. Every operation that needs it takes it as the function-typed parameter `fill`, and its contracts hold for any packer.
- `lcm`: comes from a library. `GridMath.Lcm` is a search over multiples that is proved to give the least positive common multiple.
- Floating point: `layout_unit`, `resolution` and the float branch of `get_mos_pitch` are left out.
- Other methods: the `MOSTech` base class and the constant getters are left out.
- `SubTracks.AddDummies`: the source walks a Python set in hash order. The model walks the dummy tracks in the caller's order. Every property is proved for any order, so the contract does not say which dummies win when two are two half-tracks apart.
- Track indices: a track `v` may be a half-integer, so tracks are given doubled (`2 v`). The half-track `int(2 v + 1)` is then the integer `2 v + 1` with no rounding.
- `SubTracks.SubstrateTrackXs`: requires `sdPitch >= 2` so that the half pitch is positive. The returned port half-tracks carry the selection properties; the coordinate lemmas (`LemmaM1Tracks`, `LemmaM3Isolated`, `LemmaM3Settled`) restate them on x.
- `draw_substrate_connection`: the M2 extents and the MP/M1 drawing are left out.
- `Draw.OnOdMasks`: requires the OD intervals to lie within the fingers. Outside them the source indexes past its lists or wraps at negative indices.
- `Draw.M3Span`: follows the source in taking the M3 enclosure at the ends from the V0/M1 enclosure list (`enc2`). The model states that as written and does not claim it as a defect.
- `Draw.DsM3Span`: its cover of the V2 cut is stated under a non-negative enclosure and an M3 at least a V2 plus two enclosures high, which the source does not check.
- `Extension.ExtRowsFor`: its contract states the shape of the row lists (`RowsReady`), not equality with `ExtRowsNoOd` or `ExtRowsWithOd`. The exact lists are the contracts of those two functions.
- `Extension.GetExtInfo`, `Extension.NonEmptyExtInfo`: state the halves' implant types and thresholds but not at which end of the middle band they divide. `Extension.ImpYsep` and `Extension.ExtBlockLayout` state that choice.
- `Edge.GetOuterEdgeInfo`, `Edge.GetGrSubInfo` and `Edge.GetGrSepInfo`: the source's dictionaries carry no `imp_params` key. The model's record gives them `None`.
- `GetSubstrateInfo`'s `mdOdExt` and `GetAnalogEndInfo`'s `cpoHEnd` are parameters. The table lacks both keys, and only the first has an evident intended value (`md_od_exty` = 20).

## Findings

| source | as written | input that shows it | evidently intended | confidence | as-written member | corrected member |
|---|---|---|---|---|---|---|
| templates_cds_ff_mpt/mos/base.py:224 | reads `tech_constants['fin_p']`; the table names the fin pitch `fin_pitch` | any call, e.g. channel length 18 with 4 fins | the fin pitch 48 | high; not executed | Vias.DsViaInfoAsWritten | Vias.DsViaInfo |
| templates_cds_ff_mpt/mos/base.py:491 | `g_m2_yc = (g_m2_yb + g_m2_yt)` is the sum of the M2 edges, not their midpoint | channel length 18, 4 fins: M2 [73, 105], M3 placed at [100, 255], above the V2 cut at 89 | `(g_m2_yb + g_m2_yt) // 2`, giving M3 [11, 166] | high; not executed | MosRow.GateM3AsWritten, MosRow.LemmaGateM3Counterexample | MosRow.GateM3 |
| templates_cds_ff_mpt/mos/base.py:784 | reads `mos_constants['md_w']`; the per-channel-length constants define `mos_conn_w` and friends but no `md_w` | channel length 18, any width | the process MD width `tech_constants['md_w']` (40), as the substrate and end rows read it | high; not executed | Extension.GetExtInfoAsWritten | Extension.GetExtInfo |
| templates_cds_ff_mpt/mos/base.py:1060 | reads `tech_constants['md_od_ext']`, which the table lacks | any call | the MD extension over OD, presumably `md_od_exty` (20); taken as the parameter `mdOdExt` | high; not executed | Substrate.GetSubstrateInfoAsWritten | Substrate.GetSubstrateInfo |
| templates_cds_ff_mpt/mos/base.py:1227 | reads `tech_constants['cpo_h_end']`, which the table lacks | channel length 18 with `is_end` set | an end-row CPO height, taken as the parameter `cpoHEnd` | high; not executed | Substrate.GetAnalogEndInfoAsWritten, Substrate.LemmaNoEndCpoKey | Substrate.GetAnalogEndInfo |
| templates_cds_ff_mpt/mos/base.py:1267 | reads `mos_constants['cpo_h']`, which the per-channel-length constants lack | channel length 18 with `is_end` clear | the process CPO height `tech_constants['cpo_h']` (60), as line 1217 reads it | high; not executed | Substrate.GetAnalogEndInfoAsWritten | Substrate.GetAnalogEndInfo |
| templates_cds_ff_mpt/mos/base.py:1664 | reads `left_blk_info.draw_md`; `EdgeInfo` has only `od_type` | a one-finger transistor row with MD [0, 68] on OD | a per-edge flag saying whether the edge MD is drawn, taken as the parameters `leftDrawMd`/`rightDrawMd` | high; not executed | Draw.MdMaskAsWritten, Draw.LemmaMdMaskAsWrittenRaises | Draw.MdMask |
| templates_cds_ff_mpt/mos/base.py:875 | stores `od_x_list = (0, fg)`, a bare pair, for an extension with dummy OD; `draw_mos` (line 1628) unpacks each element of it as a pair | any extension row with dummy OD: the loop unpacks the int 0 and raises a TypeError | the list `[(0, fg)]`, as every other block stores it | high; not executed | Draw.OdIntervals, Draw.LemmaBareOdPairRaises | Extension.ExtRowsWithOd, Draw.LemmaWholeRowOd |

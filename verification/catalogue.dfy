/** The static catalogue of lib/items.ts: the modified and awakened
    mercenaries by id, the legend-to-child id tables, the fifteen legendary
    mercenaries, the set of materials the market does not sell, and what
    the catalogue-wide material list comes to. Image paths are not
    modelled. */
module Catalogue {
  import opened Common
  import opened Items

  const AWAKENED_CLASS: string := "각성장수"
  const LEGEND_CLASS: string := "전설장수"

  /** The modified mercenaries by id: each needs twenty of one material
      that cannot be bought on the market. */
  const MODIFIED_MERCENARIES: map<int, ChildMercenary> := map[
    134 := ChildMercenary(134, "개량된 흑룡차", "水", "일본", [ItemRequirement("변이된 용의 보주", 20)], MODIFIED_CLASS),
    133 := ChildMercenary(133, "개량된 지진차", "火", "일본", [ItemRequirement("연발 총신", 20)], MODIFIED_CLASS),
    129 := ChildMercenary(129, "개량된 발석거", "水", "중국", [ItemRequirement("봉인부적", 20)], MODIFIED_CLASS),
    128 := ChildMercenary(128, "개량된 불랑기포", "火", "중국", [ItemRequirement("노획한 포탄", 20)], MODIFIED_CLASS),
    124 := ChildMercenary(124, "개량된 봉황비조", "火", "대만", [ItemRequirement("불타는깃털", 20)], MODIFIED_CLASS),
    123 := ChildMercenary(123, "개량된 화룡차", "火", "대만", [ItemRequirement("거대 화룡의 머리뼈", 20)], MODIFIED_CLASS),
    119 := ChildMercenary(119, "개량된 뇌전차", "雷", "조선", [ItemRequirement("진은조각", 20)], MODIFIED_CLASS),
    118 := ChildMercenary(118, "개량된 거북차", "火", "조선", [ItemRequirement("신기전의화살", 20)], MODIFIED_CLASS)
  ]

  /** The materials text every awakened mercenary is written with. */
  const AWAKENING_TEXT: string := "영웅의 영혼석 20개, 각성석 1개"

  /** What the awakening text reads as: twenty hero soul stones and one
      awakening stone. Every awakened mercenary parses the same text, so
      the table holds this list, and lemma AwakeningText shows that it is
      the parser's reading of the text. */
  const AWAKENING_MATERIALS: seq<ItemRequirement> :=
    [ItemRequirement("영웅의 영혼석", 20), ItemRequirement("각성석", 1)]

  /** An awakened mercenary. */
  function Awakened(id: int, name: string, attributesName: string, countryName: string): ChildMercenary {
    ChildMercenary(id, name, attributesName, countryName, AWAKENING_MATERIALS, AWAKENED_CLASS)
  }

  /** The awakened mercenaries by id. */
  const AWAKENED_MERCENARIES: map<int, ChildMercenary> := map[
    146 := Awakened(146, "각성 라시야", "水", "인도"),
    145 := Awakened(145, "각성 쿠베라마차", "水", "인도"),
    144 := Awakened(144, "각성 하누만", "風", "인도"),
    143 := Awakened(143, "각성 난다데비", "風", "인도"),
    142 := Awakened(142, "각성 슈크라", "火", "인도"),
    141 := Awakened(141, "각성 나라야나", "火", "인도"),
    140 := Awakened(140, "각성 아르주나", "風", "인도"),
    139 := Awakened(139, "각성 파쇄차", "風", "인도"),
    138 := Awakened(138, "각성 구흐야카", "雷", "인도"),
    137 := Awakened(137, "각성 아즈미", "雷", "일본"),
    136 := Awakened(136, "각성 세쓰노카미", "火", "일본"),
    135 := Awakened(135, "각성 도라노스케", "風", "일본"),
    132 := Awakened(132, "각성 가네샤", "水", "중국"),
    131 := Awakened(131, "각성 동방은아", "水", "중국"),
    130 := Awakened(130, "각성 오행기", "火", "중국"),
    127 := Awakened(127, "각성 뇌공", "雷", "대만"),
    126 := Awakened(126, "각성 유민", "風", "대만"),
    125 := Awakened(125, "각성 크라슈미", "風", "대만"),
    122 := Awakened(122, "각성 선무공신", "火", "조선"),
    121 := Awakened(121, "각성 서산대사", "雷", "조선"),
    120 := Awakened(120, "각성 시호충장", "雷", "조선")
  ]

  /** Which awakened mercenaries each legend needs, by legend id. */
  const LEGEND_TO_AWAKENED: map<int, seq<int>> := map[
    206 := [140, 138, 145, 142],
    160 := [127, 126, 122, 146],
    159 := [131, 139, 136, 137],
    158 := [130, 132, 127, 144],
    157 := [122, 140, 120],
    156 := [144, 146, 142, 143],
    155 := [137, 125],
    154 := [135, 136, 126],
    153 := [132, 131, 120],
    152 := [121],
    151 := [138, 145, 141, 139],
    150 := [130],
    149 := [121],
    148 := [125],
    147 := [135]
  ]

  /** Which modified mercenaries each legend needs, by legend id; legends
      without one have no entry. */
  const LEGEND_TO_MODIFIED: map<int, seq<int>> := map[
    157 := [134],
    155 := [123, 124],
    154 := [133],
    153 := [129],
    152 := [128, 119, 118],
    150 := [124, 119],
    149 := [134, 129],
    148 := [133, 118],
    147 := [128, 123]
  ]

  /** `ids.map(id => table[id]).filter(Boolean)`: the table's entries for the
      ids, in order, skipping ids the table lacks. */
  function LookupChildren(table: map<int, ChildMercenary>, ids: seq<int>): (r: seq<ChildMercenary>)
    ensures |r| <= |ids|
    ensures (forall i :: 0 <= i < |ids| ==> ids[i] in table) ==>
              |r| == |ids| && forall i :: 0 <= i < |ids| ==> r[i] == table[ids[i]]
  {
    if |ids| == 0 then []
    else (if ids[0] in table then [table[ids[0]]] else []) + LookupChildren(table, ids[1..])
  }

  /** Every child the lookup yields is the table's entry for one of the
      ids: the filter only ever drops. */
  lemma {:induction false} LookupChildrenFrom(table: map<int, ChildMercenary>, ids: seq<int>)
    ensures forall c :: c in LookupChildren(table, ids) ==>
              exists id :: id in ids && id in table && table[id] == c
    decreases |ids|
  {
    if |ids| > 0 {
      var rest := LookupChildren(table, ids[1..]);
      LookupChildrenFrom(table, ids[1..]);
      forall c | c in LookupChildren(table, ids)
        ensures exists id :: id in ids && id in table && table[id] == c
      {
        if c in rest {
          var id :| id in ids[1..] && id in table && table[id] == c;
          assert id in ids;
        } else {
          var w := ids[0];
          assert w in ids && w in table && table[w] == c;
        }
      }
    }
  }

  /** One legendary mercenary as the catalogue writes it: its materials
      text as the list of its ", "-separated pieces, the ids of the
      awakened mercenaries it needs, and the ids of the modified ones when
      it needs any. */
  datatype LegendRow = LegendRow(
    id: int,
    name: string,
    attributesName: string,
    countryName: string,
    materials: seq<string>,
    awakened: seq<int>,
    modified: Option<seq<int>>)

  /** The legendary mercenary a row describes: the materials are the parsed
      text (`Join` puts the pieces back together), the children are the
      looked-up awakened mercenaries followed by the looked-up modified
      ones. */
  function Legend(row: LegendRow): Mercenary {
    var awakened := LookupChildren(AWAKENED_MERCENARIES, row.awakened);
    var children := match row.modified
      case None => awakened
      case Some(ids) => awakened + LookupChildren(MODIFIED_MERCENARIES, ids);
    Mercenary(row.id, row.name, row.attributesName, row.countryName,
              ParseCraftingMaterials(Join(row.materials)), LEGEND_CLASS, children)
  }

  /** The legendary mercenaries' rows, in display order. */
  const LEGEND_ROWS: seq<LegendRow> := [
    LegendRow(206, "레지나 술타나", "地", "인도",
              ["땅의속성석 30개", "정기의구슬(地) 20개", "땅의정령석 30개", "영웅의 영혼석 150개", "영혼이 봉인된 호리병 4개"],
              [140, 138, 145, 142], None),
    LegendRow(160, "선인 만선야", "雷", "대만",
              ["뇌전의속성석 40개", "정기의구슬(雷) 25개", "뇌전의정령석 40개", "영웅의 영혼석 150개", "영혼이 봉인된 호리병 4개"],
              [127, 126, 122, 146], None),
    LegendRow(159, "모치즈키 치요메", "水", "일본",
              ["물의속성석 40개", "정기의구슬(水) 25개", "물의정령석 40개", "영웅의 영혼석 150개", "영혼이 봉인된 호리병 4개"],
              [131, 139, 136, 137], None),
    LegendRow(158, "봉선 여포", "火", "중국",
              ["불의속성석 40개", "정기의구슬(火) 25개", "불의정령석 40개", "영웅의 영혼석 150개", "영혼이 봉인된 호리병 4개"],
              [130, 132, 127, 144], None),
    LegendRow(157, "도사 홍길동", "風", "조선",
              ["바람의속성석 40개", "정기의구슬(風) 25개", "바람의정령석 40개", "영웅의 영혼석 150개", "영혼이 봉인된 호리병 4개"],
              [122, 140, 120], Some([134])),
    LegendRow(156, "악바르 대제", "地", "인도",
              ["땅의속성석 30개", "정기의구슬(地) 20개", "땅의정령석 20개", "영웅의 영혼석 150개", "영혼이 봉인된 호리병 4개"],
              [144, 146, 142, 143], None),
    LegendRow(155, "해신 마조", "水", "대만",
              ["물의속성석 40개", "정기의구슬(水) 25개", "물의정령석 40개", "영웅의 영혼석 150개", "영혼이 봉인된 호리병 4개"],
              [137, 125], Some([123, 124])),
    LegendRow(154, "검성 보쿠텐", "風", "일본",
              ["바람의속성석 40개", "정기의구슬(風) 25개", "바람의정령석 40개", "영웅의 영혼석 150개", "영혼이 봉인된 호리병 4개"],
              [135, 136, 126], Some([133])),
    LegendRow(153, "여걸 화목란", "雷", "중국",
              ["뇌전의속성석 40개", "정기의구슬(雷) 25개", "뇌전의정령석 40개", "영웅의 영혼석 150개", "영혼이 봉인된 호리병 4개"],
              [132, 131, 120], Some([129])),
    LegendRow(152, "도령 최무선", "火", "조선",
              ["불의속성석 40개", "정기의구슬(火) 25개", "불의정령석 40개", "영웅의 영혼석 150개", "영혼이 봉인된 호리병 4개"],
              [121], Some([128, 119, 118])),
    LegendRow(151, "재상 바지라오", "地", "인도",
              ["땅의속성석 15개", "정기의구슬(地) 15개", "땅의정령석 15개", "영웅의 영혼석 100개", "영혼이 봉인된 호리병 4개"],
              [138, 145, 141, 139], None),
    LegendRow(150, "군신 노부츠나", "火", "일본",
              ["불의속성석 20개", "정기의구슬(火) 20개", "불의정령석 20개", "영웅의 영혼석 100개", "영혼이 봉인된 호리병 4개"],
              [130], Some([124, 119])),
    LegendRow(149, "야왕 맹획", "風", "대만",
              ["바람의속성석 20개", "바람의정령석 20개", "정기의구슬(風) 20개", "영웅의 영혼석 100개", "영혼이 봉인된 호리병 4개"],
              [121], Some([134, 129])),
    LegendRow(148, "무희 초선", "水", "중국",
              ["물의속성석 20개", "정기의구슬(水) 20개", "물의정령석 20개", "영웅의 영혼석 100개", "영혼이 봉인된 호리병 4개"],
              [125], Some([133, 118])),
    LegendRow(147, "신궁 주몽", "雷", "조선",
              ["뇌전의속성석 20개", "정기의구슬(雷) 20개", "뇌전의정령석 20개", "영웅의 영혼석 100개", "영혼이 봉인된 호리병 4개"],
              [135], Some([128, 123]))
  ]

  /** The legendary mercenaries, in display order. */
  const MERCENARIES: seq<Mercenary> :=
    seq(|LEGEND_ROWS|, k requires 0 <= k < |LEGEND_ROWS| => Legend(LEGEND_ROWS[k]))

  /** The materials of the modified mercenaries, which the market does not
      sell and whose prices are never looked up. */
  const MODIFIED_MERCENARY_ITEMS: set<string> := {
    "변이된 용의 보주", "연발 총신", "봉인부적", "노획한 포탄", "불타는깃털", "거대 화룡의 머리뼈", "진은조각", "신기전의화살"
  }

  /** `isModifiedMercenaryItem`. */
  predicate IsModifiedMercenaryItem(itemName: string) {
    itemName in MODIFIED_MERCENARY_ITEMS
  }

  // ---------------------------------------------------------------------
  // How the catalogue's materials texts read
  // ---------------------------------------------------------------------

  /** The decimal numerals the catalogue's texts use. */
  lemma Numerals()
    ensures NatToDigits(1) == "1" && NatToDigits(4) == "4" && NatToDigits(15) == "15"
    ensures NatToDigits(20) == "20" && NatToDigits(25) == "25" && NatToDigits(30) == "30"
    ensures NatToDigits(40) == "40" && NatToDigits(100) == "100" && NatToDigits(150) == "150"
  {
    assert NatToDigits(10) == "10";
    assert NatToDigits(15) == "15";
  }

  /** Each piece of the catalogue's texts is a name, a space, a numeral and
      the counter word. */
  lemma PieceShapes()
    ensures "각성석 1개" == "각성석" + " " + "1" + [UNIT]
    ensures "뇌전의속성석 20개" == "뇌전의속성석" + " " + "20" + [UNIT]
    ensures "뇌전의속성석 40개" == "뇌전의속성석" + " " + "40" + [UNIT]
    ensures "뇌전의정령석 20개" == "뇌전의정령석" + " " + "20" + [UNIT]
    ensures "뇌전의정령석 40개" == "뇌전의정령석" + " " + "40" + [UNIT]
    ensures "땅의속성석 15개" == "땅의속성석" + " " + "15" + [UNIT]
    ensures "땅의속성석 30개" == "땅의속성석" + " " + "30" + [UNIT]
    ensures "땅의정령석 15개" == "땅의정령석" + " " + "15" + [UNIT]
    ensures "땅의정령석 20개" == "땅의정령석" + " " + "20" + [UNIT]
    ensures "땅의정령석 30개" == "땅의정령석" + " " + "30" + [UNIT]
    ensures "물의속성석 20개" == "물의속성석" + " " + "20" + [UNIT]
    ensures "물의속성석 40개" == "물의속성석" + " " + "40" + [UNIT]
    ensures "물의정령석 20개" == "물의정령석" + " " + "20" + [UNIT]
    ensures "물의정령석 40개" == "물의정령석" + " " + "40" + [UNIT]
    ensures "바람의속성석 20개" == "바람의속성석" + " " + "20" + [UNIT]
    ensures "바람의속성석 40개" == "바람의속성석" + " " + "40" + [UNIT]
    ensures "바람의정령석 20개" == "바람의정령석" + " " + "20" + [UNIT]
    ensures "바람의정령석 40개" == "바람의정령석" + " " + "40" + [UNIT]
    ensures "불의속성석 20개" == "불의속성석" + " " + "20" + [UNIT]
    ensures "불의속성석 40개" == "불의속성석" + " " + "40" + [UNIT]
    ensures "불의정령석 20개" == "불의정령석" + " " + "20" + [UNIT]
    ensures "불의정령석 40개" == "불의정령석" + " " + "40" + [UNIT]
    ensures "영웅의 영혼석 100개" == "영웅의 영혼석" + " " + "100" + [UNIT]
    ensures "영웅의 영혼석 150개" == "영웅의 영혼석" + " " + "150" + [UNIT]
    ensures "영웅의 영혼석 20개" == "영웅의 영혼석" + " " + "20" + [UNIT]
    ensures "영혼이 봉인된 호리병 4개" == "영혼이 봉인된 호리병" + " " + "4" + [UNIT]
    ensures "정기의구슬(地) 15개" == "정기의구슬(地)" + " " + "15" + [UNIT]
    ensures "정기의구슬(地) 20개" == "정기의구슬(地)" + " " + "20" + [UNIT]
    ensures "정기의구슬(水) 20개" == "정기의구슬(水)" + " " + "20" + [UNIT]
    ensures "정기의구슬(水) 25개" == "정기의구슬(水)" + " " + "25" + [UNIT]
    ensures "정기의구슬(火) 20개" == "정기의구슬(火)" + " " + "20" + [UNIT]
    ensures "정기의구슬(火) 25개" == "정기의구슬(火)" + " " + "25" + [UNIT]
    ensures "정기의구슬(雷) 20개" == "정기의구슬(雷)" + " " + "20" + [UNIT]
    ensures "정기의구슬(雷) 25개" == "정기의구슬(雷)" + " " + "25" + [UNIT]
    ensures "정기의구슬(風) 20개" == "정기의구슬(風)" + " " + "20" + [UNIT]
    ensures "정기의구슬(風) 25개" == "정기의구슬(風)" + " " + "25" + [UNIT]
  {
    SoulPieceShapes();
    AttributeStonePieceShapes();
    SpiritStonePieceShapes();
    OrbPieceShapes();
  }

  /** The awakening and transcendence materials' pieces. */
  lemma SoulPieceShapes()
    ensures "각성석 1개" == "각성석" + " " + "1" + [UNIT]
    ensures "영웅의 영혼석 100개" == "영웅의 영혼석" + " " + "100" + [UNIT]
    ensures "영웅의 영혼석 150개" == "영웅의 영혼석" + " " + "150" + [UNIT]
    ensures "영웅의 영혼석 20개" == "영웅의 영혼석" + " " + "20" + [UNIT]
    ensures "영혼이 봉인된 호리병 4개" == "영혼이 봉인된 호리병" + " " + "4" + [UNIT]
  {
  }

  /** The attribute stones' pieces. */
  lemma AttributeStonePieceShapes()
    ensures "뇌전의속성석 20개" == "뇌전의속성석" + " " + "20" + [UNIT]
    ensures "뇌전의속성석 40개" == "뇌전의속성석" + " " + "40" + [UNIT]
    ensures "땅의속성석 15개" == "땅의속성석" + " " + "15" + [UNIT]
    ensures "땅의속성석 30개" == "땅의속성석" + " " + "30" + [UNIT]
    ensures "물의속성석 20개" == "물의속성석" + " " + "20" + [UNIT]
    ensures "물의속성석 40개" == "물의속성석" + " " + "40" + [UNIT]
    ensures "바람의속성석 20개" == "바람의속성석" + " " + "20" + [UNIT]
    ensures "바람의속성석 40개" == "바람의속성석" + " " + "40" + [UNIT]
    ensures "불의속성석 20개" == "불의속성석" + " " + "20" + [UNIT]
    ensures "불의속성석 40개" == "불의속성석" + " " + "40" + [UNIT]
  {
  }

  /** The spirit stones' pieces. */
  lemma SpiritStonePieceShapes()
    ensures "뇌전의정령석 20개" == "뇌전의정령석" + " " + "20" + [UNIT]
    ensures "뇌전의정령석 40개" == "뇌전의정령석" + " " + "40" + [UNIT]
    ensures "땅의정령석 15개" == "땅의정령석" + " " + "15" + [UNIT]
    ensures "땅의정령석 20개" == "땅의정령석" + " " + "20" + [UNIT]
    ensures "땅의정령석 30개" == "땅의정령석" + " " + "30" + [UNIT]
    ensures "물의정령석 20개" == "물의정령석" + " " + "20" + [UNIT]
    ensures "물의정령석 40개" == "물의정령석" + " " + "40" + [UNIT]
    ensures "바람의정령석 20개" == "바람의정령석" + " " + "20" + [UNIT]
    ensures "바람의정령석 40개" == "바람의정령석" + " " + "40" + [UNIT]
    ensures "불의정령석 20개" == "불의정령석" + " " + "20" + [UNIT]
    ensures "불의정령석 40개" == "불의정령석" + " " + "40" + [UNIT]
  {
  }

  /** The essence orbs' pieces. */
  lemma OrbPieceShapes()
    ensures "정기의구슬(地) 15개" == "정기의구슬(地)" + " " + "15" + [UNIT]
    ensures "정기의구슬(地) 20개" == "정기의구슬(地)" + " " + "20" + [UNIT]
    ensures "정기의구슬(水) 20개" == "정기의구슬(水)" + " " + "20" + [UNIT]
    ensures "정기의구슬(水) 25개" == "정기의구슬(水)" + " " + "25" + [UNIT]
    ensures "정기의구슬(火) 20개" == "정기의구슬(火)" + " " + "20" + [UNIT]
    ensures "정기의구슬(火) 25개" == "정기의구슬(火)" + " " + "25" + [UNIT]
    ensures "정기의구슬(雷) 20개" == "정기의구슬(雷)" + " " + "20" + [UNIT]
    ensures "정기의구슬(雷) 25개" == "정기의구슬(雷)" + " " + "25" + [UNIT]
    ensures "정기의구슬(風) 20개" == "정기의구슬(風)" + " " + "20" + [UNIT]
    ensures "정기의구슬(風) 25개" == "정기의구슬(風)" + " " + "25" + [UNIT]
  {
  }

  /** The earth-attribute material names read back unchanged. */
  lemma EarthNamesWellFormed()
    ensures WellFormedName("땅의속성석") && WellFormedName("정기의구슬(地)") && WellFormedName("땅의정령석")
  {
  }

  /** The water-attribute material names read back unchanged. */
  lemma WaterNamesWellFormed()
    ensures WellFormedName("물의속성석") && WellFormedName("정기의구슬(水)") && WellFormedName("물의정령석")
  {
  }

  /** The fire-attribute material names read back unchanged. */
  lemma FireNamesWellFormed()
    ensures WellFormedName("불의속성석") && WellFormedName("정기의구슬(火)") && WellFormedName("불의정령석")
  {
  }

  /** The wind-attribute material names read back unchanged. */
  lemma WindNamesWellFormed()
    ensures WellFormedName("바람의속성석") && WellFormedName("정기의구슬(風)") && WellFormedName("바람의정령석")
  {
  }

  /** The thunder-attribute material names read back unchanged. */
  lemma ThunderNamesWellFormed()
    ensures WellFormedName("뇌전의속성석") && WellFormedName("정기의구슬(雷)") && WellFormedName("뇌전의정령석")
  {
  }

  /** The material names every attribute shares read back unchanged. */
  lemma CommonNamesWellFormed()
    ensures WellFormedName("영웅의 영혼석") && WellFormedName("영혼이 봉인된 호리병") && WellFormedName("각성석")
  {
  }

  /** A piece written `name N개` reads as N of `name`. */
  lemma PieceReads(name: string, quantity: nat, piece: string)
    requires WellFormedName(name)
    requires piece == name + " " + NatToDigits(quantity) + [UNIT]
    ensures ParsePiece(piece) == ItemRequirement(name, quantity)
  {
    ParseRenderedPiece(ItemRequirement(name, quantity));
  }

  /** Five pieces read one by one. */
  lemma ReadsFive(p0: string, p1: string, p2: string, p3: string, p4: string,
                  r0: ItemRequirement, r1: ItemRequirement, r2: ItemRequirement,
                  r3: ItemRequirement, r4: ItemRequirement)
    requires ParsePiece(p0) == r0 && ParsePiece(p1) == r1 && ParsePiece(p2) == r2
    requires ParsePiece(p3) == r3 && ParsePiece(p4) == r4
    ensures ParsePieces([p0, p1, p2, p3, p4]) == [r0, r1, r2, r3, r4]
  {
  }

  /** A legend's materials are its row's text, parsed. */
  lemma MercenaryItems(k: nat)
    requires k < |LEGEND_ROWS|
    ensures |MERCENARIES| == |LEGEND_ROWS|
    ensures MERCENARIES[k].id == LEGEND_ROWS[k].id
    ensures MERCENARIES[k].items == ParseCraftingMaterials(Join(LEGEND_ROWS[k].materials))
  {
  }

  lemma AwakeningPieces()
    ensures ParsePiece("영웅의 영혼석 20개") == AWAKENING_MATERIALS[0]
    ensures ParsePiece("각성석 1개") == AWAKENING_MATERIALS[1]
  {
    Numerals();
    PieceShapes();
    CommonNamesWellFormed();
    PieceReads("영웅의 영혼석", 20, "영웅의 영혼석 20개");
    PieceReads("각성석", 1, "각성석 1개");
  }

  /** The awakening text reads as the awakening materials. */
  lemma AwakeningText()
    ensures ParseCraftingMaterials(AWAKENING_TEXT) == AWAKENING_MATERIALS
  {
    var pieces := ["영웅의 영혼석 20개", "각성석 1개"];
    assert Join(pieces) == AWAKENING_TEXT;
    ParseJoined(pieces);
    AwakeningPieces();
  }

  lemma Pieces206()
    ensures ParsePiece("땅의속성석 30개") == ItemRequirement("땅의속성석", 30)
    ensures ParsePiece("정기의구슬(地) 20개") == ItemRequirement("정기의구슬(地)", 20)
    ensures ParsePiece("땅의정령석 30개") == ItemRequirement("땅의정령석", 30)
    ensures ParsePiece("영웅의 영혼석 150개") == ItemRequirement("영웅의 영혼석", 150)
    ensures ParsePiece("영혼이 봉인된 호리병 4개") == ItemRequirement("영혼이 봉인된 호리병", 4)
  {
    Numerals();
    PieceShapes();
    EarthNamesWellFormed();
    CommonNamesWellFormed();
    PieceReads("땅의속성석", 30, "땅의속성석 30개");
    PieceReads("정기의구슬(地)", 20, "정기의구슬(地) 20개");
    PieceReads("땅의정령석", 30, "땅의정령석 30개");
    PieceReads("영웅의 영혼석", 150, "영웅의 영혼석 150개");
    PieceReads("영혼이 봉인된 호리병", 4, "영혼이 봉인된 호리병 4개");
  }

  lemma Text206()
    ensures ParseCraftingMaterials(Join(["땅의속성석 30개", "정기의구슬(地) 20개", "땅의정령석 30개", "영웅의 영혼석 150개", "영혼이 봉인된 호리병 4개"])) == [
      ItemRequirement("땅의속성석", 30),
      ItemRequirement("정기의구슬(地)", 20),
      ItemRequirement("땅의정령석", 30),
      ItemRequirement("영웅의 영혼석", 150),
      ItemRequirement("영혼이 봉인된 호리병", 4)]
  {
    ParseJoined(["땅의속성석 30개", "정기의구슬(地) 20개", "땅의정령석 30개", "영웅의 영혼석 150개", "영혼이 봉인된 호리병 4개"]);
    Pieces206();
    ReadsFive("땅의속성석 30개", "정기의구슬(地) 20개", "땅의정령석 30개", "영웅의 영혼석 150개", "영혼이 봉인된 호리병 4개",
      ItemRequirement("땅의속성석", 30), ItemRequirement("정기의구슬(地)", 20), ItemRequirement("땅의정령석", 30), ItemRequirement("영웅의 영혼석", 150), ItemRequirement("영혼이 봉인된 호리병", 4));
  }

  /** The materials text of 레지나 술타나 (id 206) reads as intended. */
  lemma Legend206()
    ensures MERCENARIES[0].id == 206
    ensures MERCENARIES[0].items == [
      ItemRequirement("땅의속성석", 30),
      ItemRequirement("정기의구슬(地)", 20),
      ItemRequirement("땅의정령석", 30),
      ItemRequirement("영웅의 영혼석", 150),
      ItemRequirement("영혼이 봉인된 호리병", 4)]
  {
    assert LEGEND_ROWS[0].materials == ["땅의속성석 30개", "정기의구슬(地) 20개", "땅의정령석 30개", "영웅의 영혼석 150개", "영혼이 봉인된 호리병 4개"];
    MercenaryItems(0);
    Text206();
  }

  lemma Pieces160()
    ensures ParsePiece("뇌전의속성석 40개") == ItemRequirement("뇌전의속성석", 40)
    ensures ParsePiece("정기의구슬(雷) 25개") == ItemRequirement("정기의구슬(雷)", 25)
    ensures ParsePiece("뇌전의정령석 40개") == ItemRequirement("뇌전의정령석", 40)
    ensures ParsePiece("영웅의 영혼석 150개") == ItemRequirement("영웅의 영혼석", 150)
    ensures ParsePiece("영혼이 봉인된 호리병 4개") == ItemRequirement("영혼이 봉인된 호리병", 4)
  {
    Numerals();
    PieceShapes();
    ThunderNamesWellFormed();
    CommonNamesWellFormed();
    PieceReads("뇌전의속성석", 40, "뇌전의속성석 40개");
    PieceReads("정기의구슬(雷)", 25, "정기의구슬(雷) 25개");
    PieceReads("뇌전의정령석", 40, "뇌전의정령석 40개");
    PieceReads("영웅의 영혼석", 150, "영웅의 영혼석 150개");
    PieceReads("영혼이 봉인된 호리병", 4, "영혼이 봉인된 호리병 4개");
  }

  lemma Text160()
    ensures ParseCraftingMaterials(Join(["뇌전의속성석 40개", "정기의구슬(雷) 25개", "뇌전의정령석 40개", "영웅의 영혼석 150개", "영혼이 봉인된 호리병 4개"])) == [
      ItemRequirement("뇌전의속성석", 40),
      ItemRequirement("정기의구슬(雷)", 25),
      ItemRequirement("뇌전의정령석", 40),
      ItemRequirement("영웅의 영혼석", 150),
      ItemRequirement("영혼이 봉인된 호리병", 4)]
  {
    ParseJoined(["뇌전의속성석 40개", "정기의구슬(雷) 25개", "뇌전의정령석 40개", "영웅의 영혼석 150개", "영혼이 봉인된 호리병 4개"]);
    Pieces160();
    ReadsFive("뇌전의속성석 40개", "정기의구슬(雷) 25개", "뇌전의정령석 40개", "영웅의 영혼석 150개", "영혼이 봉인된 호리병 4개",
      ItemRequirement("뇌전의속성석", 40), ItemRequirement("정기의구슬(雷)", 25), ItemRequirement("뇌전의정령석", 40), ItemRequirement("영웅의 영혼석", 150), ItemRequirement("영혼이 봉인된 호리병", 4));
  }

  /** The materials text of 선인 만선야 (id 160) reads as intended. */
  lemma Legend160()
    ensures MERCENARIES[1].id == 160
    ensures MERCENARIES[1].items == [
      ItemRequirement("뇌전의속성석", 40),
      ItemRequirement("정기의구슬(雷)", 25),
      ItemRequirement("뇌전의정령석", 40),
      ItemRequirement("영웅의 영혼석", 150),
      ItemRequirement("영혼이 봉인된 호리병", 4)]
  {
    assert LEGEND_ROWS[1].materials == ["뇌전의속성석 40개", "정기의구슬(雷) 25개", "뇌전의정령석 40개", "영웅의 영혼석 150개", "영혼이 봉인된 호리병 4개"];
    MercenaryItems(1);
    Text160();
  }

  lemma Pieces159()
    ensures ParsePiece("물의속성석 40개") == ItemRequirement("물의속성석", 40)
    ensures ParsePiece("정기의구슬(水) 25개") == ItemRequirement("정기의구슬(水)", 25)
    ensures ParsePiece("물의정령석 40개") == ItemRequirement("물의정령석", 40)
    ensures ParsePiece("영웅의 영혼석 150개") == ItemRequirement("영웅의 영혼석", 150)
    ensures ParsePiece("영혼이 봉인된 호리병 4개") == ItemRequirement("영혼이 봉인된 호리병", 4)
  {
    Numerals();
    PieceShapes();
    WaterNamesWellFormed();
    CommonNamesWellFormed();
    PieceReads("물의속성석", 40, "물의속성석 40개");
    PieceReads("정기의구슬(水)", 25, "정기의구슬(水) 25개");
    PieceReads("물의정령석", 40, "물의정령석 40개");
    PieceReads("영웅의 영혼석", 150, "영웅의 영혼석 150개");
    PieceReads("영혼이 봉인된 호리병", 4, "영혼이 봉인된 호리병 4개");
  }

  lemma Text159()
    ensures ParseCraftingMaterials(Join(["물의속성석 40개", "정기의구슬(水) 25개", "물의정령석 40개", "영웅의 영혼석 150개", "영혼이 봉인된 호리병 4개"])) == [
      ItemRequirement("물의속성석", 40),
      ItemRequirement("정기의구슬(水)", 25),
      ItemRequirement("물의정령석", 40),
      ItemRequirement("영웅의 영혼석", 150),
      ItemRequirement("영혼이 봉인된 호리병", 4)]
  {
    ParseJoined(["물의속성석 40개", "정기의구슬(水) 25개", "물의정령석 40개", "영웅의 영혼석 150개", "영혼이 봉인된 호리병 4개"]);
    Pieces159();
    ReadsFive("물의속성석 40개", "정기의구슬(水) 25개", "물의정령석 40개", "영웅의 영혼석 150개", "영혼이 봉인된 호리병 4개",
      ItemRequirement("물의속성석", 40), ItemRequirement("정기의구슬(水)", 25), ItemRequirement("물의정령석", 40), ItemRequirement("영웅의 영혼석", 150), ItemRequirement("영혼이 봉인된 호리병", 4));
  }

  /** The materials text of 모치즈키 치요메 (id 159) reads as intended. */
  lemma Legend159()
    ensures MERCENARIES[2].id == 159
    ensures MERCENARIES[2].items == [
      ItemRequirement("물의속성석", 40),
      ItemRequirement("정기의구슬(水)", 25),
      ItemRequirement("물의정령석", 40),
      ItemRequirement("영웅의 영혼석", 150),
      ItemRequirement("영혼이 봉인된 호리병", 4)]
  {
    assert LEGEND_ROWS[2].materials == ["물의속성석 40개", "정기의구슬(水) 25개", "물의정령석 40개", "영웅의 영혼석 150개", "영혼이 봉인된 호리병 4개"];
    MercenaryItems(2);
    Text159();
  }

  lemma Pieces158()
    ensures ParsePiece("불의속성석 40개") == ItemRequirement("불의속성석", 40)
    ensures ParsePiece("정기의구슬(火) 25개") == ItemRequirement("정기의구슬(火)", 25)
    ensures ParsePiece("불의정령석 40개") == ItemRequirement("불의정령석", 40)
    ensures ParsePiece("영웅의 영혼석 150개") == ItemRequirement("영웅의 영혼석", 150)
    ensures ParsePiece("영혼이 봉인된 호리병 4개") == ItemRequirement("영혼이 봉인된 호리병", 4)
  {
    Numerals();
    PieceShapes();
    FireNamesWellFormed();
    CommonNamesWellFormed();
    PieceReads("불의속성석", 40, "불의속성석 40개");
    PieceReads("정기의구슬(火)", 25, "정기의구슬(火) 25개");
    PieceReads("불의정령석", 40, "불의정령석 40개");
    PieceReads("영웅의 영혼석", 150, "영웅의 영혼석 150개");
    PieceReads("영혼이 봉인된 호리병", 4, "영혼이 봉인된 호리병 4개");
  }

  lemma Text158()
    ensures ParseCraftingMaterials(Join(["불의속성석 40개", "정기의구슬(火) 25개", "불의정령석 40개", "영웅의 영혼석 150개", "영혼이 봉인된 호리병 4개"])) == [
      ItemRequirement("불의속성석", 40),
      ItemRequirement("정기의구슬(火)", 25),
      ItemRequirement("불의정령석", 40),
      ItemRequirement("영웅의 영혼석", 150),
      ItemRequirement("영혼이 봉인된 호리병", 4)]
  {
    ParseJoined(["불의속성석 40개", "정기의구슬(火) 25개", "불의정령석 40개", "영웅의 영혼석 150개", "영혼이 봉인된 호리병 4개"]);
    Pieces158();
    ReadsFive("불의속성석 40개", "정기의구슬(火) 25개", "불의정령석 40개", "영웅의 영혼석 150개", "영혼이 봉인된 호리병 4개",
      ItemRequirement("불의속성석", 40), ItemRequirement("정기의구슬(火)", 25), ItemRequirement("불의정령석", 40), ItemRequirement("영웅의 영혼석", 150), ItemRequirement("영혼이 봉인된 호리병", 4));
  }

  /** The materials text of 봉선 여포 (id 158) reads as intended. */
  lemma Legend158()
    ensures MERCENARIES[3].id == 158
    ensures MERCENARIES[3].items == [
      ItemRequirement("불의속성석", 40),
      ItemRequirement("정기의구슬(火)", 25),
      ItemRequirement("불의정령석", 40),
      ItemRequirement("영웅의 영혼석", 150),
      ItemRequirement("영혼이 봉인된 호리병", 4)]
  {
    assert LEGEND_ROWS[3].materials == ["불의속성석 40개", "정기의구슬(火) 25개", "불의정령석 40개", "영웅의 영혼석 150개", "영혼이 봉인된 호리병 4개"];
    MercenaryItems(3);
    Text158();
  }

  lemma Pieces157()
    ensures ParsePiece("바람의속성석 40개") == ItemRequirement("바람의속성석", 40)
    ensures ParsePiece("정기의구슬(風) 25개") == ItemRequirement("정기의구슬(風)", 25)
    ensures ParsePiece("바람의정령석 40개") == ItemRequirement("바람의정령석", 40)
    ensures ParsePiece("영웅의 영혼석 150개") == ItemRequirement("영웅의 영혼석", 150)
    ensures ParsePiece("영혼이 봉인된 호리병 4개") == ItemRequirement("영혼이 봉인된 호리병", 4)
  {
    Numerals();
    PieceShapes();
    WindNamesWellFormed();
    CommonNamesWellFormed();
    PieceReads("바람의속성석", 40, "바람의속성석 40개");
    PieceReads("정기의구슬(風)", 25, "정기의구슬(風) 25개");
    PieceReads("바람의정령석", 40, "바람의정령석 40개");
    PieceReads("영웅의 영혼석", 150, "영웅의 영혼석 150개");
    PieceReads("영혼이 봉인된 호리병", 4, "영혼이 봉인된 호리병 4개");
  }

  lemma Text157()
    ensures ParseCraftingMaterials(Join(["바람의속성석 40개", "정기의구슬(風) 25개", "바람의정령석 40개", "영웅의 영혼석 150개", "영혼이 봉인된 호리병 4개"])) == [
      ItemRequirement("바람의속성석", 40),
      ItemRequirement("정기의구슬(風)", 25),
      ItemRequirement("바람의정령석", 40),
      ItemRequirement("영웅의 영혼석", 150),
      ItemRequirement("영혼이 봉인된 호리병", 4)]
  {
    ParseJoined(["바람의속성석 40개", "정기의구슬(風) 25개", "바람의정령석 40개", "영웅의 영혼석 150개", "영혼이 봉인된 호리병 4개"]);
    Pieces157();
    ReadsFive("바람의속성석 40개", "정기의구슬(風) 25개", "바람의정령석 40개", "영웅의 영혼석 150개", "영혼이 봉인된 호리병 4개",
      ItemRequirement("바람의속성석", 40), ItemRequirement("정기의구슬(風)", 25), ItemRequirement("바람의정령석", 40), ItemRequirement("영웅의 영혼석", 150), ItemRequirement("영혼이 봉인된 호리병", 4));
  }

  /** The materials text of 도사 홍길동 (id 157) reads as intended. */
  lemma Legend157()
    ensures MERCENARIES[4].id == 157
    ensures MERCENARIES[4].items == [
      ItemRequirement("바람의속성석", 40),
      ItemRequirement("정기의구슬(風)", 25),
      ItemRequirement("바람의정령석", 40),
      ItemRequirement("영웅의 영혼석", 150),
      ItemRequirement("영혼이 봉인된 호리병", 4)]
  {
    assert LEGEND_ROWS[4].materials == ["바람의속성석 40개", "정기의구슬(風) 25개", "바람의정령석 40개", "영웅의 영혼석 150개", "영혼이 봉인된 호리병 4개"];
    MercenaryItems(4);
    Text157();
  }

  lemma Pieces156()
    ensures ParsePiece("땅의속성석 30개") == ItemRequirement("땅의속성석", 30)
    ensures ParsePiece("정기의구슬(地) 20개") == ItemRequirement("정기의구슬(地)", 20)
    ensures ParsePiece("땅의정령석 20개") == ItemRequirement("땅의정령석", 20)
    ensures ParsePiece("영웅의 영혼석 150개") == ItemRequirement("영웅의 영혼석", 150)
    ensures ParsePiece("영혼이 봉인된 호리병 4개") == ItemRequirement("영혼이 봉인된 호리병", 4)
  {
    Numerals();
    PieceShapes();
    EarthNamesWellFormed();
    CommonNamesWellFormed();
    PieceReads("땅의속성석", 30, "땅의속성석 30개");
    PieceReads("정기의구슬(地)", 20, "정기의구슬(地) 20개");
    PieceReads("땅의정령석", 20, "땅의정령석 20개");
    PieceReads("영웅의 영혼석", 150, "영웅의 영혼석 150개");
    PieceReads("영혼이 봉인된 호리병", 4, "영혼이 봉인된 호리병 4개");
  }

  lemma Text156()
    ensures ParseCraftingMaterials(Join(["땅의속성석 30개", "정기의구슬(地) 20개", "땅의정령석 20개", "영웅의 영혼석 150개", "영혼이 봉인된 호리병 4개"])) == [
      ItemRequirement("땅의속성석", 30),
      ItemRequirement("정기의구슬(地)", 20),
      ItemRequirement("땅의정령석", 20),
      ItemRequirement("영웅의 영혼석", 150),
      ItemRequirement("영혼이 봉인된 호리병", 4)]
  {
    ParseJoined(["땅의속성석 30개", "정기의구슬(地) 20개", "땅의정령석 20개", "영웅의 영혼석 150개", "영혼이 봉인된 호리병 4개"]);
    Pieces156();
    ReadsFive("땅의속성석 30개", "정기의구슬(地) 20개", "땅의정령석 20개", "영웅의 영혼석 150개", "영혼이 봉인된 호리병 4개",
      ItemRequirement("땅의속성석", 30), ItemRequirement("정기의구슬(地)", 20), ItemRequirement("땅의정령석", 20), ItemRequirement("영웅의 영혼석", 150), ItemRequirement("영혼이 봉인된 호리병", 4));
  }

  /** The materials text of 악바르 대제 (id 156) reads as intended. */
  lemma Legend156()
    ensures MERCENARIES[5].id == 156
    ensures MERCENARIES[5].items == [
      ItemRequirement("땅의속성석", 30),
      ItemRequirement("정기의구슬(地)", 20),
      ItemRequirement("땅의정령석", 20),
      ItemRequirement("영웅의 영혼석", 150),
      ItemRequirement("영혼이 봉인된 호리병", 4)]
  {
    assert LEGEND_ROWS[5].materials == ["땅의속성석 30개", "정기의구슬(地) 20개", "땅의정령석 20개", "영웅의 영혼석 150개", "영혼이 봉인된 호리병 4개"];
    MercenaryItems(5);
    Text156();
  }

  lemma Pieces155()
    ensures ParsePiece("물의속성석 40개") == ItemRequirement("물의속성석", 40)
    ensures ParsePiece("정기의구슬(水) 25개") == ItemRequirement("정기의구슬(水)", 25)
    ensures ParsePiece("물의정령석 40개") == ItemRequirement("물의정령석", 40)
    ensures ParsePiece("영웅의 영혼석 150개") == ItemRequirement("영웅의 영혼석", 150)
    ensures ParsePiece("영혼이 봉인된 호리병 4개") == ItemRequirement("영혼이 봉인된 호리병", 4)
  {
    Numerals();
    PieceShapes();
    WaterNamesWellFormed();
    CommonNamesWellFormed();
    PieceReads("물의속성석", 40, "물의속성석 40개");
    PieceReads("정기의구슬(水)", 25, "정기의구슬(水) 25개");
    PieceReads("물의정령석", 40, "물의정령석 40개");
    PieceReads("영웅의 영혼석", 150, "영웅의 영혼석 150개");
    PieceReads("영혼이 봉인된 호리병", 4, "영혼이 봉인된 호리병 4개");
  }

  lemma Text155()
    ensures ParseCraftingMaterials(Join(["물의속성석 40개", "정기의구슬(水) 25개", "물의정령석 40개", "영웅의 영혼석 150개", "영혼이 봉인된 호리병 4개"])) == [
      ItemRequirement("물의속성석", 40),
      ItemRequirement("정기의구슬(水)", 25),
      ItemRequirement("물의정령석", 40),
      ItemRequirement("영웅의 영혼석", 150),
      ItemRequirement("영혼이 봉인된 호리병", 4)]
  {
    ParseJoined(["물의속성석 40개", "정기의구슬(水) 25개", "물의정령석 40개", "영웅의 영혼석 150개", "영혼이 봉인된 호리병 4개"]);
    Pieces155();
    ReadsFive("물의속성석 40개", "정기의구슬(水) 25개", "물의정령석 40개", "영웅의 영혼석 150개", "영혼이 봉인된 호리병 4개",
      ItemRequirement("물의속성석", 40), ItemRequirement("정기의구슬(水)", 25), ItemRequirement("물의정령석", 40), ItemRequirement("영웅의 영혼석", 150), ItemRequirement("영혼이 봉인된 호리병", 4));
  }

  /** The materials text of 해신 마조 (id 155) reads as intended. */
  lemma Legend155()
    ensures MERCENARIES[6].id == 155
    ensures MERCENARIES[6].items == [
      ItemRequirement("물의속성석", 40),
      ItemRequirement("정기의구슬(水)", 25),
      ItemRequirement("물의정령석", 40),
      ItemRequirement("영웅의 영혼석", 150),
      ItemRequirement("영혼이 봉인된 호리병", 4)]
  {
    assert LEGEND_ROWS[6].materials == ["물의속성석 40개", "정기의구슬(水) 25개", "물의정령석 40개", "영웅의 영혼석 150개", "영혼이 봉인된 호리병 4개"];
    MercenaryItems(6);
    Text155();
  }

  lemma Pieces154()
    ensures ParsePiece("바람의속성석 40개") == ItemRequirement("바람의속성석", 40)
    ensures ParsePiece("정기의구슬(風) 25개") == ItemRequirement("정기의구슬(風)", 25)
    ensures ParsePiece("바람의정령석 40개") == ItemRequirement("바람의정령석", 40)
    ensures ParsePiece("영웅의 영혼석 150개") == ItemRequirement("영웅의 영혼석", 150)
    ensures ParsePiece("영혼이 봉인된 호리병 4개") == ItemRequirement("영혼이 봉인된 호리병", 4)
  {
    Numerals();
    PieceShapes();
    WindNamesWellFormed();
    CommonNamesWellFormed();
    PieceReads("바람의속성석", 40, "바람의속성석 40개");
    PieceReads("정기의구슬(風)", 25, "정기의구슬(風) 25개");
    PieceReads("바람의정령석", 40, "바람의정령석 40개");
    PieceReads("영웅의 영혼석", 150, "영웅의 영혼석 150개");
    PieceReads("영혼이 봉인된 호리병", 4, "영혼이 봉인된 호리병 4개");
  }

  lemma Text154()
    ensures ParseCraftingMaterials(Join(["바람의속성석 40개", "정기의구슬(風) 25개", "바람의정령석 40개", "영웅의 영혼석 150개", "영혼이 봉인된 호리병 4개"])) == [
      ItemRequirement("바람의속성석", 40),
      ItemRequirement("정기의구슬(風)", 25),
      ItemRequirement("바람의정령석", 40),
      ItemRequirement("영웅의 영혼석", 150),
      ItemRequirement("영혼이 봉인된 호리병", 4)]
  {
    ParseJoined(["바람의속성석 40개", "정기의구슬(風) 25개", "바람의정령석 40개", "영웅의 영혼석 150개", "영혼이 봉인된 호리병 4개"]);
    Pieces154();
    ReadsFive("바람의속성석 40개", "정기의구슬(風) 25개", "바람의정령석 40개", "영웅의 영혼석 150개", "영혼이 봉인된 호리병 4개",
      ItemRequirement("바람의속성석", 40), ItemRequirement("정기의구슬(風)", 25), ItemRequirement("바람의정령석", 40), ItemRequirement("영웅의 영혼석", 150), ItemRequirement("영혼이 봉인된 호리병", 4));
  }

  /** The materials text of 검성 보쿠텐 (id 154) reads as intended. */
  lemma Legend154()
    ensures MERCENARIES[7].id == 154
    ensures MERCENARIES[7].items == [
      ItemRequirement("바람의속성석", 40),
      ItemRequirement("정기의구슬(風)", 25),
      ItemRequirement("바람의정령석", 40),
      ItemRequirement("영웅의 영혼석", 150),
      ItemRequirement("영혼이 봉인된 호리병", 4)]
  {
    assert LEGEND_ROWS[7].materials == ["바람의속성석 40개", "정기의구슬(風) 25개", "바람의정령석 40개", "영웅의 영혼석 150개", "영혼이 봉인된 호리병 4개"];
    MercenaryItems(7);
    Text154();
  }

  lemma Pieces153()
    ensures ParsePiece("뇌전의속성석 40개") == ItemRequirement("뇌전의속성석", 40)
    ensures ParsePiece("정기의구슬(雷) 25개") == ItemRequirement("정기의구슬(雷)", 25)
    ensures ParsePiece("뇌전의정령석 40개") == ItemRequirement("뇌전의정령석", 40)
    ensures ParsePiece("영웅의 영혼석 150개") == ItemRequirement("영웅의 영혼석", 150)
    ensures ParsePiece("영혼이 봉인된 호리병 4개") == ItemRequirement("영혼이 봉인된 호리병", 4)
  {
    Numerals();
    PieceShapes();
    ThunderNamesWellFormed();
    CommonNamesWellFormed();
    PieceReads("뇌전의속성석", 40, "뇌전의속성석 40개");
    PieceReads("정기의구슬(雷)", 25, "정기의구슬(雷) 25개");
    PieceReads("뇌전의정령석", 40, "뇌전의정령석 40개");
    PieceReads("영웅의 영혼석", 150, "영웅의 영혼석 150개");
    PieceReads("영혼이 봉인된 호리병", 4, "영혼이 봉인된 호리병 4개");
  }

  lemma Text153()
    ensures ParseCraftingMaterials(Join(["뇌전의속성석 40개", "정기의구슬(雷) 25개", "뇌전의정령석 40개", "영웅의 영혼석 150개", "영혼이 봉인된 호리병 4개"])) == [
      ItemRequirement("뇌전의속성석", 40),
      ItemRequirement("정기의구슬(雷)", 25),
      ItemRequirement("뇌전의정령석", 40),
      ItemRequirement("영웅의 영혼석", 150),
      ItemRequirement("영혼이 봉인된 호리병", 4)]
  {
    ParseJoined(["뇌전의속성석 40개", "정기의구슬(雷) 25개", "뇌전의정령석 40개", "영웅의 영혼석 150개", "영혼이 봉인된 호리병 4개"]);
    Pieces153();
    ReadsFive("뇌전의속성석 40개", "정기의구슬(雷) 25개", "뇌전의정령석 40개", "영웅의 영혼석 150개", "영혼이 봉인된 호리병 4개",
      ItemRequirement("뇌전의속성석", 40), ItemRequirement("정기의구슬(雷)", 25), ItemRequirement("뇌전의정령석", 40), ItemRequirement("영웅의 영혼석", 150), ItemRequirement("영혼이 봉인된 호리병", 4));
  }

  /** The materials text of 여걸 화목란 (id 153) reads as intended. */
  lemma Legend153()
    ensures MERCENARIES[8].id == 153
    ensures MERCENARIES[8].items == [
      ItemRequirement("뇌전의속성석", 40),
      ItemRequirement("정기의구슬(雷)", 25),
      ItemRequirement("뇌전의정령석", 40),
      ItemRequirement("영웅의 영혼석", 150),
      ItemRequirement("영혼이 봉인된 호리병", 4)]
  {
    assert LEGEND_ROWS[8].materials == ["뇌전의속성석 40개", "정기의구슬(雷) 25개", "뇌전의정령석 40개", "영웅의 영혼석 150개", "영혼이 봉인된 호리병 4개"];
    MercenaryItems(8);
    Text153();
  }

  lemma Pieces152()
    ensures ParsePiece("불의속성석 40개") == ItemRequirement("불의속성석", 40)
    ensures ParsePiece("정기의구슬(火) 25개") == ItemRequirement("정기의구슬(火)", 25)
    ensures ParsePiece("불의정령석 40개") == ItemRequirement("불의정령석", 40)
    ensures ParsePiece("영웅의 영혼석 150개") == ItemRequirement("영웅의 영혼석", 150)
    ensures ParsePiece("영혼이 봉인된 호리병 4개") == ItemRequirement("영혼이 봉인된 호리병", 4)
  {
    Numerals();
    PieceShapes();
    FireNamesWellFormed();
    CommonNamesWellFormed();
    PieceReads("불의속성석", 40, "불의속성석 40개");
    PieceReads("정기의구슬(火)", 25, "정기의구슬(火) 25개");
    PieceReads("불의정령석", 40, "불의정령석 40개");
    PieceReads("영웅의 영혼석", 150, "영웅의 영혼석 150개");
    PieceReads("영혼이 봉인된 호리병", 4, "영혼이 봉인된 호리병 4개");
  }

  lemma Text152()
    ensures ParseCraftingMaterials(Join(["불의속성석 40개", "정기의구슬(火) 25개", "불의정령석 40개", "영웅의 영혼석 150개", "영혼이 봉인된 호리병 4개"])) == [
      ItemRequirement("불의속성석", 40),
      ItemRequirement("정기의구슬(火)", 25),
      ItemRequirement("불의정령석", 40),
      ItemRequirement("영웅의 영혼석", 150),
      ItemRequirement("영혼이 봉인된 호리병", 4)]
  {
    ParseJoined(["불의속성석 40개", "정기의구슬(火) 25개", "불의정령석 40개", "영웅의 영혼석 150개", "영혼이 봉인된 호리병 4개"]);
    Pieces152();
    ReadsFive("불의속성석 40개", "정기의구슬(火) 25개", "불의정령석 40개", "영웅의 영혼석 150개", "영혼이 봉인된 호리병 4개",
      ItemRequirement("불의속성석", 40), ItemRequirement("정기의구슬(火)", 25), ItemRequirement("불의정령석", 40), ItemRequirement("영웅의 영혼석", 150), ItemRequirement("영혼이 봉인된 호리병", 4));
  }

  /** The materials text of 도령 최무선 (id 152) reads as intended. */
  lemma Legend152()
    ensures MERCENARIES[9].id == 152
    ensures MERCENARIES[9].items == [
      ItemRequirement("불의속성석", 40),
      ItemRequirement("정기의구슬(火)", 25),
      ItemRequirement("불의정령석", 40),
      ItemRequirement("영웅의 영혼석", 150),
      ItemRequirement("영혼이 봉인된 호리병", 4)]
  {
    assert LEGEND_ROWS[9].materials == ["불의속성석 40개", "정기의구슬(火) 25개", "불의정령석 40개", "영웅의 영혼석 150개", "영혼이 봉인된 호리병 4개"];
    MercenaryItems(9);
    Text152();
  }

  lemma Pieces151()
    ensures ParsePiece("땅의속성석 15개") == ItemRequirement("땅의속성석", 15)
    ensures ParsePiece("정기의구슬(地) 15개") == ItemRequirement("정기의구슬(地)", 15)
    ensures ParsePiece("땅의정령석 15개") == ItemRequirement("땅의정령석", 15)
    ensures ParsePiece("영웅의 영혼석 100개") == ItemRequirement("영웅의 영혼석", 100)
    ensures ParsePiece("영혼이 봉인된 호리병 4개") == ItemRequirement("영혼이 봉인된 호리병", 4)
  {
    Numerals();
    PieceShapes();
    EarthNamesWellFormed();
    CommonNamesWellFormed();
    PieceReads("땅의속성석", 15, "땅의속성석 15개");
    PieceReads("정기의구슬(地)", 15, "정기의구슬(地) 15개");
    PieceReads("땅의정령석", 15, "땅의정령석 15개");
    PieceReads("영웅의 영혼석", 100, "영웅의 영혼석 100개");
    PieceReads("영혼이 봉인된 호리병", 4, "영혼이 봉인된 호리병 4개");
  }

  lemma Text151()
    ensures ParseCraftingMaterials(Join(["땅의속성석 15개", "정기의구슬(地) 15개", "땅의정령석 15개", "영웅의 영혼석 100개", "영혼이 봉인된 호리병 4개"])) == [
      ItemRequirement("땅의속성석", 15),
      ItemRequirement("정기의구슬(地)", 15),
      ItemRequirement("땅의정령석", 15),
      ItemRequirement("영웅의 영혼석", 100),
      ItemRequirement("영혼이 봉인된 호리병", 4)]
  {
    ParseJoined(["땅의속성석 15개", "정기의구슬(地) 15개", "땅의정령석 15개", "영웅의 영혼석 100개", "영혼이 봉인된 호리병 4개"]);
    Pieces151();
    ReadsFive("땅의속성석 15개", "정기의구슬(地) 15개", "땅의정령석 15개", "영웅의 영혼석 100개", "영혼이 봉인된 호리병 4개",
      ItemRequirement("땅의속성석", 15), ItemRequirement("정기의구슬(地)", 15), ItemRequirement("땅의정령석", 15), ItemRequirement("영웅의 영혼석", 100), ItemRequirement("영혼이 봉인된 호리병", 4));
  }

  /** The materials text of 재상 바지라오 (id 151) reads as intended. */
  lemma Legend151()
    ensures MERCENARIES[10].id == 151
    ensures MERCENARIES[10].items == [
      ItemRequirement("땅의속성석", 15),
      ItemRequirement("정기의구슬(地)", 15),
      ItemRequirement("땅의정령석", 15),
      ItemRequirement("영웅의 영혼석", 100),
      ItemRequirement("영혼이 봉인된 호리병", 4)]
  {
    assert LEGEND_ROWS[10].materials == ["땅의속성석 15개", "정기의구슬(地) 15개", "땅의정령석 15개", "영웅의 영혼석 100개", "영혼이 봉인된 호리병 4개"];
    MercenaryItems(10);
    Text151();
  }

  lemma Pieces150()
    ensures ParsePiece("불의속성석 20개") == ItemRequirement("불의속성석", 20)
    ensures ParsePiece("정기의구슬(火) 20개") == ItemRequirement("정기의구슬(火)", 20)
    ensures ParsePiece("불의정령석 20개") == ItemRequirement("불의정령석", 20)
    ensures ParsePiece("영웅의 영혼석 100개") == ItemRequirement("영웅의 영혼석", 100)
    ensures ParsePiece("영혼이 봉인된 호리병 4개") == ItemRequirement("영혼이 봉인된 호리병", 4)
  {
    Numerals();
    PieceShapes();
    FireNamesWellFormed();
    CommonNamesWellFormed();
    PieceReads("불의속성석", 20, "불의속성석 20개");
    PieceReads("정기의구슬(火)", 20, "정기의구슬(火) 20개");
    PieceReads("불의정령석", 20, "불의정령석 20개");
    PieceReads("영웅의 영혼석", 100, "영웅의 영혼석 100개");
    PieceReads("영혼이 봉인된 호리병", 4, "영혼이 봉인된 호리병 4개");
  }

  lemma Text150()
    ensures ParseCraftingMaterials(Join(["불의속성석 20개", "정기의구슬(火) 20개", "불의정령석 20개", "영웅의 영혼석 100개", "영혼이 봉인된 호리병 4개"])) == [
      ItemRequirement("불의속성석", 20),
      ItemRequirement("정기의구슬(火)", 20),
      ItemRequirement("불의정령석", 20),
      ItemRequirement("영웅의 영혼석", 100),
      ItemRequirement("영혼이 봉인된 호리병", 4)]
  {
    ParseJoined(["불의속성석 20개", "정기의구슬(火) 20개", "불의정령석 20개", "영웅의 영혼석 100개", "영혼이 봉인된 호리병 4개"]);
    Pieces150();
    ReadsFive("불의속성석 20개", "정기의구슬(火) 20개", "불의정령석 20개", "영웅의 영혼석 100개", "영혼이 봉인된 호리병 4개",
      ItemRequirement("불의속성석", 20), ItemRequirement("정기의구슬(火)", 20), ItemRequirement("불의정령석", 20), ItemRequirement("영웅의 영혼석", 100), ItemRequirement("영혼이 봉인된 호리병", 4));
  }

  /** The materials text of 군신 노부츠나 (id 150) reads as intended. */
  lemma Legend150()
    ensures MERCENARIES[11].id == 150
    ensures MERCENARIES[11].items == [
      ItemRequirement("불의속성석", 20),
      ItemRequirement("정기의구슬(火)", 20),
      ItemRequirement("불의정령석", 20),
      ItemRequirement("영웅의 영혼석", 100),
      ItemRequirement("영혼이 봉인된 호리병", 4)]
  {
    assert LEGEND_ROWS[11].materials == ["불의속성석 20개", "정기의구슬(火) 20개", "불의정령석 20개", "영웅의 영혼석 100개", "영혼이 봉인된 호리병 4개"];
    MercenaryItems(11);
    Text150();
  }

  lemma Pieces149()
    ensures ParsePiece("바람의속성석 20개") == ItemRequirement("바람의속성석", 20)
    ensures ParsePiece("바람의정령석 20개") == ItemRequirement("바람의정령석", 20)
    ensures ParsePiece("정기의구슬(風) 20개") == ItemRequirement("정기의구슬(風)", 20)
    ensures ParsePiece("영웅의 영혼석 100개") == ItemRequirement("영웅의 영혼석", 100)
    ensures ParsePiece("영혼이 봉인된 호리병 4개") == ItemRequirement("영혼이 봉인된 호리병", 4)
  {
    Numerals();
    PieceShapes();
    WindNamesWellFormed();
    CommonNamesWellFormed();
    PieceReads("바람의속성석", 20, "바람의속성석 20개");
    PieceReads("바람의정령석", 20, "바람의정령석 20개");
    PieceReads("정기의구슬(風)", 20, "정기의구슬(風) 20개");
    PieceReads("영웅의 영혼석", 100, "영웅의 영혼석 100개");
    PieceReads("영혼이 봉인된 호리병", 4, "영혼이 봉인된 호리병 4개");
  }

  lemma Text149()
    ensures ParseCraftingMaterials(Join(["바람의속성석 20개", "바람의정령석 20개", "정기의구슬(風) 20개", "영웅의 영혼석 100개", "영혼이 봉인된 호리병 4개"])) == [
      ItemRequirement("바람의속성석", 20),
      ItemRequirement("바람의정령석", 20),
      ItemRequirement("정기의구슬(風)", 20),
      ItemRequirement("영웅의 영혼석", 100),
      ItemRequirement("영혼이 봉인된 호리병", 4)]
  {
    ParseJoined(["바람의속성석 20개", "바람의정령석 20개", "정기의구슬(風) 20개", "영웅의 영혼석 100개", "영혼이 봉인된 호리병 4개"]);
    Pieces149();
    ReadsFive("바람의속성석 20개", "바람의정령석 20개", "정기의구슬(風) 20개", "영웅의 영혼석 100개", "영혼이 봉인된 호리병 4개",
      ItemRequirement("바람의속성석", 20), ItemRequirement("바람의정령석", 20), ItemRequirement("정기의구슬(風)", 20), ItemRequirement("영웅의 영혼석", 100), ItemRequirement("영혼이 봉인된 호리병", 4));
  }

  /** The materials text of 야왕 맹획 (id 149) reads as intended. */
  lemma Legend149()
    ensures MERCENARIES[12].id == 149
    ensures MERCENARIES[12].items == [
      ItemRequirement("바람의속성석", 20),
      ItemRequirement("바람의정령석", 20),
      ItemRequirement("정기의구슬(風)", 20),
      ItemRequirement("영웅의 영혼석", 100),
      ItemRequirement("영혼이 봉인된 호리병", 4)]
  {
    assert LEGEND_ROWS[12].materials == ["바람의속성석 20개", "바람의정령석 20개", "정기의구슬(風) 20개", "영웅의 영혼석 100개", "영혼이 봉인된 호리병 4개"];
    MercenaryItems(12);
    Text149();
  }

  lemma Pieces148()
    ensures ParsePiece("물의속성석 20개") == ItemRequirement("물의속성석", 20)
    ensures ParsePiece("정기의구슬(水) 20개") == ItemRequirement("정기의구슬(水)", 20)
    ensures ParsePiece("물의정령석 20개") == ItemRequirement("물의정령석", 20)
    ensures ParsePiece("영웅의 영혼석 100개") == ItemRequirement("영웅의 영혼석", 100)
    ensures ParsePiece("영혼이 봉인된 호리병 4개") == ItemRequirement("영혼이 봉인된 호리병", 4)
  {
    Numerals();
    PieceShapes();
    WaterNamesWellFormed();
    CommonNamesWellFormed();
    PieceReads("물의속성석", 20, "물의속성석 20개");
    PieceReads("정기의구슬(水)", 20, "정기의구슬(水) 20개");
    PieceReads("물의정령석", 20, "물의정령석 20개");
    PieceReads("영웅의 영혼석", 100, "영웅의 영혼석 100개");
    PieceReads("영혼이 봉인된 호리병", 4, "영혼이 봉인된 호리병 4개");
  }

  lemma Text148()
    ensures ParseCraftingMaterials(Join(["물의속성석 20개", "정기의구슬(水) 20개", "물의정령석 20개", "영웅의 영혼석 100개", "영혼이 봉인된 호리병 4개"])) == [
      ItemRequirement("물의속성석", 20),
      ItemRequirement("정기의구슬(水)", 20),
      ItemRequirement("물의정령석", 20),
      ItemRequirement("영웅의 영혼석", 100),
      ItemRequirement("영혼이 봉인된 호리병", 4)]
  {
    ParseJoined(["물의속성석 20개", "정기의구슬(水) 20개", "물의정령석 20개", "영웅의 영혼석 100개", "영혼이 봉인된 호리병 4개"]);
    Pieces148();
    ReadsFive("물의속성석 20개", "정기의구슬(水) 20개", "물의정령석 20개", "영웅의 영혼석 100개", "영혼이 봉인된 호리병 4개",
      ItemRequirement("물의속성석", 20), ItemRequirement("정기의구슬(水)", 20), ItemRequirement("물의정령석", 20), ItemRequirement("영웅의 영혼석", 100), ItemRequirement("영혼이 봉인된 호리병", 4));
  }

  /** The materials text of 무희 초선 (id 148) reads as intended. */
  lemma Legend148()
    ensures MERCENARIES[13].id == 148
    ensures MERCENARIES[13].items == [
      ItemRequirement("물의속성석", 20),
      ItemRequirement("정기의구슬(水)", 20),
      ItemRequirement("물의정령석", 20),
      ItemRequirement("영웅의 영혼석", 100),
      ItemRequirement("영혼이 봉인된 호리병", 4)]
  {
    assert LEGEND_ROWS[13].materials == ["물의속성석 20개", "정기의구슬(水) 20개", "물의정령석 20개", "영웅의 영혼석 100개", "영혼이 봉인된 호리병 4개"];
    MercenaryItems(13);
    Text148();
  }

  lemma Pieces147()
    ensures ParsePiece("뇌전의속성석 20개") == ItemRequirement("뇌전의속성석", 20)
    ensures ParsePiece("정기의구슬(雷) 20개") == ItemRequirement("정기의구슬(雷)", 20)
    ensures ParsePiece("뇌전의정령석 20개") == ItemRequirement("뇌전의정령석", 20)
    ensures ParsePiece("영웅의 영혼석 100개") == ItemRequirement("영웅의 영혼석", 100)
    ensures ParsePiece("영혼이 봉인된 호리병 4개") == ItemRequirement("영혼이 봉인된 호리병", 4)
  {
    Numerals();
    PieceShapes();
    ThunderNamesWellFormed();
    CommonNamesWellFormed();
    PieceReads("뇌전의속성석", 20, "뇌전의속성석 20개");
    PieceReads("정기의구슬(雷)", 20, "정기의구슬(雷) 20개");
    PieceReads("뇌전의정령석", 20, "뇌전의정령석 20개");
    PieceReads("영웅의 영혼석", 100, "영웅의 영혼석 100개");
    PieceReads("영혼이 봉인된 호리병", 4, "영혼이 봉인된 호리병 4개");
  }

  lemma Text147()
    ensures ParseCraftingMaterials(Join(["뇌전의속성석 20개", "정기의구슬(雷) 20개", "뇌전의정령석 20개", "영웅의 영혼석 100개", "영혼이 봉인된 호리병 4개"])) == [
      ItemRequirement("뇌전의속성석", 20),
      ItemRequirement("정기의구슬(雷)", 20),
      ItemRequirement("뇌전의정령석", 20),
      ItemRequirement("영웅의 영혼석", 100),
      ItemRequirement("영혼이 봉인된 호리병", 4)]
  {
    ParseJoined(["뇌전의속성석 20개", "정기의구슬(雷) 20개", "뇌전의정령석 20개", "영웅의 영혼석 100개", "영혼이 봉인된 호리병 4개"]);
    Pieces147();
    ReadsFive("뇌전의속성석 20개", "정기의구슬(雷) 20개", "뇌전의정령석 20개", "영웅의 영혼석 100개", "영혼이 봉인된 호리병 4개",
      ItemRequirement("뇌전의속성석", 20), ItemRequirement("정기의구슬(雷)", 20), ItemRequirement("뇌전의정령석", 20), ItemRequirement("영웅의 영혼석", 100), ItemRequirement("영혼이 봉인된 호리병", 4));
  }

  /** The materials text of 신궁 주몽 (id 147) reads as intended. */
  lemma Legend147()
    ensures MERCENARIES[14].id == 147
    ensures MERCENARIES[14].items == [
      ItemRequirement("뇌전의속성석", 20),
      ItemRequirement("정기의구슬(雷)", 20),
      ItemRequirement("뇌전의정령석", 20),
      ItemRequirement("영웅의 영혼석", 100),
      ItemRequirement("영혼이 봉인된 호리병", 4)]
  {
    assert LEGEND_ROWS[14].materials == ["뇌전의속성석 20개", "정기의구슬(雷) 20개", "뇌전의정령석 20개", "영웅의 영혼석 100개", "영혼이 봉인된 호리병 4개"];
    MercenaryItems(14);
    Text147();
  }


  // ---------------------------------------------------------------------
  // The rows against the id tables
  // ---------------------------------------------------------------------

  /** A row lists exactly the children the id tables give its legend. */
  ghost predicate RowMatchesTables(row: LegendRow) {
    && row.id in LEGEND_TO_AWAKENED
    && LEGEND_TO_AWAKENED[row.id] == row.awakened
    && match row.modified
       case None => row.id !in LEGEND_TO_MODIFIED
       case Some(ids) => row.id in LEGEND_TO_MODIFIED && LEGEND_TO_MODIFIED[row.id] == ids
  }

  /** Every id a row lists names an entry of its table, so the lookup's
      `filter(Boolean)` drops nothing. */
  ghost predicate RowResolves(row: LegendRow) {
    && (forall i :: 0 <= i < |row.awakened| ==> row.awakened[i] in AWAKENED_MERCENARIES)
    && match row.modified
       case None => true
       case Some(ids) => forall i :: 0 <= i < |ids| ==> ids[i] in MODIFIED_MERCENARIES
  }

  lemma Row0Consistent()
    ensures RowMatchesTables(LEGEND_ROWS[0]) && RowResolves(LEGEND_ROWS[0])
  {
  }

  lemma Row1Consistent()
    ensures RowMatchesTables(LEGEND_ROWS[1]) && RowResolves(LEGEND_ROWS[1])
  {
  }

  lemma Row2Consistent()
    ensures RowMatchesTables(LEGEND_ROWS[2]) && RowResolves(LEGEND_ROWS[2])
  {
  }

  lemma Row3Consistent()
    ensures RowMatchesTables(LEGEND_ROWS[3]) && RowResolves(LEGEND_ROWS[3])
  {
  }

  lemma Row4Consistent()
    ensures RowMatchesTables(LEGEND_ROWS[4]) && RowResolves(LEGEND_ROWS[4])
  {
  }

  lemma Row5Consistent()
    ensures RowMatchesTables(LEGEND_ROWS[5]) && RowResolves(LEGEND_ROWS[5])
  {
  }

  lemma Row6Consistent()
    ensures RowMatchesTables(LEGEND_ROWS[6]) && RowResolves(LEGEND_ROWS[6])
  {
  }

  lemma Row7Consistent()
    ensures RowMatchesTables(LEGEND_ROWS[7]) && RowResolves(LEGEND_ROWS[7])
  {
  }

  lemma Row8Consistent()
    ensures RowMatchesTables(LEGEND_ROWS[8]) && RowResolves(LEGEND_ROWS[8])
  {
  }

  lemma Row9Consistent()
    ensures RowMatchesTables(LEGEND_ROWS[9]) && RowResolves(LEGEND_ROWS[9])
  {
  }

  lemma Row10Consistent()
    ensures RowMatchesTables(LEGEND_ROWS[10]) && RowResolves(LEGEND_ROWS[10])
  {
  }

  lemma Row11Consistent()
    ensures RowMatchesTables(LEGEND_ROWS[11]) && RowResolves(LEGEND_ROWS[11])
  {
  }

  lemma Row12Consistent()
    ensures RowMatchesTables(LEGEND_ROWS[12]) && RowResolves(LEGEND_ROWS[12])
  {
  }

  lemma Row13Consistent()
    ensures RowMatchesTables(LEGEND_ROWS[13]) && RowResolves(LEGEND_ROWS[13])
  {
  }

  lemma Row14Consistent()
    ensures RowMatchesTables(LEGEND_ROWS[14]) && RowResolves(LEGEND_ROWS[14])
  {
  }

  /** Every legend's inline child lists agree with the id tables and
      resolve in full. */
  lemma RowsConsistent()
    ensures forall k :: 0 <= k < |LEGEND_ROWS| ==> RowMatchesTables(LEGEND_ROWS[k]) && RowResolves(LEGEND_ROWS[k])
  {
    forall k | 0 <= k < |LEGEND_ROWS|
      ensures RowMatchesTables(LEGEND_ROWS[k]) && RowResolves(LEGEND_ROWS[k])
    {
      if k == 0 { Row0Consistent(); }
      else if k == 1 { Row1Consistent(); }
      else if k == 2 { Row2Consistent(); }
      else if k == 3 { Row3Consistent(); }
      else if k == 4 { Row4Consistent(); }
      else if k == 5 { Row5Consistent(); }
      else if k == 6 { Row6Consistent(); }
      else if k == 7 { Row7Consistent(); }
      else if k == 8 { Row8Consistent(); }
      else if k == 9 { Row9Consistent(); }
      else if k == 10 { Row10Consistent(); }
      else if k == 11 { Row11Consistent(); }
      else if k == 12 { Row12Consistent(); }
      else if k == 13 { Row13Consistent(); }
      else { Row14Consistent(); }
    }
  }


  /** Every awakened mercenary is of the awakened class and needs the
      awakening materials. */
  lemma AwakenedEntries()
    ensures forall id :: id in AWAKENED_MERCENARIES ==>
              AWAKENED_MERCENARIES[id].classTypeName == AWAKENED_CLASS &&
              AWAKENED_MERCENARIES[id].items == AWAKENING_MATERIALS
  {
  }

  /** Both child tables are keyed by their entries' ids. */
  lemma TablesKeyedById()
    ensures forall id :: id in AWAKENED_MERCENARIES ==> AWAKENED_MERCENARIES[id].id == id
    ensures forall id :: id in MODIFIED_MERCENARIES ==> MODIFIED_MERCENARIES[id].id == id
  {
    AwakenedKeyedById();
    ModifiedKeyedById();
  }

  lemma AwakenedKeyedById()
    ensures forall id :: id in AWAKENED_MERCENARIES ==> AWAKENED_MERCENARIES[id].id == id
  {
  }

  lemma ModifiedKeyedById()
    ensures forall id :: id in MODIFIED_MERCENARIES ==> MODIFIED_MERCENARIES[id].id == id
  {
  }

  /** Every modified mercenary is of the modified class and needs twenty of
      one material from the unsold set; every material of that set is one
      of theirs. */
  lemma ModifiedEntries()
    ensures forall id :: id in MODIFIED_MERCENARIES ==>
              MODIFIED_MERCENARIES[id].classTypeName == MODIFIED_CLASS &&
              |MODIFIED_MERCENARIES[id].items| == 1 &&
              MODIFIED_MERCENARIES[id].items[0].quantity == 20 &&
              IsModifiedMercenaryItem(MODIFIED_MERCENARIES[id].items[0].name)
    ensures forall x :: IsModifiedMercenaryItem(x) ==>
              exists id :: id in MODIFIED_MERCENARIES && MODIFIED_MERCENARIES[id].items[0].name == x
  {
    forall x | IsModifiedMercenaryItem(x)
      ensures exists id :: id in MODIFIED_MERCENARIES && MODIFIED_MERCENARIES[id].items[0].name == x
    {
      if x == "변이된 용의 보주" { assert MODIFIED_MERCENARIES[134].items[0].name == x; }
      else if x == "연발 총신" { assert MODIFIED_MERCENARIES[133].items[0].name == x; }
      else if x == "봉인부적" { assert MODIFIED_MERCENARIES[129].items[0].name == x; }
      else if x == "노획한 포탄" { assert MODIFIED_MERCENARIES[128].items[0].name == x; }
      else if x == "불타는깃털" { assert MODIFIED_MERCENARIES[124].items[0].name == x; }
      else if x == "거대 화룡의 머리뼈" { assert MODIFIED_MERCENARIES[123].items[0].name == x; }
      else if x == "진은조각" { assert MODIFIED_MERCENARIES[119].items[0].name == x; }
      else if x == "신기전의화살" { assert MODIFIED_MERCENARIES[118].items[0].name == x; }
      else { assert false; }
    }
  }

  // ---------------------------------------------------------------------
  // getAllUniqueItems over the catalogue
  // ---------------------------------------------------------------------

  /** `getAllUniqueItems`: the material names of the legends and of their
      non-modified children, each once, in first-seen order. */
  const ALL_UNIQUE_ITEMS: seq<string> := UniqueItems(MERCENARIES)

  /** The eighteen materials the catalogue's legends and awakened
      mercenaries are written with. */
  const CATALOGUE_MATERIALS: set<string> := {
    "땅의속성석",
    "정기의구슬(地)",
    "땅의정령석",
    "영웅의 영혼석",
    "영혼이 봉인된 호리병",
    "뇌전의속성석",
    "정기의구슬(雷)",
    "뇌전의정령석",
    "물의속성석",
    "정기의구슬(水)",
    "물의정령석",
    "불의속성석",
    "정기의구슬(火)",
    "불의정령석",
    "바람의속성석",
    "정기의구슬(風)",
    "바람의정령석",
    "각성석"
  }

  /** A table keyed by the ids of its entries, looked up at ids it holds,
      yields children with exactly those ids. */
  lemma LookupIds(table: map<int, ChildMercenary>, ids: seq<int>)
    requires forall i :: 0 <= i < |ids| ==> ids[i] in table
    requires forall id :: id in table ==> table[id].id == id
    ensures |LookupChildren(table, ids)| == |ids|
    ensures forall i :: 0 <= i < |ids| ==> LookupChildren(table, ids)[i].id == ids[i]
  {
  }

  /** The child ids the tables give a legend: its awakened ids, then its
      modified ids where it has any. */
  function TableChildIds(legendId: int): seq<int> {
    (if legendId in LEGEND_TO_AWAKENED then LEGEND_TO_AWAKENED[legendId] else [])
    + (if legendId in LEGEND_TO_MODIFIED then LEGEND_TO_MODIFIED[legendId] else [])
  }

  /** Children carrying the ids `x`, then children carrying the ids `y`. */
  ghost predicate CarryIds(cs: seq<ChildMercenary>, ids: seq<int>) {
    |cs| == |ids| && forall i :: 0 <= i < |cs| ==> cs[i].id == ids[i]
  }

  lemma CarryIdsAppend(a: seq<ChildMercenary>, b: seq<ChildMercenary>, x: seq<int>, y: seq<int>)
    requires CarryIds(a, x) && CarryIds(b, y)
    ensures CarryIds(a + b, x + y)
  {
    assert forall i :: 0 <= i < |a| ==> (a + b)[i] == a[i] && (x + y)[i] == x[i];
    assert forall i :: |a| <= i < |a + b| ==> (a + b)[i] == b[i - |a|] && (x + y)[i] == y[i - |a|];
  }

  lemma AwakenedIds(ids: seq<int>)
    requires forall i :: 0 <= i < |ids| ==> ids[i] in AWAKENED_MERCENARIES
    ensures CarryIds(LookupChildren(AWAKENED_MERCENARIES, ids), ids)
  {
    AwakenedKeyedById();
    LookupIds(AWAKENED_MERCENARIES, ids);
  }

  lemma ModifiedIds(ids: seq<int>)
    requires forall i :: 0 <= i < |ids| ==> ids[i] in MODIFIED_MERCENARIES
    ensures CarryIds(LookupChildren(MODIFIED_MERCENARIES, ids), ids)
  {
    ModifiedKeyedById();
    KeyedIds(MODIFIED_MERCENARIES, ids);
  }

  lemma KeyedIds(table: map<int, ChildMercenary>, ids: seq<int>)
    requires forall i :: 0 <= i < |ids| ==> ids[i] in table
    requires forall id :: id in table ==> table[id].id == id
    ensures CarryIds(LookupChildren(table, ids), ids)
  {
    LookupIds(table, ids);
  }

  /** A consistent row's legend has, in order, children with the ids the
      tables list for it. */
  lemma RowChildIds(row: LegendRow)
    requires RowMatchesTables(row) && RowResolves(row)
    ensures CarryIds(Legend(row).childMercenaries, TableChildIds(row.id))
  {
    AwakenedIds(row.awakened);
    match row.modified {
      case None =>
        assert TableChildIds(row.id) == row.awakened + [];
        CarryIdsAppend(LookupChildren(AWAKENED_MERCENARIES, row.awakened), [], row.awakened, []);
      case Some(ids) =>
        ModifiedIds(ids);
        CarryIdsAppend(LookupChildren(AWAKENED_MERCENARIES, row.awakened),
                       LookupChildren(MODIFIED_MERCENARIES, ids), row.awakened, ids);
    }
  }

  /** Every legend's children carry, in order, the ids the tables list for
      it: its awakened ids, then its modified ones. */
  lemma MercenaryChildIds(k: nat)
    requires k < |LEGEND_ROWS|
    ensures |MERCENARIES[k].childMercenaries| == |TableChildIds(MERCENARIES[k].id)|
    ensures forall i :: 0 <= i < |MERCENARIES[k].childMercenaries| ==>
              MERCENARIES[k].childMercenaries[i].id == TableChildIds(MERCENARIES[k].id)[i]
  {
    RowsConsistent();
    assert MERCENARIES[k] == Legend(LEGEND_ROWS[k]);
    RowChildIds(LEGEND_ROWS[k]);
  }

  /** An awakened mercenary as the table holds it. */
  ghost predicate AwakenedKind(c: ChildMercenary) {
    c.classTypeName == AWAKENED_CLASS && c.items == AWAKENING_MATERIALS
  }

  /** A modified mercenary as the table holds it: all its materials are
      unsold ones. */
  ghost predicate ModifiedKind(c: ChildMercenary) {
    && c.classTypeName == MODIFIED_CLASS
    && forall j :: 0 <= j < |c.items| ==> IsModifiedMercenaryItem(c.items[j].name)
  }

  lemma AwakenedChildren(ids: seq<int>)
    ensures forall c :: c in LookupChildren(AWAKENED_MERCENARIES, ids) ==> AwakenedKind(c)
  {
    LookupChildrenFrom(AWAKENED_MERCENARIES, ids);
    AwakenedEntries();
  }

  lemma ModifiedChildren(ids: seq<int>)
    ensures forall c :: c in LookupChildren(MODIFIED_MERCENARIES, ids) ==> ModifiedKind(c)
  {
    LookupChildrenFrom(MODIFIED_MERCENARIES, ids);
    ModifiedEntries();
  }

  /** Each child of a legend is either a modified mercenary, all of whose
      materials the unsold set holds, or an awakened one needing the
      awakening materials. */
  lemma ChildKinds(k: nat)
    requires k < |LEGEND_ROWS|
    ensures forall c :: c in MERCENARIES[k].childMercenaries ==> ModifiedKind(c) || AwakenedKind(c)
  {
    var row := LEGEND_ROWS[k];
    assert MERCENARIES[k] == Legend(row);
    AwakenedChildren(row.awakened);
    match row.modified {
      case None =>
      case Some(ids) => ModifiedChildren(ids);
    }
  }

  lemma Items206Listed(items: seq<ItemRequirement>)
    requires items == [ItemRequirement("땅의속성석", 30), ItemRequirement("정기의구슬(地)", 20), ItemRequirement("땅의정령석", 30), ItemRequirement("영웅의 영혼석", 150), ItemRequirement("영혼이 봉인된 호리병", 4)]
    ensures forall j :: 0 <= j < |items| ==> items[j].name in CATALOGUE_MATERIALS
  {
  }

  lemma Listed206()
    ensures forall j :: 0 <= j < |MERCENARIES[0].items| ==> MERCENARIES[0].items[j].name in CATALOGUE_MATERIALS
  {
    Legend206();
    Items206Listed(MERCENARIES[0].items);
  }

  lemma Items160Listed(items: seq<ItemRequirement>)
    requires items == [ItemRequirement("뇌전의속성석", 40), ItemRequirement("정기의구슬(雷)", 25), ItemRequirement("뇌전의정령석", 40), ItemRequirement("영웅의 영혼석", 150), ItemRequirement("영혼이 봉인된 호리병", 4)]
    ensures forall j :: 0 <= j < |items| ==> items[j].name in CATALOGUE_MATERIALS
  {
  }

  lemma Listed160()
    ensures forall j :: 0 <= j < |MERCENARIES[1].items| ==> MERCENARIES[1].items[j].name in CATALOGUE_MATERIALS
  {
    Legend160();
    Items160Listed(MERCENARIES[1].items);
  }

  lemma Items159Listed(items: seq<ItemRequirement>)
    requires items == [ItemRequirement("물의속성석", 40), ItemRequirement("정기의구슬(水)", 25), ItemRequirement("물의정령석", 40), ItemRequirement("영웅의 영혼석", 150), ItemRequirement("영혼이 봉인된 호리병", 4)]
    ensures forall j :: 0 <= j < |items| ==> items[j].name in CATALOGUE_MATERIALS
  {
  }

  lemma Listed159()
    ensures forall j :: 0 <= j < |MERCENARIES[2].items| ==> MERCENARIES[2].items[j].name in CATALOGUE_MATERIALS
  {
    Legend159();
    Items159Listed(MERCENARIES[2].items);
  }

  lemma Items158Listed(items: seq<ItemRequirement>)
    requires items == [ItemRequirement("불의속성석", 40), ItemRequirement("정기의구슬(火)", 25), ItemRequirement("불의정령석", 40), ItemRequirement("영웅의 영혼석", 150), ItemRequirement("영혼이 봉인된 호리병", 4)]
    ensures forall j :: 0 <= j < |items| ==> items[j].name in CATALOGUE_MATERIALS
  {
  }

  lemma Listed158()
    ensures forall j :: 0 <= j < |MERCENARIES[3].items| ==> MERCENARIES[3].items[j].name in CATALOGUE_MATERIALS
  {
    Legend158();
    Items158Listed(MERCENARIES[3].items);
  }

  lemma Items157Listed(items: seq<ItemRequirement>)
    requires items == [ItemRequirement("바람의속성석", 40), ItemRequirement("정기의구슬(風)", 25), ItemRequirement("바람의정령석", 40), ItemRequirement("영웅의 영혼석", 150), ItemRequirement("영혼이 봉인된 호리병", 4)]
    ensures forall j :: 0 <= j < |items| ==> items[j].name in CATALOGUE_MATERIALS
  {
  }

  lemma Listed157()
    ensures forall j :: 0 <= j < |MERCENARIES[4].items| ==> MERCENARIES[4].items[j].name in CATALOGUE_MATERIALS
  {
    Legend157();
    Items157Listed(MERCENARIES[4].items);
  }

  lemma Items156Listed(items: seq<ItemRequirement>)
    requires items == [ItemRequirement("땅의속성석", 30), ItemRequirement("정기의구슬(地)", 20), ItemRequirement("땅의정령석", 20), ItemRequirement("영웅의 영혼석", 150), ItemRequirement("영혼이 봉인된 호리병", 4)]
    ensures forall j :: 0 <= j < |items| ==> items[j].name in CATALOGUE_MATERIALS
  {
  }

  lemma Listed156()
    ensures forall j :: 0 <= j < |MERCENARIES[5].items| ==> MERCENARIES[5].items[j].name in CATALOGUE_MATERIALS
  {
    Legend156();
    Items156Listed(MERCENARIES[5].items);
  }

  lemma Items155Listed(items: seq<ItemRequirement>)
    requires items == [ItemRequirement("물의속성석", 40), ItemRequirement("정기의구슬(水)", 25), ItemRequirement("물의정령석", 40), ItemRequirement("영웅의 영혼석", 150), ItemRequirement("영혼이 봉인된 호리병", 4)]
    ensures forall j :: 0 <= j < |items| ==> items[j].name in CATALOGUE_MATERIALS
  {
  }

  lemma Listed155()
    ensures forall j :: 0 <= j < |MERCENARIES[6].items| ==> MERCENARIES[6].items[j].name in CATALOGUE_MATERIALS
  {
    Legend155();
    Items155Listed(MERCENARIES[6].items);
  }

  lemma Items154Listed(items: seq<ItemRequirement>)
    requires items == [ItemRequirement("바람의속성석", 40), ItemRequirement("정기의구슬(風)", 25), ItemRequirement("바람의정령석", 40), ItemRequirement("영웅의 영혼석", 150), ItemRequirement("영혼이 봉인된 호리병", 4)]
    ensures forall j :: 0 <= j < |items| ==> items[j].name in CATALOGUE_MATERIALS
  {
  }

  lemma Listed154()
    ensures forall j :: 0 <= j < |MERCENARIES[7].items| ==> MERCENARIES[7].items[j].name in CATALOGUE_MATERIALS
  {
    Legend154();
    Items154Listed(MERCENARIES[7].items);
  }

  lemma Items153Listed(items: seq<ItemRequirement>)
    requires items == [ItemRequirement("뇌전의속성석", 40), ItemRequirement("정기의구슬(雷)", 25), ItemRequirement("뇌전의정령석", 40), ItemRequirement("영웅의 영혼석", 150), ItemRequirement("영혼이 봉인된 호리병", 4)]
    ensures forall j :: 0 <= j < |items| ==> items[j].name in CATALOGUE_MATERIALS
  {
  }

  lemma Listed153()
    ensures forall j :: 0 <= j < |MERCENARIES[8].items| ==> MERCENARIES[8].items[j].name in CATALOGUE_MATERIALS
  {
    Legend153();
    Items153Listed(MERCENARIES[8].items);
  }

  lemma Items152Listed(items: seq<ItemRequirement>)
    requires items == [ItemRequirement("불의속성석", 40), ItemRequirement("정기의구슬(火)", 25), ItemRequirement("불의정령석", 40), ItemRequirement("영웅의 영혼석", 150), ItemRequirement("영혼이 봉인된 호리병", 4)]
    ensures forall j :: 0 <= j < |items| ==> items[j].name in CATALOGUE_MATERIALS
  {
  }

  lemma Listed152()
    ensures forall j :: 0 <= j < |MERCENARIES[9].items| ==> MERCENARIES[9].items[j].name in CATALOGUE_MATERIALS
  {
    Legend152();
    Items152Listed(MERCENARIES[9].items);
  }

  lemma Items151Listed(items: seq<ItemRequirement>)
    requires items == [ItemRequirement("땅의속성석", 15), ItemRequirement("정기의구슬(地)", 15), ItemRequirement("땅의정령석", 15), ItemRequirement("영웅의 영혼석", 100), ItemRequirement("영혼이 봉인된 호리병", 4)]
    ensures forall j :: 0 <= j < |items| ==> items[j].name in CATALOGUE_MATERIALS
  {
  }

  lemma Listed151()
    ensures forall j :: 0 <= j < |MERCENARIES[10].items| ==> MERCENARIES[10].items[j].name in CATALOGUE_MATERIALS
  {
    Legend151();
    Items151Listed(MERCENARIES[10].items);
  }

  lemma Items150Listed(items: seq<ItemRequirement>)
    requires items == [ItemRequirement("불의속성석", 20), ItemRequirement("정기의구슬(火)", 20), ItemRequirement("불의정령석", 20), ItemRequirement("영웅의 영혼석", 100), ItemRequirement("영혼이 봉인된 호리병", 4)]
    ensures forall j :: 0 <= j < |items| ==> items[j].name in CATALOGUE_MATERIALS
  {
  }

  lemma Listed150()
    ensures forall j :: 0 <= j < |MERCENARIES[11].items| ==> MERCENARIES[11].items[j].name in CATALOGUE_MATERIALS
  {
    Legend150();
    Items150Listed(MERCENARIES[11].items);
  }

  lemma Items149Listed(items: seq<ItemRequirement>)
    requires items == [ItemRequirement("바람의속성석", 20), ItemRequirement("바람의정령석", 20), ItemRequirement("정기의구슬(風)", 20), ItemRequirement("영웅의 영혼석", 100), ItemRequirement("영혼이 봉인된 호리병", 4)]
    ensures forall j :: 0 <= j < |items| ==> items[j].name in CATALOGUE_MATERIALS
  {
  }

  lemma Listed149()
    ensures forall j :: 0 <= j < |MERCENARIES[12].items| ==> MERCENARIES[12].items[j].name in CATALOGUE_MATERIALS
  {
    Legend149();
    Items149Listed(MERCENARIES[12].items);
  }

  lemma Items148Listed(items: seq<ItemRequirement>)
    requires items == [ItemRequirement("물의속성석", 20), ItemRequirement("정기의구슬(水)", 20), ItemRequirement("물의정령석", 20), ItemRequirement("영웅의 영혼석", 100), ItemRequirement("영혼이 봉인된 호리병", 4)]
    ensures forall j :: 0 <= j < |items| ==> items[j].name in CATALOGUE_MATERIALS
  {
  }

  lemma Listed148()
    ensures forall j :: 0 <= j < |MERCENARIES[13].items| ==> MERCENARIES[13].items[j].name in CATALOGUE_MATERIALS
  {
    Legend148();
    Items148Listed(MERCENARIES[13].items);
  }

  lemma Items147Listed(items: seq<ItemRequirement>)
    requires items == [ItemRequirement("뇌전의속성석", 20), ItemRequirement("정기의구슬(雷)", 20), ItemRequirement("뇌전의정령석", 20), ItemRequirement("영웅의 영혼석", 100), ItemRequirement("영혼이 봉인된 호리병", 4)]
    ensures forall j :: 0 <= j < |items| ==> items[j].name in CATALOGUE_MATERIALS
  {
  }

  lemma Listed147()
    ensures forall j :: 0 <= j < |MERCENARIES[14].items| ==> MERCENARIES[14].items[j].name in CATALOGUE_MATERIALS
  {
    Legend147();
    Items147Listed(MERCENARIES[14].items);
  }

  /** Every legend's own materials are catalogue materials. */
  lemma LegendItemsListed()
    ensures forall k, j :: 0 <= k < |MERCENARIES| && 0 <= j < |MERCENARIES[k].items| ==>
              MERCENARIES[k].items[j].name in CATALOGUE_MATERIALS
  {
    forall k, j | 0 <= k < |MERCENARIES| && 0 <= j < |MERCENARIES[k].items|
      ensures MERCENARIES[k].items[j].name in CATALOGUE_MATERIALS
    {
      if k == 0 { Listed206(); }
      else if k == 1 { Listed160(); }
      else if k == 2 { Listed159(); }
      else if k == 3 { Listed158(); }
      else if k == 4 { Listed157(); }
      else if k == 5 { Listed156(); }
      else if k == 6 { Listed155(); }
      else if k == 7 { Listed154(); }
      else if k == 8 { Listed153(); }
      else if k == 9 { Listed152(); }
      else if k == 10 { Listed151(); }
      else if k == 11 { Listed150(); }
      else if k == 12 { Listed149(); }
      else if k == 13 { Listed148(); }
      else { Listed147(); }
    }
  }

  /** The awakening materials are catalogue materials. */
  lemma AwakeningListed(items: seq<ItemRequirement>)
    requires items == AWAKENING_MATERIALS
    ensures forall j :: 0 <= j < |items| ==> items[j].name in CATALOGUE_MATERIALS
  {
  }

  /** Whatever a legend supplies to the list is a catalogue material. */
  lemma SuppliedIsListed(k: nat, y: string)
    requires k < |MERCENARIES|
    requires Supplies(MERCENARIES[k], y)
    ensures y in CATALOGUE_MATERIALS
  {
    var m := MERCENARIES[k];
    if NameIn(y, m.items) {
      LegendItemsListed();
      var j :| 0 <= j < |m.items| && m.items[j].name == y;
    } else {
      var i :| 0 <= i < |m.childMercenaries| && ChildSupplies(m.childMercenaries[i], y);
      var c := m.childMercenaries[i];
      assert c in m.childMercenaries;
      ChildKinds(k);
      AwakeningListed(c.items);
      var j :| 0 <= j < |c.items| && c.items[j].name == y;
    }
  }

  /** A legend whose first listed awakened mercenary resolves supplies the
      awakening materials through it. */
  lemma AwakenedChildSupplies(k: nat)
    requires k < |LEGEND_ROWS|
    requires RowResolves(LEGEND_ROWS[k]) && |LEGEND_ROWS[k].awakened| > 0
    ensures Supplies(MERCENARIES[k], "영웅의 영혼석") && Supplies(MERCENARIES[k], "각성석")
  {
    var row := LEGEND_ROWS[k];
    var m := MERCENARIES[k];
    assert m == Legend(row);
    var aw := LookupChildren(AWAKENED_MERCENARIES, row.awakened);
    assert aw[0] == AWAKENED_MERCENARIES[row.awakened[0]];
    assert m.childMercenaries[0] == aw[0];
    AwakenedChildren(row.awakened);
    assert aw[0] in aw;
    assert m.childMercenaries[0].items[0].name == "영웅의 영혼석";
    assert m.childMercenaries[0].items[1].name == "각성석";
  }

  lemma Items206Supply(m: Mercenary)
    requires m.items == [ItemRequirement("땅의속성석", 30), ItemRequirement("정기의구슬(地)", 20), ItemRequirement("땅의정령석", 30), ItemRequirement("영웅의 영혼석", 150), ItemRequirement("영혼이 봉인된 호리병", 4)]
    ensures Supplies(m, "땅의속성석") && Supplies(m, "정기의구슬(地)") && Supplies(m, "땅의정령석") && Supplies(m, "영웅의 영혼석") && Supplies(m, "영혼이 봉인된 호리병")
  {
    assert m.items[0].name == "땅의속성석";
    assert m.items[1].name == "정기의구슬(地)";
    assert m.items[2].name == "땅의정령석";
    assert m.items[3].name == "영웅의 영혼석";
    assert m.items[4].name == "영혼이 봉인된 호리병";
  }

  lemma Supplies206()
    ensures Supplies(MERCENARIES[0], "땅의속성석") && Supplies(MERCENARIES[0], "정기의구슬(地)") && Supplies(MERCENARIES[0], "땅의정령석") && Supplies(MERCENARIES[0], "영웅의 영혼석") && Supplies(MERCENARIES[0], "영혼이 봉인된 호리병")
  {
    Legend206();
    Items206Supply(MERCENARIES[0]);
  }

  lemma Items160Supply(m: Mercenary)
    requires m.items == [ItemRequirement("뇌전의속성석", 40), ItemRequirement("정기의구슬(雷)", 25), ItemRequirement("뇌전의정령석", 40), ItemRequirement("영웅의 영혼석", 150), ItemRequirement("영혼이 봉인된 호리병", 4)]
    ensures Supplies(m, "뇌전의속성석") && Supplies(m, "정기의구슬(雷)") && Supplies(m, "뇌전의정령석") && Supplies(m, "영웅의 영혼석") && Supplies(m, "영혼이 봉인된 호리병")
  {
    assert m.items[0].name == "뇌전의속성석";
    assert m.items[1].name == "정기의구슬(雷)";
    assert m.items[2].name == "뇌전의정령석";
    assert m.items[3].name == "영웅의 영혼석";
    assert m.items[4].name == "영혼이 봉인된 호리병";
  }

  lemma Supplies160()
    ensures Supplies(MERCENARIES[1], "뇌전의속성석") && Supplies(MERCENARIES[1], "정기의구슬(雷)") && Supplies(MERCENARIES[1], "뇌전의정령석") && Supplies(MERCENARIES[1], "영웅의 영혼석") && Supplies(MERCENARIES[1], "영혼이 봉인된 호리병")
  {
    Legend160();
    Items160Supply(MERCENARIES[1]);
  }

  lemma Items159Supply(m: Mercenary)
    requires m.items == [ItemRequirement("물의속성석", 40), ItemRequirement("정기의구슬(水)", 25), ItemRequirement("물의정령석", 40), ItemRequirement("영웅의 영혼석", 150), ItemRequirement("영혼이 봉인된 호리병", 4)]
    ensures Supplies(m, "물의속성석") && Supplies(m, "정기의구슬(水)") && Supplies(m, "물의정령석") && Supplies(m, "영웅의 영혼석") && Supplies(m, "영혼이 봉인된 호리병")
  {
    assert m.items[0].name == "물의속성석";
    assert m.items[1].name == "정기의구슬(水)";
    assert m.items[2].name == "물의정령석";
    assert m.items[3].name == "영웅의 영혼석";
    assert m.items[4].name == "영혼이 봉인된 호리병";
  }

  lemma Supplies159()
    ensures Supplies(MERCENARIES[2], "물의속성석") && Supplies(MERCENARIES[2], "정기의구슬(水)") && Supplies(MERCENARIES[2], "물의정령석") && Supplies(MERCENARIES[2], "영웅의 영혼석") && Supplies(MERCENARIES[2], "영혼이 봉인된 호리병")
  {
    Legend159();
    Items159Supply(MERCENARIES[2]);
  }

  lemma Items158Supply(m: Mercenary)
    requires m.items == [ItemRequirement("불의속성석", 40), ItemRequirement("정기의구슬(火)", 25), ItemRequirement("불의정령석", 40), ItemRequirement("영웅의 영혼석", 150), ItemRequirement("영혼이 봉인된 호리병", 4)]
    ensures Supplies(m, "불의속성석") && Supplies(m, "정기의구슬(火)") && Supplies(m, "불의정령석") && Supplies(m, "영웅의 영혼석") && Supplies(m, "영혼이 봉인된 호리병")
  {
    assert m.items[0].name == "불의속성석";
    assert m.items[1].name == "정기의구슬(火)";
    assert m.items[2].name == "불의정령석";
    assert m.items[3].name == "영웅의 영혼석";
    assert m.items[4].name == "영혼이 봉인된 호리병";
  }

  lemma Supplies158()
    ensures Supplies(MERCENARIES[3], "불의속성석") && Supplies(MERCENARIES[3], "정기의구슬(火)") && Supplies(MERCENARIES[3], "불의정령석") && Supplies(MERCENARIES[3], "영웅의 영혼석") && Supplies(MERCENARIES[3], "영혼이 봉인된 호리병")
  {
    Legend158();
    Items158Supply(MERCENARIES[3]);
  }

  lemma Items157Supply(m: Mercenary)
    requires m.items == [ItemRequirement("바람의속성석", 40), ItemRequirement("정기의구슬(風)", 25), ItemRequirement("바람의정령석", 40), ItemRequirement("영웅의 영혼석", 150), ItemRequirement("영혼이 봉인된 호리병", 4)]
    ensures Supplies(m, "바람의속성석") && Supplies(m, "정기의구슬(風)") && Supplies(m, "바람의정령석") && Supplies(m, "영웅의 영혼석") && Supplies(m, "영혼이 봉인된 호리병")
  {
    assert m.items[0].name == "바람의속성석";
    assert m.items[1].name == "정기의구슬(風)";
    assert m.items[2].name == "바람의정령석";
    assert m.items[3].name == "영웅의 영혼석";
    assert m.items[4].name == "영혼이 봉인된 호리병";
  }

  lemma Supplies157()
    ensures Supplies(MERCENARIES[4], "바람의속성석") && Supplies(MERCENARIES[4], "정기의구슬(風)") && Supplies(MERCENARIES[4], "바람의정령석") && Supplies(MERCENARIES[4], "영웅의 영혼석") && Supplies(MERCENARIES[4], "영혼이 봉인된 호리병")
  {
    Legend157();
    Items157Supply(MERCENARIES[4]);
  }

  /** Each catalogue material is supplied by one of the first five legends. */
  lemma ListedIsSupplied(y: string)
    requires y in CATALOGUE_MATERIALS
    ensures exists k :: 0 <= k < |MERCENARIES| && Supplies(MERCENARIES[k], y)
  {
    if y in {"땅의속성석", "정기의구슬(地)", "땅의정령석", "영웅의 영혼석", "영혼이 봉인된 호리병"} {
      Supplies206();
      assert Supplies(MERCENARIES[0], y);
    }
    else if y in {"뇌전의속성석", "정기의구슬(雷)", "뇌전의정령석"} {
      Supplies160();
      assert Supplies(MERCENARIES[1], y);
    }
    else if y in {"물의속성석", "정기의구슬(水)", "물의정령석"} {
      Supplies159();
      assert Supplies(MERCENARIES[2], y);
    }
    else if y in {"불의속성석", "정기의구슬(火)", "불의정령석"} {
      Supplies158();
      assert Supplies(MERCENARIES[3], y);
    }
    else if y in {"바람의속성석", "정기의구슬(風)", "바람의정령석"} {
      Supplies157();
      assert Supplies(MERCENARIES[4], y);
    }
    else {
      assert y == "각성석";
      Row0Consistent();
      AwakenedChildSupplies(0);
      assert Supplies(MERCENARIES[0], y);
    }
  }

  /** `getAllUniqueItems` lists exactly the eighteen catalogue materials,
      each once. */
  lemma AllUniqueItemsListed()
    ensures forall y :: y in ALL_UNIQUE_ITEMS <==> y in CATALOGUE_MATERIALS
    ensures NoDuplicates(ALL_UNIQUE_ITEMS)
  {
    forall y
      ensures y in ALL_UNIQUE_ITEMS <==> y in CATALOGUE_MATERIALS
    {
      if y in ALL_UNIQUE_ITEMS {
        var k :| 0 <= k < |MERCENARIES| && Supplies(MERCENARIES[k], y);
        SuppliedIsListed(k, y);
      }
      if y in CATALOGUE_MATERIALS {
        ListedIsSupplied(y);
      }
    }
  }

  /** No material of a modified mercenary reaches the price lookups. */
  lemma NoModifiedItemListed()
    ensures forall y :: y in ALL_UNIQUE_ITEMS ==> !IsModifiedMercenaryItem(y)
  {
    AllUniqueItemsListed();
    CatalogueMaterialsSold();
  }

  /** The unsold materials and the catalogue materials are apart. */
  lemma CatalogueMaterialsSold()
    ensures forall y :: y in CATALOGUE_MATERIALS ==> !IsModifiedMercenaryItem(y)
  {
  }
}

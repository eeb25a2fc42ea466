/** The fixed data of src/constants/blocks.ts: the closed block enumeration, the default
    and example documents and the note colour tables. */
module Blocks {
  import opened Wrappers
  import opened CanvasTypes
  import opened Seqs

  /** The 13 block keys, in display order. */
  const BLOCK_IDS: seq<string> := [
    "suppliers",
    "problem",
    "primaryFunctions",
    "solution",
    "essentialAssets",
    "keyMetrics",
    "valuePropositions",
    "unfairAdvantage",
    "channels",
    "customerRelationships",
    "customerSegments",
    "costStructure",
    "revenueStreams"
  ]

  function BlockIdSet(): set<string> {
    set k | k in BLOCK_IDS
  }

  /** The document invariant: exactly the 13 keys, and each block records its own key. */
  ghost predicate WellFormed(d: CanvasData) {
    d.blocks.Keys == BlockIdSet() && forall k :: k in d.blocks ==> d.blocks[k].id == k
  }

  /** Every note of a document, block by block in `BLOCK_IDS` order. */
  function AllNotes(d: CanvasData): seq<Note> {
    NotesOf(d, BLOCK_IDS)
  }

  function NotesOf(d: CanvasData, keys: seq<string>): seq<Note> {
    if keys == [] then []
    else (if keys[0] in d.blocks then d.blocks[keys[0]].notes else []) + NotesOf(d, keys[1..])
  }

  const DEFAULT_DATA: CanvasData := CanvasData(
    CanvasMeta("My Awesome Startup", "EBMC-13 Strategy Canvas", "", None, None, None, None, None),
    map[
      "suppliers" := BlockData("suppliers", "11. Suppliers", "۱۱. تامین‌کنندگان", []),
      "problem" := BlockData("problem", "1. Problem", "۱. مسئله", [
          Note("n1", "Inefficiency", "Current solutions are too slow.", "yellow")]),
      "primaryFunctions" := BlockData("primaryFunctions", "12. Primary Functions", "۱۲. فعالیت‌های اصلی", []),
      "solution" := BlockData("solution", "2. Solution", "۲. راه‌حل", []),
      "essentialAssets" := BlockData("essentialAssets", "13. Essential Assets", "۱۳. دارایی‌های ضروری", []),
      "keyMetrics" := BlockData("keyMetrics", "3. Key Metrics", "۳. سنجه‌های کلیدی", []),
      "valuePropositions" := BlockData("valuePropositions", "5. Value Propositions", "۵. ارزش پیشنهادی", [
          Note("n2", "Speed", "10x Faster than incumbents.", "green")]),
      "unfairAdvantage" := BlockData("unfairAdvantage", "4. Unfair Advantage", "۴. مزیت مطلق", []),
      "channels" := BlockData("channels", "7. Channels", "۷. کانال‌ها", []),
      "customerRelationships" := BlockData("customerRelationships", "8. Customer Relationships", "۸. ارتباط با مشتریان", []),
      "customerSegments" := BlockData("customerSegments", "6. Customer Segments", "۶. بخش‌های مشتریان", [
          Note("n3", "Gen Z", "Tech savvy users.", "blue")]),
      "costStructure" := BlockData("costStructure", "10. Cost Structure", "۱۰. ساختار هزینه‌ها", []),
      "revenueStreams" := BlockData("revenueStreams", "9. Revenue Streams", "۹. جریان‌های درآمدی", [])
    ])

  /** The example document, block by block. */
  const SEED_SUPPLIERS: BlockData := BlockData("suppliers", "11. Suppliers", "۱۱. تامین‌کنندگان", [
      Note("s1", "Battery Corp", "Long-range lithium cells provider.", "blue"),
      Note("s2", "City Council", "Permits and charging zones.", "yellow")])

  const SEED_PROBLEM: BlockData := BlockData("problem", "1. Problem", "۱. مسئله", [
      Note("p1", "Traffic Jams", "Commuting takes too long in CBD.", "pink"),
      Note("p2", "Pollution", "High carbon footprint of cars.", "pink")])

  const SEED_PRIMARY_FUNCTIONS: BlockData := BlockData("primaryFunctions", "12. Primary Functions", "۱۲. فعالیت‌های اصلی", [
      Note("pf1", "Fleet Mgmt", "Daily charging & repairs.", "green"),
      Note("pf2", "App Dev", "User experience & tracking.", "green")])

  const SEED_SOLUTION: BlockData := BlockData("solution", "2. Solution", "۲. راه‌حل", [
      Note("sol1", "E-Scooters", "Deployable anywhere, unlock via app.", "yellow")])

  const SEED_ESSENTIAL_ASSETS: BlockData := BlockData("essentialAssets", "13. Essential Assets", "۱۳. دارایی‌های ضروری", [
      Note("ea1", "The Fleet", "500 Initial Scooters.", "blue"),
      Note("ea2", "Charging Hubs", "Strategically placed warehouses.", "blue")])

  const SEED_KEY_METRICS: BlockData := BlockData("keyMetrics", "3. Key Metrics", "۳. سنجه‌های کلیدی", [
      Note("km1", "Rides/Day", "Target: 4 rides per scooter.", "green"),
      Note("km2", "CAC", "Cost to acquire rider < $5.", "yellow")])

  const SEED_VALUE_PROPOSITIONS: BlockData := BlockData("valuePropositions", "5. Value Propositions", "۵. ارزش پیشنهادی", [
      Note("vp1", "Fast Commute", "Bypass traffic instantly.", "green"),
      Note("vp2", "Eco-Friendly", "Zero emissions ride.", "green"),
      Note("vp3", "Affordable", "Cheaper than Uber/Taxi.", "green")])

  const SEED_UNFAIR_ADVANTAGE: BlockData := BlockData("unfairAdvantage", "4. Unfair Advantage", "۴. مزیت مطلق", [
      Note("ua1", "Exclusive Deal", "3-year exclusive city contract.", "blue")])

  const SEED_CHANNELS: BlockData := BlockData("channels", "7. Channels", "۷. کانال‌ها", [
      Note("ch1", "Mobile App", "iOS and Android Store.", "yellow"),
      Note("ch2", "Social Media", "Instagram local influencers.", "yellow")])

  const SEED_CUSTOMER_RELATIONSHIPS: BlockData := BlockData("customerRelationships", "8. Customer Relationships", "۸. ارتباط با مشتریان", [
      Note("cr1", "Automated", "Self-service via app.", "blue"),
      Note("cr2", "Support Chat", "24/7 in-app assistance.", "blue")])

  const SEED_CUSTOMER_SEGMENTS: BlockData := BlockData("customerSegments", "6. Customer Segments", "۶. بخش‌های مشتریان", [
      Note("cs1", "Commuters", "Daily office workers.", "pink"),
      Note("cs2", "Students", "University campus travel.", "pink"),
      Note("cs3", "Tourists", "City exploration.", "pink")])

  const SEED_COST_STRUCTURE: BlockData := BlockData("costStructure", "10. Cost Structure", "۱۰. ساختار هزینه‌ها", [
      Note("cst1", "Hardware", "Scooter purchase & depreciation.", "red"),
      Note("cst2", "Charging", "Electricity and \"Juicer\" labor.", "red")])

  const SEED_REVENUE_STREAMS: BlockData := BlockData("revenueStreams", "9. Revenue Streams", "۹. جریان‌های درآمدی", [
      Note("rs1", "Unlock Fee", "$1 per ride start.", "green"),
      Note("rs2", "Per Minute", "$0.15 per minute riding.", "green")])

  const SEED_DATA: CanvasData := CanvasData(
    CanvasMeta("EcoScoot", "Urban Electric Mobility Platform", "", None, None, None, None, None),
    map[
      "suppliers" := SEED_SUPPLIERS,
      "problem" := SEED_PROBLEM,
      "primaryFunctions" := SEED_PRIMARY_FUNCTIONS,
      "solution" := SEED_SOLUTION,
      "essentialAssets" := SEED_ESSENTIAL_ASSETS,
      "keyMetrics" := SEED_KEY_METRICS,
      "valuePropositions" := SEED_VALUE_PROPOSITIONS,
      "unfairAdvantage" := SEED_UNFAIR_ADVANTAGE,
      "channels" := SEED_CHANNELS,
      "customerRelationships" := SEED_CUSTOMER_RELATIONSHIPS,
      "customerSegments" := SEED_CUSTOMER_SEGMENTS,
      "costStructure" := SEED_COST_STRUCTURE,
      "revenueStreams" := SEED_REVENUE_STREAMS
    ])

  /** Tailwind classes per colour name. */
  const NOTE_COLORS: map<string, string> := map[
    "yellow" := "bg-yellow-100 border-yellow-200 text-yellow-900",
    "blue" := "bg-blue-100 border-blue-200 text-blue-900",
    "green" := "bg-green-100 border-green-200 text-green-900",
    "pink" := "bg-pink-100 border-pink-200 text-pink-900",
    "red" := "bg-red-100 border-red-200 text-red-900"
  ]

  /** Swatch colours per colour name. */
  const NOTE_COLOR_VALUES: map<string, string> := map[
    "yellow" := "#fef3c7",
    "blue" := "#dbeafe",
    "green" := "#dcfce7",
    "pink" := "#fce7f3",
    "red" := "#fee2e2"
  ]

  function NoteColorNames(): set<string> {
    set c | c in ALL_NOTE_COLORS :: c.Name()
  }

  /** The enumeration has 13 pairwise distinct keys. */
  lemma BlockIdsDistinct()
    ensures |BLOCK_IDS| == 13 && |BlockIdSet()| == 13
    ensures forall i, j :: 0 <= i < j < |BLOCK_IDS| ==> BLOCK_IDS[i] != BLOCK_IDS[j]
  {
    DistinctCard(BLOCK_IDS);
  }

  /** The default document has exactly the 13 keys, each block carrying its own key. */
  lemma DefaultDataWellFormed()
    ensures WellFormed(DEFAULT_DATA)
  {
  }

  /** The example document has exactly the 13 keys, each block carrying its own key. */
  lemma SeedDataWellFormed()
    ensures WellFormed(SEED_DATA)
  {
  }

  lemma SeedIdsFrom12()
    ensures Ids(NotesOf(SEED_DATA, BLOCK_IDS[12..])) == ["rs1", "rs2"]
  {
    var head, tail := SEED_DATA.blocks["revenueStreams"].notes, NotesOf(SEED_DATA, BLOCK_IDS[13..]);
    assert Ids(tail) == [] by { assert BLOCK_IDS[13..] == []; }
    assert Ids(head) == ["rs1", "rs2"] by { assert SEED_DATA.blocks["revenueStreams"] == SEED_REVENUE_STREAMS; }
    assert NotesOf(SEED_DATA, BLOCK_IDS[12..]) == head + tail by {
      assert BLOCK_IDS[12] == "revenueStreams";
      NotesOfSuffix(SEED_DATA, 12);
    }
    IdsAppend(head, tail);
    assert Ids(head) + [] == Ids(head);
  }

  lemma SeedIdsFrom11()
    ensures Ids(NotesOf(SEED_DATA, BLOCK_IDS[11..])) == ["cst1", "cst2"] + (["rs1", "rs2"])
  {
    var head, tail := SEED_DATA.blocks["costStructure"].notes, NotesOf(SEED_DATA, BLOCK_IDS[12..]);
    assert Ids(tail) == ["rs1", "rs2"] by { SeedIdsFrom12(); }
    assert Ids(head) == ["cst1", "cst2"] by { assert SEED_DATA.blocks["costStructure"] == SEED_COST_STRUCTURE; }
    assert NotesOf(SEED_DATA, BLOCK_IDS[11..]) == head + tail by {
      assert BLOCK_IDS[11] == "costStructure";
      NotesOfSuffix(SEED_DATA, 11);
    }
    IdsAppend(head, tail);
  }

  lemma SeedIdsFrom10()
    ensures Ids(NotesOf(SEED_DATA, BLOCK_IDS[10..])) == ["cs1", "cs2", "cs3"] + (["cst1", "cst2"] + (["rs1", "rs2"]))
  {
    var head, tail := SEED_DATA.blocks["customerSegments"].notes, NotesOf(SEED_DATA, BLOCK_IDS[11..]);
    assert Ids(tail) == ["cst1", "cst2"] + (["rs1", "rs2"]) by { SeedIdsFrom11(); }
    assert Ids(head) == ["cs1", "cs2", "cs3"] by { assert SEED_DATA.blocks["customerSegments"] == SEED_CUSTOMER_SEGMENTS; }
    assert NotesOf(SEED_DATA, BLOCK_IDS[10..]) == head + tail by {
      assert BLOCK_IDS[10] == "customerSegments";
      NotesOfSuffix(SEED_DATA, 10);
    }
    IdsAppend(head, tail);
  }

  lemma SeedIdsFrom9()
    ensures Ids(NotesOf(SEED_DATA, BLOCK_IDS[9..])) == ["cr1", "cr2"] + (["cs1", "cs2", "cs3"] + (["cst1", "cst2"] + (["rs1", "rs2"])))
  {
    var head, tail := SEED_DATA.blocks["customerRelationships"].notes, NotesOf(SEED_DATA, BLOCK_IDS[10..]);
    assert Ids(tail) == ["cs1", "cs2", "cs3"] + (["cst1", "cst2"] + (["rs1", "rs2"])) by { SeedIdsFrom10(); }
    assert Ids(head) == ["cr1", "cr2"] by { assert SEED_DATA.blocks["customerRelationships"] == SEED_CUSTOMER_RELATIONSHIPS; }
    assert NotesOf(SEED_DATA, BLOCK_IDS[9..]) == head + tail by {
      assert BLOCK_IDS[9] == "customerRelationships";
      NotesOfSuffix(SEED_DATA, 9);
    }
    IdsAppend(head, tail);
  }

  lemma SeedIdsFrom8()
    ensures Ids(NotesOf(SEED_DATA, BLOCK_IDS[8..])) == ["ch1", "ch2"] + (["cr1", "cr2"] + (["cs1", "cs2", "cs3"] + (["cst1", "cst2"] + (["rs1", "rs2"]))))
  {
    var head, tail := SEED_DATA.blocks["channels"].notes, NotesOf(SEED_DATA, BLOCK_IDS[9..]);
    assert Ids(tail) == ["cr1", "cr2"] + (["cs1", "cs2", "cs3"] + (["cst1", "cst2"] + (["rs1", "rs2"]))) by { SeedIdsFrom9(); }
    assert Ids(head) == ["ch1", "ch2"] by { assert SEED_DATA.blocks["channels"] == SEED_CHANNELS; }
    assert NotesOf(SEED_DATA, BLOCK_IDS[8..]) == head + tail by {
      assert BLOCK_IDS[8] == "channels";
      NotesOfSuffix(SEED_DATA, 8);
    }
    IdsAppend(head, tail);
  }

  lemma SeedIdsFrom7()
    ensures Ids(NotesOf(SEED_DATA, BLOCK_IDS[7..])) == ["ua1"] + (["ch1", "ch2"] + (["cr1", "cr2"] + (["cs1", "cs2", "cs3"] + (["cst1", "cst2"] + (["rs1", "rs2"])))))
  {
    var head, tail := SEED_DATA.blocks["unfairAdvantage"].notes, NotesOf(SEED_DATA, BLOCK_IDS[8..]);
    assert Ids(tail) == ["ch1", "ch2"] + (["cr1", "cr2"] + (["cs1", "cs2", "cs3"] + (["cst1", "cst2"] + (["rs1", "rs2"])))) by { SeedIdsFrom8(); }
    assert Ids(head) == ["ua1"] by { assert SEED_DATA.blocks["unfairAdvantage"] == SEED_UNFAIR_ADVANTAGE; }
    assert NotesOf(SEED_DATA, BLOCK_IDS[7..]) == head + tail by {
      assert BLOCK_IDS[7] == "unfairAdvantage";
      NotesOfSuffix(SEED_DATA, 7);
    }
    IdsAppend(head, tail);
  }

  lemma SeedIdsFrom6()
    ensures Ids(NotesOf(SEED_DATA, BLOCK_IDS[6..])) == ["vp1", "vp2", "vp3"] + (["ua1"] + (["ch1", "ch2"] + (["cr1", "cr2"] + (["cs1", "cs2", "cs3"] + (["cst1", "cst2"] + (["rs1", "rs2"]))))))
  {
    var head, tail := SEED_DATA.blocks["valuePropositions"].notes, NotesOf(SEED_DATA, BLOCK_IDS[7..]);
    assert Ids(tail) == ["ua1"] + (["ch1", "ch2"] + (["cr1", "cr2"] + (["cs1", "cs2", "cs3"] + (["cst1", "cst2"] + (["rs1", "rs2"]))))) by { SeedIdsFrom7(); }
    assert Ids(head) == ["vp1", "vp2", "vp3"] by { assert SEED_DATA.blocks["valuePropositions"] == SEED_VALUE_PROPOSITIONS; }
    assert NotesOf(SEED_DATA, BLOCK_IDS[6..]) == head + tail by {
      assert BLOCK_IDS[6] == "valuePropositions";
      NotesOfSuffix(SEED_DATA, 6);
    }
    IdsAppend(head, tail);
  }

  lemma SeedIdsFrom5()
    ensures Ids(NotesOf(SEED_DATA, BLOCK_IDS[5..])) == ["km1", "km2"] + (["vp1", "vp2", "vp3"] + (["ua1"] + (["ch1", "ch2"] + (["cr1", "cr2"] + (["cs1", "cs2", "cs3"] + (["cst1", "cst2"] + (["rs1", "rs2"])))))))
  {
    var head, tail := SEED_DATA.blocks["keyMetrics"].notes, NotesOf(SEED_DATA, BLOCK_IDS[6..]);
    assert Ids(tail) == ["vp1", "vp2", "vp3"] + (["ua1"] + (["ch1", "ch2"] + (["cr1", "cr2"] + (["cs1", "cs2", "cs3"] + (["cst1", "cst2"] + (["rs1", "rs2"])))))) by { SeedIdsFrom6(); }
    assert Ids(head) == ["km1", "km2"] by { assert SEED_DATA.blocks["keyMetrics"] == SEED_KEY_METRICS; }
    assert NotesOf(SEED_DATA, BLOCK_IDS[5..]) == head + tail by {
      assert BLOCK_IDS[5] == "keyMetrics";
      NotesOfSuffix(SEED_DATA, 5);
    }
    IdsAppend(head, tail);
  }

  lemma SeedIdsFrom4()
    ensures Ids(NotesOf(SEED_DATA, BLOCK_IDS[4..])) == ["ea1", "ea2"] + (["km1", "km2"] + (["vp1", "vp2", "vp3"] + (["ua1"] + (["ch1", "ch2"] + (["cr1", "cr2"] + (["cs1", "cs2", "cs3"] + (["cst1", "cst2"] + (["rs1", "rs2"]))))))))
  {
    var head, tail := SEED_DATA.blocks["essentialAssets"].notes, NotesOf(SEED_DATA, BLOCK_IDS[5..]);
    assert Ids(tail) == ["km1", "km2"] + (["vp1", "vp2", "vp3"] + (["ua1"] + (["ch1", "ch2"] + (["cr1", "cr2"] + (["cs1", "cs2", "cs3"] + (["cst1", "cst2"] + (["rs1", "rs2"]))))))) by { SeedIdsFrom5(); }
    assert Ids(head) == ["ea1", "ea2"] by { assert SEED_DATA.blocks["essentialAssets"] == SEED_ESSENTIAL_ASSETS; }
    assert NotesOf(SEED_DATA, BLOCK_IDS[4..]) == head + tail by {
      assert BLOCK_IDS[4] == "essentialAssets";
      NotesOfSuffix(SEED_DATA, 4);
    }
    IdsAppend(head, tail);
  }

  lemma SeedIdsFrom3()
    ensures Ids(NotesOf(SEED_DATA, BLOCK_IDS[3..])) == ["sol1"] + (["ea1", "ea2"] + (["km1", "km2"] + (["vp1", "vp2", "vp3"] + (["ua1"] + (["ch1", "ch2"] + (["cr1", "cr2"] + (["cs1", "cs2", "cs3"] + (["cst1", "cst2"] + (["rs1", "rs2"])))))))))
  {
    var head, tail := SEED_DATA.blocks["solution"].notes, NotesOf(SEED_DATA, BLOCK_IDS[4..]);
    assert Ids(tail) == ["ea1", "ea2"] + (["km1", "km2"] + (["vp1", "vp2", "vp3"] + (["ua1"] + (["ch1", "ch2"] + (["cr1", "cr2"] + (["cs1", "cs2", "cs3"] + (["cst1", "cst2"] + (["rs1", "rs2"])))))))) by { SeedIdsFrom4(); }
    assert Ids(head) == ["sol1"] by { assert SEED_DATA.blocks["solution"] == SEED_SOLUTION; }
    assert NotesOf(SEED_DATA, BLOCK_IDS[3..]) == head + tail by {
      assert BLOCK_IDS[3] == "solution";
      NotesOfSuffix(SEED_DATA, 3);
    }
    IdsAppend(head, tail);
  }

  lemma SeedIdsFrom2()
    ensures Ids(NotesOf(SEED_DATA, BLOCK_IDS[2..])) == ["pf1", "pf2"] + (["sol1"] + (["ea1", "ea2"] + (["km1", "km2"] + (["vp1", "vp2", "vp3"] + (["ua1"] + (["ch1", "ch2"] + (["cr1", "cr2"] + (["cs1", "cs2", "cs3"] + (["cst1", "cst2"] + (["rs1", "rs2"]))))))))))
  {
    var head, tail := SEED_DATA.blocks["primaryFunctions"].notes, NotesOf(SEED_DATA, BLOCK_IDS[3..]);
    assert Ids(tail) == ["sol1"] + (["ea1", "ea2"] + (["km1", "km2"] + (["vp1", "vp2", "vp3"] + (["ua1"] + (["ch1", "ch2"] + (["cr1", "cr2"] + (["cs1", "cs2", "cs3"] + (["cst1", "cst2"] + (["rs1", "rs2"]))))))))) by { SeedIdsFrom3(); }
    assert Ids(head) == ["pf1", "pf2"] by { assert SEED_DATA.blocks["primaryFunctions"] == SEED_PRIMARY_FUNCTIONS; }
    assert NotesOf(SEED_DATA, BLOCK_IDS[2..]) == head + tail by {
      assert BLOCK_IDS[2] == "primaryFunctions";
      NotesOfSuffix(SEED_DATA, 2);
    }
    IdsAppend(head, tail);
  }

  lemma SeedIdsFrom1()
    ensures Ids(NotesOf(SEED_DATA, BLOCK_IDS[1..])) == ["p1", "p2"] + (["pf1", "pf2"] + (["sol1"] + (["ea1", "ea2"] + (["km1", "km2"] + (["vp1", "vp2", "vp3"] + (["ua1"] + (["ch1", "ch2"] + (["cr1", "cr2"] + (["cs1", "cs2", "cs3"] + (["cst1", "cst2"] + (["rs1", "rs2"])))))))))))
  {
    var head, tail := SEED_DATA.blocks["problem"].notes, NotesOf(SEED_DATA, BLOCK_IDS[2..]);
    assert Ids(tail) == ["pf1", "pf2"] + (["sol1"] + (["ea1", "ea2"] + (["km1", "km2"] + (["vp1", "vp2", "vp3"] + (["ua1"] + (["ch1", "ch2"] + (["cr1", "cr2"] + (["cs1", "cs2", "cs3"] + (["cst1", "cst2"] + (["rs1", "rs2"])))))))))) by { SeedIdsFrom2(); }
    assert Ids(head) == ["p1", "p2"] by { assert SEED_DATA.blocks["problem"] == SEED_PROBLEM; }
    assert NotesOf(SEED_DATA, BLOCK_IDS[1..]) == head + tail by {
      assert BLOCK_IDS[1] == "problem";
      NotesOfSuffix(SEED_DATA, 1);
    }
    IdsAppend(head, tail);
  }

  lemma SeedIdsFrom0()
    ensures Ids(NotesOf(SEED_DATA, BLOCK_IDS[0..])) == ["s1", "s2"] + (["p1", "p2"] + (["pf1", "pf2"] + (["sol1"] + (["ea1", "ea2"] + (["km1", "km2"] + (["vp1", "vp2", "vp3"] + (["ua1"] + (["ch1", "ch2"] + (["cr1", "cr2"] + (["cs1", "cs2", "cs3"] + (["cst1", "cst2"] + (["rs1", "rs2"]))))))))))))
  {
    var head, tail := SEED_DATA.blocks["suppliers"].notes, NotesOf(SEED_DATA, BLOCK_IDS[1..]);
    assert Ids(tail) == ["p1", "p2"] + (["pf1", "pf2"] + (["sol1"] + (["ea1", "ea2"] + (["km1", "km2"] + (["vp1", "vp2", "vp3"] + (["ua1"] + (["ch1", "ch2"] + (["cr1", "cr2"] + (["cs1", "cs2", "cs3"] + (["cst1", "cst2"] + (["rs1", "rs2"]))))))))))) by { SeedIdsFrom1(); }
    assert Ids(head) == ["s1", "s2"] by { assert SEED_DATA.blocks["suppliers"] == SEED_SUPPLIERS; }
    assert NotesOf(SEED_DATA, BLOCK_IDS[0..]) == head + tail by {
      assert BLOCK_IDS[0] == "suppliers";
      NotesOfSuffix(SEED_DATA, 0);
    }
    IdsAppend(head, tail);
  }

  lemma NotesOfSuffix(d: CanvasData, i: nat)
    requires i < |BLOCK_IDS| && BLOCK_IDS[i] in d.blocks
    ensures NotesOf(d, BLOCK_IDS[i..]) == d.blocks[BLOCK_IDS[i]].notes + NotesOf(d, BLOCK_IDS[i + 1..])
  {
    assert BLOCK_IDS[i..][1..] == BLOCK_IDS[i + 1..];
  }

  /** Every block of the example document has at least one note. */
  lemma SeedBlocksNonEmpty()
    ensures forall k :: k in SEED_DATA.blocks ==> |SEED_DATA.blocks[k].notes| >= 1
  {
  }

  /** The example document's note ids, in `BLOCK_IDS` order. */
  lemma SeedNoteIds()
    ensures Ids(AllNotes(SEED_DATA)) == SEED_NOTE_IDS
  {
    SeedIdsFrom0();
    assert BLOCK_IDS[0..] == BLOCK_IDS;
  }

  /** The example document's note ids, in `BLOCK_IDS` order. */
  const SEED_NOTE_IDS: seq<string> :=
    ["s1", "s2"] + (["p1", "p2"] + (["pf1", "pf2"] + (["sol1"] + (["ea1", "ea2"] + (["km1", "km2"] + (["vp1", "vp2", "vp3"] + (["ua1"] + (["ch1", "ch2"] + (["cr1", "cr2"] + (["cs1", "cs2", "cs3"] + (["cst1", "cst2"] + (["rs1", "rs2"]))))))))))))

  lemma SeedNoteIdListDistinct()
    ensures |SEED_NOTE_IDS| == 26 && Distinct(SEED_NOTE_IDS)
  {
    SeedIdsDistinctFrom0();
  }

  lemma SeedIdsDistinctFrom11()
    ensures Distinct(["cst1", "cst2"] + (["rs1", "rs2"]))
  {
    DistinctAppend(["cst1", "cst2"], ["rs1", "rs2"]);
  }

  lemma SeedIdsDistinctFrom10()
    ensures Distinct(["cs1", "cs2", "cs3"] + (["cst1", "cst2"] + (["rs1", "rs2"])))
  {
    SeedIdsDistinctFrom11();
    DistinctAppend(["cs1", "cs2", "cs3"], ["cst1", "cst2"] + (["rs1", "rs2"]));
  }

  lemma SeedIdsDistinctFrom9()
    ensures Distinct(["cr1", "cr2"] + (["cs1", "cs2", "cs3"] + (["cst1", "cst2"] + (["rs1", "rs2"]))))
  {
    SeedIdsDistinctFrom10();
    DistinctAppend(["cr1", "cr2"], ["cs1", "cs2", "cs3"] + (["cst1", "cst2"] + (["rs1", "rs2"])));
  }

  lemma SeedIdsDistinctFrom8()
    ensures Distinct(["ch1", "ch2"] + (["cr1", "cr2"] + (["cs1", "cs2", "cs3"] + (["cst1", "cst2"] + (["rs1", "rs2"])))))
  {
    SeedIdsDistinctFrom9();
    DistinctAppend(["ch1", "ch2"], ["cr1", "cr2"] + (["cs1", "cs2", "cs3"] + (["cst1", "cst2"] + (["rs1", "rs2"]))));
  }

  lemma SeedIdsDistinctFrom7()
    ensures Distinct(["ua1"] + (["ch1", "ch2"] + (["cr1", "cr2"] + (["cs1", "cs2", "cs3"] + (["cst1", "cst2"] + (["rs1", "rs2"]))))))
  {
    SeedIdsDistinctFrom8();
    DistinctAppend(["ua1"], ["ch1", "ch2"] + (["cr1", "cr2"] + (["cs1", "cs2", "cs3"] + (["cst1", "cst2"] + (["rs1", "rs2"])))));
  }

  lemma SeedIdsDistinctFrom6()
    ensures Distinct(["vp1", "vp2", "vp3"] + (["ua1"] + (["ch1", "ch2"] + (["cr1", "cr2"] + (["cs1", "cs2", "cs3"] + (["cst1", "cst2"] + (["rs1", "rs2"])))))))
  {
    SeedIdsDistinctFrom7();
    DistinctAppend(["vp1", "vp2", "vp3"], ["ua1"] + (["ch1", "ch2"] + (["cr1", "cr2"] + (["cs1", "cs2", "cs3"] + (["cst1", "cst2"] + (["rs1", "rs2"]))))));
  }

  lemma SeedIdsDistinctFrom5()
    ensures Distinct(["km1", "km2"] + (["vp1", "vp2", "vp3"] + (["ua1"] + (["ch1", "ch2"] + (["cr1", "cr2"] + (["cs1", "cs2", "cs3"] + (["cst1", "cst2"] + (["rs1", "rs2"]))))))))
  {
    SeedIdsDistinctFrom6();
    DistinctAppend(["km1", "km2"], ["vp1", "vp2", "vp3"] + (["ua1"] + (["ch1", "ch2"] + (["cr1", "cr2"] + (["cs1", "cs2", "cs3"] + (["cst1", "cst2"] + (["rs1", "rs2"])))))));
  }

  lemma SeedIdsDistinctFrom4()
    ensures Distinct(["ea1", "ea2"] + (["km1", "km2"] + (["vp1", "vp2", "vp3"] + (["ua1"] + (["ch1", "ch2"] + (["cr1", "cr2"] + (["cs1", "cs2", "cs3"] + (["cst1", "cst2"] + (["rs1", "rs2"])))))))))
  {
    SeedIdsDistinctFrom5();
    DistinctAppend(["ea1", "ea2"], ["km1", "km2"] + (["vp1", "vp2", "vp3"] + (["ua1"] + (["ch1", "ch2"] + (["cr1", "cr2"] + (["cs1", "cs2", "cs3"] + (["cst1", "cst2"] + (["rs1", "rs2"]))))))));
  }

  lemma SeedIdsDistinctFrom3()
    ensures Distinct(["sol1"] + (["ea1", "ea2"] + (["km1", "km2"] + (["vp1", "vp2", "vp3"] + (["ua1"] + (["ch1", "ch2"] + (["cr1", "cr2"] + (["cs1", "cs2", "cs3"] + (["cst1", "cst2"] + (["rs1", "rs2"]))))))))))
  {
    SeedIdsDistinctFrom4();
    DistinctAppend(["sol1"], ["ea1", "ea2"] + (["km1", "km2"] + (["vp1", "vp2", "vp3"] + (["ua1"] + (["ch1", "ch2"] + (["cr1", "cr2"] + (["cs1", "cs2", "cs3"] + (["cst1", "cst2"] + (["rs1", "rs2"])))))))));
  }

  lemma SeedIdsDistinctFrom2()
    ensures Distinct(["pf1", "pf2"] + (["sol1"] + (["ea1", "ea2"] + (["km1", "km2"] + (["vp1", "vp2", "vp3"] + (["ua1"] + (["ch1", "ch2"] + (["cr1", "cr2"] + (["cs1", "cs2", "cs3"] + (["cst1", "cst2"] + (["rs1", "rs2"])))))))))))
  {
    SeedIdsDistinctFrom3();
    DistinctAppend(["pf1", "pf2"], ["sol1"] + (["ea1", "ea2"] + (["km1", "km2"] + (["vp1", "vp2", "vp3"] + (["ua1"] + (["ch1", "ch2"] + (["cr1", "cr2"] + (["cs1", "cs2", "cs3"] + (["cst1", "cst2"] + (["rs1", "rs2"]))))))))));
  }

  lemma SeedIdsDistinctFrom1()
    ensures Distinct(["p1", "p2"] + (["pf1", "pf2"] + (["sol1"] + (["ea1", "ea2"] + (["km1", "km2"] + (["vp1", "vp2", "vp3"] + (["ua1"] + (["ch1", "ch2"] + (["cr1", "cr2"] + (["cs1", "cs2", "cs3"] + (["cst1", "cst2"] + (["rs1", "rs2"]))))))))))))
  {
    SeedIdsDistinctFrom2();
    DistinctAppend(["p1", "p2"], ["pf1", "pf2"] + (["sol1"] + (["ea1", "ea2"] + (["km1", "km2"] + (["vp1", "vp2", "vp3"] + (["ua1"] + (["ch1", "ch2"] + (["cr1", "cr2"] + (["cs1", "cs2", "cs3"] + (["cst1", "cst2"] + (["rs1", "rs2"])))))))))));
  }

  lemma SeedIdsDistinctFrom0()
    ensures Distinct(["s1", "s2"] + (["p1", "p2"] + (["pf1", "pf2"] + (["sol1"] + (["ea1", "ea2"] + (["km1", "km2"] + (["vp1", "vp2", "vp3"] + (["ua1"] + (["ch1", "ch2"] + (["cr1", "cr2"] + (["cs1", "cs2", "cs3"] + (["cst1", "cst2"] + (["rs1", "rs2"])))))))))))))
  {
    SeedIdsDistinctFrom1();
    DistinctAppend(["s1", "s2"], ["p1", "p2"] + (["pf1", "pf2"] + (["sol1"] + (["ea1", "ea2"] + (["km1", "km2"] + (["vp1", "vp2", "vp3"] + (["ua1"] + (["ch1", "ch2"] + (["cr1", "cr2"] + (["cs1", "cs2", "cs3"] + (["cst1", "cst2"] + (["rs1", "rs2"]))))))))))));
  }

  lemma NoteIdsDistinct(ns: seq<Note>)
    requires Distinct(Ids(ns))
    ensures forall i, j :: 0 <= i < j < |ns| ==> ns[i].id != ns[j].id
  {
    var ids := Ids(ns);
    forall i, j | 0 <= i < j < |ns|
      ensures ns[i].id != ns[j].id
    {
      assert ns[i].id == ids[i] && ns[j].id == ids[j];
    }
  }

  /** The example document has 26 notes and their ids are pairwise distinct. */
  lemma SeedNoteIdsDistinct()
    ensures |AllNotes(SEED_DATA)| == 26
    ensures forall i, j :: 0 <= i < j < |AllNotes(SEED_DATA)| ==> AllNotes(SEED_DATA)[i].id != AllNotes(SEED_DATA)[j].id
  {
    SeedNoteIds();
    SeedNoteIdListDistinct();
    NoteIdsDistinct(AllNotes(SEED_DATA));
  }

  function Ids(ns: seq<Note>): (r: seq<string>)
    ensures |r| == |ns| && forall i :: 0 <= i < |ns| ==> r[i] == ns[i].id
  {
    seq(|ns|, i requires 0 <= i < |ns| => ns[i].id)
  }

  lemma IdsAppend(a: seq<Note>, b: seq<Note>)
    ensures Ids(a + b) == Ids(a) + Ids(b)
  {
  }

  /** The default document has one note in each of problem, valuePropositions and
      customerSegments, and none elsewhere. */
  lemma DefaultNotes()
    ensures forall k :: k in DEFAULT_DATA.blocks ==>
      |DEFAULT_DATA.blocks[k].notes| == if k in {"problem", "valuePropositions", "customerSegments"} then 1 else 0
  {
  }

  /** Both colour tables are defined for exactly the five note colours. */
  lemma NoteColorTables()
    ensures |NoteColorNames()| == 5
    ensures NOTE_COLORS.Keys == NoteColorNames() && NOTE_COLOR_VALUES.Keys == NoteColorNames()
  {
    var names := {"yellow", "blue", "green", "pink", "red"};
    forall c | c in ALL_NOTE_COLORS ensures c.Name() in names { }
    forall n | n in names ensures n in NoteColorNames() {
      var c :| c in ALL_NOTE_COLORS && c.Name() == n;
    }
    assert NoteColorNames() == names;
  }

  lemma BuiltInTitles()
    ensures DEFAULT_DATA.meta.title == "My Awesome Startup"
    ensures SEED_DATA.meta.title == "EcoScoot"
  {
  }
}

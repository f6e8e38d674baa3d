/**
 * Hardware scorers: a CPU or GPU model name is lower-cased and looked up, key
 * by key in declaration order, in a fixed table of substring keys; the score of
 * the first key that occurs in the name is the answer, and a default applies
 * when none does.
 */
module Scoring {
  import opened Wrappers
  import opened Text

  /** An ordered table of (substring key, score) entries; order decides ties. */
  type Table = seq<(string, nat)>

  const CpuTable: Table := [
    ("pentium", 15), ("celeron", 10),
    ("i3", 30), ("i5", 50), ("i7", 70), ("i9", 90),
    ("ryzen 3", 30), ("ryzen 5", 50), ("ryzen 7", 70), ("ryzen 9", 90),
    ("amd fx", 40), ("amd a", 25)
  ]

  const GpuTable: Table := [
    ("gtx 650", 20), ("gtx 750", 25), ("gtx 950", 30),
    ("gtx 1050", 35), ("gtx 1060", 50), ("gtx 1070", 60), ("gtx 1080", 70),
    ("rtx 2060", 70), ("rtx 2070", 75), ("rtx 2080", 80),
    ("rtx 3060", 85), ("rtx 3070", 90), ("rtx 3080", 95), ("rtx 3090", 100), ("rtx 4070", 100),
    ("rx 560", 30), ("rx 570", 40), ("rx 580", 50), ("rx 590", 55),
    ("rx 5500", 60), ("rx 5600", 65), ("rx 5700", 70),
    ("rx 6600", 80), ("rx 6700", 85), ("rx 6800", 90), ("rx 6900", 95), ("rx 7900", 100)
  ]

  const CpuDefault: nat := 40
  const GpuDefault: nat := 50

  /** The index of the first entry, in table order, whose key occurs in `name`. */
  function FirstMatch(table: Table, name: string): (r: Option<nat>)
    ensures r.Some? ==> r.value < |table| && Contains(name, table[r.value].0)
    ensures r.Some? ==> forall j :: 0 <= j < r.value ==> !Contains(name, table[j].0)
    ensures r.None? <==> forall j :: 0 <= j < |table| ==> !Contains(name, table[j].0)
  {
    if table == [] then None
    else if Contains(name, table[0].0) then Some(0)
    else match FirstMatch(table[1..], name)
      case None => None
      case Some(i) => Some(i + 1)
  }

  /** The scan of the scorers: the first matching entry's score, else `default`. */
  function Lookup(table: Table, name: string, default: nat): (r: nat)
    ensures r == default || exists i :: 0 <= i < |table| && r == table[i].1
  {
    match FirstMatch(table, Lower(name))
    case Some(i) => table[i].1
    case None => default
  }

  /** `get_cpu_score`: every score it can return lies in [10, 90], so it is never 0. */
  function CpuScore(name: string): (r: nat)
    ensures 10 <= r <= 90
  {
    assert forall i :: 0 <= i < |CpuTable| ==> 10 <= CpuTable[i].1 <= 90;
    Lookup(CpuTable, name, CpuDefault)
  }

  /** `get_gpu_score`: every score it can return lies in [20, 100], so it is never 0. */
  function GpuScore(name: string): (r: nat)
    ensures 20 <= r <= 100
  {
    assert forall i :: 0 <= i < |GpuTable| ==> 20 <= GpuTable[i].1 <= 100;
    Lookup(GpuTable, name, GpuDefault)
  }

  /**
   * `get_cpu_score` returns the score of the first key, in declaration order,
   * that occurs in the lower-cased name.
   */
  lemma CpuScoreOfFirstKey(name: string, j: nat)
    requires j < |CpuTable| && Contains(Lower(name), CpuTable[j].0)
    requires forall i :: 0 <= i < j ==> !Contains(Lower(name), CpuTable[i].0)
    ensures CpuScore(name) == CpuTable[j].1
  {
    FirstMatchAt(CpuTable, Lower(name), j);
  }

  /** `get_cpu_score` returns 40 for every name in which no key occurs. */
  lemma CpuScoreDefault(name: string)
    requires forall j :: 0 <= j < |CpuTable| ==> !Contains(Lower(name), CpuTable[j].0)
    ensures CpuScore(name) == CpuDefault
  {
  }

  /**
   * `get_gpu_score` returns the score of the first key, in declaration order,
   * that occurs in the lower-cased name.
   */
  lemma GpuScoreOfFirstKey(name: string, j: nat)
    requires j < |GpuTable| && Contains(Lower(name), GpuTable[j].0)
    requires forall i :: 0 <= i < j ==> !Contains(Lower(name), GpuTable[i].0)
    ensures GpuScore(name) == GpuTable[j].1
  {
    FirstMatchAt(GpuTable, Lower(name), j);
  }

  /** `get_gpu_score` returns 50 for every name in which no key occurs. */
  lemma GpuScoreDefault(name: string)
    requires forall j :: 0 <= j < |GpuTable| ==> !Contains(Lower(name), GpuTable[j].0)
    ensures GpuScore(name) == GpuDefault
  {
  }

  /** The first-match index is pinned down by a match at `k` and no match before it. */
  lemma FirstMatchAt(table: Table, name: string, k: nat)
    requires k < |table| && Contains(name, table[k].0)
    requires forall j :: 0 <= j < k ==> !Contains(name, table[j].0)
    ensures FirstMatch(table, name) == Some(k)
  {
  }

  /**
   * Shadowing: an entry whose key contains an earlier entry's key can never be
   * the first match, whatever the name.
   */
  lemma {:induction false} Shadowed(table: Table, i: nat, j: nat, name: string)
    requires i < j < |table| && Contains(table[j].0, table[i].0)
    ensures FirstMatch(table, name) != Some(j)
  {
    if FirstMatch(table, name) == Some(j) {
      ContainsTransitive(name, table[j].0, table[i].0);
      assert false;
    }
  }

  /**
   * Reachability: an entry is the first match for its own key exactly when no
   * earlier key occurs inside its key.
   */
  lemma {:induction false} SelfMatch(table: Table, j: nat)
    requires j < |table|
    ensures FirstMatch(table, table[j].0) == Some(j)
            <==> forall i :: 0 <= i < j ==> !Contains(table[j].0, table[i].0)
  {
    var key := table[j].0;
    assert OccursAt(key, key, 0);
    if forall i :: 0 <= i < j ==> !Contains(key, table[i].0) {
      var r := FirstMatch(table, key);
      assert r.Some?;
      assert r.value <= j;
    }
  }

  /**
   * GPU table order is load-bearing: "rx 5600" and "rx 5700" (entries 20 and 21)
   * are never selected, because "rx 560" and "rx 570" (entries 15 and 16)
   * precede them and occur inside them.
   */
  lemma RxEntriesShadowed(name: string)
    ensures FirstMatch(GpuTable, name) != Some(20)
    ensures FirstMatch(GpuTable, name) != Some(21)
  {
    assert OccursAt(GpuTable[20].0, GpuTable[15].0, 0);
    Shadowed(GpuTable, 15, 20, name);
    assert OccursAt(GpuTable[21].0, GpuTable[16].0, 0);
    Shadowed(GpuTable, 16, 21, name);
  }

  /** The keys of the CPU table, spelled out for the examples below. */
  lemma CpuKeys()
    ensures CpuTable[0].0 == "pentium" && CpuTable[1].0 == "celeron"
    ensures CpuTable[2].0 == "i3" && CpuTable[3].0 == "i5" && CpuTable[4].0 == "i7" && CpuTable[5].0 == "i9"
    ensures CpuTable[6].0 == "ryzen 3" && CpuTable[7].0 == "ryzen 5"
    ensures CpuTable[8].0 == "ryzen 7" && CpuTable[9].0 == "ryzen 9"
    ensures CpuTable[10].0 == "amd fx" && CpuTable[11].0 == "amd a"
  {
  }

  /** None of the keys before "i7" occurs in "intel i7-9700k". */
  lemma IntelEarlierKeysAbsent()
    ensures forall j :: 0 <= j < 4 ==> !Contains("intel i7-9700k", CpuTable[j].0)
  {
    CpuKeys();
    var intel := "intel i7-9700k";
    NotContainsMissingChar(intel, "pentium", 0);
    NotContainsMissingChar(intel, "celeron", 0);
    NotContainsMissingChar(intel, "i3", 1);
    NotContainsMissingChar(intel, "i5", 1);
  }

  /** `get_cpu_score("Intel i7-9700K")` is 70: "i7" is the first key it holds. */
  lemma CpuExampleIntel()
    ensures CpuScore("Intel i7-9700K") == 70
  {
    var intel := "intel i7-9700k";
    assert Lower("Intel i7-9700K") == intel;
    IntelEarlierKeysAbsent();
    assert CpuTable[4] == ("i7", 70);
    assert OccursAt(intel, "i7", 6);
    FirstMatchAt(CpuTable, intel, 4);
  }

  lemma RyzenFiveAbsent()
    ensures !Contains("amd ryzen 7 5800x", "ryzen 5")
  {
    var amd := "amd ryzen 7 5800x";
    assert amd[6] != 'r';
    assert forall i :: 0 <= i < |amd| && amd[i] == '5' ==> i == 12;
    NotContainsPinned(amd, "ryzen 5", 6, 12);
  }

  /** None of the Intel keys occurs in "amd ryzen 7 5800x". */
  lemma IntelKeysAbsentFromRyzen()
    ensures forall j :: 0 <= j < 6 ==> !Contains("amd ryzen 7 5800x", CpuTable[j].0)
  {
    CpuKeys();
    var amd := "amd ryzen 7 5800x";
    NotContainsMissingChar(amd, "pentium", 0);
    NotContainsMissingChar(amd, "celeron", 0);
    NotContainsMissingChar(amd, "i3", 0);
    NotContainsMissingChar(amd, "i5", 0);
    NotContainsMissingChar(amd, "i7", 0);
    NotContainsMissingChar(amd, "i9", 0);
  }

  /** None of the keys before "ryzen 7" occurs in "amd ryzen 7 5800x". */
  lemma RyzenEarlierKeysAbsent()
    ensures forall j :: 0 <= j < 8 ==> !Contains("amd ryzen 7 5800x", CpuTable[j].0)
  {
    IntelKeysAbsentFromRyzen();
    assert CpuTable[6].0 == "ryzen 3" && CpuTable[7].0 == "ryzen 5";
    NotContainsMissingChar("amd ryzen 7 5800x", "ryzen 3", 6);
    RyzenFiveAbsent();
  }

  /** `get_cpu_score("AMD Ryzen 7 5800X")` is 70: "ryzen 7" is the first key it holds. */
  lemma CpuExampleRyzen()
    ensures CpuScore("AMD Ryzen 7 5800X") == 70
  {
    var amd := "amd ryzen 7 5800x";
    assert Lower("AMD Ryzen 7 5800X") == amd;
    RyzenEarlierKeysAbsent();
    assert CpuTable[8].0 == "ryzen 7";
    assert OccursAt(amd, "ryzen 7", 4);
    FirstMatchAt(CpuTable, amd, 8);
  }

  /** An unrecognised CPU name gets the mid-range default, 40. */
  lemma CpuExampleUnknown()
    ensures CpuScore("Unobtainium X1") == CpuDefault
  {
    CpuKeys();
    var unknown := "unobtainium x1";
    assert Lower("Unobtainium X1") == unknown;
    forall j | 0 <= j < 2 || 6 <= j < 10 ensures !Contains(unknown, CpuTable[j].0) {
      NotContainsMissingChar(unknown, CpuTable[j].0, 0);
    }
    forall j | 2 <= j < 6 ensures !Contains(unknown, CpuTable[j].0) {
      NotContainsMissingChar(unknown, CpuTable[j].0, 1);
    }
    forall j | 10 <= j < 12 ensures !Contains(unknown, CpuTable[j].0) {
      NotContainsMissingChar(unknown, CpuTable[j].0, 2);
    }
  }

  /** The GTX keys, spelled out for the examples below. */
  lemma GtxKeys()
    ensures GpuTable[0].0 == "gtx 650" && GpuTable[1].0 == "gtx 750" && GpuTable[2].0 == "gtx 950"
    ensures GpuTable[3].0 == "gtx 1050" && GpuTable[4].0 == "gtx 1060"
    ensures GpuTable[5].0 == "gtx 1070" && GpuTable[6].0 == "gtx 1080"
  {
  }

  /** The RTX keys, spelled out for the examples below. */
  lemma RtxKeys()
    ensures GpuTable[7].0 == "rtx 2060" && GpuTable[8].0 == "rtx 2070" && GpuTable[9].0 == "rtx 2080"
    ensures GpuTable[10].0 == "rtx 3060" && GpuTable[11].0 == "rtx 3070"
    ensures GpuTable[12].0 == "rtx 3080" && GpuTable[13].0 == "rtx 3090" && GpuTable[14].0 == "rtx 4070"
  {
  }

  lemma GtxAbsentFromRx5600()
    ensures forall j :: 0 <= j < 7 ==> !Contains("rx 5600 xt", GpuTable[j].0)
  {
    GtxKeys();
    forall j | 0 <= j < 7 ensures !Contains("rx 5600 xt", GpuTable[j].0) {
      NotContainsMissingChar("rx 5600 xt", GpuTable[j].0, 0);
    }
  }

  lemma RtxAbsentFromRx5600()
    ensures forall j :: 7 <= j < 15 ==> !Contains("rx 5600 xt", GpuTable[j].0)
  {
    RtxKeys();
    forall j | 7 <= j < 15 ensures !Contains("rx 5600 xt", GpuTable[j].0) {
      NotContainsMissingChar("rx 5600 xt", GpuTable[j].0, 4);
    }
  }

  /** `get_gpu_score("RX 5600 XT")` is 30, the score of the earlier "rx 560" entry, not 65. */
  lemma GpuExampleRx5600()
    ensures GpuScore("RX 5600 XT") == 30
  {
    var rx := "rx 5600 xt";
    assert Lower("RX 5600 XT") == rx;
    GtxAbsentFromRx5600();
    RtxAbsentFromRx5600();
    assert GpuTable[15] == ("rx 560", 30);
    assert OccursAt(rx, "rx 560", 0);
    FirstMatchAt(GpuTable, rx, 15);
  }

  /** An unrecognised GPU name gets the default, 50. */
  lemma GpuExampleUnknown()
    ensures GpuScore("Unobtainium X1") == GpuDefault
  {
    var unknown := "unobtainium x1";
    assert Lower("Unobtainium X1") == unknown;
    assert forall j :: 0 <= j < |GpuTable| ==> GpuTable[j].0[0] in "gr";
    forall j | 0 <= j < |GpuTable| ensures !Contains(unknown, GpuTable[j].0) {
      NotContainsMissingChar(unknown, GpuTable[j].0, 0);
    }
  }
}

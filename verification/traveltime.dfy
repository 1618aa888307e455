/**
 * The "idcinfra" travel-time table for infrasound: a single phase "Is" whose
 * travel time is the great-circle distance in km divided by a celerity read
 * from a distance -> celerity table. The default table IDC_2010 is built in;
 * further tables can be configured by name.
 */
module InfraTravelTime {
  import opened Wrappers

  const PhaseName: string := "Is"
  const DefaultModel: string := "IDC_2010"

  /** A table node: a distance in degrees and the celerity in km/s that applies up to it. */
  datatype Node = Node(distance: real, celerity: real)

  /** The built-in IDC_2010 table. */
  const IDCDefault: seq<Node> := [Node(0.0, 0.33), Node(1.2, 0.295), Node(20.0, 0.303)]

  /** Distances in non-decreasing order, as std::is_sorted checks them. */
  predicate Ascending(ds: seq<real>) {
    forall i, j :: 0 <= i < j < |ds| ==> ds[i] <= ds[j]
  }

  /** Nodes in non-decreasing order of distance. */
  ghost predicate Sorted(t: seq<Node>) {
    forall i, j :: 0 <= i < j < |t| ==> t[i].distance <= t[j].distance
  }

  lemma DefaultTableSorted()
    ensures |IDCDefault| == 3 && Sorted(IDCDefault)
  {
  }

  // ---------------------------------------------------------------------------
  //  Lookup
  // ---------------------------------------------------------------------------

  /** The position std::lower_bound finds: the first node whose distance is not below d. */
  function LowerBound(t: seq<Node>, d: real): (i: nat)
    ensures i <= |t|
    ensures forall j :: 0 <= j < i ==> t[j].distance < d
    ensures i < |t| ==> d <= t[i].distance
  {
    if |t| == 0 then 0
    else if !(t[0].distance < d) then 0
    else 1 + LowerBound(t[1..], d)
  }

  /** In a sorted table the nodes from the lower bound on are all at or beyond d. */
  lemma {:induction false} LowerBoundSplits(t: seq<Node>, d: real)
    requires Sorted(t)
    ensures forall j :: LowerBound(t, d) <= j < |t| ==> d <= t[j].distance
  {
  }

  /** std::lower_bound on a sorted table: a binary search. */
  method LowerBoundSearch(t: seq<Node>, d: real) returns (i: nat)
    requires Sorted(t)
    ensures i == LowerBound(t, d)
  {
    var lo, hi := 0, |t|;
    while lo < hi
      invariant 0 <= lo <= hi <= |t|
      invariant forall j :: 0 <= j < lo ==> t[j].distance < d
      invariant forall j :: hi <= j < |t| ==> d <= t[j].distance
    {
      var mid := lo + (hi - lo) / 2;
      if t[mid].distance < d {
        lo := mid + 1;
      } else {
        hi := mid;
      }
    }
    i := lo;
    LowerBoundUnique(t, d, i);
  }

  /** The lower bound is the only split point between nodes below d and nodes at or beyond it. */
  lemma LowerBoundUnique(t: seq<Node>, d: real, i: nat)
    requires i <= |t|
    requires forall j :: 0 <= j < i ==> t[j].distance < d
    requires forall j :: i <= j < |t| ==> d <= t[j].distance
    ensures i == LowerBound(t, d)
  {
    var k := LowerBound(t, d);
    if k < |t| {
      assert d <= t[k].distance;
    }
    if i < |t| {
      assert d <= t[i].distance;
    }
  }

  /**
   * The celerity at distance d: that of the first node at or beyond d, or of
   * the last node when d lies beyond the whole table.
   */
  function FindCelerity(t: seq<Node>, d: real): (c: real)
    requires |t| > 0
    ensures (forall j :: 0 <= j < |t| ==> t[j].distance < d) ==> c == t[|t| - 1].celerity
    ensures forall i :: 0 <= i < |t| && d <= t[i].distance && (forall j :: 0 <= j < i ==> t[j].distance < d)
              ==> c == t[i].celerity
  {
    var i := LowerBound(t, d);
    if i == |t| then t[|t| - 1].celerity else t[i].celerity
  }

  /** A travel time in seconds, or the non-finite value a division by a zero celerity gives. */
  datatype Seconds = Finite(value: real) | NonFinite

  /** A travel time: phase name, time and the derivatives, which this table does not provide (-1). */
  datatype TravelTime = TravelTime(phase: string, time: Seconds, dtdd: real, dtdh: real, dddp: real, takeoff: real)

  /** The list computed for all phases, with the distance and source depth it was computed for. */
  datatype TravelTimeList = TravelTimeList(delta: real, depth: real, times: seq<TravelTime>)

  /** The error thrown for a phase this table does not know. */
  datatype TravelTimeError = NoPhaseError

  /** The distance in km of distDeg degrees, with kmPerDegree km in one degree. */
  function Deg2Km(distDeg: real, kmPerDegree: real): real {
    distDeg * kmPerDegree
  }

  /**
   * The "Is" travel time over distDeg degrees; the receiver altitude alt2 is
   * not used.
   */
  function Get(t: seq<Node>, distDeg: real, alt2: real, kmPerDegree: real): (r: TravelTime)
    requires |t| > 0
    ensures r.phase == PhaseName
    ensures r.dtdd == -1.0 && r.dtdh == -1.0 && r.dddp == -1.0 && r.takeoff == -1.0
    ensures r.time.Finite? <==> FindCelerity(t, distDeg) != 0.0
    ensures r.time.Finite? ==> r.time.value * FindCelerity(t, distDeg) == Deg2Km(distDeg, kmPerDegree)
  {
    var c := FindCelerity(t, distDeg);
    var distKm := Deg2Km(distDeg, kmPerDegree);
    var time := if c == 0.0 then NonFinite else Finite(distKm / c);
    TravelTime(PhaseName, time, -1.0, -1.0, -1.0, -1.0)
  }

  /** The receiver altitude has no influence on the travel time. */
  lemma AltitudeIgnored(t: seq<Node>, distDeg: real, alt1: real, alt2: real, kmPerDegree: real)
    requires |t| > 0
    ensures Get(t, distDeg, alt1, kmPerDegree) == Get(t, distDeg, alt2, kmPerDegree)
  {
  }

  /** The travel time of the given phase (None stands for a null phase name). */
  function ComputePhase(t: seq<Node>, phase: Option<string>, distDeg: real, dep1: real, alt2: real, kmPerDegree: real)
    : (r: Result<TravelTime, TravelTimeError>)
    requires |t| > 0
    ensures r.Ok? <==> phase == Some(PhaseName)
    ensures r.Ok? ==> r.value == Get(t, distDeg, alt2, kmPerDegree)
    ensures r.Err? ==> r.error == NoPhaseError
  {
    if phase.None? || phase.value != PhaseName then Err(NoPhaseError)
    else Ok(Get(t, distDeg, alt2, kmPerDegree))
  }

  /** The first arrival: never fails, it is the "Is" travel time. */
  function ComputeFirst(t: seq<Node>, distDeg: real, dep1: real, alt2: real, kmPerDegree: real)
    : (r: Result<TravelTime, TravelTimeError>)
    requires |t| > 0
    ensures r == Ok(Get(t, distDeg, alt2, kmPerDegree))
  {
    ComputePhase(t, Some(PhaseName), distDeg, dep1, alt2, kmPerDegree)
  }

  /** All travel times: a list holding the single "Is" entry. */
  function ComputeAll(t: seq<Node>, distDeg: real, dep1: real, alt2: real, kmPerDegree: real): (r: TravelTimeList)
    requires |t| > 0
    ensures r.delta == distDeg && r.depth == dep1
    ensures |r.times| == 1 && r.times[0].phase == PhaseName
    ensures ComputeFirst(t, distDeg, dep1, alt2, kmPerDegree) == Ok(r.times[0])
  {
    TravelTimeList(distDeg, dep1, [Get(t, distDeg, alt2, kmPerDegree)])
  }

  // ---------------------------------------------------------------------------
  //  Configured tables
  // ---------------------------------------------------------------------------

  /** The application configuration: string-list and number-list parameters by name. */
  datatype AppConfig = AppConfig(strings: map<string, seq<string>>, doubles: map<string, seq<real>>)

  const TablesKey: string := "ttt.idcinfra.tables"

  function DistancesKey(table: string): string {
    "ttt.idcinfra." + table + ".distances"
  }

  function CeleritiesKey(table: string): string {
    "ttt.idcinfra." + table + ".celerities"
  }

  /** The nodes of a table, pairing distances and celerities in order. */
  function Zip(ds: seq<real>, cs: seq<real>): (t: seq<Node>)
    requires |ds| == |cs|
    ensures |t| == |ds|
    ensures forall i :: 0 <= i < |t| ==> t[i] == Node(ds[i], cs[i])
  {
    seq(|ds|, i requires 0 <= i < |ds| => Node(ds[i], cs[i]))
  }

  /** The checks a configured table has to pass. */
  predicate Acceptable(ds: seq<real>, cs: seq<real>) {
    1 <= |ds| && |ds| == |cs| && Ascending(ds)
  }

  /** The nodes configured for a table, when both lists are present and acceptable. */
  function ConfiguredNodes(cfg: AppConfig, name: string): Option<seq<Node>> {
    if DistancesKey(name) in cfg.doubles && CeleritiesKey(name) in cfg.doubles
       && Acceptable(cfg.doubles[DistancesKey(name)], cfg.doubles[CeleritiesKey(name)])
    then Some(Zip(cfg.doubles[DistancesKey(name)], cfg.doubles[CeleritiesKey(name)]))
    else None
  }

  /** The tables stored after going through the given names in order, starting from acc. */
  function StoreTables(names: seq<string>, cfg: AppConfig, acc: map<string, seq<Node>>): map<string, seq<Node>>
    decreases |names|
  {
    if names == [] then acc
    else
      var before := StoreTables(names[..|names| - 1], cfg, acc);
      var name := names[|names| - 1];
      if name == DefaultModel || ConfiguredNodes(cfg, name).None? then before
      else before[name := ConfiguredNodes(cfg, name).value]
  }

  /** The tables the first configuration load stores (none without an application or a table list). */
  function LoadedTables(app: Option<AppConfig>): map<string, seq<Node>> {
    if app.None? || TablesKey !in app.value.strings then map[]
    else StoreTables(app.value.strings[TablesKey], app.value, map[])
  }

  /** Every table the table set holds is non-empty and sorted; the built-in name is not among them. */
  ghost predicate TablesValid(tables: map<string, seq<Node>>) {
    && DefaultModel !in tables
    && forall name :: name in tables ==> |tables[name]| > 0 && Sorted(tables[name])
  }

  /**
   * A stored table is exactly the configured one: a name is stored iff it is
   * listed, is not IDC_2010 and has acceptable distances and celerities; its
   * nodes are the zipped lists. Tables stored are therefore valid.
   */
  lemma {:induction false} StoredTables(names: seq<string>, cfg: AppConfig, name: string)
    ensures name in StoreTables(names, cfg, map[]) <==>
      name in names && name != DefaultModel && ConfiguredNodes(cfg, name).Some?
    ensures name in StoreTables(names, cfg, map[]) ==>
      StoreTables(names, cfg, map[])[name] == ConfiguredNodes(cfg, name).value
    decreases |names|
  {
    if names != [] {
      var init := names[..|names| - 1];
      StoredTables(init, cfg, name);
      assert names == init + [names[|names| - 1]];
    }
  }

  /** A configured table that passes the checks is non-empty and sorted. */
  lemma ConfiguredNodesValid(cfg: AppConfig, name: string)
    requires ConfiguredNodes(cfg, name).Some?
    ensures |ConfiguredNodes(cfg, name).value| > 0 && Sorted(ConfiguredNodes(cfg, name).value)
  {
  }

  lemma LoadedTablesValid(app: Option<AppConfig>)
    ensures TablesValid(LoadedTables(app))
  {
    if app.Some? && TablesKey in app.value.strings {
      var names := app.value.strings[TablesKey];
      forall name | name in LoadedTables(app)
        ensures name != DefaultModel && |LoadedTables(app)[name]| > 0 && Sorted(LoadedTables(app)[name])
      {
        StoredTables(names, app.value, name);
        ConfiguredNodesValid(app.value, name);
      }
      StoredTables(names, app.value, DefaultModel);
    }
  }

  // ---------------------------------------------------------------------------
  //  The loading loop as the source writes it
  // ---------------------------------------------------------------------------

  /**
   * The table set as the loading loop builds it: the nodes of a table are
   * appended to whatever is already stored under its name.
   */
  function StoreTablesAsWritten(names: seq<string>, cfg: AppConfig, acc: map<string, seq<Node>>): map<string, seq<Node>>
    decreases |names|
  {
    if names == [] then acc
    else
      var before := StoreTablesAsWritten(names[..|names| - 1], cfg, acc);
      var name := names[|names| - 1];
      if name == DefaultModel || ConfiguredNodes(cfg, name).None? then before
      else before[name := (if name in before then before[name] else []) + ConfiguredNodes(cfg, name).value]
  }

  /** With every table listed once, appending and storing agree. */
  lemma {:induction false} AsWrittenAgreesOnDistinctNames(names: seq<string>, cfg: AppConfig)
    requires forall i, j :: 0 <= i < j < |names| ==> names[i] != names[j]
    ensures StoreTablesAsWritten(names, cfg, map[]) == StoreTables(names, cfg, map[])
    decreases |names|
  {
    if names != [] {
      var init := names[..|names| - 1];
      var name := names[|names| - 1];
      assert forall i, j :: 0 <= i < j < |init| ==> init[i] != init[j] by {
        forall i, j | 0 <= i < j < |init| ensures init[i] != init[j] {
          assert init[i] == names[i] && init[j] == names[j];
        }
      }
      AsWrittenAgreesOnDistinctNames(init, cfg);
      StoredTables(init, cfg, name);
      assert name !in init by {
        forall k | 0 <= k < |init| ensures init[k] != name {
          assert init[k] == names[k];
        }
      }
      var before := StoreTables(init, cfg, map[]);
      assert name !in before;
      if name != DefaultModel && ConfiguredNodes(cfg, name).Some? {
        assert [] + ConfiguredNodes(cfg, name).value == ConfiguredNodes(cfg, name).value;
      }
    }
  }

  /**
   * A table listed twice is stored with its nodes twice; with distances 0 and 1
   * the stored distances read 0, 1, 0, 1 and the table is no longer sorted.
   */
  lemma DuplicateNameUnsorted()
    ensures var cfg := AppConfig(map[TablesKey := ["T", "T"]],
                                 map[DistancesKey("T") := [0.0, 1.0], CeleritiesKey("T") := [0.3, 0.3]]);
      var stored := StoreTablesAsWritten(cfg.strings[TablesKey], cfg, map[]);
      "T" in stored && !Sorted(stored["T"])
  {
    var cfg := AppConfig(map[TablesKey := ["T", "T"]],
                         map[DistancesKey("T") := [0.0, 1.0], CeleritiesKey("T") := [0.3, 0.3]]);
    var names := cfg.strings[TablesKey];
    var nodes := [Node(0.0, 0.3), Node(1.0, 0.3)];
    assert DistancesKey("T") != CeleritiesKey("T") by {
      assert |DistancesKey("T")| != |CeleritiesKey("T")|;
    }
    assert cfg.doubles[DistancesKey("T")] == [0.0, 1.0];
    assert cfg.doubles[CeleritiesKey("T")] == [0.3, 0.3];
    var zipped := Zip([0.0, 1.0], [0.3, 0.3]);
    assert zipped[0] == nodes[0] && zipped[1] == nodes[1];
    assert zipped == nodes;
    assert ConfiguredNodes(cfg, "T") == Some(nodes);
    assert names[..1] == ["T"] && names[..1][..0] == [];
    assert StoreTablesAsWritten(names[..1][..0], cfg, map[]) == map[];
    var once := StoreTablesAsWritten(names[..1], cfg, map[]);
    assert [] + nodes == nodes;
    assert once == map["T" := nodes];
    var stored := StoreTablesAsWritten(names, cfg, map[]);
    assert stored["T"] == nodes + nodes;
    assert stored["T"][1].distance > stored["T"][2].distance;
  }

  // ---------------------------------------------------------------------------
  //  The travel-time table object
  // ---------------------------------------------------------------------------

  /** The table the model reads from: the built-in one or a configured one by name. */
  datatype TableRef = DefaultTable | ConfiguredTable(name: string)

  class IdcInfra {
    var model: string
    var active: TableRef
    var tables: map<string, seq<Node>>
    var tablesInitialized: bool

    ghost predicate Valid()
      reads this
    {
      && TablesValid(tables)
      && (!tablesInitialized ==> tables == map[])
      && (active.ConfiguredTable? ==> active.name in tables)
    }

    /** The model name and the active table agree. */
    ghost predicate Consistent()
      reads this
    {
      active == if model == DefaultModel then DefaultTable else ConfiguredTable(model)
    }

    /** The nodes of the active table. */
    function Current(): (t: seq<Node>)
      reads this
      requires Valid()
      ensures |t| > 0 && Sorted(t)
    {
      DefaultTableSorted();
      match active
      case DefaultTable => IDCDefault
      case ConfiguredTable(name) => tables[name]
    }

    constructor ()
      ensures Valid() && Consistent()
      ensures model == DefaultModel && active == DefaultTable
      ensures tables == map[] && !tablesInitialized
    {
      model := DefaultModel;
      active := DefaultTable;
      tables := map[];
      tablesInitialized := false;
    }

    /**
     * Loads the configured tables from the application, the first time only.
     * A table's nodes replace whatever is stored under its name, so a table
     * listed twice is stored once: the corrected form of the appending loop
     * modelled by StoreTablesAsWritten.
     */
    method LoadConfig(app: Option<AppConfig>)
      requires Valid()
      modifies this`tables, this`tablesInitialized
      ensures Valid() && tablesInitialized
      ensures old(tablesInitialized) ==> tables == old(tables)
      ensures !old(tablesInitialized) ==> tables == LoadedTables(app)
    {
      if tablesInitialized {
        return;
      }
      tablesInitialized := true;

      if app.None? {
        return;
      }
      var cfg := app.value;
      if TablesKey !in cfg.strings {
        return;
      }
      var names := cfg.strings[TablesKey];

      var i := 0;
      while i < |names|
        invariant 0 <= i <= |names|
        invariant tablesInitialized
        invariant tables == StoreTables(names[..i], cfg, map[])
      {
        var name := names[i];
        assert names[..i + 1][..i] == names[..i];
        if name != DefaultModel && DistancesKey(name) in cfg.doubles && CeleritiesKey(name) in cfg.doubles {
          var dists := cfg.doubles[DistancesKey(name)];
          var celerities := cfg.doubles[CeleritiesKey(name)];
          if 1 <= |dists| && |dists| == |celerities| && Ascending(dists) {
            var ttt: seq<Node> := [];
            var j := 0;
            while j < |dists|
              invariant 0 <= j <= |dists|
              invariant |ttt| == j
              invariant forall k :: 0 <= k < j ==> ttt[k] == Node(dists[k], celerities[k])
            {
              ttt := ttt + [Node(dists[j], celerities[j])];
              j := j + 1;
            }
            assert ttt == Zip(dists, celerities);
            tables := tables[name := ttt];
          }
        }
        i := i + 1;
      }
      assert names[..|names|] == names;
      LoadedTablesValid(app);
    }

    /**
     * Selects the travel-time model. IDC_2010 is always available and makes
     * the built-in table active again; any other name loads the configuration
     * and is accepted only if a table of that name was stored.
     */
    method SetModel(m: string, app: Option<AppConfig>) returns (ok: bool)
      requires Valid() && Consistent()
      modifies this
      ensures Valid() && Consistent()
      ensures m == DefaultModel ==> ok && model == m && active == DefaultTable
      ensures m == DefaultModel ==> tables == old(tables) && tablesInitialized == old(tablesInitialized)
      ensures m != DefaultModel ==> tablesInitialized
      ensures m != DefaultModel ==> tables == if old(tablesInitialized) then old(tables) else LoadedTables(app)
      ensures m != DefaultModel ==> (ok <==> m in tables)
      ensures m != DefaultModel && ok ==> model == m && active == ConfiguredTable(m) && Current() == tables[m]
      ensures !ok ==> model == old(model) && active == old(active)
    {
      if m == DefaultModel {
        model := m;
        active := DefaultTable;
        return true;
      }
      LoadConfig(app);
      if m !in tables {
        return false;
      }
      model := m;
      active := ConfiguredTable(m);
      return true;
    }

    /**
     * setModel as the source writes it: selecting IDC_2010 renames the model
     * but leaves the previously active table in place.
     */
    method SetModelAsWritten(m: string, app: Option<AppConfig>) returns (ok: bool)
      requires Valid()
      modifies this
      ensures Valid()
      ensures m == DefaultModel ==> ok && model == m && active == old(active)
      ensures m == DefaultModel ==> tables == old(tables) && tablesInitialized == old(tablesInitialized)
      ensures m != DefaultModel ==> tablesInitialized
      ensures m != DefaultModel ==> tables == if old(tablesInitialized) then old(tables) else LoadedTables(app)
      ensures m != DefaultModel ==> (ok <==> m in tables)
      ensures m != DefaultModel && ok ==> model == m && active == ConfiguredTable(m)
      ensures !ok ==> model == old(model) && active == old(active)
    {
      if m == DefaultModel {
        model := m;
        return true;
      }
      LoadConfig(app);
      if m !in tables {
        return false;
      }
      model := m;
      active := ConfiguredTable(m);
      return true;
    }
  }

  /**
   * Selecting a configured table and then IDC_2010 with setModel as written
   * leaves a processor that reports IDC_2010 but reads the configured table.
   */
  method SwitchBackKeepsConfiguredTable() returns (infra: IdcInfra)
    ensures infra.Valid() && infra.model == DefaultModel
    ensures infra.Current() == [Node(0.0, 0.5)] != IDCDefault
  {
    var cfg := AppConfig(map[TablesKey := ["T"]],
                         map[DistancesKey("T") := [0.0], CeleritiesKey("T") := [0.5]]);
    assert DistancesKey("T") != CeleritiesKey("T") by {
      assert |DistancesKey("T")| != |CeleritiesKey("T")|;
    }
    assert cfg.doubles[DistancesKey("T")] == [0.0];
    assert cfg.doubles[CeleritiesKey("T")] == [0.5];
    assert Zip([0.0], [0.5]) == [Node(0.0, 0.5)];
    assert ConfiguredNodes(cfg, "T") == Some([Node(0.0, 0.5)]);
    assert ["T"][..0] == [];
    assert StoreTables(["T"][..0], cfg, map[]) == map[];
    assert LoadedTables(Some(cfg)) == map["T" := [Node(0.0, 0.5)]];
    infra := new IdcInfra();
    var ok := infra.SetModelAsWritten("T", Some(cfg));
    ok := infra.SetModelAsWritten(DefaultModel, Some(cfg));
  }
}

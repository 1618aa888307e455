/**
 * The QC ping application: it lists the streams of the current inventory,
 * marks the ones bound to the application in the station configuration,
 * reads network and station source addresses from a text file, and
 * periodically probes every distinct "ip:port" address once, reporting the
 * round trip and the port status of each addressed stream as two waveform
 * quality objects.
 *
 * Sockets, the clock, files, the inventory, the configuration module and the
 * messaging connection are inputs: the inventory and bindings are values, the
 * address file is its sequence of lines, and a probe is a function from an
 * address to its outcome.
 */
module QcPing {
  import opened Wrappers
  import opened QcText

  // ---------------------------------------------------------------------------
  //  Stream items and epochs
  // ---------------------------------------------------------------------------

  /** What the application knows about one stream. */
  datatype StreamItem = StreamItem(ip: Option<string>, port: Option<string>, configured: bool, portStatus: Option<int>)

  /** A new item: no address and no port status yet. */
  function NewItem(configured: bool): StreamItem {
    StreamItem(None, None, configured, None)
  }

  /** The validity of an inventory object; an open epoch has no end. */
  datatype Epoch = Epoch(start: real, end: Option<real>)

  /** An inventory object is current at a time inside its epoch; an open epoch never ends. */
  function MatchEpoch(e: Epoch, time: real): (r: bool)
    ensures e.end.Some? ==> (r <==> e.start <= time && time <= e.end.value)
    ensures e.end.None? ==> (r <==> e.start <= time)
  {
    match e.end
    case Some(end) => e.start <= time <= end
    case None => e.start <= time
  }

  // ---------------------------------------------------------------------------
  //  The inventory and its stream keys
  // ---------------------------------------------------------------------------

  datatype Stream = Stream(code: string)
  datatype Location = Location(code: string, epoch: Epoch, streams: seq<Stream>)
  datatype Station = Station(code: string, epoch: Epoch, locations: seq<Location>)
  datatype Network = Network(code: string, epoch: Epoch, stations: seq<Station>)

  /** The keys of the streams of one sensor location. */
  function StreamKeys(net: string, sta: string, loc: Location): (ks: seq<string>)
    ensures |ks| == |loc.streams|
    ensures forall c :: 0 <= c < |ks| ==> ks[c] == StreamKey(net, sta, loc.code, loc.streams[c].code)
  {
    seq(|loc.streams|, c requires 0 <= c < |loc.streams| => StreamKey(net, sta, loc.code, loc.streams[c].code))
  }

  /** The keys of the streams of the current sensor locations, in inventory order. */
  function LocationKeys(net: string, sta: string, locs: seq<Location>, time: real): seq<string>
    decreases |locs|
  {
    if locs == [] then []
    else
      var loc := locs[|locs| - 1];
      LocationKeys(net, sta, locs[..|locs| - 1], time)
        + (if MatchEpoch(loc.epoch, time) then StreamKeys(net, sta, loc) else [])
  }

  /** The keys of the streams of the current stations of a network, in inventory order. */
  function StationKeys(net: string, stas: seq<Station>, time: real): seq<string>
    decreases |stas|
  {
    if stas == [] then []
    else
      var sta := stas[|stas| - 1];
      StationKeys(net, stas[..|stas| - 1], time)
        + (if MatchEpoch(sta.epoch, time) then LocationKeys(net, sta.code, sta.locations, time) else [])
  }

  /** The keys of the streams the inventory lists at a time, in the order they are visited. */
  function InventoryKeys(inv: seq<Network>, time: real): seq<string>
    decreases |inv|
  {
    if inv == [] then []
    else
      var net := inv[|inv| - 1];
      InventoryKeys(inv[..|inv| - 1], time)
        + (if MatchEpoch(net.epoch, time) then StationKeys(net.code, net.stations, time) else [])
  }

  /** The location holds a stream whose key is k. */
  ghost predicate HoldsKey(net: string, sta: string, loc: Location, k: string) {
    exists c :: 0 <= c < |loc.streams| && k == StreamKey(net, sta, loc.code, loc.streams[c].code)
  }

  /** A sensor location contributes exactly the keys of its streams, and only while it is current. */
  lemma {:induction false} LocationKeysListed(net: string, sta: string, locs: seq<Location>, time: real, k: string)
    ensures k in LocationKeys(net, sta, locs, time) <==>
      exists l, c :: 0 <= l < |locs| && 0 <= c < |locs[l].streams| && MatchEpoch(locs[l].epoch, time)
        && k == StreamKey(net, sta, locs[l].code, locs[l].streams[c].code)
    decreases |locs|
  {
    if locs != [] {
      var init, loc := locs[..|locs| - 1], locs[|locs| - 1];
      LocationKeysListed(net, sta, init, time, k);
      assert k in StreamKeys(net, sta, loc) <==> HoldsKey(net, sta, loc, k);
      assert k in LocationKeys(net, sta, locs, time) <==>
        k in LocationKeys(net, sta, init, time) || (MatchEpoch(loc.epoch, time) && HoldsKey(net, sta, loc, k));
      assert forall l :: 0 <= l < |init| ==> locs[l] == init[l];
      if MatchEpoch(loc.epoch, time) && HoldsKey(net, sta, loc, k) {
        var c :| 0 <= c < |loc.streams| && k == StreamKey(net, sta, loc.code, loc.streams[c].code);
        assert locs[|init|] == loc;
      }
    }
  }

  /** A network contributes the keys of its current stations' current locations. */
  lemma {:induction false} StationKeysListed(net: string, stas: seq<Station>, time: real, k: string)
    ensures k in StationKeys(net, stas, time) <==>
      exists s :: 0 <= s < |stas| && MatchEpoch(stas[s].epoch, time)
        && k in LocationKeys(net, stas[s].code, stas[s].locations, time)
    decreases |stas|
  {
    if stas != [] {
      var init, sta := stas[..|stas| - 1], stas[|stas| - 1];
      StationKeysListed(net, init, time, k);
      assert k in StationKeys(net, stas, time) <==>
        k in StationKeys(net, init, time)
        || (MatchEpoch(sta.epoch, time) && k in LocationKeys(net, sta.code, sta.locations, time));
      assert forall s :: 0 <= s < |init| ==> stas[s] == init[s];
      assert stas[|init|] == sta;
    }
  }

  /** The inventory contributes the keys of its current networks' current stations. */
  lemma {:induction false} InventoryKeysListed(inv: seq<Network>, time: real, k: string)
    ensures k in InventoryKeys(inv, time) <==>
      exists n :: 0 <= n < |inv| && MatchEpoch(inv[n].epoch, time)
        && k in StationKeys(inv[n].code, inv[n].stations, time)
    decreases |inv|
  {
    if inv != [] {
      var init, net := inv[..|inv| - 1], inv[|inv| - 1];
      InventoryKeysListed(init, time, k);
      assert k in InventoryKeys(inv, time) <==>
        k in InventoryKeys(init, time)
        || (MatchEpoch(net.epoch, time) && k in StationKeys(net.code, net.stations, time));
      assert forall n :: 0 <= n < |init| ==> inv[n] == init[n];
      assert inv[|init|] == net;
    }
  }

  /**
   * A key is listed exactly when it names a stream whose network, station and
   * sensor location are all current.
   */
  lemma InventoryKeysAreCurrentStreams(inv: seq<Network>, time: real, k: string)
    ensures k in InventoryKeys(inv, time) <==>
      exists n, s, l, c ::
        0 <= n < |inv| && 0 <= s < |inv[n].stations| && 0 <= l < |inv[n].stations[s].locations|
        && 0 <= c < |inv[n].stations[s].locations[l].streams|
        && MatchEpoch(inv[n].epoch, time) && MatchEpoch(inv[n].stations[s].epoch, time)
        && MatchEpoch(inv[n].stations[s].locations[l].epoch, time)
        && k == StreamKey(inv[n].code, inv[n].stations[s].code, inv[n].stations[s].locations[l].code,
                          inv[n].stations[s].locations[l].streams[c].code)
  {
    InventoryKeysListed(inv, time, k);
    forall n | 0 <= n < |inv|
      ensures k in StationKeys(inv[n].code, inv[n].stations, time) <==>
        exists s, l, c ::
          0 <= s < |inv[n].stations| && 0 <= l < |inv[n].stations[s].locations|
          && 0 <= c < |inv[n].stations[s].locations[l].streams|
          && MatchEpoch(inv[n].stations[s].epoch, time)
          && MatchEpoch(inv[n].stations[s].locations[l].epoch, time)
          && k == StreamKey(inv[n].code, inv[n].stations[s].code, inv[n].stations[s].locations[l].code,
                            inv[n].stations[s].locations[l].streams[c].code)
    {
      StationKeysListed(inv[n].code, inv[n].stations, time, k);
      forall s | 0 <= s < |inv[n].stations|
        ensures k in LocationKeys(inv[n].code, inv[n].stations[s].code, inv[n].stations[s].locations, time) <==>
          exists l, c ::
            0 <= l < |inv[n].stations[s].locations|
            && 0 <= c < |inv[n].stations[s].locations[l].streams|
            && MatchEpoch(inv[n].stations[s].locations[l].epoch, time)
            && k == StreamKey(inv[n].code, inv[n].stations[s].code, inv[n].stations[s].locations[l].code,
                              inv[n].stations[s].locations[l].streams[c].code)
      {
        LocationKeysListed(inv[n].code, inv[n].stations[s].code, inv[n].stations[s].locations, time, k);
      }
    }
  }

  // ---------------------------------------------------------------------------
  //  The stream dictionary
  // ---------------------------------------------------------------------------

  /** A dictionary from stream keys to items that remembers the order its keys were first inserted in. */
  datatype Dict = Dict(keys: seq<string>, items: map<string, StreamItem>) {

    /** Every key is listed once, and the listed keys are those with an item. */
    ghost predicate Valid() {
      && (forall i, j :: 0 <= i < j < |keys| ==> keys[i] != keys[j])
      && (forall k :: k in items <==> k in keys)
    }

    /** d[k] = v: a key already present keeps its position, a new one goes last. */
    function Set(k: string, v: StreamItem): (d: Dict)
      ensures d.items == items[k := v]
      ensures keys <= d.keys
      ensures Valid() ==> d.Valid()
    {
      if k in items then Dict(keys, items[k := v]) else Dict(keys + [k], items[k := v])
    }

    /** Marks the item of a present key as configured. */
    function Configure(k: string): Dict
      requires k in items
    {
      Dict(keys, items[k := items[k].(configured := true)])
    }
  }

  /** The dictionary after a new, unconfigured item has been stored under each key in turn. */
  function InsertAll(d: Dict, ks: seq<string>): Dict
    decreases |ks|
  {
    if ks == [] then d else InsertAll(d, ks[..|ks| - 1]).Set(ks[|ks| - 1], NewItem(false))
  }

  /**
   * Storing the inventory keys keeps the dictionary valid and its earlier
   * keys in place, and every stored key holds a new unconfigured item.
   */
  lemma {:induction false} InsertAllStores(d: Dict, ks: seq<string>)
    ensures d.Valid() ==> InsertAll(d, ks).Valid()
    ensures d.keys <= InsertAll(d, ks).keys
    ensures forall k :: k in InsertAll(d, ks).items <==> k in d.items || k in ks
    ensures forall k :: k in InsertAll(d, ks).items ==>
      InsertAll(d, ks).items[k] == if k in ks then NewItem(false) else d.items[k]
    decreases |ks|
  {
    if ks != [] {
      var init := ks[..|ks| - 1];
      InsertAllStores(d, init);
      assert forall k :: k in ks <==> k in init || k == ks[|ks| - 1];
    }
  }

  // ---------------------------------------------------------------------------
  //  Bindings
  // ---------------------------------------------------------------------------

  datatype Parameter = Parameter(name: string, value: string)

  /**
   * The binding of a station to the application. The parameters are None when
   * the station has no setup for the application or its parameter set
   * cannot be found.
   */
  datatype ConfigStation = ConfigStation(network: string, station: string, params: Option<seq<Parameter>>)

  /** The value of the last parameter with the given name, if any. */
  function LastValue(ps: seq<Parameter>, name: string): Option<string>
    decreases |ps|
  {
    if ps == [] then None
    else if ps[|ps| - 1].name == name then Some(ps[|ps| - 1].value)
    else LastValue(ps[..|ps| - 1], name)
  }

  /** The last parameter with a name decides its value. */
  lemma {:induction false} LastValueAt(ps: seq<Parameter>, name: string, i: nat)
    requires i < |ps| && ps[i].name == name
    requires forall j :: i < j < |ps| ==> ps[j].name != name
    ensures LastValue(ps, name) == Some(ps[i].value)
    decreases |ps|
  {
    if i < |ps| - 1 {
      var init := ps[..|ps| - 1];
      LastValueAt(init, name, i);
    }
  }

  /** Without a parameter of that name there is no value. */
  lemma {:induction false} LastValueAbsent(ps: seq<Parameter>, name: string)
    ensures LastValue(ps, name).None? <==> forall i :: 0 <= i < |ps| ==> ps[i].name != name
    decreases |ps|
  {
    if ps != [] {
      var init := ps[..|ps| - 1];
      LastValueAbsent(init, name);
      assert forall i :: 0 <= i < |init| ==> init[i] == ps[i];
    }
  }

  /** A two-character stream code names the vertical component: "Z" is appended. */
  function CompleteStream(s: string): string {
    if |s| == 2 then s + "Z" else s
  }

  /**
   * The key a binding marks: network and station of the binding, the last
   * detecLocid ("" by default) and the last detecStream, completed. A binding
   * without parameters or without a detecStream marks nothing.
   */
  function BindingKey(cs: ConfigStation): (r: Option<string>)
    ensures r.Some? <==> cs.params.Some? && exists i :: 0 <= i < |cs.params.value| && cs.params.value[i].name == "detecStream"
  {
    LastValueAbsent(cs.params.GetOr([]), "detecStream");
    match cs.params
    case None => None
    case Some(ps) =>
      match LastValue(ps, "detecStream")
      case None => None
      case Some(stream) => Some(StreamKey(cs.network, cs.station, LastValue(ps, "detecLocid").GetOr(""), CompleteStream(stream)))
  }

  /** The key a binding marks, from the last detecLocid and detecStream among its parameters. */
  lemma BindingKeyOfLastParameters(cs: ConfigStation, i: nat, stream: string, locid: string)
    requires cs.params.Some? && i < |cs.params.value|
    requires cs.params.value[i] == Parameter("detecStream", stream)
    requires forall j :: i < j < |cs.params.value| ==> cs.params.value[j].name != "detecStream"
    requires || (locid == "" && forall j :: 0 <= j < |cs.params.value| ==> cs.params.value[j].name != "detecLocid")
             || (exists j :: (0 <= j < |cs.params.value| && cs.params.value[j] == Parameter("detecLocid", locid)
                   && forall m :: j < m < |cs.params.value| ==> cs.params.value[m].name != "detecLocid"))
    ensures BindingKey(cs) == Some(StreamKey(cs.network, cs.station, locid, if |stream| == 2 then stream + "Z" else stream))
  {
    var ps := cs.params.value;
    LastValueAt(ps, "detecStream", i);
    LastValueAbsent(ps, "detecLocid");
    if exists j :: (0 <= j < |ps| && ps[j] == Parameter("detecLocid", locid)
         && forall m :: j < m < |ps| ==> ps[m].name != "detecLocid")
    {
      var j :| 0 <= j < |ps| && ps[j] == Parameter("detecLocid", locid)
        && forall m :: j < m < |ps| ==> ps[m].name != "detecLocid";
      LastValueAt(ps, "detecLocid", j);
    }
  }

  /** The dictionary after the bindings, and how many of them marked a stream. */
  datatype Bound = Bound(dict: Dict, count: nat)

  /** One binding marks its key when the dictionary holds it and is skipped otherwise. */
  function BindOne(b: Bound, cs: ConfigStation): Bound {
    match BindingKey(cs)
    case None => b
    case Some(k) => if k in b.dict.items then Bound(b.dict.Configure(k), b.count + 1) else b
  }

  /** The bindings, one after the other. */
  function ApplyBindings(d: Dict, css: seq<ConfigStation>): Bound
    decreases |css|
  {
    if css == [] then Bound(d, 0) else BindOne(ApplyBindings(d, css[..|css| - 1]), css[|css| - 1])
  }

  /** Some binding names the key. */
  ghost predicate Binds(css: seq<ConfigStation>, k: string) {
    exists i :: 0 <= i < |css| && BindingKey(css[i]) == Some(k)
  }

  /**
   * The bindings add no key and change nothing but the configured flags: a
   * stream is configured afterwards exactly when it was before or some binding
   * names it.
   */
  lemma {:induction false} BindingsMark(d: Dict, css: seq<ConfigStation>)
    ensures ApplyBindings(d, css).dict.keys == d.keys
    ensures ApplyBindings(d, css).dict.items.Keys == d.items.Keys
    ensures forall k :: k in d.items ==>
      ApplyBindings(d, css).dict.items[k] == d.items[k].(configured := d.items[k].configured || Binds(css, k))
    decreases |css|
  {
    if css != [] {
      var init := css[..|css| - 1];
      BindingsMark(d, init);
      forall k | k in d.items
        ensures Binds(css, k) <==> Binds(init, k) || BindingKey(css[|css| - 1]) == Some(k)
      {
        BindsSplit(css, k);
      }
    }
  }

  lemma BindsSplit(css: seq<ConfigStation>, k: string)
    requires css != []
    ensures Binds(css, k) <==> (Binds(css[..|css| - 1], k) || BindingKey(css[|css| - 1]) == Some(k))
  {
    var init := css[..|css| - 1];
    assert forall i :: 0 <= i < |init| ==> css[i] == init[i];
  }

  /** Some binding names a stream of the dictionary. */
  ghost predicate AnyBinds(d: Dict, css: seq<ConfigStation>) {
    exists i :: 0 <= i < |css| && BindingKey(css[i]).Some? && BindingKey(css[i]).value in d.items
  }

  lemma AnyBindsSplit(d: Dict, css: seq<ConfigStation>)
    requires css != []
    ensures AnyBinds(d, css) <==> (AnyBinds(d, css[..|css| - 1]) ||
      (BindingKey(css[|css| - 1]).Some? && BindingKey(css[|css| - 1]).value in d.items))
  {
    var init := css[..|css| - 1];
    assert forall i :: 0 <= i < |init| ==> css[i] == init[i];
  }

  /** The bindings count as successful exactly when some binding names a stream of the dictionary. */
  lemma {:induction false} BindingsCount(d: Dict, css: seq<ConfigStation>)
    ensures ApplyBindings(d, css).count > 0 <==>
      exists i :: 0 <= i < |css| && BindingKey(css[i]).Some? && BindingKey(css[i]).value in d.items
    decreases |css|
  {
    if css != [] {
      var init := css[..|css| - 1];
      BindingsCount(d, init);
      BindingsMark(d, init);
      AnyBindsSplit(d, css);
      assert AnyBinds(d, init) <==> ApplyBindings(d, init).count > 0;
    }
  }

  // ---------------------------------------------------------------------------
  //  The address file
  // ---------------------------------------------------------------------------

  /** A line of the address file: network code, station code ("*" for all), host and port. */
  datatype AddressLine = AddressLine(network: string, station: string, ip: string, port: string)

  /** A token of a split line: not empty and free of whitespace. */
  predicate Token(t: string) {
    t != [] && NoSpace(t)
  }

  predicate WellFormed(a: AddressLine) {
    Token(a.network) && Token(a.station) && Token(a.ip) && Token(a.port)
  }

  /**
   * A line of the address file, stripped. Comment lines (starting with "#")
   * and lines that do not consist of exactly four whitespace-separated tokens
   * are skipped (None).
   */
  function ParseLine(raw: string): (r: Option<AddressLine>)
    ensures r.Some? ==> Strip(raw) != [] && Strip(raw)[0] != '#' && |Split(Strip(raw))| == 4
    ensures r.Some? ==> WellFormed(r.value)
  {
    var line := Strip(raw);
    if line != [] && line[0] == '#' then None
    else
      var tokens := Split(line);
      if |tokens| == 4 then Some(AddressLine(tokens[0], tokens[1], tokens[2], tokens[3])) else None
  }

  /** The line that lists the four fields separated by single blanks. */
  function LineOf(a: AddressLine): string {
    JoinWords([a.network, a.station, a.ip, a.port])
  }

  /** A line of four tokens separated by blanks is read back as those four tokens. */
  lemma ParseLineRoundTrip(a: AddressLine)
    requires WellFormed(a) && a.network[0] != '#'
    ensures ParseLine(LineOf(a)) == Some(a)
  {
    var ws := [a.network, a.station, a.ip, a.port];
    assert forall i :: 0 <= i < |ws| ==> ws[i] != [] && NoSpace(ws[i]);
    JoinWordsEnds(ws);
    StripUnchanged(LineOf(a));
    SplitJoin(ws);
  }

  /** The prefix a line selects keys by: "NET." for every station, "NET.STA." for one. */
  function Prefix(network: string, station: string): string {
    if station != "*" then network + "." + station + "." else network + "."
  }

  /** The keys with a prefix, in key order. */
  function WithPrefix(keys: seq<string>, prefix: string): (r: seq<string>)
    ensures forall k :: k in r <==> k in keys && prefix <= k
    decreases |keys|
  {
    if keys == [] then []
    else WithPrefix(keys[..|keys| - 1], prefix) + (if prefix <= keys[|keys| - 1] then [keys[|keys| - 1]] else [])
  }

  /** Two dot-free codes followed by a dot: one is a prefix of the other only if they are equal. */
  lemma DotPrefix(a: string, b: string, tail: string, rest: string)
    requires '.' !in a && '.' !in b
    ensures a + "." + tail <= b + "." + rest <==> a == b && tail <= rest
  {
    var x, y := a + "." + tail, b + "." + rest;
    if |a| < |b| {
      assert x[|a|] == '.' && y[|a|] == b[|a|];
    } else if |b| < |a| {
      assert x[|b|] == a[|b|] && y[|b|] == '.';
    } else if a != b {
      var i :| 0 <= i < |a| && a[i] != b[i];
      assert x[i] == a[i] && y[i] == b[i];
    } else {
      assert x == a + ("." + tail) && y == a + ("." + rest);
      assert x[|a| + 1..] == tail && y[|a| + 1..] == rest;
      if x <= y {
        assert tail == y[|a| + 1..|a| + 1 + |tail|];
      }
    }
  }

  /**
   * For codes without dots, the prefix of a line selects the keys of its
   * network, and of its station unless the station is "*".
   */
  lemma PrefixSelects(network: string, station: string, net: string, sta: string, loc: string, cha: string)
    requires '.' !in network && '.' !in station && '.' !in net && '.' !in sta
    ensures Prefix(network, station) <= StreamKey(net, sta, loc, cha) <==>
      net == network && (station == "*" || sta == station)
  {
    var key := StreamKey(net, sta, loc, cha);
    var tail := loc + "." + cha;
    assert key == net + "." + (sta + "." + tail);
    if station != "*" {
      assert Prefix(network, station) == network + "." + (station + "." + []);
      DotPrefix(network, net, station + "." + [], sta + "." + tail);
      DotPrefix(station, sta, [], tail);
    } else {
      assert Prefix(network, station) == network + "." + [];
      DotPrefix(network, net, [], sta + "." + tail);
    }
  }

  /** The address of every configured item among the selected keys is set; nothing else changes. */
  function Assign(d: Dict, selected: seq<string>, ip: string, port: string): (r: Dict)
    ensures r.keys == d.keys && r.items.Keys == d.items.Keys
    ensures d.Valid() ==> r.Valid()
  {
    Dict(d.keys, map k | k in d.items ::
      if k in selected && d.items[k].configured then d.items[k].(ip := Some(ip), port := Some(port)) else d.items[k])
  }

  /** Selecting one more key changes at most the item of that key. */
  lemma AssignOneMore(d: Dict, selected: seq<string>, k: string, ip: string, port: string)
    requires k in d.items
    ensures Assign(d, selected + [k], ip, port) ==
      var r := Assign(d, selected, ip, port);
      if d.items[k].configured then r.(items := r.items[k := d.items[k].(ip := Some(ip), port := Some(port))]) else r
  {
    assert forall x :: x in selected + [k] <==> x in selected || x == k;
  }

  /**
   * Reading the remaining lines from a dictionary: whether reading succeeds
   * and the dictionary it leaves. A line whose prefix selects no key stops the
   * reading with a failure, keeping what earlier lines assigned.
   */
  function ReadLines(d: Dict, lines: seq<string>): (bool, Dict)
    decreases |lines|
  {
    if lines == [] then (true, d)
    else
      match ParseLine(lines[0])
      case None => ReadLines(d, lines[1..])
      case Some(a) =>
        var selected := WithPrefix(d.keys, Prefix(a.network, a.station));
        if selected == [] then (false, d)
        else ReadLines(Assign(d, selected, a.ip, a.port), lines[1..])
  }

  /** Reading keeps the keys, the configured flags and the port statuses; only configured items get new addresses. */
  lemma {:induction false} ReadKeepsStreams(d: Dict, lines: seq<string>)
    ensures ReadLines(d, lines).1.keys == d.keys && ReadLines(d, lines).1.items.Keys == d.items.Keys
    ensures d.Valid() ==> ReadLines(d, lines).1.Valid()
    ensures forall k :: k in d.items ==>
      && ReadLines(d, lines).1.items[k].configured == d.items[k].configured
      && ReadLines(d, lines).1.items[k].portStatus == d.items[k].portStatus
      && (ReadLines(d, lines).1.items[k].ip.Some? ==> d.items[k].ip.Some? || d.items[k].configured)
    decreases |lines|
  {
    if lines != [] {
      match ParseLine(lines[0])
      case None =>
        ReadKeepsStreams(d, lines[1..]);
      case Some(a) =>
        var selected := WithPrefix(d.keys, Prefix(a.network, a.station));
        if selected != [] {
          ReadKeepsStreams(Assign(d, selected, a.ip, a.port), lines[1..]);
        }
    }
  }

  /** The line is an address line whose prefix selects the key. */
  predicate Selects(raw: string, k: string) {
    ParseLine(raw).Some? && Prefix(ParseLine(raw).value.network, ParseLine(raw).value.station) <= k
  }

  /** A stream that no line of the file selects keeps its item, whether reading succeeds or not. */
  lemma {:induction false} UnselectedStreamKept(d: Dict, lines: seq<string>, k: string)
    requires k in d.items
    requires forall j :: 0 <= j < |lines| ==> !Selects(lines[j], k)
    ensures k in ReadLines(d, lines).1.items && ReadLines(d, lines).1.items[k] == d.items[k]
    decreases |lines|
  {
    if lines != [] {
      assert !Selects(lines[0], k);
      assert forall j :: 0 <= j < |lines[1..]| ==> lines[1..][j] == lines[j + 1];
      match ParseLine(lines[0])
      case None =>
        UnselectedStreamKept(d, lines[1..], k);
      case Some(a) =>
        var selected := WithPrefix(d.keys, Prefix(a.network, a.station));
        if selected != [] {
          var d' := Assign(d, selected, a.ip, a.port);
          assert k !in selected;
          assert d'.items[k] == d.items[k];
          UnselectedStreamKept(d', lines[1..], k);
        }
    }
  }

  /**
   * Reading a file in two parts: the second part is read from the dictionary
   * the first leaves, unless the first part already stopped the reading.
   */
  lemma {:induction false} ReadLinesAppend(d: Dict, pre: seq<string>, post: seq<string>)
    ensures ReadLines(d, pre + post) ==
      if ReadLines(d, pre).0 then ReadLines(ReadLines(d, pre).1, post) else ReadLines(d, pre)
    decreases |pre|
  {
    if pre == [] {
      assert pre + post == post;
    } else {
      var lines := pre + post;
      assert lines[0] == pre[0] && lines[1..] == pre[1..] + post;
      match ParseLine(pre[0])
      case None =>
        ReadLinesAppend(d, pre[1..], post);
      case Some(a) =>
        var selected := WithPrefix(d.keys, Prefix(a.network, a.station));
        if selected != [] {
          ReadLinesAppend(Assign(d, selected, a.ip, a.port), pre[1..], post);
        }
    }
  }

  /**
   * When reading succeeds, a configured stream gets the host and port of the
   * last line that selects it: earlier lines are overwritten, later lines
   * leave it alone.
   */
  lemma LastSelectingLineWins(d: Dict, lines: seq<string>, i: nat, a: AddressLine, k: string)
    requires ReadLines(d, lines).0
    requires k in d.keys && k in d.items && d.items[k].configured
    requires i < |lines| && ParseLine(lines[i]) == Some(a) && Prefix(a.network, a.station) <= k
    requires forall j :: i < j < |lines| ==> !Selects(lines[j], k)
    ensures k in ReadLines(d, lines).1.items
    ensures ReadLines(d, lines).1.items[k].ip == Some(a.ip) && ReadLines(d, lines).1.items[k].port == Some(a.port)
  {
    var pre, tail := lines[..i], lines[i..];
    assert lines == pre + tail;
    ReadLinesAppend(d, pre, tail);
    ReadKeepsStreams(d, pre);
    var mid := ReadLines(d, pre).1;
    assert tail[0] == lines[i];
    forall j | 0 < j < |tail|
      ensures !Selects(tail[j], k)
    {
      assert tail[j] == lines[i + j];
    }
    FirstSelectingLineWins(mid, tail, a, k);
  }

  /** A first line that selects a configured stream decides its address when no later line selects it. */
  lemma FirstSelectingLineWins(d: Dict, lines: seq<string>, a: AddressLine, k: string)
    requires ReadLines(d, lines).0
    requires k in d.keys && k in d.items && d.items[k].configured
    requires lines != [] && ParseLine(lines[0]) == Some(a) && Prefix(a.network, a.station) <= k
    requires forall j :: 0 < j < |lines| ==> !Selects(lines[j], k)
    ensures k in ReadLines(d, lines).1.items
    ensures ReadLines(d, lines).1.items[k].ip == Some(a.ip) && ReadLines(d, lines).1.items[k].port == Some(a.port)
  {
    SelectedGetsAddress(d, a, k);
    var d' := Assign(d, WithPrefix(d.keys, Prefix(a.network, a.station)), a.ip, a.port);
    ReadSelectingLine(d, lines, a);
    var rest := lines[1..];
    assert forall j :: 0 <= j < |rest| ==> rest[j] == lines[j + 1];
    UnselectedStreamKept(d', rest, k);
  }

  /** A configured stream that a line's prefix selects gets the line's host and port. */
  lemma SelectedGetsAddress(d: Dict, a: AddressLine, k: string)
    requires k in d.keys && k in d.items && d.items[k].configured && Prefix(a.network, a.station) <= k
    ensures var selected := WithPrefix(d.keys, Prefix(a.network, a.station));
      && selected != []
      && Assign(d, selected, a.ip, a.port).keys == d.keys
      && k in Assign(d, selected, a.ip, a.port).items
      && Assign(d, selected, a.ip, a.port).items[k] == d.items[k].(ip := Some(a.ip), port := Some(a.port))
  {
  }

  /** A line that selects some key assigns its address and reading goes on with the next line. */
  lemma ReadSelectingLine(d: Dict, lines: seq<string>, a: AddressLine)
    requires lines != [] && ParseLine(lines[0]) == Some(a)
    requires WithPrefix(d.keys, Prefix(a.network, a.station)) != []
    ensures ReadLines(d, lines) ==
      ReadLines(Assign(d, WithPrefix(d.keys, Prefix(a.network, a.station)), a.ip, a.port), lines[1..])
  {
  }

  // ---------------------------------------------------------------------------
  //  Waveform quality objects
  // ---------------------------------------------------------------------------

  datatype StreamId = StreamId(network: string, station: string, location: string, channel: string)

  /** A waveform quality report; the creation time it also carries is not modelled. */
  datatype QcObject = QcObject(
    waveformId: StreamId, creatorId: string, start: real, end: real, kind: string,
    parameter: string, value: int, lowerUncertainty: Option<real>, upperUncertainty: Option<real>,
    windowLength: real)

  const CreatorId: string := "qcmsg"
  const ReportKind: string := "report"

  /**
   * The two reports of a stream: its ping, with zero uncertainties, and its
   * port status, without. None when the key does not split into four codes
   * (the unpacking raises).
   */
  function GenerateQcObjects(key: string, ping: int, portStatus: int, start: real, end: real): (r: Option<seq<QcObject>>)
    ensures r.Some? <==> |SplitOn(key, '.')| == 4
    ensures r.Some? ==> |r.value| == 2
  {
    var parts := SplitOn(key, '.');
    if |parts| != 4 then None
    else
      var id := StreamId(parts[0], parts[1], parts[2], parts[3]);
      Some([QcObject(id, CreatorId, start, end, ReportKind, "ping", ping, Some(0.0), Some(0.0), end - start),
            QcObject(id, CreatorId, start, end, ReportKind, "portstatus", portStatus, None, None, end - start)])
  }

  /**
   * The key of a stream whose codes hold no dot yields a ping report and a
   * port status report, both about that stream, over the probe's window.
   */
  lemma QcObjectsNameTheirStream(net: string, sta: string, loc: string, cha: string,
                                 ping: int, portStatus: int, start: real, end: real)
    requires '.' !in net && '.' !in sta && '.' !in loc && '.' !in cha
    ensures var r := GenerateQcObjects(StreamKey(net, sta, loc, cha), ping, portStatus, start, end);
      && r.Some? && |r.value| == 2
      && r.value[0].parameter == "ping" && r.value[0].value == ping
      && r.value[1].parameter == "portstatus" && r.value[1].value == portStatus
      && (forall o :: o in r.value ==>
            o.waveformId == StreamId(net, sta, loc, cha) && o.creatorId == CreatorId && o.kind == ReportKind
            && o.start == start && o.end == end && o.windowLength == end - start)
  {
    KeySplits(net, sta, loc, cha);
  }

  // ---------------------------------------------------------------------------
  //  Probing the addresses
  // ---------------------------------------------------------------------------

  /**
   * The outcome of probing an address: the clock before, the round trip in
   * milliseconds (-1 when the port cannot be reached) and the clock after.
   */
  datatype Probe = Probe(start: real, ping: int, end: real)

  /** What is remembered about a probed address. */
  datatype Cached = Cached(ping: int, portStatus: int, start: real, end: real)

  /** What was reported for one stream. */
  datatype Report = Report(key: string, address: string, ping: int, portStatus: int, start: real, end: real)

  /**
   * The state of a pass over the streams: whether it is still running, the
   * cache of probed addresses, the reports and objects sent so far, and the
   * addresses probed, in order.
   */
  datatype Outcome = Outcome(completed: bool, cache: map<string, Cached>, reports: seq<Report>, sent: seq<QcObject>, probed: seq<string>)

  const Start: Outcome := Outcome(true, map[], [], [], [])

  /** The port status: the port when it answered, the negated port otherwise. */
  function PortStatus(port: int, ping: int): (s: int)
    ensures ping >= 0 ==> s == port
    ensures ping < 0 ==> s == -port
  {
    if ping >= 0 then port else -1 * port
  }

  /** An item is probed when it has a non-empty host. */
  predicate HasAddress(item: StreamItem) {
    item.ip.Some? && item.ip.value != ""
  }

  /** "host:port", with "None" for a missing port. */
  function Address(item: StreamItem): string
    requires item.ip.Some?
  {
    item.ip.value + ":" + item.port.GetOr("None")
  }

  /** Sends the two objects of a stream and records its report. */
  function Emit(o: Outcome, key: string, address: string, ping: int, portStatus: int, start: real, end: real): Outcome {
    match GenerateQcObjects(key, ping, portStatus, start, end)
    case None => o.(completed := false)
    case Some(objs) => o.(reports := o.reports + [Report(key, address, ping, portStatus, start, end)], sent := o.sent + objs)
  }

  /**
   * One stream of the pass. Items without a host are skipped. A cached
   * address reuses its ping and port status and reports the cached end as
   * both start and end; any other address is probed.
   */
  function Step(item: StreamItem, key: string, o: Outcome, probe: (string, int) -> Option<Probe>): Outcome {
    if !HasAddress(item) then o
    else if Address(item) in o.cache then Reuse(key, o, Address(item))
    else ProbeAddress(item, key, o, probe)
  }

  /** Reports a stream whose address is cached. */
  function Reuse(key: string, o: Outcome, address: string): Outcome
    requires address in o.cache
  {
    var c := o.cache[address];
    Emit(o, key, address, c.ping, c.portStatus, c.end, c.end)
  }

  /**
   * Probes the address of a stream: the port is converted (a port that is no
   * integer ends the pass, as does a probe that raises), the address probed,
   * its ping and port status cached and the stream reported.
   */
  function ProbeAddress(item: StreamItem, key: string, o: Outcome, probe: (string, int) -> Option<Probe>): Outcome
    requires item.ip.Some?
  {
    match ParseInt(item.port.GetOr("None"))
    case None => o.(completed := false)
    case Some(port) =>
      match probe(item.ip.value, port)
      case None => o.(completed := false)
      case Some(p) =>
        var status := PortStatus(port, p.ping);
        var cached := o.(cache := o.cache[Address(item) := Cached(p.ping, status, p.start, p.end)],
                         probed := o.probed + [Address(item)]);
        Emit(cached, key, Address(item), p.ping, status, p.start, p.end)
  }

  /** The pass over the remaining keys, from an intermediate state; a stopped pass stays stopped. */
  function ProcessFrom(d: Dict, ks: seq<string>, o: Outcome, probe: (string, int) -> Option<Probe>): Outcome
    requires forall k :: k in ks ==> k in d.items
    decreases |ks|
  {
    if ks == [] || !o.completed then o
    else ProcessFrom(d, ks[1..], Step(d.items[ks[0]], ks[0], o, probe), probe)
  }

  /** Every address is probed at most once, and the cache holds exactly the probed addresses. */
  ghost predicate ProbesOnce(o: Outcome) {
    && (forall i, j :: 0 <= i < j < |o.probed| ==> o.probed[i] != o.probed[j])
    && (forall a :: a in o.cache <==> a in o.probed)
  }

  /**
   * Every report agrees with the cache entry of its address, and a report
   * for an address reported before has its start equal to its end.
   */
  ghost predicate ReportsFromCache(o: Outcome) {
    && (forall j :: 0 <= j < |o.reports| ==>
          && o.reports[j].address in o.cache
          && o.cache[o.reports[j].address].ping == o.reports[j].ping
          && o.cache[o.reports[j].address].portStatus == o.reports[j].portStatus
          && o.cache[o.reports[j].address].end == o.reports[j].end)
    && (forall i, j :: 0 <= i < j < |o.reports| && o.reports[i].address == o.reports[j].address ==>
          o.reports[j].start == o.reports[j].end)
  }

  /** The objects sent are, report by report, the ping and port status objects of that report. */
  ghost predicate SentInPairs(o: Outcome) {
    && |o.sent| == 2 * |o.reports|
    && forall j :: 0 <= j < |o.reports| ==>
         GenerateQcObjects(o.reports[j].key, o.reports[j].ping, o.reports[j].portStatus,
                           o.reports[j].start, o.reports[j].end) == Some([o.sent[2 * j], o.sent[2 * j + 1]])
  }

  /**
   * Probing the host of an item on its port, read as an integer, gave the
   * clock readings and ping of c, and c holds the port status of that ping.
   */
  ghost predicate ProbedAs(item: StreamItem, probe: (string, int) -> Option<Probe>, c: Cached) {
    && item.ip.Some?
    && ParseInt(item.port.GetOr("None")).Some?
    && var port := ParseInt(item.port.GetOr("None")).value;
       && probe(item.ip.value, port) == Some(Probe(c.start, c.ping, c.end))
       && c.portStatus == PortStatus(port, c.ping)
  }

  /** The values of a report, as a cache entry. */
  function AsCached(r: Report): Cached {
    Cached(r.ping, r.portStatus, r.start, r.end)
  }

  /** Every report names a stream with a host and carries that stream's own address. */
  ghost predicate ReportsOwnAddress(d: Dict, o: Outcome) {
    forall j :: 0 <= j < |o.reports| ==>
      && o.reports[j].key in d.items
      && HasAddress(d.items[o.reports[j].key])
      && o.reports[j].address == Address(d.items[o.reports[j].key])
  }

  /** No report before the j-th has the j-th report's address. */
  ghost predicate FirstOfAddress(o: Outcome, j: int)
    requires 0 <= j < |o.reports|
  {
    forall i :: 0 <= i < j ==> o.reports[i].address != o.reports[j].address
  }

  /** The first report of an address holds its own stream's probe result. */
  ghost predicate FirstReportsProbed(d: Dict, probe: (string, int) -> Option<Probe>, o: Outcome) {
    forall j :: 0 <= j < |o.reports| && o.reports[j].key in d.items && FirstOfAddress(o, j) ==>
      ProbedAs(d.items[o.reports[j].key], probe, AsCached(o.reports[j]))
  }

  /** A stream with a host and this address whose probe gave c. */
  ghost predicate ProbedStream(d: Dict, probe: (string, int) -> Option<Probe>, a: string, c: Cached) {
    exists k :: k in d.items && HasAddress(d.items[k]) && Address(d.items[k]) == a && ProbedAs(d.items[k], probe, c)
  }

  /** Every cache entry is the probe result of a stream with that address. */
  ghost predicate CacheProbed(d: Dict, probe: (string, int) -> Option<Probe>, o: Outcome) {
    forall a :: a in o.cache ==> ProbedStream(d, probe, a, o.cache[a])
  }

  /** While the pass runs, every cached address has been reported. */
  ghost predicate CacheReported(o: Outcome) {
    o.completed ==> forall a :: a in o.cache ==> exists j :: 0 <= j < |o.reports| && o.reports[j].address == a
  }

  /**
   * Reports and cache come from the dictionary and the probe: the four
   * predicates above together.
   */
  ghost predicate ReportsProbed(d: Dict, probe: (string, int) -> Option<Probe>, o: Outcome) {
    ReportsOwnAddress(d, o) && FirstReportsProbed(d, probe, o) && CacheProbed(d, probe, o) && CacheReported(o)
  }

  /** Emitting leaves the cache and the probed addresses alone and appends the report and its objects, or nothing. */
  lemma EmitAppends(o: Outcome, key: string, address: string, ping: int, portStatus: int, start: real, end: real)
    ensures var r := Emit(o, key, address, ping, portStatus, start, end);
      && r.cache == o.cache && r.probed == o.probed
      && (|| (r.reports == o.reports && r.sent == o.sent)
          || (&& r.reports == o.reports + [Report(key, address, ping, portStatus, start, end)]
              && GenerateQcObjects(key, ping, portStatus, start, end) == Some(r.sent[|o.sent|..])
              && r.sent[..|o.sent|] == o.sent))
  {
    match GenerateQcObjects(key, ping, portStatus, start, end)
    case None =>
    case Some(objs) =>
      var r := Emit(o, key, address, ping, portStatus, start, end);
      assert r.sent == o.sent + objs;
      assert r.sent[|o.sent|..] == objs && r.sent[..|o.sent|] == o.sent;
  }

  lemma StepProbesOnce(item: StreamItem, key: string, o: Outcome, probe: (string, int) -> Option<Probe>)
    requires ProbesOnce(o)
    ensures ProbesOnce(Step(item, key, o, probe))
  {
    if HasAddress(item) {
      var address := Address(item);
      if address in o.cache {
        var c := o.cache[address];
        EmitAppends(o, key, address, c.ping, c.portStatus, c.end, c.end);
      } else {
        assert address !in o.probed;
        match ParseInt(item.port.GetOr("None"))
        case None =>
        case Some(port) =>
          match probe(item.ip.value, port)
          case None =>
          case Some(p) =>
            var status := PortStatus(port, p.ping);
            var cached := o.(cache := o.cache[address := Cached(p.ping, status, p.start, p.end)],
                             probed := o.probed + [address]);
            assert ProbesOnce(cached);
            EmitAppends(cached, key, address, p.ping, status, p.start, p.end);
      }
    }
  }

  /** A report that agrees with a cache extending the old one keeps the reports agreeing with the cache. */
  lemma AppendReport(o: Outcome, cache: map<string, Cached>, r: Report)
    requires ReportsFromCache(o)
    requires forall a :: a in o.cache ==> a in cache && cache[a] == o.cache[a]
    requires r.address in cache && cache[r.address].ping == r.ping
    requires cache[r.address].portStatus == r.portStatus && cache[r.address].end == r.end
    requires (exists i :: 0 <= i < |o.reports| && o.reports[i].address == r.address) ==> r.start == r.end
    ensures ReportsFromCache(o.(cache := cache, reports := o.reports + [r]))
    ensures ReportsFromCache(o.(cache := cache))
  {
    var rs := o.reports + [r];
    forall j | 0 <= j < |rs|
      ensures rs[j].address in cache && cache[rs[j].address].ping == rs[j].ping
      ensures cache[rs[j].address].portStatus == rs[j].portStatus && cache[rs[j].address].end == rs[j].end
    {
      if j < |o.reports| {
        assert rs[j] == o.reports[j];
      }
    }
    forall i, j | 0 <= i < j < |rs| && rs[i].address == rs[j].address
      ensures rs[j].start == rs[j].end
    {
      if j < |o.reports| {
        assert rs[i] == o.reports[i] && rs[j] == o.reports[j];
      } else {
        assert o.reports[i].address == r.address;
      }
    }
  }

  lemma StepReportsFromCache(item: StreamItem, key: string, o: Outcome, probe: (string, int) -> Option<Probe>)
    requires ReportsFromCache(o)
    ensures ReportsFromCache(Step(item, key, o, probe))
  {
    if HasAddress(item) {
      if Address(item) in o.cache {
        ReuseReportsFromCache(key, o, Address(item));
      } else {
        ProbeReportsFromCache(item, key, o, probe);
      }
    }
  }

  /**
   * A cached address is reported with its cached ping and port status, and
   * with the cached end as both start and end.
   */
  lemma ReuseReportsFromCache(key: string, o: Outcome, address: string)
    requires address in o.cache && ReportsFromCache(o)
    ensures ReportsFromCache(Reuse(key, o, address))
    ensures var c := o.cache[address];
      Reuse(key, o, address).completed ==>
        Reuse(key, o, address).reports == o.reports + [Report(key, address, c.ping, c.portStatus, c.end, c.end)]
  {
    var c := o.cache[address];
    AppendReport(o, o.cache, Report(key, address, c.ping, c.portStatus, c.end, c.end));
    EmitAppends(o, key, address, c.ping, c.portStatus, c.end, c.end);
  }

  lemma ProbeReportsFromCache(item: StreamItem, key: string, o: Outcome, probe: (string, int) -> Option<Probe>)
    requires item.ip.Some? && Address(item) !in o.cache && ReportsFromCache(o)
    ensures ReportsFromCache(ProbeAddress(item, key, o, probe))
  {
    var address := Address(item);
    match ParseInt(item.port.GetOr("None"))
    case None =>
    case Some(port) =>
      match probe(item.ip.value, port)
      case None =>
      case Some(p) =>
        var status := PortStatus(port, p.ping);
        var cache := o.cache[address := Cached(p.ping, status, p.start, p.end)];
        var cached := o.(cache := cache, probed := o.probed + [address]);
        assert forall i :: 0 <= i < |o.reports| ==> o.reports[i].address != address;
        AppendReport(o, cache, Report(key, address, p.ping, status, p.start, p.end));
        EmitAppends(cached, key, address, p.ping, status, p.start, p.end);
  }

  /** Appending a report with its two objects keeps the objects in pairs. */
  lemma AppendPair(o: Outcome, r: Outcome)
    requires SentInPairs(o)
    requires |r.reports| == |o.reports| + 1 && |o.sent| <= |r.sent|
    requires r.reports[..|o.reports|] == o.reports && r.sent[..|o.sent|] == o.sent
    requires var x := r.reports[|o.reports|];
      GenerateQcObjects(x.key, x.ping, x.portStatus, x.start, x.end) == Some(r.sent[|o.sent|..])
    ensures SentInPairs(r)
  {
    var x := r.reports[|o.reports|];
    assert |r.sent[|o.sent|..]| == 2;
    forall j | 0 <= j < |r.reports|
      ensures GenerateQcObjects(r.reports[j].key, r.reports[j].ping, r.reports[j].portStatus,
                                r.reports[j].start, r.reports[j].end) == Some([r.sent[2 * j], r.sent[2 * j + 1]])
    {
      if j < |o.reports| {
        assert r.reports[j] == o.reports[j];
        assert r.sent[2 * j] == o.sent[2 * j] && r.sent[2 * j + 1] == o.sent[2 * j + 1];
      } else {
        assert r.sent[|o.sent|..] == [r.sent[2 * j], r.sent[2 * j + 1]];
      }
    }
  }

  lemma StepSentInPairs(item: StreamItem, key: string, o: Outcome, probe: (string, int) -> Option<Probe>)
    requires SentInPairs(o)
    ensures SentInPairs(Step(item, key, o, probe))
  {
    var r := Step(item, key, o, probe);
    if HasAddress(item) {
      var address := Address(item);
      if address in o.cache {
        var c := o.cache[address];
        EmitAppends(o, key, address, c.ping, c.portStatus, c.end, c.end);
        if r.reports != o.reports {
          AppendPair(o, r);
        }
      } else {
        match ParseInt(item.port.GetOr("None"))
        case None =>
        case Some(port) =>
          match probe(item.ip.value, port)
          case None =>
          case Some(p) =>
            var status := PortStatus(port, p.ping);
            var cached := o.(cache := o.cache[address := Cached(p.ping, status, p.start, p.end)],
                             probed := o.probed + [address]);
            EmitAppends(cached, key, address, p.ping, status, p.start, p.end);
            if r.reports != o.reports {
              AppendPair(o, r);
            }
      }
    }
  }

  /** A step of a running pass keeps the reports and the cache tied to the dictionary and the probe. */
  lemma StepReportsProbed(d: Dict, key: string, o: Outcome, probe: (string, int) -> Option<Probe>)
    requires key in d.items && o.completed
    requires ReportsProbed(d, probe, o)
    ensures ReportsProbed(d, probe, Step(d.items[key], key, o, probe))
  {
    var item := d.items[key];
    if HasAddress(item) {
      if Address(item) in o.cache {
        ReuseReportsProbed(d, key, o, probe);
      } else {
        ProbeReportsProbed(d, key, o, probe);
      }
    }
  }

  lemma ReuseReportsProbed(d: Dict, key: string, o: Outcome, probe: (string, int) -> Option<Probe>)
    requires key in d.items && HasAddress(d.items[key]) && Address(d.items[key]) in o.cache && o.completed
    requires ReportsProbed(d, probe, o)
    ensures ReportsProbed(d, probe, Reuse(key, o, Address(d.items[key])))
  {
    var address := Address(d.items[key]);
    var c := o.cache[address];
    var r := Reuse(key, o, address);
    EmitAppends(o, key, address, c.ping, c.portStatus, c.end, c.end);
    if r.reports != o.reports {
      var n := |o.reports|;
      assert r.reports == o.reports + [Report(key, address, c.ping, c.portStatus, c.end, c.end)];
      assert OneMoreReport(o, r);
      var i :| 0 <= i < n && o.reports[i].address == address;
      assert r.reports[i].address == r.reports[n].address;
      assert !FirstOfAddress(r, n);
      OwnAddressAppend(d, o, r);
      FirstProbedAppend(d, probe, o, r);
      CacheReportedAppend(o, r);
    }
  }

  lemma ProbeReportsProbed(d: Dict, key: string, o: Outcome, probe: (string, int) -> Option<Probe>)
    requires key in d.items && HasAddress(d.items[key]) && Address(d.items[key]) !in o.cache && o.completed
    requires ReportsProbed(d, probe, o)
    ensures ReportsProbed(d, probe, ProbeAddress(d.items[key], key, o, probe))
  {
    var item := d.items[key];
    var address := Address(item);
    match ParseInt(item.port.GetOr("None"))
    case None =>
    case Some(port) =>
      match probe(item.ip.value, port)
      case None =>
      case Some(p) =>
        var status := PortStatus(port, p.ping);
        var entry := Cached(p.ping, status, p.start, p.end);
        var cached := o.(cache := o.cache[address := entry], probed := o.probed + [address]);
        var r := ProbeAddress(item, key, o, probe);
        EmitAppends(cached, key, address, p.ping, status, p.start, p.end);
        assert ProbedAs(item, probe, entry);
        CacheProbedExtend(d, probe, o, r, key);
        if r.reports != o.reports {
          var n := |o.reports|;
          assert r.reports == o.reports + [Report(key, address, p.ping, status, p.start, p.end)];
          assert OneMoreReport(o, r);
          assert AsCached(r.reports[n]) == entry;
          OwnAddressAppend(d, o, r);
          FirstProbedAppend(d, probe, o, r);
          CacheReportedAppend(o, r);
        }
  }

  /** r has the reports of o and one more. */
  ghost predicate OneMoreReport(o: Outcome, r: Outcome) {
    && |r.reports| == |o.reports| + 1
    && forall j :: 0 <= j < |o.reports| ==> r.reports[j] == o.reports[j]
  }

  lemma OwnAddressAppend(d: Dict, o: Outcome, r: Outcome)
    requires ReportsOwnAddress(d, o) && OneMoreReport(o, r)
    requires var x := r.reports[|o.reports|];
      x.key in d.items && HasAddress(d.items[x.key]) && x.address == Address(d.items[x.key])
    ensures ReportsOwnAddress(d, r)
  {
    forall j | 0 <= j < |r.reports| && j < |o.reports| ensures r.reports[j] == o.reports[j] { }
  }

  lemma FirstProbedAppend(d: Dict, probe: (string, int) -> Option<Probe>, o: Outcome, r: Outcome)
    requires FirstReportsProbed(d, probe, o) && OneMoreReport(o, r)
    requires var x := r.reports[|o.reports|];
      x.key in d.items && FirstOfAddress(r, |o.reports|) ==> ProbedAs(d.items[x.key], probe, AsCached(x))
    ensures FirstReportsProbed(d, probe, r)
  {
    forall j | 0 <= j < |r.reports| && r.reports[j].key in d.items && FirstOfAddress(r, j)
      ensures ProbedAs(d.items[r.reports[j].key], probe, AsCached(r.reports[j]))
    {
      if j < |o.reports| {
        assert r.reports[j] == o.reports[j];
        assert FirstOfAddress(o, j);
      }
    }
  }

  lemma CacheProbedExtend(d: Dict, probe: (string, int) -> Option<Probe>, o: Outcome, r: Outcome, k: string)
    requires CacheProbed(d, probe, o)
    requires forall a :: a in o.cache ==> a in r.cache && r.cache[a] == o.cache[a]
    requires k in d.items && HasAddress(d.items[k])
    requires forall a :: a in r.cache && a !in o.cache ==> a == Address(d.items[k]) && ProbedAs(d.items[k], probe, r.cache[a])
    ensures CacheProbed(d, probe, r)
  {
    forall a | a in r.cache ensures ProbedStream(d, probe, a, r.cache[a]) {
      if a !in o.cache {
        assert Address(d.items[k]) == a;
      }
    }
  }

  lemma CacheReportedAppend(o: Outcome, r: Outcome)
    requires CacheReported(o) && o.completed && OneMoreReport(o, r)
    requires forall a :: a in r.cache ==> a in o.cache || a == r.reports[|o.reports|].address
    ensures CacheReported(r)
  {
    forall a | a in r.cache && r.completed
      ensures exists j :: 0 <= j < |r.reports| && r.reports[j].address == a
    {
      if a in o.cache {
        var j :| 0 <= j < |o.reports| && o.reports[j].address == a;
        assert r.reports[j].address == a;
      } else {
        assert r.reports[|o.reports|].address == a;
      }
    }
  }

  /** The pass probes each distinct address once: the probed addresses are distinct and are the cached ones. */
  lemma {:induction false} ProcessProbesOnce(d: Dict, ks: seq<string>, o: Outcome, probe: (string, int) -> Option<Probe>)
    requires forall k :: k in ks ==> k in d.items
    requires ProbesOnce(o)
    ensures ProbesOnce(ProcessFrom(d, ks, o, probe))
    decreases |ks|
  {
    if ks != [] && o.completed {
      StepProbesOnce(d.items[ks[0]], ks[0], o, probe);
      ProcessProbesOnce(d, ks[1..], Step(d.items[ks[0]], ks[0], o, probe), probe);
    }
  }

  /** Reports for one address share its ping and port status; repeated ones have start equal to end. */
  lemma {:induction false} ProcessReportsFromCache(d: Dict, ks: seq<string>, o: Outcome, probe: (string, int) -> Option<Probe>)
    requires forall k :: k in ks ==> k in d.items
    requires ReportsFromCache(o)
    ensures ReportsFromCache(ProcessFrom(d, ks, o, probe))
    decreases |ks|
  {
    if ks != [] && o.completed {
      StepReportsFromCache(d.items[ks[0]], ks[0], o, probe);
      ProcessReportsFromCache(d, ks[1..], Step(d.items[ks[0]], ks[0], o, probe), probe);
    }
  }

  /** Every reported stream yields exactly its two objects, in report order. */
  lemma {:induction false} ProcessSentInPairs(d: Dict, ks: seq<string>, o: Outcome, probe: (string, int) -> Option<Probe>)
    requires forall k :: k in ks ==> k in d.items
    requires SentInPairs(o)
    ensures SentInPairs(ProcessFrom(d, ks, o, probe))
    decreases |ks|
  {
    if ks != [] && o.completed {
      StepSentInPairs(d.items[ks[0]], ks[0], o, probe);
      ProcessSentInPairs(d, ks[1..], Step(d.items[ks[0]], ks[0], o, probe), probe);
    }
  }

  /**
   * Over a running pass, every report carries its own stream's address, the
   * first report of an address holds that stream's own probe result, and the
   * cache holds probe results of streams with those addresses.
   */
  lemma {:induction false} ProcessReportsProbed(d: Dict, ks: seq<string>, o: Outcome, probe: (string, int) -> Option<Probe>)
    requires forall k :: k in ks ==> k in d.items
    requires ReportsProbed(d, probe, o)
    ensures ReportsProbed(d, probe, ProcessFrom(d, ks, o, probe))
    decreases |ks|
  {
    if ks != [] && o.completed {
      StepReportsProbed(d, ks[0], o, probe);
      ProcessReportsProbed(d, ks[1..], Step(d.items[ks[0]], ks[0], o, probe), probe);
    }
  }

  /** The keys of the reports, in order. */
  function ReportKeys(rs: seq<Report>): (ks: seq<string>)
    ensures |ks| == |rs| && forall j :: 0 <= j < |rs| ==> ks[j] == rs[j].key
  {
    seq(|rs|, j requires 0 <= j < |rs| => rs[j].key)
  }

  /** The keys whose items have a host, in order. */
  function AddressedKeys(d: Dict, ks: seq<string>): seq<string>
    requires forall k :: k in ks ==> k in d.items
    decreases |ks|
  {
    if ks == [] then []
    else (if HasAddress(d.items[ks[0]]) then [ks[0]] else []) + AddressedKeys(d, ks[1..])
  }

  /** A step that goes on adds one report for a stream with a host and nothing for one without. */
  lemma StepReports(item: StreamItem, key: string, o: Outcome, probe: (string, int) -> Option<Probe>)
    requires Step(item, key, o, probe).completed && o.completed
    ensures HasAddress(item) ==> ReportKeys(Step(item, key, o, probe).reports) == ReportKeys(o.reports) + [key]
    ensures !HasAddress(item) ==> Step(item, key, o, probe) == o
  {
    if HasAddress(item) {
      var o' := Step(item, key, o, probe);
      assert |o'.reports| == |o.reports| + 1 && o'.reports[..|o.reports|] == o.reports && o'.reports[|o.reports|].key == key;
    }
  }

  /** A pass that completes reports every stream that has a host, in key order, and no other. */
  lemma {:induction false} ProcessCovers(d: Dict, ks: seq<string>, o: Outcome, probe: (string, int) -> Option<Probe>)
    requires forall k :: k in ks ==> k in d.items
    requires o.completed
    ensures ProcessFrom(d, ks, o, probe).completed ==>
      ReportKeys(ProcessFrom(d, ks, o, probe).reports) == ReportKeys(o.reports) + AddressedKeys(d, ks)
    decreases |ks|
  {
    if ks != [] {
      var o' := Step(d.items[ks[0]], ks[0], o, probe);
      assert ProcessFrom(d, ks, o, probe) == ProcessFrom(d, ks[1..], o', probe);
      if o'.completed {
        ProcessCovers(d, ks[1..], o', probe);
        StepReports(d.items[ks[0]], ks[0], o, probe);
        var first := if HasAddress(d.items[ks[0]]) then [ks[0]] else [];
        assert AddressedKeys(d, ks) == first + AddressedKeys(d, ks[1..]);
        assert ReportKeys(o'.reports) == ReportKeys(o.reports) + first;
      }
    }
  }

  /**
   * A full pass over the dictionary: each distinct address is probed once,
   * reports for one address agree, every report carries its own stream's
   * address and the first report of an address that stream's own probe
   * result, every report sends a ping and a port status object, and a
   * completed pass reports exactly the streams with a host, in key order.
   */
  lemma ProcessStationProperties(d: Dict, probe: (string, int) -> Option<Probe>)
    requires d.Valid()
    ensures ProbesOnce(ProcessFrom(d, d.keys, Start, probe))
    ensures ReportsProbed(d, probe, ProcessFrom(d, d.keys, Start, probe))
    ensures ReportsFromCache(ProcessFrom(d, d.keys, Start, probe))
    ensures SentInPairs(ProcessFrom(d, d.keys, Start, probe))
    ensures ProcessFrom(d, d.keys, Start, probe).completed ==>
      ReportKeys(ProcessFrom(d, d.keys, Start, probe).reports) == AddressedKeys(d, d.keys)
  {
    ProcessProbesOnce(d, d.keys, Start, probe);
    ProcessReportsFromCache(d, d.keys, Start, probe);
    ProcessSentInPairs(d, d.keys, Start, probe);
    ProcessReportsProbed(d, d.keys, Start, probe);
    ProcessCovers(d, d.keys, Start, probe);
    assert ReportKeys([]) == [];
  }

  // ---------------------------------------------------------------------------
  //  The application
  // ---------------------------------------------------------------------------

  /** The detecLocid ("" when absent) and detecStream of a parameter set; later parameters overwrite earlier ones. */
  method ScanParameters(ps: seq<Parameter>) returns (locid: string, stream: Option<string>)
    ensures locid == LastValue(ps, "detecLocid").GetOr("")
    ensures stream == LastValue(ps, "detecStream")
  {
    locid, stream := "", None;
    ghost var loc: Option<string> := None;
    for j := 0 to |ps|
      invariant stream == LastValue(ps[..j], "detecStream")
      invariant loc == LastValue(ps[..j], "detecLocid") && locid == loc.GetOr("")
    {
      assert ps[..j + 1][..j] == ps[..j];
      if ps[j].name == "detecStream" {
        stream := Some(ps[j].value);
      } else if ps[j].name == "detecLocid" {
        locid := ps[j].value;
        loc := Some(locid);
      }
    }
    assert ps[..|ps|] == ps;
  }

  class App {
    /** The streams by key, in the order they were first stored. */
    var waveformIDs: Dict

    constructor ()
      ensures waveformIDs == Dict([], map[]) && waveformIDs.Valid()
    {
      waveformIDs := Dict([], map[]);
    }

    /**
     * Stores a new unconfigured item for every stream of the current
     * inventory, then lets each binding mark the stream it names; bindings
     * are None when there is no configuration module. Succeeds when some
     * binding marked a stream.
     */
    method BuildStationDictionary(inv: seq<Network>, now: real, bindings: Option<seq<ConfigStation>>) returns (ok: bool)
      modifies this
      ensures var b := ApplyBindings(InsertAll(old(waveformIDs), InventoryKeys(inv, now)), bindings.GetOr([]));
        waveformIDs == b.dict && (ok <==> b.count > 0)
      ensures old(waveformIDs).Valid() ==> waveformIDs.Valid()
    {
      var ks := InventoryKeys(inv, now);
      StoreStreams(ks);
      InsertAllStores(old(waveformIDs), ks);
      ghost var stored := waveformIDs;
      var css := bindings.GetOr([]);
      var configured := MarkBindings(css);
      BindingsMark(stored, css);
      ok := configured != 0;
    }

    /** Stores a new unconfigured item under each key in turn. */
    method StoreStreams(ks: seq<string>)
      modifies this
      ensures waveformIDs == InsertAll(old(waveformIDs), ks)
    {
      for i := 0 to |ks|
        invariant waveformIDs == InsertAll(old(waveformIDs), ks[..i])
      {
        assert ks[..i + 1][..i] == ks[..i];
        waveformIDs := waveformIDs.Set(ks[i], NewItem(false));
      }
      assert ks[..|ks|] == ks;
    }

    /**
     * Lets each binding mark the stream named by its last detecLocid and
     * detecStream, and counts the bindings that marked one.
     */
    method MarkBindings(css: seq<ConfigStation>) returns (configured: nat)
      modifies this
      ensures ApplyBindings(old(waveformIDs), css) == Bound(waveformIDs, configured)
    {
      configured := 0;
      for j := 0 to |css|
        invariant ApplyBindings(old(waveformIDs), css[..j]) == Bound(waveformIDs, configured)
      {
        assert css[..j + 1][..j] == css[..j];
        var cs := css[j];
        var key: Option<string> := None;
        if cs.params.Some? {
          var locid, stream := ScanParameters(cs.params.value);
          if stream.Some? {
            key := Some(StreamKey(cs.network, cs.station, locid, CompleteStream(stream.value)));
          }
        }
        assert key == BindingKey(cs);
        if key.Some? && key.value in waveformIDs.items {
          waveformIDs := waveformIDs.Configure(key.value);
          configured := configured + 1;
        }
      }
      assert css[..|css|] == css;
    }

    /**
     * Applies the address file, line by line; lines is None when the file
     * cannot be opened, which reads no line. Fails at the first line whose
     * prefix selects no stream.
     */
    method ReadStationInfo(lines: Option<seq<string>>) returns (ok: bool)
      requires waveformIDs.Valid()
      modifies this
      ensures (ok, waveformIDs) == ReadLines(old(waveformIDs), lines.GetOr([]))
      ensures waveformIDs.Valid()
    {
      var all := lines.GetOr([]);
      for i := 0 to |all|
        invariant ReadLines(waveformIDs, all[i..]) == ReadLines(old(waveformIDs), all)
        invariant waveformIDs.Valid()
      {
        assert all[i..][0] == all[i] && all[i..][1..] == all[i + 1..];
        var parsed := ParseLine(all[i]);
        if parsed.Some? {
          var a := parsed.value;
          var selected := WithPrefix(waveformIDs.keys, Prefix(a.network, a.station));
          if selected == [] {
            return false;
          }
          ghost var before := waveformIDs;
          SetAddresses(selected, a.ip, a.port);
          ReadSelectingLine(before, all[i..], a);
        }
      }
      assert all[|all|..] == [];
      return true;
    }

    /** Gives every configured item among the selected keys the host and port. */
    method SetAddresses(selected: seq<string>, ip: string, port: string)
      requires waveformIDs.Valid() && forall k :: k in selected ==> k in waveformIDs.keys
      modifies this
      ensures waveformIDs == Assign(old(waveformIDs), selected, ip, port)
      ensures waveformIDs.Valid()
    {
      for j := 0 to |selected|
        invariant waveformIDs == Assign(old(waveformIDs), selected[..j], ip, port)
      {
        assert selected[..j + 1] == selected[..j] + [selected[j]];
        AssignOneMore(old(waveformIDs), selected[..j], selected[j], ip, port);
        var key := selected[j];
        var item := waveformIDs.items[key];
        if item.configured {
          waveformIDs := waveformIDs.(items := waveformIDs.items[key := item.(ip := Some(ip), port := Some(port))]);
        }
      }
      assert selected[..|selected|] == selected;
    }

    /**
     * One pass over the streams in key order: probes each distinct address
     * once and returns the quality objects sent, and whether the pass went on to
     * its end.
     */
    method ProcessStation(probe: (string, int) -> Option<Probe>) returns (completed: bool, sent: seq<QcObject>)
      requires waveformIDs.Valid()
      ensures completed == ProcessFrom(waveformIDs, waveformIDs.keys, Start, probe).completed
      ensures sent == ProcessFrom(waveformIDs, waveformIDs.keys, Start, probe).sent
    {
      var keys := waveformIDs.keys;
      var results: map<string, Cached> := map[];
      sent := [];
      ghost var reports: seq<Report> := [];
      ghost var probed: seq<string> := [];
      for i := 0 to |keys|
        invariant ProcessFrom(waveformIDs, keys[i..], Outcome(true, results, reports, sent, probed), probe)
               == ProcessFrom(waveformIDs, keys, Start, probe)
      {
        assert keys[i..][0] == keys[i] && keys[i..][1..] == keys[i + 1..];
        var key := keys[i];
        var item := waveformIDs.items[key];
        if HasAddress(item) {
          var address := Address(item);
          var ping, portStatus, start, end;
          if address in results {
            ping, portStatus := results[address].ping, results[address].portStatus;
            start := results[address].end;
            end := start;
          } else {
            var port := ParseInt(item.port.GetOr("None"));
            if port.None? {
              return false, sent;
            }
            var p := probe(item.ip.value, port.value);
            if p.None? {
              return false, sent;
            }
            ping, start, end := p.value.ping, p.value.start, p.value.end;
            portStatus := PortStatus(port.value, ping);
            results := results[address := Cached(ping, portStatus, start, end)];
            probed := probed + [address];
          }
          var wqs := GenerateQcObjects(key, ping, portStatus, start, end);
          if wqs.None? {
            return false, sent;
          }
          sent := sent + wqs.value;
          reports := reports + [Report(key, address, ping, portStatus, start, end)];
        }
      }
      assert keys[|keys|..] == [];
      return true, sent;
    }
  }
}

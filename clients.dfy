/** The client report: the column list, the per-column value of a client, the
    switch and access-point names filled in by MAC lookup, the optional stable
    sort by MAC, the records and cells the CSV, table and spreadsheet renderers
    are fed, and the choice of renderer. */
module Clients {
  import opened Wrappers
  import opened Text
  import opened Controller
  import opened Common

  const CLIENT_MAC: string := "MAC"
  const CLIENT_IP: string := "IP"
  const CLIENT_HOSTNAME: string := "Hostname"
  const CLIENT_NAME: string := "Name"
  const CLIENT_NETWORK: string := "Network"
  const CLIENT_SWITCH: string := "Switch"
  const CLIENT_SWPORT: string := "SwPort"
  const CLIENT_AP: string := "AP"
  const CLIENT_RSSI: string := "RSSI"
  const CLIENT_NOTE: string := "Note"
  const CLIENT_SITE: string := "Site"
  const CLIENT_LASTSEEN: string := "Last Seen"

  /** `client_fields`: the one ordered column list every client renderer follows. */
  const CLIENT_FIELDS: seq<string> := [
    CLIENT_MAC, CLIENT_IP, CLIENT_HOSTNAME, CLIENT_NAME,
    CLIENT_SITE, CLIENT_NETWORK, CLIENT_SWITCH, CLIENT_SWPORT,
    CLIENT_AP, CLIENT_RSSI, CLIENT_LASTSEEN, CLIENT_NOTE]

  /** The twelve labels are distinct, so each names one column. */
  lemma ClientFieldsDistinct()
    ensures |CLIENT_FIELDS| == 12
    ensures forall i, j :: 0 <= i < j < |CLIENT_FIELDS| ==> CLIENT_FIELDS[i] != CLIENT_FIELDS[j]
  {
  }

  /** `getClientValue`: the text of one column of a client. The Last Seen column
      is `localTime` of the epoch seconds (the source formats it in the local zone). */
  function GetClientValue(c: Client, name: string, localTime: int -> string): string {
    if name == CLIENT_MAC then c.mac
    else if name == CLIENT_IP then c.ip
    else if name == CLIENT_HOSTNAME then c.hostname
    else if name == CLIENT_NAME then c.name
    else if name == CLIENT_NETWORK then c.network
    else if name == CLIENT_SWITCH then c.swName
    else if name == CLIENT_SWPORT then c.swPort
    else if name == CLIENT_AP then c.apName
    else if name == CLIENT_RSSI then IntToDecimal(c.rssi)
    else if name == CLIENT_NOTE then c.note
    else if name == CLIENT_SITE then c.siteName
    else if name == CLIENT_LASTSEEN then localTime(c.lastSeen)
    else "#UNSUPPORTED"
  }

  /** Every label reads its own field, the RSSI as a decimal that parses back to
      the RSSI, and every other name reads "#UNSUPPORTED". */
  lemma ClientValueOfEachColumn(c: Client, name: string, localTime: int -> string)
    ensures var v := GetClientValue(c, name, localTime);
      && (name == CLIENT_MAC ==> v == c.mac)
      && (name == CLIENT_IP ==> v == c.ip)
      && (name == CLIENT_HOSTNAME ==> v == c.hostname)
      && (name == CLIENT_NAME ==> v == c.name)
      && (name == CLIENT_SITE ==> v == c.siteName)
      && (name == CLIENT_NETWORK ==> v == c.network)
      && (name == CLIENT_SWITCH ==> v == c.swName)
      && (name == CLIENT_SWPORT ==> v == c.swPort)
      && (name == CLIENT_AP ==> v == c.apName)
      && (name == CLIENT_RSSI ==> ParseDecimal(v) == Some(c.rssi))
      && (name == CLIENT_LASTSEEN ==> v == localTime(c.lastSeen))
      && (name == CLIENT_NOTE ==> v == c.note)
      && (name !in CLIENT_FIELDS ==> v == "#UNSUPPORTED")
  {
    if name == CLIENT_RSSI {
      DecimalRoundTrip(c.rssi);
    }
  }

  // ---------------------------------------------------------------------------
  // Filling in switch and access-point names
  // ---------------------------------------------------------------------------

  /** The MACs of a device list. */
  function Macs(devs: seq<RawDevice>): set<string> {
    set d | d in devs :: d.mac
  }

  /** `switchmap` / `apmap`: each device under its MAC, a later device overwriting an
      earlier one with the same MAC. */
  function MacIndex(devs: seq<RawDevice>): (m: map<string, RawDevice>)
    ensures m.Keys == Macs(devs)
  {
    if devs == [] then map[]
    else
      var init := devs[..|devs| - 1];
      assert devs == init + [devs[|devs| - 1]];
      MacIndex(init)[devs[|devs| - 1].mac := devs[|devs| - 1]]
  }

  /** The device a MAC maps to is the last one in the list carrying it. */
  lemma {:induction false} MacIndexAt(devs: seq<RawDevice>, i: nat)
    requires i < |devs| && devs[i].mac !in Macs(devs[i + 1..])
    ensures devs[i].mac in MacIndex(devs) && MacIndex(devs)[devs[i].mac] == devs[i]
  {
    var last := |devs| - 1;
    if i < last {
      var init := devs[..last];
      assert devs[last] in devs[i + 1..];
      assert init[i + 1..] == devs[i + 1..last];
      assert Macs(init[i + 1..]) <= Macs(devs[i + 1..]);
      MacIndexAt(init, i);
    }
  }

  /** The loop of `generateClients` that fills `switchmap` (and, the same way, `apmap`). */
  method IndexByMac(devs: seq<RawDevice>) returns (m: map<string, RawDevice>)
    ensures m == MacIndex(devs)
    ensures m.Keys == Macs(devs)
  {
    m := map[];
    var i := 0;
    while i < |devs|
      invariant 0 <= i <= |devs|
      invariant m == MacIndex(devs[..i])
    {
      m := m[devs[i].mac := devs[i]];
      assert devs[..i + 1][..i] == devs[..i];
      i := i + 1;
    }
    assert devs[..i] == devs;
  }

  /** `hydrateClient` with a missing key left alone: a non-empty switch MAC that the
      switch map holds sets the switch name to that switch's name, and likewise,
      independently, for the access point. Nothing else changes. */
  function Hydrate(c: Client, switchmap: map<string, RawDevice>, apmap: map<string, RawDevice>): (r: Client)
    ensures r.(swName := c.swName, apName := c.apName) == c
    ensures c.swMac != "" && c.swMac in switchmap ==> r.swName == switchmap[c.swMac].name
    ensures c.swMac == "" || c.swMac !in switchmap ==> r.swName == c.swName
    ensures c.apMac != "" && c.apMac in apmap ==> r.apName == apmap[c.apMac].name
    ensures c.apMac == "" || c.apMac !in apmap ==> r.apName == c.apName
  {
    var c := if c.swMac != "" && c.swMac in switchmap then c.(swName := switchmap[c.swMac].name) else c;
    if c.apMac != "" && c.apMac in apmap then c.(apName := apmap[c.apMac].name) else c
  }

  /** A client record the renderers hold by reference and `hydrateClient` updates in place. */
  class ClientRef {
    var client: Client

    constructor (c: Client)
      ensures client == c
    {
      client := c;
    }

    /** `hydrateClient` on the record, with a missing key left alone. */
    method HydrateClient(switchmap: map<string, RawDevice>, apmap: map<string, RawDevice>)
      modifies this
      ensures client == Hydrate(old(client), switchmap, apmap)
    {
      if client.swMac != "" && client.swMac in switchmap {
        client := client.(swName := switchmap[client.swMac].name);
      }
      if client.apMac != "" && client.apMac in apmap {
        client := client.(apName := apmap[client.apMac].name);
      }
    }
  }

  /** `hydrateClient` exactly as written: a non-empty MAC the map does not hold
      yields a nil record whose `Name` is then read, a fault (`None`). */
  function HydrateAsWritten(c: Client, switchmap: map<string, RawDevice>, apmap: map<string, RawDevice>)
    : (r: Option<Client>)
    ensures r.None? <==> (c.swMac != "" && c.swMac !in switchmap) || (c.apMac != "" && c.apMac !in apmap)
  {
    if c.swMac != "" && c.swMac !in switchmap then None
    else
      var c := if c.swMac != "" then c.(swName := switchmap[c.swMac].name) else c;
      if c.apMac != "" && c.apMac !in apmap then None
      else Some(if c.apMac != "" then c.(apName := apmap[c.apMac].name) else c)
  }

  /** Where the source does not fault it computes what `Hydrate` does. */
  lemma HydrateAsWrittenAgrees(c: Client, switchmap: map<string, RawDevice>, apmap: map<string, RawDevice>)
    ensures HydrateAsWritten(c, switchmap, apmap).Some? ==>
      HydrateAsWritten(c, switchmap, apmap).value == Hydrate(c, switchmap, apmap)
  {
  }

  /** Finding: a wired client whose switch is not among the switches, such as one
      plugged into a gateway's built-in ports, faults the run as written. */
  lemma UnknownSwitchFaults()
    ensures var c := Client("11:22:33", "", "", "", "", "", "G1", "", "", "", "", 0, 0, "");
      HydrateAsWritten(c, map[], map[]) == None && Hydrate(c, map[], map[]) == c
  {
  }

  /** Filling in names twice is filling them in once (every renderer hydrates each
      client it writes). */
  lemma HydrateIdempotent(c: Client, switchmap: map<string, RawDevice>, apmap: map<string, RawDevice>)
    ensures Hydrate(Hydrate(c, switchmap, apmap), switchmap, apmap) == Hydrate(c, switchmap, apmap)
  {
  }

  /** Only the Switch and AP columns can change when names are filled in. */
  lemma HydrateKeepsOtherColumns(c: Client, switchmap: map<string, RawDevice>, apmap: map<string, RawDevice>,
                                 name: string, localTime: int -> string)
    requires name != CLIENT_SWITCH && name != CLIENT_AP
    ensures GetClientValue(Hydrate(c, switchmap, apmap), name, localTime) == GetClientValue(c, name, localTime)
  {
  }

  /** The switch a client names, when it is the last switch with that MAC, gives its name. */
  lemma HydrateFromSwitchList(c: Client, usws: seq<RawDevice>, apmap: map<string, RawDevice>, i: nat)
    requires i < |usws| && c.swMac != "" && usws[i].mac == c.swMac && c.swMac !in Macs(usws[i + 1..])
    ensures Hydrate(c, MacIndex(usws), apmap).swName == usws[i].name
  {
    MacIndexAt(usws, i);
  }

  /** A client attached to switch "S1" named "Switch-One", with no access point. */
  lemma HydrateScenario()
    ensures var sw := RawDevice("S1", "Switch-One", "", "", DeclaredUplink("", "", ""), [], None);
      var c := Client("11:22:33", "", "", "", "", "", "S1", "", "", "", "", 0, 0, "");
      var h := Hydrate(c, map["S1" := sw], map[]);
      h.swName == "Switch-One" && h.apName == ""
  {
  }

  // ---------------------------------------------------------------------------
  // The stable sort by MAC
  // ---------------------------------------------------------------------------

  /** Places `x` after the leading clients whose MAC is strictly smaller, so before
      any client with the same MAC. */
  function InsertByMac(x: Client, sorted: seq<Client>): (r: seq<Client>)
    ensures multiset(r) == multiset(sorted) + multiset{x}
  {
    if sorted == [] then [x]
    else if Less(sorted[0].mac, x.mac) then
      assert sorted == [sorted[0]] + sorted[1..];
      [sorted[0]] + InsertByMac(x, sorted[1..])
    else [x] + sorted
  }

  /** `sort.SliceStable(clients, Mac < Mac)`, as an insertion sort. */
  function SortByMac(clients: seq<Client>): (r: seq<Client>)
    ensures multiset(r) == multiset(clients)
  {
    if clients == [] then []
    else
      assert clients == [clients[0]] + clients[1..];
      InsertByMac(clients[0], SortByMac(clients[1..]))
  }

  /** No client comes after one with a larger MAC. */
  ghost predicate SortedByMac(clients: seq<Client>) {
    forall i, j :: 0 <= i < j < |clients| ==> !Less(clients[j].mac, clients[i].mac)
  }

  /** The clients with MAC `mac`, in order. */
  function WithMac(clients: seq<Client>, mac: string): seq<Client> {
    if clients == [] then []
    else (if clients[0].mac == mac then [clients[0]] else []) + WithMac(clients[1..], mac)
  }

  /** A client no smaller than every later one heads a sorted sequence. */
  lemma SortedCons(first: Client, rest: seq<Client>)
    requires SortedByMac(rest)
    requires forall k :: 0 <= k < |rest| ==> !Less(rest[k].mac, first.mac)
    ensures SortedByMac([first] + rest)
  {
    var r := [first] + rest;
    forall i, j | 0 <= i < j < |r| ensures !Less(r[j].mac, r[i].mac) {
      if i == 0 {
        assert r[j] == rest[j - 1];
      } else {
        assert r[i] == rest[i - 1] && r[j] == rest[j - 1];
      }
    }
  }

  /** Inserting a client larger than the head keeps everything after the head
      no smaller than it. */
  lemma InsertedAbove(x: Client, sorted: seq<Client>)
    requires sorted != [] && SortedByMac(sorted) && Less(sorted[0].mac, x.mac)
    ensures forall k :: 0 <= k < |InsertByMac(x, sorted[1..])| ==> !Less(InsertByMac(x, sorted[1..])[k].mac, sorted[0].mac)
  {
    var rest := InsertByMac(x, sorted[1..]);
    forall k | 0 <= k < |rest| ensures !Less(rest[k].mac, sorted[0].mac) {
      assert rest[k] in multiset(rest);
      if rest[k] == x {
        if Less(x.mac, sorted[0].mac) {
          LessTransitive(x.mac, sorted[0].mac, x.mac);
          LessIrreflexive(x.mac);
        }
      } else {
        assert rest[k] in multiset(sorted[1..]);
        var m :| 0 <= m < |sorted[1..]| && sorted[1..][m] == rest[k];
        assert sorted[m + 1] == rest[k];
      }
    }
  }

  lemma {:induction false} InsertByMacSorted(x: Client, sorted: seq<Client>)
    requires SortedByMac(sorted)
    ensures SortedByMac(InsertByMac(x, sorted))
  {
    if sorted != [] {
      if Less(sorted[0].mac, x.mac) {
        assert SortedByMac(sorted[1..]) by {
          forall i, j | 0 <= i < j < |sorted[1..]| ensures !Less(sorted[1..][j].mac, sorted[1..][i].mac) {
            assert sorted[1..][i] == sorted[i + 1] && sorted[1..][j] == sorted[j + 1];
          }
        }
        InsertByMacSorted(x, sorted[1..]);
        InsertedAbove(x, sorted);
        SortedCons(sorted[0], InsertByMac(x, sorted[1..]));
      } else {
        forall k | 0 <= k < |sorted| ensures !Less(sorted[k].mac, x.mac) {
          if k > 0 {
            NotLessTransitive(x.mac, sorted[0].mac, sorted[k].mac);
          }
        }
        SortedCons(x, sorted);
      }
    }
  }

  /** The sort yields clients in non-decreasing MAC order. */
  lemma {:induction false} SortByMacSorted(clients: seq<Client>)
    ensures SortedByMac(SortByMac(clients))
  {
    if clients != [] {
      SortByMacSorted(clients[1..]);
      InsertByMacSorted(clients[0], SortByMac(clients[1..]));
    }
  }

  lemma {:induction false} WithMacAppend(a: seq<Client>, b: seq<Client>, mac: string)
    ensures WithMac(a + b, mac) == WithMac(a, mac) + WithMac(b, mac)
  {
    if a == [] {
      assert a + b == b;
    } else {
      var head := if a[0].mac == mac then [a[0]] else [];
      assert (a + b)[1..] == a[1..] + b;
      assert WithMac(a + b, mac) == head + WithMac(a[1..] + b, mac);
      WithMacAppend(a[1..], b, mac);
      assert WithMac(a, mac) == head + WithMac(a[1..], mac);
      assert head + (WithMac(a[1..], mac) + WithMac(b, mac)) == (head + WithMac(a[1..], mac)) + WithMac(b, mac);
    }
  }

  /** Filtering a list that starts with `c`. */
  lemma WithMacCons(c: Client, rest: seq<Client>, mac: string)
    ensures WithMac([c] + rest, mac) == (if c.mac == mac then [c] else []) + WithMac(rest, mac)
  {
    assert ([c] + rest)[1..] == rest;
  }

  /** One step of insertion: passing a client with a strictly smaller MAC keeps the
      filtered order. */
  lemma StableStep(x: Client, first: Client, inserted: seq<Client>, tail: seq<Client>, mac: string)
    requires Less(first.mac, x.mac)
    requires WithMac(inserted, mac) == (if x.mac == mac then [x] else []) + WithMac(tail, mac)
    ensures WithMac([first] + inserted, mac) == (if x.mac == mac then [x] else []) + WithMac([first] + tail, mac)
  {
    WithMacCons(first, inserted, mac);
    WithMacCons(first, tail, mac);
    var rest := WithMac(tail, mac);
    if x.mac == mac {
      LessIrreflexive(mac);
      assert first.mac != mac;
      assert WithMac([first] + inserted, mac) == [] + ([x] + rest) == [x] + rest;
    } else {
      assert WithMac([first] + inserted, mac) == (if first.mac == mac then [first] else []) + ([] + rest);
    }
  }

  lemma {:induction false} InsertByMacStable(x: Client, sorted: seq<Client>, mac: string)
    ensures WithMac(InsertByMac(x, sorted), mac)
         == (if x.mac == mac then [x] else []) + WithMac(sorted, mac)
  {
    if sorted == [] {
      WithMacCons(x, [], mac);
      assert [x] + [] == [x];
    } else if Less(sorted[0].mac, x.mac) {
      var first, tail := sorted[0], sorted[1..];
      InsertByMacStable(x, tail, mac);
      StableStep(x, first, InsertByMac(x, tail), tail, mac);
      assert sorted == [first] + tail;
    } else {
      WithMacCons(x, sorted, mac);
    }
  }

  /** Stability: the clients sharing any one MAC keep their relative order. */
  lemma {:induction false} SortByMacStable(clients: seq<Client>, mac: string)
    ensures WithMac(SortByMac(clients), mac) == WithMac(clients, mac)
  {
    if clients != [] {
      SortByMacStable(clients[1..], mac);
      InsertByMacStable(clients[0], SortByMac(clients[1..]), mac);
    }
  }

  /** The order the renderers see: sorted by MAC with the sort option, as fetched without it. */
  function OrderClients(clients: seq<Client>, sortByMac: bool): (r: seq<Client>)
    ensures !sortByMac ==> r == clients
    ensures multiset(r) == multiset(clients)
    ensures sortByMac ==> forall mac :: WithMac(r, mac) == WithMac(clients, mac)
  {
    if sortByMac then
      forall mac ensures WithMac(SortByMac(clients), mac) == WithMac(clients, mac) {
        SortByMacStable(clients, mac);
      }
      SortByMac(clients)
    else clients
  }

  /** With the sort option the renderers see the clients in non-decreasing MAC order. */
  lemma OrderClientsSorted(clients: seq<Client>)
    ensures SortedByMac(OrderClients(clients, true))
  {
    SortByMacSorted(clients);
  }

  // ---------------------------------------------------------------------------
  // Renderers
  // ---------------------------------------------------------------------------

  /** One client as the text renderers write it: the value of every column, in order. */
  function ClientRow(c: Client, localTime: int -> string): (row: seq<string>)
    ensures |row| == |CLIENT_FIELDS|
  {
    seq(12, k requires 0 <= k < 12 => GetClientValue(c, CLIENT_FIELDS[k], localTime))
  }

  /** The clients as every renderer but the JSON one writes them: names filled in. */
  function HydrateAll(clients: seq<Client>, switchmap: map<string, RawDevice>, apmap: map<string, RawDevice>)
    : (r: seq<Client>)
    ensures |r| == |clients|
  {
    seq(|clients|, i requires 0 <= i < |clients| => Hydrate(clients[i], switchmap, apmap))
  }

  /** The data records of the text renderers. */
  function ClientRecords(clients: seq<Client>, localTime: int -> string): (records: seq<seq<string>>)
    ensures |records| == |clients|
  {
    seq(|clients|, i requires 0 <= i < |clients| => ClientRow(clients[i], localTime))
  }

  /** `copy(record, client_fields)`: the header record. */
  method CopyFields(record: array<string>)
    requires record.Length == |CLIENT_FIELDS|
    modifies record
    ensures record[..] == CLIENT_FIELDS
  {
    var k := 0;
    while k < record.Length
      invariant 0 <= k <= record.Length
      invariant forall m :: 0 <= m < k ==> record[m] == CLIENT_FIELDS[m]
    {
      record[k] := CLIENT_FIELDS[k];
      k := k + 1;
    }
  }

  /** The inner loop of `clientCsv`: the record refilled with one client's values. */
  method FillRecord(record: array<string>, c: Client, localTime: int -> string)
    requires record.Length == |CLIENT_FIELDS|
    modifies record
    ensures record[..] == ClientRow(c, localTime)
  {
    var j := 0;
    while j < record.Length
      invariant 0 <= j <= record.Length
      invariant forall m :: 0 <= m < j ==> record[m] == GetClientValue(c, CLIENT_FIELDS[m], localTime)
    {
      record[j] := GetClientValue(c, CLIENT_FIELDS[j], localTime);
      j := j + 1;
    }
  }

  /** `clientCsv`: the header record, then one record per hydrated client, the one
      record buffer rewritten for each. */
  method ClientCsv(clients: seq<Client>, switchmap: map<string, RawDevice>, apmap: map<string, RawDevice>,
                   localTime: int -> string) returns (records: seq<seq<string>>)
    ensures |records| == 1 + |clients|
    ensures records[0] == CLIENT_FIELDS
    ensures records[1..] == ClientRecords(HydrateAll(clients, switchmap, apmap), localTime)
  {
    var record := new string[|CLIENT_FIELDS|];
    CopyFields(record);
    records := [record[..]];
    ghost var want := ClientRecords(HydrateAll(clients, switchmap, apmap), localTime);
    var i := 0;
    while i < |clients|
      invariant 0 <= i <= |clients|
      invariant |records| == 1 + i && records[0] == CLIENT_FIELDS
      invariant forall m :: 0 <= m < i ==> records[m + 1] == want[m]
    {
      var ref := new ClientRef(clients[i]);
      ref.HydrateClient(switchmap, apmap);
      var c := ref.client;
      FillRecord(record, c, localTime);
      assert HydrateAll(clients, switchmap, apmap)[i] == c;
      assert record[..] == want[i];
      records := records + [record[..]];
      i := i + 1;
    }
    assert records[1..] == want;
  }

  /** The `%s` placeholders of the table's line format, one per column. */
  function Placeholders(): (p: seq<string>)
    ensures |p| == |CLIENT_FIELDS|
    ensures forall k :: 0 <= k < |p| ==> p[k] == "%s"
  {
    seq(|CLIENT_FIELDS|, _ => "%s")
  }

  /** The lines `clientTable` hands the tab-aligning writer, after the header and
      the line format it builds (and also writes out as diagnostics). */
  datatype TableOutput = TableOutput(header: string, format: string, lines: seq<string>)

  /** The first loop of `clientTable`: "label\t" and "%s\t" appended per column. */
  method TableHeaderAndFormat() returns (header: string, format: string)
    ensures header == TabTerminated(CLIENT_FIELDS)
    ensures format == TabTerminated(Placeholders()) + "\n"
  {
    header := "";
    format := "";
    var k := 0;
    while k < |CLIENT_FIELDS|
      invariant 0 <= k <= |CLIENT_FIELDS|
      invariant header == TabTerminated(CLIENT_FIELDS[..k])
      invariant format == TabTerminated(Placeholders()[..k])
    {
      TabTerminatedSnoc(CLIENT_FIELDS[..k], CLIENT_FIELDS[k]);
      TabTerminatedSnoc(Placeholders()[..k], "%s");
      assert CLIENT_FIELDS[..k + 1] == CLIENT_FIELDS[..k] + [CLIENT_FIELDS[k]];
      assert Placeholders()[..k + 1] == Placeholders()[..k] + ["%s"];
      header := header + CLIENT_FIELDS[k] + "\t";
      format := format + "%s\t";
      k := k + 1;
    }
    assert CLIENT_FIELDS[..k] == CLIENT_FIELDS;
    assert Placeholders()[..k] == Placeholders();
    format := format + "\n";
  }

  /** The data lines of the table: each client's values, each followed by a tab. */
  function TableLines(clients: seq<Client>, localTime: int -> string): (lines: seq<string>)
    ensures |lines| == |clients|
  {
    seq(|clients|, i requires 0 <= i < |clients| => TabTerminated(ClientRow(clients[i], localTime)) + "\n")
  }

  /** The second loop of `clientTable`: every hydrated client's values fill the
      format, so each line is the row's cells, each followed by a tab. */
  method TableDataLines(clients: seq<Client>, switchmap: map<string, RawDevice>, apmap: map<string, RawDevice>,
                        localTime: int -> string) returns (lines: seq<string>)
    ensures lines == TableLines(HydrateAll(clients, switchmap, apmap), localTime)
  {
    ghost var want := TableLines(HydrateAll(clients, switchmap, apmap), localTime);
    lines := [];
    var i := 0;
    while i < |clients|
      invariant 0 <= i <= |clients| && |lines| == i
      invariant forall m :: 0 <= m < i ==> lines[m] == want[m]
    {
      var ref := new ClientRef(clients[i]);
      ref.HydrateClient(switchmap, apmap);
      var c := ref.client;
      assert HydrateAll(clients, switchmap, apmap)[i] == c;
      assert want[i] == TabTerminated(ClientRow(c, localTime)) + "\n";
      lines := lines + [TabTerminated(ClientRow(c, localTime)) + "\n"];
      i := i + 1;
    }
  }

  /** `clientTable`: the header written as a line, then one line per hydrated client. */
  method ClientTable(clients: seq<Client>, switchmap: map<string, RawDevice>, apmap: map<string, RawDevice>,
                     localTime: int -> string) returns (t: TableOutput)
    ensures t.header == TabTerminated(CLIENT_FIELDS)
    ensures t.format == TabTerminated(Placeholders()) + "\n"
    ensures t.lines == [t.header + "\n"] + TableLines(HydrateAll(clients, switchmap, apmap), localTime)
  {
    var header, format := TableHeaderAndFormat();
    var data := TableDataLines(clients, switchmap, apmap, localTime);
    t := TableOutput(header, format, [header + "\n"] + data);
  }

  /** The table's header line splits back into the column labels. */
  lemma TableHeaderCells()
    ensures Cells(TabTerminated(CLIENT_FIELDS)) == CLIENT_FIELDS
  {
    assert forall k :: 0 <= k < |CLIENT_FIELDS| ==> '\t' !in CLIENT_FIELDS[k];
    CellsRoundTrip(CLIENT_FIELDS);
  }

  /** The table and the CSV agree: line i of the table is record i of the CSV, each
      value followed by a tab, and splits back into that record when no value holds a tab. */
  lemma TableMatchesCsv(clients: seq<Client>, localTime: int -> string, i: nat)
    requires i < |clients| && NoTabs(ClientRecords(clients, localTime)[i])
    ensures TableLines(clients, localTime)[i] == TabTerminated(ClientRecords(clients, localTime)[i]) + "\n"
    ensures Cells(TabTerminated(ClientRecords(clients, localTime)[i])) == ClientRecords(clients, localTime)[i]
  {
    CellsRoundTrip(ClientRecords(clients, localTime)[i]);
  }

  /** The values `clientExcel` puts in a client's row, column by column: the port's
      value, the RSSI as an integer and Last Seen as a time; text otherwise. */
  function ExcelValues(c: Client): (vs: seq<CellValue>)
    ensures |vs| == |CLIENT_FIELDS|
  {
    [StringValue(c.mac), StringValue(c.ip), StringValue(c.hostname), StringValue(c.name),
     StringValue(c.siteName), StringValue(c.network), StringValue(c.swName), PortValue(c.swPort),
     StringValue(c.apName), IntValue(c.rssi), TimeValue(c.lastSeen), StringValue(c.note)]
  }

  /** Typed spreadsheet values: the port of SwPort, an integer for RSSI and a time for
      Last Seen; every other column is text. Read as text, each value is the text the
      other renderers write in that column. */
  lemma ExcelValueText(c: Client, k: nat, localTime: int -> string)
    requires k < |CLIENT_FIELDS|
    ensures CLIENT_FIELDS[k] == CLIENT_SWPORT ==> ExcelValues(c)[k] == PortValue(c.swPort)
    ensures CLIENT_FIELDS[k] == CLIENT_RSSI ==> ExcelValues(c)[k] == IntValue(c.rssi)
    ensures CLIENT_FIELDS[k] == CLIENT_LASTSEEN ==> ExcelValues(c)[k] == TimeValue(c.lastSeen)
    ensures CLIENT_FIELDS[k] !in {CLIENT_SWPORT, CLIENT_RSSI, CLIENT_LASTSEEN} ==> ExcelValues(c)[k].StringValue?
    ensures CellText(ExcelValues(c)[k], localTime) == GetClientValue(c, CLIENT_FIELDS[k], localTime)
  {
  }

  /** Label k in row 1 of column k. */
  function HeaderCell(k: nat): Cell
    requires k < |CLIENT_FIELDS|
  {
    Cell(Address(COLS[k], 1), StringValue(CLIENT_FIELDS[k]))
  }

  /** The header row: each label in row 1 of its own column. */
  function ClientHeaderCells(): (cells: seq<Cell>)
    ensures |cells| == |CLIENT_FIELDS|
    ensures forall k :: 0 <= k < |cells| ==> cells[k] == HeaderCell(k)
  {
    seq(12, k requires 0 <= k < 12 => HeaderCell(k))
  }

  /** The cells of one client in spreadsheet row `row`, column by column. */
  function ClientCells(c: Client, row: int): (cells: seq<Cell>)
    ensures |cells| == |CLIENT_FIELDS|
  {
    seq(12, k requires 0 <= k < 12 => Cell(Address(COLS[k], row), ExcelValues(c)[k]))
  }

  /** The data rows from spreadsheet row `row` on, one client per row. */
  function ClientDataCells(clients: seq<Client>, row: int): (cells: seq<Cell>)
    ensures |cells| == 12 * |clients|
    decreases |clients|
  {
    if clients == [] then []
    else ClientCells(clients[0], row) + ClientDataCells(clients[1..], row + 1)
  }

  /** Skipping the first `i` clients skips their `12 * i` cells and `i` rows. */
  lemma {:induction false} ClientDataCellsSkip(clients: seq<Client>, row: int, i: nat, k: nat)
    requires i < |clients| && k < 12
    ensures ClientDataCells(clients, row)[12 * i + k] == ClientDataCells(clients[i..], row + i)[k]
    decreases i
  {
    if i > 0 {
      ClientDataCellsSkip(clients[1..], row + 1, i - 1, k);
      assert clients[1..][i - 1..] == clients[i..];
    }
  }

  /** The k-th column of the i-th client sits in row `row + i`, column k. */
  lemma ClientDataCellsAt(clients: seq<Client>, row: int, i: nat, k: nat)
    requires i < |clients| && k < 12
    ensures ClientDataCells(clients, row)[12 * i + k] == Cell(Address(COLS[k], row + i), ExcelValues(clients[i])[k])
  {
    ClientDataCellsSkip(clients, row, i, k);
    assert clients[i..][0] == clients[i];
  }

  /** Each column label sits at the last (and only) position it has in the list. */
  lemma FieldsLastAt(k: nat)
    requires k < |CLIENT_FIELDS|
    ensures CLIENT_FIELDS[k] !in CLIENT_FIELDS[k + 1..]
  {
    ClientFieldsDistinct();
    var tail := CLIENT_FIELDS[k + 1..];
    assert forall j :: 0 <= j < |tail| ==> tail[j] == CLIENT_FIELDS[k + 1 + j];
  }

  /** `cns := getColumns(client_fields...)`: label k is addressed in column k. */
  method ClientColumnIndex() returns (cns: map<string, int -> string>)
    ensures forall k :: 0 <= k < 12 ==> ColumnAt(cns, CLIENT_FIELDS[k], k)
  {
    cns := GetColumns(CLIENT_FIELDS);
    forall k | 0 <= k < 12 ensures ColumnAt(cns, CLIENT_FIELDS[k], k) {
      FieldsLastAt(k);
    }
  }

  /** The column of each label, by name. */
  lemma ColumnsByName(cns: map<string, int -> string>)
    requires forall k :: 0 <= k < 12 ==> ColumnAt(cns, CLIENT_FIELDS[k], k)
    ensures ColumnAt(cns, CLIENT_MAC, 0)
    ensures ColumnAt(cns, CLIENT_IP, 1)
    ensures ColumnAt(cns, CLIENT_HOSTNAME, 2)
    ensures ColumnAt(cns, CLIENT_NAME, 3)
    ensures ColumnAt(cns, CLIENT_SITE, 4)
    ensures ColumnAt(cns, CLIENT_NETWORK, 5)
    ensures ColumnAt(cns, CLIENT_SWITCH, 6)
    ensures ColumnAt(cns, CLIENT_SWPORT, 7)
    ensures ColumnAt(cns, CLIENT_AP, 8)
    ensures ColumnAt(cns, CLIENT_RSSI, 9)
    ensures ColumnAt(cns, CLIENT_LASTSEEN, 10)
    ensures ColumnAt(cns, CLIENT_NOTE, 11)
  {
    assert ColumnAt(cns, CLIENT_FIELDS[0], 0) && ColumnAt(cns, CLIENT_FIELDS[1], 1);
    assert ColumnAt(cns, CLIENT_FIELDS[2], 2) && ColumnAt(cns, CLIENT_FIELDS[3], 3);
    assert ColumnAt(cns, CLIENT_FIELDS[4], 4) && ColumnAt(cns, CLIENT_FIELDS[5], 5);
    assert ColumnAt(cns, CLIENT_FIELDS[6], 6) && ColumnAt(cns, CLIENT_FIELDS[7], 7);
    assert ColumnAt(cns, CLIENT_FIELDS[8], 8) && ColumnAt(cns, CLIENT_FIELDS[9], 9);
    assert ColumnAt(cns, CLIENT_FIELDS[10], 10) && ColumnAt(cns, CLIENT_FIELDS[11], 11);
  }

  /** The twelve `SetCellValue` calls of one client in row `row`. */
  lemma ClientRowCells(cns: map<string, int -> string>, c: Client, row: int)
    requires ColumnAt(cns, CLIENT_MAC, 0)
    requires ColumnAt(cns, CLIENT_IP, 1)
    requires ColumnAt(cns, CLIENT_HOSTNAME, 2)
    requires ColumnAt(cns, CLIENT_NAME, 3)
    requires ColumnAt(cns, CLIENT_SITE, 4)
    requires ColumnAt(cns, CLIENT_NETWORK, 5)
    requires ColumnAt(cns, CLIENT_SWITCH, 6)
    requires ColumnAt(cns, CLIENT_SWPORT, 7)
    requires ColumnAt(cns, CLIENT_AP, 8)
    requires ColumnAt(cns, CLIENT_RSSI, 9)
    requires ColumnAt(cns, CLIENT_LASTSEEN, 10)
    requires ColumnAt(cns, CLIENT_NOTE, 11)
    ensures [Cell(cns[CLIENT_MAC](row), StringValue(c.mac)),
             Cell(cns[CLIENT_IP](row), StringValue(c.ip)),
             Cell(cns[CLIENT_HOSTNAME](row), StringValue(c.hostname)),
             Cell(cns[CLIENT_NAME](row), StringValue(c.name)),
             Cell(cns[CLIENT_SITE](row), StringValue(c.siteName)),
             Cell(cns[CLIENT_NETWORK](row), StringValue(c.network)),
             Cell(cns[CLIENT_SWITCH](row), StringValue(c.swName)),
             Cell(cns[CLIENT_SWPORT](row), PortValue(c.swPort)),
             Cell(cns[CLIENT_AP](row), StringValue(c.apName)),
             Cell(cns[CLIENT_RSSI](row), IntValue(c.rssi)),
             Cell(cns[CLIENT_LASTSEEN](row), TimeValue(c.lastSeen)),
             Cell(cns[CLIENT_NOTE](row), StringValue(c.note))] == ClientCells(c, row)
  {
  }

  /** The first loop of `clientExcel`: every label in row 1 of its column. */
  method ClientHeaderRow(cns: map<string, int -> string>) returns (cells: seq<Cell>)
    requires forall k :: 0 <= k < 12 ==> ColumnAt(cns, CLIENT_FIELDS[k], k)
    ensures cells == ClientHeaderCells()
  {
    cells := [];
    var k := 0;
    while k < |CLIENT_FIELDS|
      invariant 0 <= k <= |CLIENT_FIELDS| && |cells| == k
      invariant forall m :: 0 <= m < k ==> cells[m] == HeaderCell(m)
    {
      var field := CLIENT_FIELDS[k];
      assert ColumnAt(cns, field, k);
      assert Cell(cns[field](1), StringValue(field)) == HeaderCell(k);
      cells := cells + [Cell(cns[field](1), StringValue(field))];
      k := k + 1;
    }
    assert cells == ClientHeaderCells();
  }

  /** `clientExcel`: the labels in row 1, then each client in the next row, twelve
      cells addressed through `getColumns`. */
  method ClientExcel(clients: seq<Client>, switchmap: map<string, RawDevice>, apmap: map<string, RawDevice>)
    returns (cells: seq<Cell>)
    ensures cells == ClientHeaderCells() + ClientDataCells(HydrateAll(clients, switchmap, apmap), 2)
  {
    var cns := ClientColumnIndex();
    ColumnsByName(cns);
    cells := ClientHeaderRow(cns);
    ghost var hydrated := HydrateAll(clients, switchmap, apmap);
    var row := 2;
    var i := 0;
    while i < |clients|
      invariant 0 <= i <= |clients| && row == 2 + i
      invariant cells + ClientDataCells(hydrated[i..], row) == ClientHeaderCells() + ClientDataCells(hydrated, 2)
    {
      var ref := new ClientRef(clients[i]);
      ref.HydrateClient(switchmap, apmap);
      var c := ref.client;
      var rowCells := [
        Cell(cns[CLIENT_MAC](row), StringValue(c.mac)),
        Cell(cns[CLIENT_IP](row), StringValue(c.ip)),
        Cell(cns[CLIENT_HOSTNAME](row), StringValue(c.hostname)),
        Cell(cns[CLIENT_NAME](row), StringValue(c.name)),
        Cell(cns[CLIENT_SITE](row), StringValue(c.siteName)),
        Cell(cns[CLIENT_NETWORK](row), StringValue(c.network)),
        Cell(cns[CLIENT_SWITCH](row), StringValue(c.swName)),
        Cell(cns[CLIENT_SWPORT](row), PortValue(c.swPort)),
        Cell(cns[CLIENT_AP](row), StringValue(c.apName)),
        Cell(cns[CLIENT_RSSI](row), IntValue(c.rssi)),
        Cell(cns[CLIENT_LASTSEEN](row), TimeValue(c.lastSeen)),
        Cell(cns[CLIENT_NOTE](row), StringValue(c.note))];
      ClientRowCells(cns, c, row);
      assert c == hydrated[i];
      assert hydrated[i..][1..] == hydrated[i + 1..];
      assert ClientDataCells(hydrated[i..], row) == rowCells + ClientDataCells(hydrated[i + 1..], row + 1);
      AppendAssociative(cells, rowCells, ClientDataCells(hydrated[i + 1..], row + 1));
      cells := cells + rowCells;
      row := row + 1;
      i := i + 1;
    }
    assert hydrated[i..] == [];
  }

  /** The spreadsheet and the CSV agree: the cell in column k of the row after the
      header holds the value the CSV writes in field k of the same client's record,
      read as text. */
  lemma ExcelMatchesCsv(clients: seq<Client>, localTime: int -> string, i: nat, k: nat)
    requires i < |clients| && k < |CLIENT_FIELDS|
    ensures var cell := (ClientHeaderCells() + ClientDataCells(clients, 2))[12 * (i + 1) + k];
      cell.address == Address(COLS[k], i + 2) &&
      CellText(cell.value, localTime) == ClientRecords(clients, localTime)[i][k]
  {
    var header, data := ClientHeaderCells(), ClientDataCells(clients, 2);
    assert (header + data)[12 * (i + 1) + k] == data[12 * i + k];
    ClientDataCellsAt(clients, 2, i, k);
    ExcelValueText(clients[i], k, localTime);
    assert ClientRecords(clients, localTime)[i] == ClientRow(clients[i], localTime);
  }

  /** No two `SetCellValue` calls for the clients write the same cell. */
  lemma ClientCellsDistinct(clients: seq<Client>, i1: nat, k1: nat, i2: nat, k2: nat)
    requires i1 < |clients| && k1 < 12 && i2 < |clients| && k2 < 12
    requires i1 != i2 || k1 != k2
    ensures ClientDataCells(clients, 2)[12 * i1 + k1].address != ClientDataCells(clients, 2)[12 * i2 + k2].address
  {
    ClientDataCellsAt(clients, 2, i1, k1);
    ClientDataCellsAt(clients, 2, i2, k2);
    AddressesDistinct(k1, i1 + 2, k2, i2 + 2);
  }

  /** No client cell is written into a row above row 2, such as row 1 where the
      header labels are. */
  lemma ClientCellsBelowHeader(clients: seq<Client>, i: nat, k: nat, h: nat, r: int)
    requires i < |clients| && k < 12 && h < 12 && r < 2
    ensures ClientDataCells(clients, 2)[12 * i + k].address != Address(COLS[h], r)
  {
    ClientDataCellsAt(clients, 2, i, k);
    AddressesDistinct(k, i + 2, h, r);
  }

  /** With the sort option, the MAC column of the written records is in
      non-decreasing order (filling in names leaves each MAC as it was). */
  lemma SortedRecordsByMac(clients: seq<Client>, switchmap: map<string, RawDevice>,
                           apmap: map<string, RawDevice>, localTime: int -> string)
    ensures var records := ClientRecords(HydrateAll(OrderClients(clients, true), switchmap, apmap), localTime);
      forall i, j :: 0 <= i < j < |records| ==> !Less(records[j][0], records[i][0])
  {
    var ordered := OrderClients(clients, true);
    OrderClientsSorted(clients);
    var records := ClientRecords(HydrateAll(ordered, switchmap, apmap), localTime);
    forall i | 0 <= i < |records| ensures records[i][0] == ordered[i].mac {
      assert CLIENT_FIELDS[0] == CLIENT_MAC;
    }
  }

  // ---------------------------------------------------------------------------
  // Choosing the renderer
  // ---------------------------------------------------------------------------

  datatype ClientRenderer = ExcelRenderer | JsonRenderer | CsvRenderer | TableRenderer

  /** The extension `generateClients` dispatches on: ".table" without an output
      name, the name's extension otherwise. */
  function ClientExtension(output: string): (ext: string)
    ensures output == "" ==> ext == ".table"
    ensures output != "" ==> ext == Ext(output)
  {
    if output == "" then ".table" else Ext(output)
  }

  /** The renderer the extension selects; any other extension is fatal. An output
      name ending in ".table" writes the table into that file. */
  function SelectClientRenderer(output: string): (r: Result<ClientRenderer>)
    ensures output == "" ==> r == Success(TableRenderer)
    ensures r.Success? <==> ClientExtension(output) in {".xlsx", ".json", ".csv", ".table"}
    ensures r == Success(TableRenderer) <==> ClientExtension(output) == ".table"
    ensures r == Success(ExcelRenderer) <==> ClientExtension(output) == ".xlsx"
    ensures r == Success(JsonRenderer) <==> ClientExtension(output) == ".json"
    ensures r == Success(CsvRenderer) <==> ClientExtension(output) == ".csv"
    ensures r.Failure? ==> r.error == "unsupported extension for " + output
  {
    match ClientExtension(output)
    case ".xlsx" => Success(ExcelRenderer)
    case ".json" => Success(JsonRenderer)
    case ".csv" => Success(CsvRenderer)
    case ".table" => Success(TableRenderer)
    case _ => Failure("unsupported extension for " + output)
  }

  /** Where the renderer writes: standard output without an output name, else the
      file of that name (which the spreadsheet renderer saves over). */
  datatype Sink = Stdout | File(name: string)

  /** What the selected renderer wrote. The JSON document carries the clients as
      fetched and ordered, without the names filled in. */
  datatype ClientOutput =
    | TableText(table: TableOutput)
    | JsonText(clients: seq<Client>)
    | CsvText(records: seq<seq<string>>)
    | Workbook(cells: seq<Cell>)

  datatype ClientReport = ClientReport(sink: Sink, output: ClientOutput)

  /** The counts `generateClients` reports before rendering. */
  datatype ClientSummary = ClientSummary(clients: nat, switches: nat, accessPoints: nat)

  /** What each renderer writes for the ordered clients; all but the JSON renderer
      are given them with names filled in (`written`). */
  function RenderedOutput(renderer: ClientRenderer, ordered: seq<Client>, written: seq<Client>,
                          localTime: int -> string): ClientOutput
  {
    match renderer
    case ExcelRenderer => Workbook(ClientHeaderCells() + ClientDataCells(written, 2))
    case JsonRenderer => JsonText(ordered)
    case CsvRenderer => CsvText([CLIENT_FIELDS] + ClientRecords(written, localTime))
    case TableRenderer =>
      var header := TabTerminated(CLIENT_FIELDS);
      TableText(TableOutput(header, TabTerminated(Placeholders()) + "\n", [header + "\n"] + TableLines(written, localTime)))
  }

  /** `generateClients`: index switches and access points by MAC, order the clients,
      then render with the renderer the output name selects. An unsupported extension
      ends the run with a diagnostic naming the file, before any file is created. */
  method GenerateClientsReport(clients: seq<Client>, devices: RawDevices, sortByMac: bool, output: string,
                               localTime: int -> string)
    returns (summary: ClientSummary, report: Result<ClientReport>)
    ensures summary == ClientSummary(|clients|, |devices.usws|, |devices.uaps|)
    ensures report.Failure? <==> SelectClientRenderer(output).Failure?
    ensures report.Failure? ==> report.error == "unsupported extension for " + output
    ensures report.Success? ==> report.value.sink == (if output == "" then Stdout else File(output))
    ensures report.Success? ==>
      (report.value.output.TableText? <==> SelectClientRenderer(output) == Success(TableRenderer))
    ensures report.Success? ==>
      (report.value.output.Workbook? <==> SelectClientRenderer(output) == Success(ExcelRenderer))
    ensures report.Success? ==>
      (report.value.output.CsvText? <==> SelectClientRenderer(output) == Success(CsvRenderer))
    ensures report.Success? ==>
      report.value.output == RenderedOutput(SelectClientRenderer(output).value, OrderClients(clients, sortByMac),
                                            HydrateAll(OrderClients(clients, sortByMac),
                                                       MacIndex(devices.usws), MacIndex(devices.uaps)),
                                            localTime)
  {
    summary := ClientSummary(|clients|, |devices.usws|, |devices.uaps|);
    var switchmap := IndexByMac(devices.usws);
    var apmap := IndexByMac(devices.uaps);
    var ordered := clients;
    if sortByMac {
      ordered := SortByMac(clients);
    }
    assert ordered == OrderClients(clients, sortByMac);
    var sink := if output == "" then Stdout else File(output);
    var renderer := SelectClientRenderer(output);
    match renderer
    case Failure(e) =>
      report := Failure(e);
    case Success(r) =>
      var out := RenderClients(r, ordered, switchmap, apmap, localTime);
      report := Success(ClientReport(sink, out));
  }

  /** Run one renderer over the ordered clients. */
  method RenderClients(renderer: ClientRenderer, ordered: seq<Client>, switchmap: map<string, RawDevice>,
                       apmap: map<string, RawDevice>, localTime: int -> string)
    returns (out: ClientOutput)
    ensures out == RenderedOutput(renderer, ordered, HydrateAll(ordered, switchmap, apmap), localTime)
  {
    match renderer
    case ExcelRenderer =>
      var cells := ClientExcel(ordered, switchmap, apmap);
      out := Workbook(cells);
    case JsonRenderer =>
      out := JsonText(ordered);
    case CsvRenderer =>
      var records := ClientCsv(ordered, switchmap, apmap, localTime);
      assert records == [records[0]] + records[1..];
      out := CsvText(records);
    case TableRenderer =>
      var t := ClientTable(ordered, switchmap, apmap, localTime);
      out := TableText(t);
  }

  /** An output name ending in ".table", such as "clients.table", writes the
      console table into that file. */
  lemma TableFileIsSupported(base: string)
    ensures SelectClientRenderer(base + ".table") == Success(TableRenderer)
  {
    ExtOfName(base, ".table");
  }
}

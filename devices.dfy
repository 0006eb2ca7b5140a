/** The device report: the downlink map inverted from the switches' downlink
    tables, the four per-type steps that turn the controller's device lists into
    one ordered sequence of `Device` records, the rows and cells the table, CSV
    and spreadsheet renderers are fed, and the choice of renderer. */
module Devices {
  import opened Wrappers
  import opened Text
  import opened Controller
  import opened Common

  /** `DevicePort`: the neighbour a device connects upward to, and the port on it. */
  datatype DevicePort = DevicePort(mac: string, name: string, port: string) {

    /** `Displayname`: the neighbour's name, falling back to its MAC when the name is empty. */
    function Displayname(): (r: string)
      ensures name != "" ==> r == name
      ensures name == "" ==> r == mac
    {
      if name == "" then mac else name
    }

    /** `String`: the display name, one space, then the port. */
    function ToString(): (r: string)
      ensures |r| == |Displayname()| + 1 + |port|
      ensures r[..|Displayname()|] == Displayname() && r[|Displayname()|] == ' '
      ensures r[|r| - |port|..] == port
    {
      Displayname() + " " + port
    }
  }

  /** The four device types, in the order the report lists them. */
  datatype DeviceKind = USG | USW | UAP | UXG {

    /** The `Type` column. */
    function Tag(): string {
      match this
      case USG => "USG"
      case USW => "USW"
      case UAP => "UAP"
      case UXG => "UXG"
    }

    /** Position of the type's group in the report. */
    function Rank(): nat {
      match this
      case USG => 0
      case USW => 1
      case UAP => 2
      case UXG => 3
    }
  }

  /** `Device`: one correlated row of the report. An absent uplink or configuration
      descriptor is `None` (a nil pointer in the source). */
  datatype Device = Device(
    mac: string,
    name: string,
    kind: DeviceKind,
    site: string,
    ip: string,
    uplink: Option<DevicePort>,
    note: string,
    configNetwork: Option<ConfigNetwork>)

  // ---------------------------------------------------------------------------
  // The downlink map
  // ---------------------------------------------------------------------------

  /** The neighbour MACs a downlink table names. */
  function TableMacs(entries: seq<DownlinkEntry>): set<string> {
    set e | e in entries :: e.mac
  }

  /** The neighbour MACs named in any of the switches' downlink tables. */
  function NeighbourMacs(switches: seq<RawDevice>): set<string> {
    if switches == [] then {}
    else NeighbourMacs(switches[..|switches| - 1]) + TableMacs(switches[|switches| - 1].downlinkTable)
  }

  /** The reference a downlink row of switch `sw` gives the neighbour on it. */
  function DownlinkPort(sw: RawDevice, e: DownlinkEntry): DevicePort {
    DevicePort(sw.mac, sw.name, e.port)
  }

  /** Writing the rows of one switch's downlink table into `dl`, in table order. */
  function InsertDownlinks(dl: map<string, DevicePort>, sw: RawDevice, entries: seq<DownlinkEntry>)
    : (r: map<string, DevicePort>)
    ensures r.Keys == dl.Keys + TableMacs(entries)
    ensures forall m :: m in dl && m !in TableMacs(entries) ==> r[m] == dl[m]
  {
    if entries == [] then dl
    else
      var init := entries[..|entries| - 1];
      var e := entries[|entries| - 1];
      assert entries == init + [e];
      InsertDownlinks(dl, sw, init)[e.mac := DownlinkPort(sw, e)]
  }

  /** `dlmap`: every switch's downlink table inverted into per-neighbour uplink
      references, switches and rows taken in order, a later row overwriting an
      earlier one for the same neighbour. */
  function DownlinkMap(switches: seq<RawDevice>): (dl: map<string, DevicePort>)
    ensures dl.Keys == NeighbourMacs(switches)
  {
    if switches == [] then map[]
    else
      var last := switches[|switches| - 1];
      InsertDownlinks(DownlinkMap(switches[..|switches| - 1]), last, last.downlinkTable)
  }

  /** The last row of a table is written last. */
  lemma InsertDownlinksLast(dl: map<string, DevicePort>, sw: RawDevice, entries: seq<DownlinkEntry>)
    requires entries != []
    ensures InsertDownlinks(dl, sw, entries)
         == InsertDownlinks(dl, sw, entries[..|entries| - 1])[entries[|entries| - 1].mac := DownlinkPort(sw, entries[|entries| - 1])]
  {
  }

  /** The row of a table that names a MAC last decides what the table writes for it. */
  lemma InsertDownlinksAt(dl: map<string, DevicePort>, sw: RawDevice, entries: seq<DownlinkEntry>, j: nat)
    requires j < |entries| && entries[j].mac !in TableMacs(entries[j + 1..])
    ensures InsertDownlinks(dl, sw, entries)[entries[j].mac] == DownlinkPort(sw, entries[j])
  {
    forall k | j < k < |entries| ensures entries[k].mac != entries[j].mac {
      TableMacsHas(entries[j + 1..], k - j - 1);
      assert entries[j + 1..][k - j - 1] == entries[k];
    }
    InsertDownlinksUnrepeated(dl, sw, entries, j);
  }

  /** The same, with "no later row names the MAC" spelled out row by row. */
  lemma {:induction false} InsertDownlinksUnrepeated(dl: map<string, DevicePort>, sw: RawDevice, entries: seq<DownlinkEntry>, j: nat)
    requires j < |entries|
    requires forall k :: j < k < |entries| ==> entries[k].mac != entries[j].mac
    ensures entries[j].mac in InsertDownlinks(dl, sw, entries)
    ensures InsertDownlinks(dl, sw, entries)[entries[j].mac] == DownlinkPort(sw, entries[j])
  {
    var last := |entries| - 1;
    InsertDownlinksLast(dl, sw, entries);
    if j < last {
      var init := entries[..last];
      assert entries[last].mac != entries[j].mac;
      assert forall k :: j < k < |init| ==> init[k] == entries[k];
      InsertDownlinksUnrepeated(dl, sw, init, j);
      UpdateKeeps(InsertDownlinks(dl, sw, init), entries[last].mac, DownlinkPort(sw, entries[last]), entries[j].mac);
    }
  }

  /** Writing one key of a map leaves every other key's value as it was. */
  lemma UpdateKeeps(m: map<string, DevicePort>, k: string, v: DevicePort, x: string)
    requires x in m && x != k
    ensures x in m[k := v] && m[k := v][x] == m[x]
  {
  }

  /** A row's MAC is one the table names. */
  lemma TableMacsHas(entries: seq<DownlinkEntry>, k: nat)
    requires k < |entries|
    ensures entries[k].mac in TableMacs(entries)
  {
  }

  /** A prefix of a table names no MAC the table does not. */
  lemma TableMacsPrefix(entries: seq<DownlinkEntry>, n: nat)
    requires n <= |entries|
    ensures TableMacs(entries[..n]) <= TableMacs(entries)
  {
    forall m | m in TableMacs(entries[..n]) ensures m in TableMacs(entries) {
      var e :| e in entries[..n] && e.mac == m;
      assert e in entries;
    }
  }

  /** The downlink map holds, for a neighbour, the reference from the last switch
      and row that name it. */
  lemma {:induction false} DownlinkMapAt(switches: seq<RawDevice>, i: nat, j: nat)
    requires i < |switches| && j < |switches[i].downlinkTable|
    requires switches[i].downlinkTable[j].mac !in TableMacs(switches[i].downlinkTable[j + 1..])
    requires switches[i].downlinkTable[j].mac !in NeighbourMacs(switches[i + 1..])
    ensures switches[i].downlinkTable[j].mac in DownlinkMap(switches)
    ensures DownlinkMap(switches)[switches[i].downlinkTable[j].mac]
         == DownlinkPort(switches[i], switches[i].downlinkTable[j])
  {
    var n := |switches|;
    var init, last := switches[..n - 1], switches[n - 1];
    var e := switches[i].downlinkTable[j];
    if i == n - 1 {
      InsertDownlinksAt(DownlinkMap(init), last, last.downlinkTable, j);
    } else {
      NeighbourMacsSplit(switches, i);
      assert init[i] == switches[i];
      DownlinkMapAt(init, i, j);
      DownlinkMapKeeps(switches, e.mac);
    }
  }

  /** The neighbours listed after switch `i` are those listed after it before the
      last switch, and the last switch's own. */
  lemma NeighbourMacsSplit(switches: seq<RawDevice>, i: nat)
    requires i < |switches| - 1
    ensures NeighbourMacs(switches[i + 1..])
         == NeighbourMacs(switches[..|switches| - 1][i + 1..]) + TableMacs(switches[|switches| - 1].downlinkTable)
  {
    var suffix := switches[i + 1..];
    assert suffix[..|suffix| - 1] == switches[..|switches| - 1][i + 1..];
  }

  /** A last switch that does not list a neighbour leaves its entry alone. */
  lemma DownlinkMapKeeps(switches: seq<RawDevice>, mac: string)
    requires |switches| > 0
    requires mac in DownlinkMap(switches[..|switches| - 1])
    requires mac !in TableMacs(switches[|switches| - 1].downlinkTable)
    ensures DownlinkMap(switches)[mac] == DownlinkMap(switches[..|switches| - 1])[mac]
  {
  }

  /** Every row of every table is among the neighbour MACs. */
  lemma {:induction false} NeighbourMacsContains(switches: seq<RawDevice>, i: nat, j: nat)
    requires i < |switches| && j < |switches[i].downlinkTable|
    ensures switches[i].downlinkTable[j].mac in NeighbourMacs(switches)
  {
    var n := |switches|;
    if i == n - 1 {
      assert switches[i].downlinkTable[j] in switches[i].downlinkTable;
    } else {
      assert switches[..n - 1][i] == switches[i];
      NeighbourMacsContains(switches[..n - 1], i, j);
    }
  }

  /** The downlink map's loops: for each switch, for each downlink row, insert. */
  method BuildDownlinkMap(switches: seq<RawDevice>) returns (dlmap: map<string, DevicePort>)
    ensures dlmap == DownlinkMap(switches)
    ensures dlmap.Keys == NeighbourMacs(switches)
  {
    dlmap := map[];
    var i := 0;
    while i < |switches|
      invariant 0 <= i <= |switches|
      invariant dlmap == DownlinkMap(switches[..i])
    {
      var sw := switches[i];
      var j := 0;
      while j < |sw.downlinkTable|
        invariant 0 <= j <= |sw.downlinkTable|
        invariant dlmap == InsertDownlinks(DownlinkMap(switches[..i]), sw, sw.downlinkTable[..j])
      {
        var dl := sw.downlinkTable[j];
        dlmap := dlmap[dl.mac := DevicePort(sw.mac, sw.name, dl.port)];
        assert sw.downlinkTable[..j + 1][..j] == sw.downlinkTable[..j];
        j := j + 1;
      }
      assert sw.downlinkTable[..j] == sw.downlinkTable;
      assert switches[..i + 1][..i] == switches[..i];
      i := i + 1;
    }
    assert switches[..i] == switches;
  }

  // ---------------------------------------------------------------------------
  // The per-type construction steps
  // ---------------------------------------------------------------------------

  /** The gateways of the list, nil entries skipped, in list order. */
  function Gateways(usgs: seq<Option<RawDevice>>): (gs: seq<RawDevice>)
    ensures |gs| <= |usgs|
  {
    if usgs == [] then []
    else
      var init := Gateways(usgs[..|usgs| - 1]);
      match usgs[|usgs| - 1]
      case None => init
      case Some(g) => init + [g]
  }

  /** The record `withUSGs` builds for a gateway: its own declared uplink, with no name. */
  function GatewayDevice(g: RawDevice): (d: Device)
    ensures d.kind == USG && d.mac == g.mac && d.name == g.name && d.site == g.siteName && d.ip == g.ip
    ensures d.uplink == Some(DevicePort(g.uplink.mac, "", g.uplink.portIdx))
    ensures d.configNetwork == g.configNetwork && d.note == ""
  {
    Device(g.mac, g.name, USG, g.siteName, g.ip,
           Some(DevicePort(g.uplink.mac, "", g.uplink.portIdx)), "", g.configNetwork)
  }

  /** The record `withUSWs` builds for a switch: the downlink-map entry naming it,
      otherwise its own declared uplink and the note "root". */
  function SwitchDevice(sw: RawDevice, dl: map<string, DevicePort>): (d: Device)
    ensures d.kind == USW && d.mac == sw.mac && d.name == sw.name && d.site == sw.siteName && d.ip == sw.ip
    ensures d.configNetwork == sw.configNetwork && d.uplink.Some?
    ensures sw.mac in dl ==> d.uplink == Some(dl[sw.mac]) && d.note == ""
    ensures sw.mac !in dl ==> d.uplink == Some(DevicePort(sw.uplink.mac, "", sw.uplink.numPort)) && d.note == "root"
  {
    var d := Device(sw.mac, sw.name, USW, sw.siteName, sw.ip, None, "", sw.configNetwork);
    if sw.mac in dl then d.(uplink := Some(dl[sw.mac]))
    else d.(uplink := Some(DevicePort(sw.uplink.mac, "", sw.uplink.numPort)), note := d.note + "root")
  }

  /** The record `withUAPs` builds for an access point: the downlink-map entry
      naming it if there is one, and its descriptor if it has one. */
  function AccessPointDevice(ap: RawDevice, dl: map<string, DevicePort>): (d: Device)
    ensures d.kind == UAP && d.mac == ap.mac && d.name == ap.name && d.site == ap.siteName && d.ip == ap.ip
    ensures d.configNetwork == ap.configNetwork && d.note == ""
    ensures d.uplink.Some? <==> ap.mac in dl
    ensures d.uplink.Some? ==> d.uplink.value == dl[ap.mac]
  {
    var d := Device(ap.mac, ap.name, UAP, ap.siteName, ap.ip, None, "", None);
    var d := if ap.mac in dl then d.(uplink := Some(dl[ap.mac])) else d;
    if ap.configNetwork.Some? then d.(configNetwork := ap.configNetwork) else d
  }

  /** The record the next-generation-gateway loop builds: the downlink-map entry
      naming it or no uplink, and never a descriptor. */
  function NextGenDevice(xg: RawDevice, dl: map<string, DevicePort>): (d: Device)
    ensures d.kind == UXG && d.mac == xg.mac && d.name == xg.name && d.site == xg.siteName && d.ip == xg.ip
    ensures d.configNetwork == None && d.note == ""
    ensures d.uplink.Some? <==> xg.mac in dl
    ensures d.uplink.Some? ==> d.uplink.value == dl[xg.mac]
  {
    Device(xg.mac, xg.name, UXG, xg.siteName, xg.ip,
           if xg.mac in dl then Some(dl[xg.mac]) else None, "", None)
  }

  function GatewayDevices(usgs: seq<Option<RawDevice>>): seq<Device> {
    var gs := Gateways(usgs);
    seq(|gs|, k requires 0 <= k < |gs| => GatewayDevice(gs[k]))
  }

  function SwitchDevices(usws: seq<RawDevice>, dl: map<string, DevicePort>): seq<Device> {
    seq(|usws|, k requires 0 <= k < |usws| => SwitchDevice(usws[k], dl))
  }

  function AccessPointDevices(uaps: seq<RawDevice>, dl: map<string, DevicePort>): seq<Device> {
    seq(|uaps|, k requires 0 <= k < |uaps| => AccessPointDevice(uaps[k], dl))
  }

  function NextGenDevices(uxgs: seq<RawDevice>, dl: map<string, DevicePort>): seq<Device> {
    seq(|uxgs|, k requires 0 <= k < |uxgs| => NextGenDevice(uxgs[k], dl))
  }

  /** The correlated device sequence `generateDevices` renders: gateways, switches,
      access points, next-generation gateways, each group in list order. */
  function Correlate(raw: RawDevices): (r: seq<Device>)
    ensures |r| == |Gateways(raw.usgs)| + |raw.usws| + |raw.uaps| + |raw.uxgs|
  {
    var dl := DownlinkMap(raw.usws);
    GatewayDevices(raw.usgs) + SwitchDevices(raw.usws, dl)
      + AccessPointDevices(raw.uaps, dl) + NextGenDevices(raw.uxgs, dl)
  }

  /** The counts reported as "added %d" after the gateway, switch and access-point steps. */
  datatype Progress = Progress(usgsAdded: nat, uswsAdded: nat, uapsAdded: nat)

  /** The `devices` slice that `withUSGs`, `withUSWs`, `withUAPs` and the
      next-generation-gateway loop append to. */
  class DeviceList {
    var devices: seq<Device>

    constructor ()
      ensures devices == []
    {
      devices := [];
    }

    /** `withUSGs`: one gateway record per non-nil gateway, appended in order. */
    method WithUSGs(usgs: seq<Option<RawDevice>>)
      modifies this
      ensures devices == old(devices) + GatewayDevices(usgs)
    {
      var i := 0;
      while i < |usgs|
        invariant 0 <= i <= |usgs|
        invariant devices == old(devices) + GatewayDevices(usgs[..i])
      {
        assert usgs[..i + 1][..i] == usgs[..i];
        if usgs[i].Some? {
          var sg := usgs[i].value;
          var ul := DevicePort(sg.uplink.mac, "", sg.uplink.portIdx);
          var d := Device(sg.mac, sg.name, USG, sg.siteName, sg.ip, Some(ul), "", sg.configNetwork);
          devices := devices + [d];
        }
        i := i + 1;
      }
      assert usgs[..i] == usgs;
    }

    /** `withUSWs`: one switch record per switch, appended in order. */
    method WithUSWs(usws: seq<RawDevice>, dlmap: map<string, DevicePort>)
      modifies this
      ensures devices == old(devices) + SwitchDevices(usws, dlmap)
    {
      var i := 0;
      while i < |usws|
        invariant 0 <= i <= |usws|
        invariant devices == old(devices) + SwitchDevices(usws[..i], dlmap)
      {
        var sw := usws[i];
        var d := Device(sw.mac, sw.name, USW, sw.siteName, sw.ip, None, "", sw.configNetwork);
        if sw.mac in dlmap {
          d := d.(uplink := Some(dlmap[sw.mac]));
        } else {
          d := d.(uplink := Some(DevicePort(sw.uplink.mac, "", sw.uplink.numPort)));
          d := d.(note := d.note + "root");
        }
        devices := devices + [d];
        assert SwitchDevices(usws[..i + 1], dlmap) == SwitchDevices(usws[..i], dlmap) + [d];
        i := i + 1;
      }
      assert usws[..i] == usws;
    }

    /** `withUAPs`: one access-point record per access point, appended in order. */
    method WithUAPs(uaps: seq<RawDevice>, dlmap: map<string, DevicePort>)
      modifies this
      ensures devices == old(devices) + AccessPointDevices(uaps, dlmap)
    {
      var i := 0;
      while i < |uaps|
        invariant 0 <= i <= |uaps|
        invariant devices == old(devices) + AccessPointDevices(uaps[..i], dlmap)
      {
        var ap := uaps[i];
        var d := Device(ap.mac, ap.name, UAP, ap.siteName, ap.ip, None, "", None);
        if ap.mac in dlmap {
          d := d.(uplink := Some(dlmap[ap.mac]));
        }
        if ap.configNetwork.Some? {
          d := d.(configNetwork := ap.configNetwork);
        }
        devices := devices + [d];
        assert AccessPointDevices(uaps[..i + 1], dlmap) == AccessPointDevices(uaps[..i], dlmap) + [d];
        i := i + 1;
      }
      assert uaps[..i] == uaps;
    }

    /** The next-generation-gateway loop of `generateDevices`. */
    method WithUXGs(uxgs: seq<RawDevice>, dlmap: map<string, DevicePort>)
      modifies this
      ensures devices == old(devices) + NextGenDevices(uxgs, dlmap)
    {
      var i := 0;
      while i < |uxgs|
        invariant 0 <= i <= |uxgs|
        invariant devices == old(devices) + NextGenDevices(uxgs[..i], dlmap)
      {
        var xg := uxgs[i];
        var ul := if xg.mac in dlmap then Some(dlmap[xg.mac]) else None;
        var d := Device(xg.mac, xg.name, UXG, xg.siteName, xg.ip, ul, "", None);
        devices := devices + [d];
        assert NextGenDevices(uxgs[..i + 1], dlmap) == NextGenDevices(uxgs[..i], dlmap) + [d];
        i := i + 1;
      }
      assert uxgs[..i] == uxgs;
    }
  }

  /** The correlation half of `generateDevices`: build the downlink map, run the
      four steps, and report what each of the first three added. */
  method GenerateDevices(raw: RawDevices) returns (devices: seq<Device>, progress: Progress)
    ensures devices == Correlate(raw)
    ensures progress == Progress(|Gateways(raw.usgs)|, |raw.usws|, |raw.uaps|)
  {
    var dlmap := BuildDownlinkMap(raw.usws);
    var list := new DeviceList();
    var before := |list.devices|;
    ghost var g, s, a := GatewayDevices(raw.usgs), SwitchDevices(raw.usws, dlmap), AccessPointDevices(raw.uaps, dlmap);
    list.WithUSGs(raw.usgs);
    assert list.devices == g;
    var usgsAdded := |list.devices| - before;
    before := |list.devices|;
    list.WithUSWs(raw.usws, dlmap);
    assert list.devices == g + s;
    var uswsAdded := |list.devices| - before;
    before := |list.devices|;
    list.WithUAPs(raw.uaps, dlmap);
    assert list.devices == g + s + a;
    var uapsAdded := |list.devices| - before;
    list.WithUXGs(raw.uxgs, dlmap);
    devices := list.devices;
    progress := Progress(usgsAdded, uswsAdded, uapsAdded);
  }

  // ---------------------------------------------------------------------------
  // What the correlated sequence holds
  // ---------------------------------------------------------------------------

  /** Exactly the non-nil gateways are kept. */
  lemma {:induction false} GatewaysArePresent(usgs: seq<Option<RawDevice>>)
    ensures forall g :: g in Gateways(usgs) <==> Some(g) in usgs
  {
    if usgs != [] {
      var init := usgs[..|usgs| - 1];
      GatewaysArePresent(init);
      assert usgs == init + [usgs[|usgs| - 1]];
    }
  }

  /** Gateways keep their list order: the gateways of a concatenation are those
      of the first part followed by those of the second. */
  lemma {:induction false} GatewaysAppend(a: seq<Option<RawDevice>>, b: seq<Option<RawDevice>>)
    ensures Gateways(a + b) == Gateways(a) + Gateways(b)
    decreases |b|
  {
    if b == [] {
      assert a + b == a;
    } else {
      var init := b[..|b| - 1];
      assert (a + b)[..|a + b| - 1] == a + init;
      assert (a + b)[|a + b| - 1] == b[|b| - 1];
      GatewaysAppend(a, init);
    }
  }

  /** Records come grouped by type: gateways, switches, access points, next-generation gateways. */
  lemma CorrelateGrouped(raw: RawDevices)
    ensures forall i, j :: 0 <= i <= j < |Correlate(raw)| ==>
      Correlate(raw)[i].kind.Rank() <= Correlate(raw)[j].kind.Rank()
  {
    var dl := DownlinkMap(raw.usws);
    var g, sw, ap, xg := GatewayDevices(raw.usgs), SwitchDevices(raw.usws, dl),
                         AccessPointDevices(raw.uaps, dl), NextGenDevices(raw.uxgs, dl);
    var r := Correlate(raw);
    forall i | 0 <= i < |r|
      ensures r[i].kind.Rank() == if i < |g| then 0 else if i < |g| + |sw| then 1
                                  else if i < |g| + |sw| + |ap| then 2 else 3
    {
      assert r == g + sw + ap + xg;
    }
  }

  /** The k-th non-nil gateway is the k-th record: its own declared uplink with no
      name, its descriptor, and an empty note. */
  lemma GatewayEntry(raw: RawDevices, k: nat)
    requires k < |Gateways(raw.usgs)|
    ensures var d, g := Correlate(raw)[k], Gateways(raw.usgs)[k];
      && d.kind == USG && d.mac == g.mac && d.name == g.name && d.site == g.siteName && d.ip == g.ip
      && d.uplink == Some(DevicePort(g.uplink.mac, "", g.uplink.portIdx))
      && d.configNetwork == g.configNetwork && d.note == ""
  {
  }

  lemma SwitchAt(raw: RawDevices, k: nat)
    requires k < |raw.usws|
    ensures Correlate(raw)[|Gateways(raw.usgs)| + k] == SwitchDevice(raw.usws[k], DownlinkMap(raw.usws))
  {
  }

  lemma AccessPointAt(raw: RawDevices, k: nat)
    requires k < |raw.uaps|
    ensures Correlate(raw)[|Gateways(raw.usgs)| + |raw.usws| + k]
         == AccessPointDevice(raw.uaps[k], DownlinkMap(raw.usws))
  {
  }

  lemma NextGenAt(raw: RawDevices, k: nat)
    requires k < |raw.uxgs|
    ensures Correlate(raw)[|Gateways(raw.usgs)| + |raw.usws| + |raw.uaps| + k]
         == NextGenDevice(raw.uxgs[k], DownlinkMap(raw.usws))
  {
  }

  /** The root rule. A switch that some switch's downlink table names takes the
      downlink-map entry and no note; any other switch is a root: its own declared
      uplink and the note "root". */
  lemma SwitchEntry(raw: RawDevices, k: nat)
    requires k < |raw.usws|
    ensures var d, sw := Correlate(raw)[|Gateways(raw.usgs)| + k], raw.usws[k];
      && d.kind == USW && d.mac == sw.mac && d.name == sw.name && d.site == sw.siteName && d.ip == sw.ip
      && d.configNetwork == sw.configNetwork
      && (sw.mac in NeighbourMacs(raw.usws) ==>
            d.uplink == Some(DownlinkMap(raw.usws)[sw.mac]) && d.note == "")
      && (sw.mac !in NeighbourMacs(raw.usws) ==>
            d.uplink == Some(DevicePort(sw.uplink.mac, "", sw.uplink.numPort)) && d.note == "root")
  {
    SwitchAt(raw, k);
  }

  /** An access point has an uplink exactly when some switch's downlink table names
      it; it keeps its own descriptor and has no note. */
  lemma AccessPointEntry(raw: RawDevices, k: nat)
    requires k < |raw.uaps|
    ensures var d, ap := Correlate(raw)[|Gateways(raw.usgs)| + |raw.usws| + k], raw.uaps[k];
      && d.kind == UAP && d.mac == ap.mac && d.name == ap.name && d.site == ap.siteName && d.ip == ap.ip
      && d.configNetwork == ap.configNetwork && d.note == ""
      && (d.uplink.Some? <==> ap.mac in NeighbourMacs(raw.usws))
      && (d.uplink.Some? ==> d.uplink.value == DownlinkMap(raw.usws)[ap.mac])
  {
    AccessPointAt(raw, k);
  }

  /** A next-generation gateway has an uplink exactly when some switch's downlink
      table names it, never a descriptor, and no note. */
  lemma NextGenEntry(raw: RawDevices, k: nat)
    requires k < |raw.uxgs|
    ensures var d, xg := Correlate(raw)[|Gateways(raw.usgs)| + |raw.usws| + |raw.uaps| + k], raw.uxgs[k];
      && d.kind == UXG && d.mac == xg.mac && d.name == xg.name && d.site == xg.siteName && d.ip == xg.ip
      && d.configNetwork == None && d.note == ""
      && (d.uplink.Some? <==> xg.mac in NeighbourMacs(raw.usws))
      && (d.uplink.Some? ==> d.uplink.value == DownlinkMap(raw.usws)[xg.mac])
  {
    NextGenAt(raw, k);
  }

  /** Row `j` of switch `i`'s downlink table is the last row, in iteration order, naming `mac`. */
  ghost predicate NamedLastAt(switches: seq<RawDevice>, mac: string, i: nat, j: nat) {
    && i < |switches| && j < |switches[i].downlinkTable|
    && switches[i].downlinkTable[j].mac == mac
    && mac !in TableMacs(switches[i].downlinkTable[j + 1..])
    && mac !in NeighbourMacs(switches[i + 1..])
  }

  /** Within one table, a MAC the table names has a last row naming it. */
  lemma {:induction false} LastRowInTable(entries: seq<DownlinkEntry>, mac: string) returns (j: nat)
    requires mac in TableMacs(entries)
    ensures j < |entries| && entries[j].mac == mac && mac !in TableMacs(entries[j + 1..])
  {
    var last := |entries| - 1;
    if entries[last].mac == mac {
      j := last;
      assert entries[j + 1..] == [];
    } else {
      var init := entries[..last];
      assert entries == init + [entries[last]];
      j := LastRowInTable(init, mac);
      assert entries[j + 1..] == init[j + 1..] + [entries[last]];
    }
  }

  /** Every neighbour MAC has a last switch and row naming it. */
  lemma {:induction false} LastRowExists(switches: seq<RawDevice>, mac: string)
    requires mac in NeighbourMacs(switches)
    ensures exists i: nat, j: nat :: NamedLastAt(switches, mac, i, j)
  {
    var n := |switches|;
    var init := switches[..n - 1];
    if mac in TableMacs(switches[n - 1].downlinkTable) {
      var j := LastRowInTable(switches[n - 1].downlinkTable, mac);
      assert switches[n..] == [];
      assert NamedLastAt(switches, mac, n - 1, j);
    } else {
      LastRowExists(init, mac);
      var i: nat, j: nat :| NamedLastAt(init, mac, i, j);
      var suffix := switches[i + 1..];
      assert suffix[..|suffix| - 1] == init[i + 1..];
      assert suffix[|suffix| - 1] == switches[n - 1];
      assert init[i] == switches[i];
      assert NamedLastAt(switches, mac, i, j);
    }
  }

  /** Last write wins: a device whose MAC some switch's downlink table names gets,
      as its uplink, that switch's MAC and name and the port of the last row naming it. */
  lemma UplinkFromLastRow(switches: seq<RawDevice>, mac: string)
    requires mac in NeighbourMacs(switches)
    ensures exists i: nat, j: nat :: (NamedLastAt(switches, mac, i, j)
      && DownlinkMap(switches)[mac] == DevicePort(switches[i].mac, switches[i].name, switches[i].downlinkTable[j].port))
  {
    LastRowExists(switches, mac);
    var i: nat, j: nat :| NamedLastAt(switches, mac, i, j);
    DownlinkMapAt(switches, i, j);
  }

  /** A gateway G1, a root switch S1 whose own uplink is G1 port "0" and whose
      downlink table has access point A1 on port "5": the report lists G1, then S1
      as root with its own uplink, then A1 uplinked to S1 port "5". */
  lemma ThreeDeviceScenario()
    ensures var g1 := RawDevice("G1", "", "", "", DeclaredUplink("", "", ""), [], Some(ConfigNetwork("10.0.0.1")));
      var s1 := RawDevice("S1", "S1", "", "", DeclaredUplink("G1", "", "0"), [DownlinkEntry("A1", "5")], None);
      var a1 := RawDevice("A1", "", "", "", DeclaredUplink("", "", ""), [], None);
      var r := Correlate(RawDevices([Some(g1)], [s1], [a1], []));
      && |r| == 3
      && r[0].mac == "G1" && r[0].kind == USG && r[0].configNetwork == Some(ConfigNetwork("10.0.0.1"))
      && r[1].mac == "S1" && r[1].note == "root" && r[1].uplink == Some(DevicePort("G1", "", "0"))
      && r[2].mac == "A1" && r[2].uplink == Some(DevicePort("S1", "S1", "5"))
  {
    var g1 := RawDevice("G1", "", "", "", DeclaredUplink("", "", ""), [], Some(ConfigNetwork("10.0.0.1")));
    var s1 := RawDevice("S1", "S1", "", "", DeclaredUplink("G1", "", "0"), [DownlinkEntry("A1", "5")], None);
    var a1 := RawDevice("A1", "", "", "", DeclaredUplink("", "", ""), [], None);
    var raw := RawDevices([Some(g1)], [s1], [a1], []);
    assert Gateways(raw.usgs) == [g1] by {
      assert raw.usgs[..0] == [];
    }
    assert [s1][..0] == [];
    var dl := DownlinkMap(raw.usws);
    assert dl == map["A1" := DevicePort("S1", "S1", "5")] by {
      assert s1.downlinkTable[..0] == [];
    }
    assert "S1" !in dl && "A1" in dl;
    var r := Correlate(raw);
    assert r == [GatewayDevice(g1)] + [SwitchDevice(s1, dl)] + [AccessPointDevice(a1, dl)] + [];
  }

  // ---------------------------------------------------------------------------
  // Rows and cells
  // ---------------------------------------------------------------------------

  /** The ten columns of the CSV header and of spreadsheet cells A1 to J1. */
  const DEVICE_COLUMNS: seq<string> :=
    ["MAC", "Type", "Site", "IP", "Name", "Network", "Uplink", "UpPort", "ConfigIP", "Note"]

  /** The labels of the console table's header line; `deviceTable` spells the first "Mac". */
  const DEVICE_TABLE_LABELS: seq<string> :=
    ["Mac", "Type", "Site", "IP", "Name", "Network", "Uplink", "UpPort", "ConfigIP", "Note"]

  /** The header line `deviceTable` writes: "Mac\tType\t...\tNote\t", each label followed by a tab. */
  const DEVICE_TABLE_HEADER: string := TabTerminated(DEVICE_TABLE_LABELS)

  /** The placeholder written for an absent uplink or descriptor. */
  const NIL: string := "nil"

  /** The Uplink column: the neighbour's display name, or the placeholder. */
  function UplinkName(d: Device): string {
    match d.uplink
    case None => NIL
    case Some(p) => p.Displayname()
  }

  /** The UpPort column: the port on the neighbour, or the placeholder. */
  function UplinkPort(d: Device): string {
    match d.uplink
    case None => NIL
    case Some(p) => p.port
  }

  /** The ConfigIP column: the descriptor's IP, or the placeholder. */
  function ConfigIp(d: Device): string {
    match d.configNetwork
    case None => NIL
    case Some(c) => c.ip
  }

  /** The ten cells the renderers write for one device; the Network column is always blank. */
  function DeviceRow(d: Device): (row: seq<string>)
    ensures |row| == |DEVICE_COLUMNS|
  {
    [d.mac, d.kind.Tag(), d.site, d.ip, d.name, "", UplinkName(d), UplinkPort(d), ConfigIp(d), d.note]
  }

  /** A device with no uplink shows the placeholder in both uplink columns; one with
      an uplink shows the neighbour's name (its MAC when it has none) and port. */
  lemma DeviceRowPlaceholders(d: Device)
    ensures d.uplink.None? ==> DeviceRow(d)[6] == NIL && DeviceRow(d)[7] == NIL
    ensures d.uplink.Some? && d.uplink.value.name != "" ==> DeviceRow(d)[6] == d.uplink.value.name
    ensures d.uplink.Some? && d.uplink.value.name == "" ==> DeviceRow(d)[6] == d.uplink.value.mac
    ensures d.uplink.Some? ==> DeviceRow(d)[7] == d.uplink.value.port
    ensures d.configNetwork.None? ==> DeviceRow(d)[8] == NIL
    ensures d.configNetwork.Some? ==> DeviceRow(d)[8] == d.configNetwork.value.ip
    ensures DeviceRow(d)[5] == ""
  {
  }

  /** A root switch's row shows its own declared uplink MAC, port and the note "root". */
  lemma RootSwitchRow(raw: RawDevices, k: nat)
    requires k < |raw.usws| && raw.usws[k].mac !in NeighbourMacs(raw.usws)
    ensures var row := DeviceRow(Correlate(raw)[|Gateways(raw.usgs)| + k]);
      row[1] == "USW" && row[6] == raw.usws[k].uplink.mac && row[7] == raw.usws[k].uplink.numPort && row[9] == "root"
  {
    SwitchEntry(raw, k);
  }

  /** The data rows of the CSV file, one per device in sequence order. */
  function DeviceRecords(devices: seq<Device>): seq<seq<string>> {
    seq(|devices|, i requires 0 <= i < |devices| => DeviceRow(devices[i]))
  }

  /** The header record `devicesCsv` fills in slot by slot. */
  method HeaderRecord() returns (header: seq<string>)
    ensures header == DEVICE_COLUMNS
  {
    var record := new string[10](_ => "");
    record[0] := "MAC";
    record[1] := "Type";
    record[2] := "Site";
    record[3] := "IP";
    record[4] := "Name";
    record[5] := "Network";
    record[6] := "Uplink";
    record[7] := "UpPort";
    record[8] := "ConfigIP";
    record[9] := "Note";
    forall k | 0 <= k < 10 ensures record[k] == DEVICE_COLUMNS[k] {
    }
    header := record[..];
  }

  /** `devicesCsv`: the header record, then one ten-cell record per device. */
  method DevicesCsv(devices: seq<Device>) returns (records: seq<seq<string>>)
    ensures |records| == 1 + |devices|
    ensures records[0] == DEVICE_COLUMNS
    ensures records[1..] == DeviceRecords(devices)
  {
    var header := HeaderRecord();
    records := [header];
    var i := 0;
    while i < |devices|
      invariant 0 <= i <= |devices|
      invariant records == [DEVICE_COLUMNS] + DeviceRecords(devices[..i])
    {
      var d := devices[i];
      var ulName, ulPort := NIL, NIL;
      if d.uplink.Some? {
        ulName := d.uplink.value.Displayname();
        ulPort := d.uplink.value.port;
      }
      var cfnIp := NIL;
      if d.configNetwork.Some? {
        cfnIp := d.configNetwork.value.ip;
      }
      var row := [d.mac, d.kind.Tag(), d.site, d.ip, d.name, "", ulName, ulPort, cfnIp, d.note];
      assert row == DeviceRow(d);
      assert DeviceRecords(devices[..i + 1]) == DeviceRecords(devices[..i]) + [row];
      records := records + [row];
      i := i + 1;
    }
    assert devices[..i] == devices;
    assert records[1..] == DeviceRecords(devices);
  }

  /** The ten cells of spreadsheet row `row` for device `d`, columns A to J. */
  function RowCells(d: Device, row: int): (cells: seq<Cell>)
    ensures |cells| == |DEVICE_COLUMNS|
  {
    seq(10, k requires 0 <= k < 10 => Cell(Address(COLS[k], row), StringValue(DeviceRow(d)[k])))
  }

  /** The data cells of the spreadsheet from row `row` on, one row per device. */
  function DataCells(devices: seq<Device>, row: int): (cells: seq<Cell>)
    ensures |cells| == 10 * |devices|
    decreases |devices|
  {
    if devices == [] then []
    else RowCells(devices[0], row) + DataCells(devices[1..], row + 1)
  }

  /** The header cells A1 to J1. */
  function HeaderCells(): (cells: seq<Cell>)
    ensures |cells| == |DEVICE_COLUMNS|
  {
    seq(10, k requires 0 <= k < 10 => Cell(Address(COLS[k], 1), StringValue(DEVICE_COLUMNS[k])))
  }

  /** Cells A1 to E1 of the header. */
  lemma HeaderCellsLeft()
    ensures HeaderCells()[..5] == [Cell("A1", StringValue("MAC")), Cell("B1", StringValue("Type")), Cell("C1", StringValue("Site")), Cell("D1", StringValue("IP")), Cell("E1", StringValue("Name"))]
  {
    var h := HeaderCells();
    assert IntToDecimal(1) == "1";
    assert h[0] == Cell("A1", StringValue("MAC"));
    assert h[1] == Cell("B1", StringValue("Type"));
    assert h[2] == Cell("C1", StringValue("Site"));
    assert h[3] == Cell("D1", StringValue("IP"));
    assert h[4] == Cell("E1", StringValue("Name"));
  }

  /** Cells F1 to J1 of the header. */
  lemma HeaderCellsRight()
    ensures HeaderCells()[5..] == [Cell("F1", StringValue("Network")), Cell("G1", StringValue("Uplink")), Cell("H1", StringValue("UpPort")), Cell("I1", StringValue("ConfigIP")), Cell("J1", StringValue("Note"))]
  {
    var h := HeaderCells();
    assert IntToDecimal(1) == "1";
    assert h[5] == Cell("F1", StringValue("Network"));
    assert h[6] == Cell("G1", StringValue("Uplink"));
    assert h[7] == Cell("H1", StringValue("UpPort"));
    assert h[8] == Cell("I1", StringValue("ConfigIP"));
    assert h[9] == Cell("J1", StringValue("Note"));
  }

  /** The header cells are those `devicesExcel` writes literally, "A1" to "J1". */
  lemma HeaderCellsSpelledOut()
    ensures HeaderCells() == [Cell("A1", StringValue("MAC")), Cell("B1", StringValue("Type")), Cell("C1", StringValue("Site")), Cell("D1", StringValue("IP")), Cell("E1", StringValue("Name")), Cell("F1", StringValue("Network")), Cell("G1", StringValue("Uplink")), Cell("H1", StringValue("UpPort")), Cell("I1", StringValue("ConfigIP")), Cell("J1", StringValue("Note"))]
  {
    HeaderCellsLeft();
    HeaderCellsRight();
    assert HeaderCells() == HeaderCells()[..5] + HeaderCells()[5..];
  }

  /** The ten `SetCellValue` calls of one device in row `row`. */
  lemma RowCellsSpelledOut(d: Device, row: int)
    ensures var n := IntToDecimal(row);
      RowCells(d, row)
      == [Cell("A" + n, StringValue(d.mac)), Cell("B" + n, StringValue(d.kind.Tag())),
          Cell("C" + n, StringValue(d.site)), Cell("D" + n, StringValue(d.ip)),
          Cell("E" + n, StringValue(d.name)), Cell("F" + n, StringValue("")),
          Cell("G" + n, StringValue(UplinkName(d))), Cell("H" + n, StringValue(UplinkPort(d))),
          Cell("I" + n, StringValue(ConfigIp(d))), Cell("J" + n, StringValue(d.note))]
  {
  }

  /** `devicesExcel`: cells A1 to J1 hold the labels, then one row of ten cells
      per device from row 2, incrementing `row` per device. */
  method DevicesExcel(devices: seq<Device>) returns (cells: seq<Cell>)
    ensures cells == HeaderCells() + DataCells(devices, 2)
  {
    cells := [Cell("A1", StringValue("MAC")), Cell("B1", StringValue("Type")),
              Cell("C1", StringValue("Site")), Cell("D1", StringValue("IP")),
              Cell("E1", StringValue("Name")), Cell("F1", StringValue("Network")),
              Cell("G1", StringValue("Uplink")), Cell("H1", StringValue("UpPort")),
              Cell("I1", StringValue("ConfigIP")), Cell("J1", StringValue("Note"))];
    HeaderCellsSpelledOut();
    var row := 2;
    var i := 0;
    while i < |devices|
      invariant 0 <= i <= |devices| && row == i + 2
      invariant cells + DataCells(devices[i..], row) == HeaderCells() + DataCells(devices, 2)
    {
      var d := devices[i];
      var ulName, ulPort := NIL, NIL;
      if d.uplink.Some? {
        ulName := d.uplink.value.Displayname();
        ulPort := d.uplink.value.port;
      }
      var n := IntToDecimal(row);
      var cfn := if d.configNetwork.Some? then Cell("I" + n, StringValue(d.configNetwork.value.ip))
                 else Cell("I" + n, StringValue(NIL));
      var rowCells := [Cell("A" + n, StringValue(d.mac)), Cell("B" + n, StringValue(d.kind.Tag())),
                       Cell("C" + n, StringValue(d.site)), Cell("D" + n, StringValue(d.ip)),
                       Cell("E" + n, StringValue(d.name)), Cell("F" + n, StringValue("")),
                       Cell("G" + n, StringValue(ulName)), Cell("H" + n, StringValue(ulPort)),
                       cfn, Cell("J" + n, StringValue(d.note))];
      assert ulName == UplinkName(d) && ulPort == UplinkPort(d);
      assert cfn == Cell("I" + n, StringValue(ConfigIp(d)));
      RowCellsSpelledOut(d, row);
      assert devices[i..][1..] == devices[i + 1..];
      assert DataCells(devices[i..], row) == rowCells + DataCells(devices[i + 1..], row + 1);
      AppendAssociative(cells, rowCells, DataCells(devices[i + 1..], row + 1));
      cells := cells + rowCells;
      row := row + 1;
      i := i + 1;
    }
    assert devices[i..] == [];
  }

  /** Cell addresses and values of the spreadsheet: label k sits in column k of row 1,
      and device i's k-th CSV cell sits in column k of row i + 2. */
  lemma {:induction false} DataCellsAt(devices: seq<Device>, row: int, i: nat, k: nat)
    requires i < |devices| && k < 10
    ensures DataCells(devices, row)[10 * i + k]
         == Cell(COLS[k] + IntToDecimal(row + i), StringValue(DeviceRecords(devices)[i][k]))
    decreases i
  {
    var first, rest := RowCells(devices[0], row), DataCells(devices[1..], row + 1);
    assert DataCells(devices, row) == first + rest;
    if i == 0 {
      assert DataCells(devices, row)[k] == first[k];
    } else {
      assert DataCells(devices, row)[10 * i + k] == rest[10 * (i - 1) + k];
      DataCellsAt(devices[1..], row + 1, i - 1, k);
      assert devices[1..][i - 1] == devices[i];
    }
  }

  /** The spreadsheet and the CSV file carry the same labels, values and order. */
  lemma ExcelMatchesCsv(devices: seq<Device>, i: nat, k: nat)
    requires i < |devices| && k < 10
    ensures (HeaderCells() + DataCells(devices, 2))[k] == Cell(COLS[k] + "1", StringValue(DEVICE_COLUMNS[k]))
    ensures (HeaderCells() + DataCells(devices, 2))[10 * (i + 1) + k]
         == Cell(COLS[k] + IntToDecimal(i + 2), StringValue(DeviceRecords(devices)[i][k]))
  {
    assert IntToDecimal(1) == "1";
    DataCellsAt(devices, 2, i, k);
  }

  /** The loop of `deviceTable`, with the descriptor read guarded: one line per
      device from the template of ten "%s\t" and a newline. */
  method DeviceTableLines(devices: seq<Device>) returns (lines: seq<string>)
    ensures |lines| == |devices|
    ensures forall i :: 0 <= i < |devices| ==> lines[i] == TabTerminated(DeviceRow(devices[i])) + "\n"
  {
    lines := [];
    var i := 0;
    while i < |devices|
      invariant 0 <= i <= |devices| && |lines| == i
      invariant forall j :: 0 <= j < i ==> lines[j] == TabTerminated(DeviceRow(devices[j])) + "\n"
    {
      var d := devices[i];
      var ulName, ulPort := NIL, NIL;
      if d.uplink.Some? {
        ulName := d.uplink.value.Displayname();
        ulPort := d.uplink.value.port;
      }
      var cells := [d.mac, d.kind.Tag(), d.site, d.ip, d.name, "", ulName, ulPort, ConfigIp(d), d.note];
      assert cells == DeviceRow(d);
      lines := lines + [TabTerminated(cells) + "\n"];
      i := i + 1;
    }
  }

  /** `deviceTable`, with the descriptor read guarded: the literal header line, then
      one line per device. */
  method DeviceTable(devices: seq<Device>) returns (header: string, lines: seq<string>)
    ensures header == DEVICE_TABLE_HEADER
    ensures |lines| == |devices|
    ensures forall i :: 0 <= i < |devices| ==> lines[i] == TabTerminated(DeviceRow(devices[i])) + "\n"
  {
    header := DEVICE_TABLE_HEADER;
    lines := DeviceTableLines(devices);
  }

  /** The cells of the console header: the same labels as the CSV header, except
      that the first is spelled "Mac". */
  lemma TableHeaderCells()
    ensures Cells(DEVICE_TABLE_HEADER) == DEVICE_TABLE_LABELS
  {
    LabelsHaveNoTabs();
    CellsRoundTrip(DEVICE_TABLE_LABELS);
  }

  /** The table labels are the column names with the first spelled "Mac". */
  lemma TableLabelsAreColumns()
    ensures DEVICE_TABLE_LABELS == DEVICE_COLUMNS[0 := "Mac"]
  {
    var relabelled := DEVICE_COLUMNS[0 := "Mac"];
    assert |relabelled| == |DEVICE_TABLE_LABELS|;
    forall k | 0 <= k < 10 ensures relabelled[k] == DEVICE_TABLE_LABELS[k] {
    }
  }

  lemma LabelsHaveNoTabs()
    ensures NoTabs(DEVICE_TABLE_LABELS)
  {
  }

  /** A data line of the console table splits back into the device's ten cells,
      provided no cell contains a tab. */
  lemma TableLineCells(d: Device)
    requires NoTabs(DeviceRow(d))
    ensures Cells(TabTerminated(DeviceRow(d))) == DeviceRow(d)
  {
    CellsRoundTrip(DeviceRow(d));
  }

  // ---------------------------------------------------------------------------
  // The console table as written
  // ---------------------------------------------------------------------------

  /** `deviceTable`'s row exactly as written: it reads `d.ConfigNetwork.IP` without a
      nil check, so a device without a descriptor is a nil dereference (`None`). */
  function DeviceTableRowAsWritten(d: Device): (r: Option<seq<string>>)
    ensures r.None? <==> d.configNetwork.None?
    ensures r.Some? ==> r.value == DeviceRow(d)
  {
    match d.configNetwork
    case None => None
    case Some(c) =>
      Some([d.mac, d.kind.Tag(), d.site, d.ip, d.name, "", UplinkName(d), UplinkPort(d), c.ip, d.note])
  }

  /** The whole console table as written: the run faults at the first device
      without a descriptor, before the buffered table is flushed. */
  function DeviceTableAsWritten(devices: seq<Device>): (r: Option<seq<seq<string>>>)
    ensures r.Some? ==> r.value == DeviceRecords(devices)
  {
    if devices == [] then Some([])
    else
      match DeviceTableRowAsWritten(devices[0])
      case None => None
      case Some(row) =>
        match DeviceTableAsWritten(devices[1..])
        case None => None
        case Some(rows) => Some([row] + rows)
  }

  /** Where every device has a descriptor the table as written agrees with the guarded rows. */
  lemma {:induction false} TableAsWrittenAgrees(devices: seq<Device>)
    requires forall i :: 0 <= i < |devices| ==> devices[i].configNetwork.Some?
    ensures DeviceTableAsWritten(devices) == Some(DeviceRecords(devices))
  {
    if devices != [] {
      TableAsWrittenAgrees(devices[1..]);
      assert DeviceRecords(devices) == [DeviceRow(devices[0])] + DeviceRecords(devices[1..]);
    }
  }

  /** Any device without a descriptor brings the table as written down. */
  lemma {:induction false} TableAsWrittenFaults(devices: seq<Device>, i: nat)
    requires i < |devices| && devices[i].configNetwork.None?
    ensures DeviceTableAsWritten(devices) == None
  {
    if i > 0 {
      TableAsWrittenFaults(devices[1..], i - 1);
    }
  }

  /** Finding: the default report faults on every controller that has a
      next-generation gateway, since those records never carry a descriptor. */
  lemma NextGenGatewayCrashesTable(raw: RawDevices)
    requires |raw.uxgs| > 0
    ensures DeviceTableAsWritten(Correlate(raw)) == None
  {
    NextGenEntry(raw, 0);
    TableAsWrittenFaults(Correlate(raw), |Gateways(raw.usgs)| + |raw.usws| + |raw.uaps|);
  }

  // ---------------------------------------------------------------------------
  // Choosing the renderer
  // ---------------------------------------------------------------------------

  datatype DeviceRenderer = TableRenderer | JsonRenderer | CsvRenderer | ExcelRenderer

  /** The renderer `generateDevices` selects: the console table without an output
      name, otherwise by the name's extension; any other extension is fatal. */
  function SelectDeviceRenderer(output: string): (r: Result<DeviceRenderer>)
    ensures output == "" ==> r == Success(TableRenderer)
    ensures output != "" ==> (r.Success? <==> Ext(output) in {".json", ".csv", ".xlsx"})
    ensures r.Failure? ==> r.error == "unsupported extension for " + output
    ensures r == Success(TableRenderer) ==> output == ""
    ensures r == Success(JsonRenderer) <==> output != "" && Ext(output) == ".json"
    ensures r == Success(CsvRenderer) <==> output != "" && Ext(output) == ".csv"
    ensures r == Success(ExcelRenderer) <==> output != "" && Ext(output) == ".xlsx"
  {
    if output == "" then Success(TableRenderer)
    else
      match Ext(output)
      case ".json" => Success(JsonRenderer)
      case ".csv" => Success(CsvRenderer)
      case ".xlsx" => Success(ExcelRenderer)
      case _ => Failure("unsupported extension for " + output)
  }

  /** What a device run leaves behind: the console table, or the file the output name
      selects. Each file renderer opens its file only after the selection succeeded. */
  datatype DeviceReport =
    | ConsoleTable(header: string, lines: seq<string>)
    | JsonFile(name: string, devices: seq<Device>)
    | CsvFile(name: string, records: seq<seq<string>>)
    | ExcelFile(name: string, cells: seq<Cell>)

  /** What `renderer` leaves behind for `devices`: the console table, the JSON
      document, the CSV records or the spreadsheet cells, in a file named `output`. */
  ghost predicate RendersDevices(report: DeviceReport, renderer: DeviceRenderer, output: string, devices: seq<Device>) {
    match renderer
    case TableRenderer =>
      && report.ConsoleTable?
      && report.header == DEVICE_TABLE_HEADER
      && |report.lines| == |devices|
      && forall i :: 0 <= i < |devices| ==> report.lines[i] == TabTerminated(DeviceRow(devices[i])) + "\n"
    case JsonRenderer => report == JsonFile(output, devices)
    case CsvRenderer => report == CsvFile(output, [DEVICE_COLUMNS] + DeviceRecords(devices))
    case ExcelRenderer => report == ExcelFile(output, HeaderCells() + DataCells(devices, 2))
  }

  /** Run one renderer over the correlated devices. */
  method RenderDevices(renderer: DeviceRenderer, output: string, devices: seq<Device>) returns (report: DeviceReport)
    ensures RendersDevices(report, renderer, output, devices)
  {
    match renderer
    case TableRenderer =>
      var header, lines := DeviceTable(devices);
      report := ConsoleTable(header, lines);
    case JsonRenderer =>
      report := JsonFile(output, devices);
    case CsvRenderer =>
      var records := DevicesCsv(devices);
      assert records == [records[0]] + records[1..];
      report := CsvFile(output, records);
    case ExcelRenderer =>
      var cells := DevicesExcel(devices);
      report := ExcelFile(output, cells);
  }

  /** `generateDevices`: correlate, then render with the renderer the output name selects.
      An unsupported extension ends the run with a diagnostic naming the file and no file. */
  method GenerateDevicesReport(raw: RawDevices, output: string) returns (progress: Progress, report: Result<DeviceReport>)
    ensures progress == Progress(|Gateways(raw.usgs)|, |raw.usws|, |raw.uaps|)
    ensures report.Failure? <==> SelectDeviceRenderer(output).Failure?
    ensures report.Failure? ==> report.error == "unsupported extension for " + output
    ensures report.Success? && output == "" ==> report.value.ConsoleTable?
    ensures report.Success? && output != "" ==> !report.value.ConsoleTable? && report.value.name == output
    ensures report.Success? ==> RendersDevices(report.value, SelectDeviceRenderer(output).value, output, Correlate(raw))
  {
    var devices;
    devices, progress := GenerateDevices(raw);
    var renderer := SelectDeviceRenderer(output);
    match renderer
    case Failure(e) =>
      report := Failure(e);
    case Success(r) =>
      var rendered := RenderDevices(r, output, devices);
      report := Success(rendered);
  }

  /** An output name ending in ".txt", such as "report.txt", ends the run with a
      diagnostic naming it. */
  lemma UnsupportedExtensionIsFatal(base: string)
    ensures SelectDeviceRenderer(base + ".txt") == Failure("unsupported extension for " + base + ".txt")
  {
    ExtOfName(base, ".txt");
  }
}

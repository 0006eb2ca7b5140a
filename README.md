# unimac report core, modelled in Dafny

unimac is a command-line tool that reads the inventory of a UniFi controller and writes two
reports. The Dafny project models the core of those reports:

- **Device report** (`devices.go`):
  - the correlator, which turns the controller's gateway, switch, access-point and
    next-generation-gateway lists into one list of devices, each with its uplink;
  - the four renderers: console table, JSON, CSV and spreadsheet;
  - the dispatch on the output file's extension.
- **Client report** (`clients.go`):
  - the switch and access-point lookup maps;
  - hydration, which fills in each client's switch and access-point names;
  - the optional stable sort by MAC;
  - the per-column value lookup;
  - the four renderers and the dispatch.
- **Shared helpers** (`common.go`): the spreadsheet column letters `cols` and `getColumns`,
  which maps each column name to a function from a row number to its cell address.

Files:

| file | module | contents |
|---|---|---|
| `wrappers.dfy` | `Wrappers` | `Option` and `Result` |
| `text.dfy` | `Text` | Go's `%d` formatting and its inverse, `filepath.Ext`, Go's byte-wise string order, and tab-terminated table cells |
| `controller.dfy` | `Controller` | the records the controller library supplies, reduced to the fields the reports read |
| `common.dfy` | `Common` | `cols`, `getColumns` and spreadsheet cells |
| `devices.dfy` | `Devices` | the device report |
| `clients.dfy` | `Clients` | the client report |

How the source's forms are kept:

- **Device list.** The list that `withUSGs`, `withUSWs`, `withUAPs` and `withUXGs` append to is
  the class `DeviceList`, with a `seq` field the methods reassign.
- **Loops.** Loops in the source are methods with loops and invariants: the map-building
  loops, the CSV and spreadsheet renderers, the table renderers, and `getColumns`. Each is
  proved against a specification function of its inputs.
- **In-place hydration.** `hydrateClient` updates a client in place. It is the method
  `ClientRef.HydrateClient`, whose contract is the function `Hydrate`.
- **Renderer output.** What the renderers write is a value:
  - the CSV records;
  - the table's header, format line and lines;
  - the sequence of `SetCellValue` calls;
  - the records handed to the JSON encoder.
- **Last Seen time.** The client report's "Last Seen" column formats a time as local time.
  That formatter is the parameter `localTime`.

Where the code and its documented behaviour disagree, the model follows the code, except
where the code faults. There the model has two halves (see Findings): one member as written,
which shows the fault, and a corrected member that the reports use.

- **Gateway uplink.** A gateway always has an uplink, built from its own declared uplink
  (devices.go:151). It is never absent.
- **Table header spelling.** The device table's header spells its first column "Mac"
  (devices.go:216). The CSV and the spreadsheet spell it "MAC".
- **Switch-port and Last Seen labels.** The client columns are labelled "SwPort" and
  "Last Seen" (clients.go:27, clients.go:32).
- **Missing map key.** A client whose switch or access-point MAC is not in the map is not
  handled gracefully: the code dereferences nil (clients.go:112-117). The corrected `Hydrate`
  leaves the name as it was, and the controller leaves it empty. Every client renderer except
  JSON uses the corrected `Hydrate`.
- **Device table network column.** The console table reads the configuration's IP without
  checking for nil (devices.go:232), so it faults on any device without a configuration. The
  corrected table shows "nil" there, as the CSV does. `DeviceTableLines`, `RenderDevices` and
  `GenerateDevicesReport` render the corrected table; `DeviceTableAsWritten` is the code as
  written.
- **JSON clients.** The JSON client renderer writes the clients without hydrating them
  (clients.go:152-159).

## Model

| member | source | states |
|---|---|---|
| Text.IntToDecimal | clients.go:140 | `%d` output is non-empty and starts with '-' exactly for negative numbers |
| Text.NatToDecimal | clients.go:140 | the decimal numeral of a natural is all digits with no leading zero |
| Text.DecimalRoundTrip | clients.go:140 | reading back the `%d` text of any integer gives that integer |
| Text.DecimalInjective | devices.go:295-317 | distinct row numbers give distinct numerals, so distinct cell addresses (used by `Common.AddressesDistinct`) |
| Text.Ext | clients.go:86-88 | `filepath.Ext`: a suffix of the path that is empty or a dot followed by no dot or separator; empty only when every dot is followed by a separator |
| Text.ExtOfName | devices.go:125-141 | a name ending in a dot-suffix free of dots and separators has exactly that suffix as its extension |
| Text.LessIrreflexive | clients.go:77-81 | the byte-wise string order used to sort MACs is irreflexive |
| Text.LessTransitive | clients.go:77-81 | the string order is transitive |
| Text.LessTotal | clients.go:77-81 | any two distinct strings are ordered one way or the other |
| Text.NotLessTransitive | clients.go:77-81 | "not less" is transitive, the ordering the stable sort produces |
| Text.TabTerminatedSnoc | clients.go:165-171 | appending one more cell appends the cell and a tab to the header line |
| Text.CellsRoundTrip | devices.go:216-217 | splitting a tab-terminated line whose cells have no tabs gives back the cells |
| Common.ColsInOrder | common.go:26-27 | `cols` holds the 26 capital letters in order |
| Common.CellText | clients.go:199-221 | an integer cell reads back as its number; a time cell reads as its local time; a text or port cell reads as its label (a model convention, see Left out) |
| Common.AddressesDistinct | common.go:36-38 | a cell address determines its column and its row: cells that differ in either are addressed differently |
| Common.ColumnLetters | common.go:31-41 | the names bound by `getColumns` are exactly the given names |
| Common.ColumnLettersAt | common.go:31-41 | a name whose last position is k is bound to the k-th letter |
| Common.ColumnLettersDistinct | common.go:31-41 | with distinct names, distinct columns get distinct letters |
| Common.GetColumns | common.go:31-41 | the bound names are exactly the inputs; each maps row r to its letter followed by r |
| Common.SampleFirstColumn | common_test.go:19-35 | the unit test's first name "MAC" in row 1 is cell "A1" |
| Devices.DevicePort.Displayname | devices.go:35-47 | a port displays its device's name, or the MAC when the name is empty |
| Devices.DevicePort.ToString | devices.go:31-33 | `String()` is the display name, a space, then the port label |
| Devices.InsertDownlinks | devices.go:76-79 | inserting one switch's downlink table adds exactly its neighbour MACs and keeps every other entry |
| Devices.DownlinkMap | devices.go:73-80 | the downlink map's keys are exactly the neighbour MACs of all switches |
| Devices.InsertDownlinksAt | devices.go:76-79 | the last table row naming a MAC decides its entry, since later rows overwrite earlier ones |
| Devices.DownlinkMapAt | devices.go:73-80 | the entry for a neighbour is the last switch and row that list it: that switch's MAC and name, and the row's port |
| Devices.NeighbourMacsContains | devices.go:73-80 | every row of every switch's table has an entry |
| Devices.LastRowExists | devices.go:73-80 | every mapped MAC has a last switch and row naming it |
| Devices.UplinkFromLastRow | devices.go:73-80 | every entry of the downlink map comes from the last row naming its MAC |
| Devices.BuildDownlinkMap | devices.go:73-80 | the loop builds the downlink map, keyed by the neighbour MACs |
| Devices.Gateways | devices.go:145-150 | nil gateway entries are dropped, so there are never more gateways than entries |
| Devices.GatewaysArePresent | devices.go:145-150 | a device is a gateway of the list exactly when it is a non-nil entry of it |
| Devices.GatewaysAppend | devices.go:145-150 | dropping nil entries distributes over concatenation, so order is kept |
| Devices.DeviceList.constructor | devices.go:95 | the device list starts empty |
| Devices.DeviceList.WithUSGs | devices.go:145-165 | appends one gateway device per non-nil gateway, in order |
| Devices.DeviceList.WithUSWs | devices.go:167-188 | appends one switch device per switch, in order |
| Devices.DeviceList.WithUAPs | devices.go:190-210 | appends one access-point device per access point, in order |
| Devices.DeviceList.WithUXGs | devices.go:112-123 | appends one next-generation-gateway device per entry, in order |
| Devices.GenerateDevices | devices.go:60-123 | the device list is the correlation of the four lists; the progress counts are gateways, switches and access points added |
| Devices.Correlate | devices.go:95-123 | one device per non-nil gateway, switch, access point and next-generation gateway |
| Devices.CorrelateGrouped | devices.go:95-123 | gateways come first, then switches, then access points, then next-generation gateways |
| Devices.GatewayDevice | devices.go:151-163 | a gateway device has type USG, the gateway's MAC, name, site, IP and network configuration, an uplink from its declared uplink MAC and port index, and no note |
| Devices.SwitchDevice | devices.go:169-186 | a switch device has type USW and the switch's own fields; a switch some switch lists takes that downlink entry and no note; otherwise its own uplink MAC and port number and the note "root" |
| Devices.AccessPointDevice | devices.go:192-208 | an access-point device has type UAP and the access point's own fields; it has an uplink exactly when some switch lists it, and then it is that entry; no note |
| Devices.NextGenDevice | devices.go:113-121 | a next-generation-gateway device has type UXG and its own fields, no network configuration and no note; it has an uplink exactly when some switch lists it, and then it is that entry |
| Devices.GatewayEntry | devices.go:145-165 | the k-th gateway device copies the gateway and takes its declared uplink (port index), with no note |
| Devices.SwitchEntry | devices.go:167-188 | the k-th switch device has the switch's MAC, name, site and IP; a switch listed downstream takes its downlink entry with no note; otherwise it takes its own uplink (port number) and the note "root" |
| Devices.AccessPointEntry | devices.go:190-210 | the access-point device has the access point's MAC, name, site and IP; it has an uplink exactly when some switch lists it, and then it is that entry |
| Devices.NextGenEntry | devices.go:112-123 | the device has the gateway's MAC, name, site and IP; a next-generation gateway has an uplink exactly when some switch lists it; it never has a network configuration |
| Devices.ThreeDeviceScenario | devices.go:60-123 | a gateway, a root switch and an access point on switch port 5 give three devices: the gateway, the switch noted "root", and the access point uplinked to the switch's port 5 |
| Devices.DeviceRow | devices.go:260-276 | a device row has one value per column |
| Devices.DeviceRowPlaceholders | devices.go:260-276 | a missing uplink or configuration shows as "nil"; the uplink column shows the name, or the MAC when the name is empty; the network column is empty |
| Devices.RootSwitchRow | devices.go:179-184 | a root switch's row shows type USW, its own uplink MAC and port number, and the note "root" |
| Devices.HeaderRecord | devices.go:245-256 | the CSV header is the ten column names |
| Devices.DevicesCsv | devices.go:239-280 | the CSV is the header followed by one row per device, in device order |
| Devices.HeaderCellsLeft | devices.go:285-294 | the first five header cells are A1 to E1 holding MAC, Type, Site, IP and Name |
| Devices.HeaderCellsRight | devices.go:285-294 | the last five header cells are F1 to J1 holding Network, Uplink, UpPort, ConfigIP and Note |
| Devices.HeaderCellsSpelledOut | devices.go:285-294 | the spreadsheet header is cells A1 to J1 holding the ten column names |
| Devices.DevicesExcel | devices.go:282-322 | the spreadsheet is the header cells, then each device's ten cells from row 2 on |
| Devices.DataCellsAt | devices.go:295-317 | device i's k-th cell is at column k, row i + 2, and holds the device's k-th CSV value |
| Devices.ExcelMatchesCsv | devices.go:282-322 | the spreadsheet holds the CSV's header and values cell for cell |
| Devices.DeviceTableLines | devices.go:219-236 | corrected table (see Findings): one tab-terminated, newline-ended line per device holding its row, in device order |
| Devices.DeviceTable | devices.go:212-237 | corrected table: the header line, then one tab-terminated line per device holding its row |
| Devices.TableHeaderCells | devices.go:216 | the table header line splits back into its ten labels |
| Devices.TableLabelsAreColumns | devices.go:216 | the table labels are the CSV column names with "Mac" in place of "MAC" |
| Devices.TableLineCells | devices.go:217-233 | a table line splits back into the device's row when no value holds a tab |
| Devices.DeviceTableRowAsWritten | devices.go:220-233 | a table row as written faults exactly when the device has no configuration; otherwise it is the device's CSV row |
| Devices.DeviceTableAsWritten | devices.go:219-236 | when the table as written does not fault, its rows are the CSV's rows |
| Devices.TableAsWrittenAgrees | devices.go:212-237 | when every device has a configuration, the table as written lists the same rows as the CSV |
| Devices.TableAsWrittenFaults | devices.go:232 | the table as written faults as soon as one device has no configuration |
| Devices.NextGenGatewayCrashesTable | devices.go:232 | any next-generation gateway makes the table as written fault |
| Devices.SelectDeviceRenderer | devices.go:125-141 | no output name selects the table; .json selects the JSON renderer, .csv the CSV renderer and .xlsx the spreadsheet, each exactly for its extension; any other name fails with an error naming the file |
| Devices.RenderDevices | devices.go:125-141 | each renderer, with the corrected table (see Findings), writes its form of the devices: the console table, the JSON devices, the CSV records or the spreadsheet cells, into the named file |
| Devices.GenerateDevicesReport | devices.go:60-143 | the report fails exactly when selection fails; otherwise it is the rendering (with the corrected table) of the correlated devices the extension selects, written to the named file |
| Devices.UnsupportedExtensionIsFatal | devices.go:138-140 | any name ending in ".txt", such as "report.txt", fails with "unsupported extension for " followed by the name |
| Clients.ClientFieldsDistinct | clients.go:39-43 | there are twelve client columns, pairwise distinct |
| Clients.GetClientValue | clients.go:121-150 | the per-column lookup; its contract is stated by `Clients.ClientValueOfEachColumn` |
| Clients.ClientValueOfEachColumn | clients.go:121-150 | each column reads its field; RSSI reads back as the number; Last Seen is the formatted time; an unknown column is "#UNSUPPORTED" |
| Clients.MacIndex | clients.go:64-73 | the lookup map is keyed by exactly the devices' MACs |
| Clients.MacIndexAt | clients.go:64-73 | a MAC maps to the last device carrying it |
| Clients.IndexByMac | clients.go:64-73 | the loop builds that map |
| Clients.Hydrate | clients.go:110-119 | corrected hydration: only the switch and AP names change; each is taken from the map when its MAC is set and present, and is otherwise kept |
| Clients.ClientRef.constructor | clients.go:110 | the reference holds the given client |
| Clients.ClientRef.HydrateClient | clients.go:110-119 | hydration in place leaves the client hydrated; the CSV, table and spreadsheet loops hydrate each client through it |
| Clients.HydrateAsWritten | clients.go:110-119 | hydration as written faults exactly when a set switch or AP MAC is missing from its map |
| Clients.HydrateAsWrittenAgrees | clients.go:110-119 | where hydration as written does not fault, it agrees with the corrected version |
| Clients.UnknownSwitchFaults | clients.go:111-113 | a client on switch "G1" with no switches known faults as written; the corrected version leaves it unchanged |
| Clients.HydrateIdempotent | clients.go:110-119 | hydrating twice is hydrating once |
| Clients.HydrateKeepsOtherColumns | clients.go:110-119 | hydration changes no column but Switch and AP |
| Clients.HydrateFromSwitchList | clients.go:110-114 | a client takes the name of the last switch in the list with its switch MAC |
| Clients.HydrateScenario | clients.go:110-119 | a client on switch S1 named "Switch-One" shows "Switch-One", and an empty AP name when it has no AP |
| Clients.InsertByMac | clients.go:77-81 | insertion keeps the clients as a multiset |
| Clients.SortByMac | clients.go:77-81 | the sort is a permutation |
| Clients.InsertByMacSorted | clients.go:77-81 | inserting into a MAC-ordered list keeps it ordered |
| Clients.SortByMacSorted | clients.go:77-81 | the sorted list is in MAC order |
| Clients.SortedCons | clients.go:77-81 | a client no larger than every later one heads a MAC-ordered list |
| Clients.InsertedAbove | clients.go:77-81 | inserting a client larger than the head leaves everything after the head no smaller than it |
| Clients.WithMacCons | clients.go:77-81 | the clients with a given MAC in a list are the head, if it has that MAC, then those of the rest |
| Clients.WithMacAppend | clients.go:77-81 | the clients with a given MAC in two lists joined are those of the first, then those of the second |
| Clients.StableStep | clients.go:77-81 | if inserting x puts it first among the clients with its MAC, it still does so after a client with a smaller MAC is put in front |
| Clients.InsertByMacStable | clients.go:77-81 | insertion puts a client after every earlier client with its MAC |
| Clients.SortByMacStable | clients.go:77-81 | the sort is stable: clients with equal MACs keep their relative order |
| Clients.OrderClients | clients.go:77-81 | without the flag the order is unchanged; with it the result is a permutation that keeps equal-MAC clients in order |
| Clients.OrderClientsSorted | clients.go:77-81 | with the flag the clients are in MAC order |
| Clients.ClientRow | clients.go:227-245 | a client record has one value per column |
| Clients.CopyFields | clients.go:229-230 | the copied header record is the column names |
| Clients.FillRecord | clients.go:237-240 | the refilled record is the client's row |
| Clients.ClientCsv | clients.go:227-245 | with corrected hydration (see Findings), the CSV is the column names, then one record per hydrated client, in order |
| Clients.TableHeaderAndFormat | clients.go:165-171 | the header is the tab-terminated column names; the format line is twelve tab-terminated "%s" and a newline |
| Clients.TableDataLines | clients.go:176-183 | one line per hydrated client: its row, tab-terminated and newline-ended, in order |
| Clients.ClientTable | clients.go:162-185 | with corrected hydration, the table writes the header line, then one tab-terminated line per hydrated client |
| Clients.TableHeaderCells | clients.go:165-171 | the table header splits back into the column names |
| Clients.TableMatchesCsv | clients.go:176-183 | each table line is the client's CSV record, tab-terminated, and splits back into it |
| Clients.ExcelValueText | clients.go:199-221 | SwPort is written as a port value, RSSI as an integer, Last Seen as a time, the rest as text; each cell reads as the column's value |
| Clients.ClientDataCellsSkip | clients.go:199-221 | skipping the first i clients skips their 12 i cells and i rows |
| Clients.ClientDataCellsAt | clients.go:199-221 | client i's k-th cell is at column k, row i + 2, and holds its k-th typed value |
| Clients.ClientColumnIndex | clients.go:192 | `getColumns` binds each of the twelve column names to its own letter: column k's cell in row r is the k-th letter followed by r |
| Clients.ColumnsByName | clients.go:200-211 | each `CLIENT_*` name the spreadsheet loop looks up addresses the column of its position in the column list |
| Clients.ClientRowCells | clients.go:200-219 | the twelve `SetCellValue` calls for one client are its row of cells |
| Clients.ClientHeaderRow | clients.go:195-197 | the header row is the column names in cells A1 to L1 |
| Clients.ClientExcel | clients.go:188-225 | with corrected hydration, the spreadsheet is the header cells, then each hydrated client's twelve cells from row 2 on |
| Clients.ClientCellsDistinct | clients.go:199-221 | no two `SetCellValue` calls for the clients write the same cell |
| Clients.ClientCellsBelowHeader | clients.go:199-221 | no client cell is written above row 2, so none overwrites a header label |
| Clients.ExcelMatchesCsv | clients.go:188-245 | each spreadsheet cell is at the right address and reads as the CSV's value for that client and column (for SwPort and Last Seen by the model's convention, see Left out) |
| Clients.SortedRecordsByMac | clients.go:77-81 | with the sort flag, the CSV's MAC column is in order |
| Clients.ClientExtension | clients.go:84-88 | no output name means ".table"; otherwise it is the file's extension |
| Clients.SelectClientRenderer | clients.go:84-99 | .json selects the JSON renderer and .csv the CSV renderer, each exactly for its extension; .xlsx selects the spreadsheet and .table, or no output name, the table; any other name fails with an error naming the file |
| Clients.RenderClients | clients.go:89-107 | the selected renderer writes its form of the ordered clients: the JSON renderer the clients as fetched, the others the clients with names filled in by the corrected hydration |
| Clients.GenerateClientsReport | clients.go:51-108 | the counts are the clients, switches and access points; the report fails exactly when selection fails; otherwise it goes to the named file or standard output and is the selected rendering of the ordered clients, with corrected hydration |
| Clients.TableFileIsSupported | clients.go:84-97 | any output name ending in ".table", such as "clients.table", selects the table |

## Left out

- **Other files.** `main.go` (flag parsing and the controller login), `licences.go` and
  `version.go` are not part of this model; nor is the controller library.
- **File and output helpers.** `writeJSON`, `check` and `mustCreateFile` (common.go:10-22,
  common.go:43-49) are I/O.
  - A report names its file or standard output (`Sink`, `DeviceReport.name`) and carries
    what would be written.
  - The failure to create the file is not modelled.
- **JSON encoding.** The JSON output is the sequence of records handed to the encoder. The
  encoding itself is library code.
- **Table alignment.** `tabwriter` alignment is left out. The table is its tab-terminated
  lines before alignment.
- **CSV quoting.** The CSV writer's quoting is left out. The CSV is its records.
- **Spreadsheet file.** The spreadsheet is its `SetCellValue` calls. Saving it
  (clients.go:222, devices.go:319-321) and its logged save error are left out.
- **Last Seen formatting.** The local-time formatting of "Last Seen" (clients.go:146) is the
  parameter `localTime`. The time zone and layout are not modelled.
- **Spreadsheet cell types.** Two client columns are written as typed values, and the model
  reads them by a convention: `Common.CellText` and `Clients.ExcelMatchesCsv` say they "read
  as" the CSV text.
  - Last Seen is written as a `time.Time` (clients.go:212). The spreadsheet shows it in its
    own cell style; the model reads it as the CSV's local-time text.
  - SwPort is written as `SwPort.Val`, a number (clients.go:209). The model reads it as the
    CSV's `String()` label.
- **Downlink port labels.** Port labels (`PortIdx.String()`, `NumPort.String()`,
  `SwPort.String()`) are opaque strings.
- **Console messages.** The progress messages and the table's "header"/"format" diagnostics
  are left out. Only their counts appear, as `Progress` and `ClientSummary`.
- **Unused device maps.** The switch and access-point maps built in `generateDevices`
  (devices.go:71, devices.go:74, devices.go:82-85) are never read, so they are not modelled.
- **Nil list entries.** Only the gateway loop checks its list for nil entries
  (devices.go:148-150). The model assumes the switch, access-point and next-generation-gateway
  lists hold no nil entries. A nil entry there would fault at devices.go:74, devices.go:113,
  devices.go:171 or devices.go:192; that fault is not modelled.
- **Pointer aliasing.**
  - Devices and clients are values. The source shares them through pointers, but only mutates
    a record while building it, or in `hydrateClient`.
  - Hydrating one client in place is `ClientRef.HydrateClient`. Hydrating all clients is
    the function `HydrateAll`.
  - The renderers hydrate the clients through the caller's pointers. That side effect on the
    caller's slice is not modelled.
- **Sort algorithm.** `sort.SliceStable` is library code. It is modelled by a stable insertion
  sort; the lemmas state what the library promises: a permutation, in order, and stable.
- Common.GetColumns: requires at most 26 names. The source indexes `cols` by position and
  faults beyond 26. The only caller, `clientExcel`, passes the 12 client column names
  (clients.go:192), and the unit test passes 8 (common_test.go:19). `devicesExcel` does not
  call it: it writes its addresses out (devices.go:285-316).
- **Displayname nil case.** The nil-receiver branch of `Displayname` (devices.go:39-41) is
  left out. Every caller checks the uplink for nil first, so that branch is never reached.

## Findings

| source | as written | input that shows it | evidently intended | confidence | as-written member | corrected member |
|---|---|---|---|---|---|---|
| devices.go:232 | the console table reads `d.ConfigNetwork.IP` without the nil check the CSV and the spreadsheet make | any next-generation gateway (never given a configuration), or an access point without one | print "nil" as the CSV does | not executed | Devices.NextGenGatewayCrashesTable | Devices.DeviceTable |
| clients.go:111-118 | hydration dereferences the map lookup without checking that the MAC is present | a client whose switch MAC "G1" is not among the switches | leave the name as it was | not executed | Clients.UnknownSwitchFaults | Clients.Hydrate |

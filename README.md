# flux-panel control plane in Dafny

This project models the control-plane core of flux-panel, a panel that manages gost
forwarding agents. The backend is written in Go, with two helpers from the Vue frontend.
Every database table is an in-memory sequence or map. Every agent RPC is an answer taken
from a reply script. The clock and generated ids are parameters.

One Dafny module stands for each source file:

- `PortRanges` (`utils/port_ranges.go`): parsing, validating, expanding and formatting port-range specs such as `1080,1090,2080-3080`.
- `IpUtil`, `ServerAddr` (`utils/ip_util.go`, `utils/server_addr.go`): host and port extraction, and IPv6 bracketing.
- `GostUtil` (`utils/gost_util.go`): the service, remote, chain and limiter descriptors sent to an agent, with the artifact names they fix (`_tcp`, `_udp`, `_tls`, `_chains`).
- `ForwardPorts` (`service/forward_service.go`): port allocation, the used-port set, service names and the loopback guard.
- `ForwardGost` (`service/forward_service.go`): the create, update and delete command sequences, their compensating calls, and the order of moves when a forward changes tunnel.
- `ForwardService` (`service/forward_service.go`): the create, delete, pause and resume handlers.
- `TunnelService` (`service/tunnel_service.go`): tunnel validation, exit-port allocation, the shared relay services with rollback, the delete guard and the critical-change test.
- `FlowBuffer` (`controller/flow_buffer.go`): the five-map traffic accumulator. Flush swaps the maps out and writes relative increments to a counter store.
- `FlowController` (`controller/flow_controller.go`): report parsing, billing, the quota, expiry and status checks, and the pause sweeps they trigger.
- `TaskService` (`service/task_service.go`): the daily flow reset and the expiry sweep.
- `Statistics` (`service/statistics_service.go`): the hourly increment job.
- `UserService` (`service/user_service.go`): the 24-slot traffic history, flow reset, the admin guards and the default-credentials test.
- `OpenApi` (`controller/openapi_controller.go`): the subscription-userinfo header.
- `Migration` (`migration/migration.go`): the migration runner over a recorded set of applied steps.
- `WsServer` (`websocket/server.go`): the agent session registry and request/reply correlation.
- `Format`, `FlowChart` (`vue-frontend/src/utils/format.ts`, `flowChart.ts`): display formatting and the 24-hour chart series.
- `Model`, `Strs`, `Wrappers`: record types, Go/JavaScript string helpers, and `Option`/`Result`.

Where the source changes state, the model uses classes: the flow buffer, the counter
store, the websocket registry and its clients, the tunnel RPC wire, and the database
handles of the services. Their methods are proved against specification functions. Pure
source code is modelled as functions with lemmas.

## Model

| member | source | states |
|---|---|---|
| IpUtil.BracketedRoundTrip | go-backend/utils/ip_util.go:9-65 | for a bracketed IPv6 host and any int64 port, ExtractIp of `[host]:port` gives the host back and ExtractPort gives the port back |
| IpUtil.PlainRoundTrip | go-backend/utils/ip_util.go:9-65 | for a host without colons, ExtractIp and ExtractPort of `host:port` give back the host and the port |
| IpUtil.BracketedParts | go-backend/utils/ip_util.go:16-20 | on `[host]:p` the host is the text between the brackets and the port is Atoi of the text after `]:`, or -1 when that is not a number |
| IpUtil.PlainParts | go-backend/utils/ip_util.go:24-27 | on `host:p` with a colon-free `p`, the host is the text before the last colon and the port is Atoi of `p`, or -1 |
| IpUtil.SplitsAtLastColon | go-backend/utils/ip_util.go:24-27 | for an unbracketed address with a colon after the first character, the extracted host, a colon and the text after the last colon rebuild the address, and that tail has no colon |
| IpUtil.NoColonNoPort | go-backend/utils/ip_util.go:29-30 | an address without a colon has port -1, and its host is the whole trimmed address unless it starts with `[` |
| IpUtil.BracketedShape | go-backend/utils/ip_util.go:16-19 | `[host]:p` is already trimmed, its first `]` closes the host, and the colon and port follow it |
| IpUtil.SignedDigitsEnd | go-backend/utils/ip_util.go:45 | the decimal text of any integer ends with a digit, so the port text of a formatted address is never empty |
| ServerAddr.ChangesIffUnbracketedV6 | go-backend/utils/server_addr.go:5-26 | ProcessServerAddress changes its input exactly when the input is non-empty, does not start with `[`, and has at least three colons; it then brackets the text before the last colon and keeps the rest |
| ServerAddr.Idempotent | go-backend/utils/server_addr.go:5-26 | processing an already processed address changes nothing |
| ServerAddr.NormalisedAddressReadsBack | go-backend/utils/server_addr.go:20-24 | an IPv6 host with a port becomes `[host]:port`, and ExtractIp and ExtractPort read the host and the port back from it |
| ServerAddr.BracketsHost | go-backend/utils/server_addr.go:20-24 | when the host before the last colon has two or more colons, the result is the bracketed host followed by `:` and the port text |
| ServerAddr.HostColons | go-backend/utils/server_addr.go:12-30 | the host before the last colon has one colon fewer than the whole address, which is why an IPv6 address with a port has at least three colons |
| Migration.RunMigrations | go-backend/migration/migration.go:32-61 | without the migrations table nothing runs and the table error is returned; otherwise the recorded names, the migrations run and the error are those of Run: steps run in order, names already recorded are skipped, and the first failure stops the run with "migration NAME failed" |
| Migration.RunStopsAtFailure | go-backend/migration/migration.go:48-50 | once a step has failed, the later steps change nothing |
| Migration.RunOrder | go-backend/migration/migration.go:38-44 | the migrations run form a subsequence of the declared order, and none of them was recorded before |
| Migration.RecordsGrow | go-backend/migration/migration.go:48-56 | a clean run records exactly the names it ran after the old records; a failed run records every name it ran except the failed one, which stays unrecorded so the next start retries it |
| Migration.RunCompletes | go-backend/migration/migration.go:38-60 | after a run without failure every declared migration is recorded |
| Migration.SecondRunAppliesNothing | go-backend/migration/migration.go:40-44 | starting again after a clean run applies nothing and records nothing new |
| Migration.AllRecordedRunsNothing | go-backend/migration/migration.go:40-44 | when every name is already recorded, the run applies nothing and succeeds |
| Migration.FreshRunAppliesAll | go-backend/migration/migration.go:22-29 | on an empty database with no failing step, the three declared migrations run in order and all are recorded |
| Statistics.RunStatistics | go-backend/service/statistics_service.go:38-83 | the hourly job keeps the rows no older than 48 hours, in order, and appends one row per user in user order; every other table is unchanged |
| Statistics.LastTotal | go-backend/service/statistics_service.go:58-59 | the user's last row is found exactly when some row belongs to the user |
| Statistics.IncrementFacts | go-backend/service/statistics_service.go:61-69 | the increment is the growth since the last total when the counter grew, the current reading after a reset or when there is no earlier row, and never negative for a non-negative reading |
| Statistics.IncrementsAddUp | go-backend/service/statistics_service.go:61-69 | over a run of non-decreasing readings the increments add up to the last reading: no traffic is counted twice and none is lost |
| Statistics.Kept | go-backend/service/statistics_service.go:40-41 | the pruning keeps exactly the rows created at or after the cutoff |
| Statistics.NextRunMeasuresFromTotal | go-backend/service/statistics_service.go:71-77 | the row written for a user holds the user's current total, so the next run reads it as the last total and, with no new traffic, records an increment of 0 |
| FlowChart.ProcessFlowChartData | vue-frontend/src/utils/flowChart.ts:8-32 | the chart has 24 points labelled with the hours from 23 hours ago up to now; each value is the flow of the last item with that label, or 0, and is formatted as bytes |
| FlowChart.LatestFlowIsLastMatch | vue-frontend/src/utils/flowChart.ts:19-22 | a label has a value exactly when some item has it, and the value is that of the last such item (a later item overwrites an earlier one in the map) |
| FlowChart.LaterItemWins | vue-frontend/src/utils/flowChart.ts:20-22 | an appended item sets its own label's value and leaves every other label's value as it was |
| FlowChart.MissingChartsAsZero | vue-frontend/src/utils/flowChart.ts:21-25 | a label whose items all have no flow or flow 0 is charted as 0 |
| FlowChart.LabelsConsecutive | vue-frontend/src/utils/flowChart.ts:13-17 | the last label is the current hour, and each label is one hour after the one before it, modulo 24 |
| FlowChart.LabelsDistinct | vue-frontend/src/utils/flowChart.ts:13-17 | the 24 labels are pairwise distinct |
| FlowChart.HourLabelInjective | vue-frontend/src/utils/flowChart.ts:15 | two hours below 24 with the same "HH:00" label are the same hour |
| Format.FormatNumberReadsBack | vue-frontend/src/utils/format.ts:17-20 | formatNumber prints "无限制" exactly for the 99999 sentinel, and any other value prints as decimal text that reads back to the value |
| Format.UnlimitedIsNotDecimal | vue-frontend/src/utils/format.ts:17-20 | no number prints as "无限制", so the sentinel text cannot be confused with a number |
| Format.FormatFlowUnits | vue-frontend/src/utils/format.ts:3-15 | 99999 is "无限制" in every unit; the "gb" unit prints the value with " GB"; in bytes the text is exact below 1024 and otherwise scaled by KB, MB or GB, the largest unit not above the value, so the shown figure is at least 1 and below 1024 for KB and MB |
| Format.NonBlankTrimmed | vue-frontend/src/utils/format.ts:94 | the entries kept after trimming and dropping blanks are non-empty, trimmed, and no more than the parts split out |
| Format.EmptyHasNoEntries | vue-frontend/src/utils/format.ts:92-96 | an empty list has no entries |
| Format.FormatAddressShape | vue-frontend/src/utils/format.ts:91-117 | the address is empty exactly for an empty list, port 0, or a list of blanks; with several entries it is the first entry's rendering plus " (+n)" for the n others |
| Format.EntryAddressReadsBack | vue-frontend/src/utils/format.ts:98-104 | one rendered entry reads back, through ExtractIp and ExtractPort, as the entry and the port, whether or not it was bracketed as IPv6 |
| Format.SingleAddressReadsBack | vue-frontend/src/utils/format.ts:98-104 | for a one-entry list, the rendered address reads back as that entry and the port |
| Format.NoCommaEntries | vue-frontend/src/utils/format.ts:94 | trimming and filtering comma-free parts leaves comma-free entries |
| Format.EntryHasNoComma | vue-frontend/src/utils/format.ts:94 | no entry of a comma-split list contains a comma |
| Format.HasMultipleIffCounted | vue-frontend/src/utils/format.ts:119-136 | hasMultiple holds exactly when there are two or more non-blank entries; formatRemoteAddress is then the first entry plus " (+n)", is the entry itself for one entry, and is empty exactly when there are none |
| Format.CountIsEntries | vue-frontend/src/utils/format.ts:122-135 | hasMultiple's count of non-blank parts equals the number of entries formatRemoteAddress keeps |
| Format.UsageColorBands | vue-frontend/src/utils/format.ts:138-142 | the bar is red from 90%, orange from 70% to below 90%, blue below 70%, and its severity never falls as the percentage rises |
| OpenApi.BuildHeaderValue | go-backend/controller/openapi_controller.go:59-89 | the only error is "隧道不存在" |
| OpenApi.AccountHeader | go-backend/controller/openapi_controller.go:60-93 | for "-1" a header is always built, and a client reads from it upload = the account's inbound traffic, download = its outbound traffic, total = the quota in bytes (wrapped to int64) and expire = the expiry in seconds, truncated toward zero |
| OpenApi.TunnelHeader | go-backend/controller/openapi_controller.go:69-88 | any other parameter gives a header exactly when it parses as an integer naming a permission of this user, and the header carries that permission's counters in the same swapped layout |
| OpenApi.HeaderReadsBack | go-backend/controller/openapi_controller.go:91-93 | the header reads back as four fields in which the upload slot holds the `download` argument and the download slot the `upload` argument |
| OpenApi.HeaderFromFields | go-backend/controller/openapi_controller.go:91-93 | once each of the four fields reads back, the whole header reads back |
| OpenApi.HeaderFields | go-backend/controller/openapi_controller.go:92 | each `key=%d` field of the header, after its separating space, reads back its int64 value |
| OpenApi.FieldReadsBack | go-backend/controller/openapi_controller.go:92 | one `key=value` field reads back its value |
| OpenApi.SpacedField | go-backend/controller/openapi_controller.go:92 | a field after "; " has no semicolon and reads back once the space is dropped |
| OpenApi.ReadJoined | go-backend/controller/openapi_controller.go:92 | four fields joined with "; " read back as the four values |
| Strs.SplitFour | go-backend/controller/openapi_controller.go:92 | four separator-free fields joined by the separator (`;` in the header) split back into the same four |
| OpenApi.JoinFieldsShape | go-backend/controller/openapi_controller.go:92 | the "%s; %s; %s; %s" layout is the four fields with a semicolon and a space between them |
| OpenApi.NoSemicolonInNumber | go-backend/controller/openapi_controller.go:92 | a printed number has no semicolon, so it cannot split a field |
| OpenApi.Wrap64 | go-backend/controller/openapi_controller.go:64-86 | the int64 product lands in the 64-bit range and equals the exact product when that fits |
| OpenApi.GoQuot | go-backend/controller/openapi_controller.go:65-87 | Go's `/` truncates toward zero, for negative operands too, and stays within int64 |
| PortRanges.ParsePortRanges | go-backend/utils/port_ranges.go:19-70 | the loop returns exactly the reference parse: an empty input, or one whose tokens are all blank, fails with "端口范围不能为空"; otherwise the first bad token's error, or the ranges in token order |
| PortRanges.ParseToken | go-backend/utils/port_ranges.go:28-62 | a token is skipped exactly when it trims to nothing; a token without `-` gives a one-port range; every range it gives has start <= end; its errors are never the "empty" error |
| PortRanges.Message | go-backend/utils/port_ranges.go:21-82 | each error carries the text the Go code formats for it |
| PortRanges.Tokens | go-backend/utils/port_ranges.go:25-27 | there is one token result per comma-separated part |
| PortRanges.TokenFacts | go-backend/utils/port_ranges.go:28-62 | the k-th token is skipped exactly when the k-th part is blank, and its range, if any, is ordered |
| PortRanges.RangesOf | go-backend/utils/port_ranges.go:54-61 | the ranges kept are those the tokens produce, no more of them than tokens |
| PortRanges.FailureSticks | go-backend/utils/port_ranges.go:36-60 | once a token has failed, later tokens do not change the result |
| PortRanges.CollectTokens | go-backend/utils/port_ranges.go:27-63 | the token loop succeeds exactly when no token is bad, then yields the tokens' ranges in order, empty exactly when every token was skipped; a failure reports the error of the first bad token |
| PortRanges.ParseKeepsTokenOrder | go-backend/utils/port_ranges.go:24-69 | a successful parse gives at least one range, the ranges of the non-blank tokens in token order, each with start <= end; a failure other than "empty" is the first bad token's error |
| PortRanges.BlankIffSkip | go-backend/utils/port_ranges.go:28-31 | every part is blank exactly when every token is skipped |
| PortRanges.EmptyIffAllSkip | go-backend/utils/port_ranges.go:65-67 | the "empty" error comes back exactly when every token was skipped |
| PortRanges.EmptyIffBlank | go-backend/utils/port_ranges.go:20-67 | the input is rejected as empty exactly when it is "" or all its comma-separated tokens are blank |
| PortRanges.Complaint | go-backend/utils/port_ranges.go:75-83 | a range draws no complaint exactly when 1 <= start <= end <= 65535, and the complaint is a port out of range or start after end |
| PortRanges.ValidatePortRanges | go-backend/utils/port_ranges.go:73-86 | succeeds exactly when every range is valid; otherwise returns the complaint about the first invalid range |
| PortRanges.ValidatePortRangesString | go-backend/utils/port_ranges.go:89-95 | succeeds exactly when the text parses and every range is valid; a parse failure is passed on unchanged |
| PortRanges.IsPortInRanges | go-backend/utils/port_ranges.go:98-105 | true exactly when some range holds the port |
| PortRanges.GetAllPorts | go-backend/utils/port_ranges.go:108-118 | the list is strictly increasing and holds exactly the ports some range covers |
| PortRanges.SortInts | go-backend/utils/port_ranges.go:116 | the sorted list is ordered and a permutation of its input |
| PortRanges.InsertSorted | go-backend/utils/port_ranges.go:116 | inserting into a sorted list keeps it sorted and adds exactly the one element |
| PortRanges.UniqueInts | go-backend/utils/port_ranges.go:120-131 | the result holds exactly the input's values, and on sorted input it is strictly increasing |
| PortRanges.FormatPortRanges | go-backend/utils/port_ranges.go:134-144 | the text is the range texts joined by commas, and for a non-empty list of valid ranges it parses back to that same list |
| PortRanges.FormatParseRoundTrip | go-backend/utils/port_ranges.go:19-144 | parsing the formatted text of a non-empty list of valid ranges gives the list back |
| PortRanges.TokenRoundTrip | go-backend/utils/port_ranges.go:137-141 | the text of a valid range is a non-blank, comma-free token that parses back to the range |
| PortRanges.RangeTexts | go-backend/utils/port_ranges.go:136-142 | one text per range |
| PortRanges.TextToken | go-backend/utils/port_ranges.go:136-142 | the k-th formatted text parses as the k-th range |
| PortRanges.CollectRanges | go-backend/utils/port_ranges.go:27-63 | tokens that each carry a range collect into exactly those ranges |
| PortRanges.PortText | go-backend/utils/port_ranges.go:138 | the decimal text of a port is trimmed, starts and ends with a digit, has no `,` or `-`, and reads back as the port |
| PortRanges.DashPair | go-backend/utils/port_ranges.go:140 | "a-b" built from two port texts is a trimmed, comma-free token that splits at `-` into exactly the two texts |
| PortRanges.ConvertLegacyPortRange | go-backend/utils/port_ranges.go:147-155 | the text is empty exactly for the (0, 0) pair |
| PortRanges.LegacyRoundTrip | go-backend/utils/port_ranges.go:147-155 | the legacy pair prints as FormatPortRanges prints its one range, so a valid pair parses back to that range, and (0, 0) is rejected as empty |
| GostUtil.ArtifactNamesDistinct | go-backend/utils/gost_util.go:59-139 | the `_tcp`, `_udp`, `_tls` and `_chains` artifacts of one service name are four distinct names |
| GostUtil.ServiceNameParts | go-backend/service/forward_service.go:635-641 | a service name "f_u_t" splits at `_` into exactly the three decimal numbers, each of which reads back |
| Strs.SplitThree | go-backend/service/forward_service.go:640 | three separator-free parts joined by the separator (`_` in a service name) split back into the same three |
| GostUtil.NoUnderscoreInNumber | go-backend/service/forward_service.go:640 | a printed number holds no `_`, so it cannot split a service name |
| GostUtil.StrategyStr | go-backend/utils/gost_util.go:258-263 | "" becomes "fifo", any other strategy is kept, and the result is never empty |
| GostUtil.CreateNodes | go-backend/utils/gost_util.go:244-256 | the loop with its counter yields exactly the reference node list of the comma-separated elements |
| GostUtil.Nodes | go-backend/utils/gost_util.go:244-256 | one node per element, in order, the i-th named node_i (counting from 1) with the element as its address |
| GostUtil.NodesJoinBack | go-backend/utils/gost_util.go:246-252 | joining the nodes' addresses with commas gives back the remote address text |
| GostUtil.NodeNamesDistinct | go-backend/utils/gost_util.go:247-253 | no two nodes of one list share a name |
| GostUtil.NodeNameInjective | go-backend/utils/gost_util.go:250 | different counters give different node names |
| GostUtil.NatToStringInjective | go-backend/utils/gost_util.go:250 | different naturals print differently |
| GostUtil.ServiceShape | go-backend/utils/gost_util.go:137-182 | a service has a forwarder (with one node per remote element and a non-empty strategy) exactly when the type is 1 and the chain handler exactly otherwise; only udp keeps sessions alive; the limiter and interface keys appear exactly when given; it listens on the tunnel's udp or tcp address |
| GostUtil.RemoteShape | go-backend/utils/gost_util.go:184-209 | the remote service is `name_tls` on `:outPort` with a relay handler and no limiter, and its forwarder's node addresses join back into the remote address text |
| GostUtil.ChainShape | go-backend/utils/gost_util.go:211-242 | the chain is `name_chains` with one hop and one relay node dialling the remote address; only a QUIC dialer carries metadata |
| GostUtil.LimiterNamesLineUp | go-backend/utils/gost_util.go:13-39 | add, update and delete address the same limiter, named by the decimal id, and the rule caps both directions at the given speed |
| GostUtil.NamesLineUp | go-backend/utils/gost_util.go:41-133 | Delete, Pause and Resume reach exactly what the matching Add created (tcp and udp for a service, tls for a remote service, the chain for chains); Update replaces exactly that; a tunnel-type service's handler names the chain AddChains creates |
| GostUtil.ServiceNames | go-backend/utils/gost_util.go:41-47 | AddService sends exactly the `name_tcp` and `name_udp` services |
| GostUtil.RemoteNames | go-backend/utils/gost_util.go:78-85 | AddRemoteService sends exactly the one `name_tls` service |
| GostUtil.ConfigNames | go-backend/utils/gost_util.go:42-45 | one name per config, in order |
| GostUtil.NodeAddrs | go-backend/utils/gost_util.go:251 | one address per node, in order |
| GostUtil.ReplyDrop | go-backend/websocket/server.go:339-381 | after n commands the next reply is the (n+1)-th of the script, "Timeout" once it runs out |
| GostUtil.DropDrop | go-backend/websocket/server.go:339-381 | consuming a then b replies is consuming a + b |
| GostUtil.Agent.constructor | go-backend/websocket/server.go:339-381 | the agents start with no command sent and the given reply script |
| GostUtil.Agent.Send | go-backend/websocket/server.go:339-381 | a command is appended to the log and answered with the next reply of the script |
| ForwardPorts.TunnelIds | go-backend/service/forward_service.go:581-597 | an id is collected exactly when some tunnel with that id enters (or leaves) by the node |
| ForwardPorts.InPortsUsed | go-backend/service/forward_service.go:583-593 | a port is taken exactly when some counted forward on one of the tunnels has it as its entry port |
| ForwardPorts.OutPortsUsed | go-backend/service/forward_service.go:598-610 | a port is taken exactly when some counted forward on one of the tunnels has it as a non-zero exit port |
| ForwardPorts.GetUsedPorts | go-backend/service/forward_service.go:578-612 | the loops collect exactly the entry ports of forwards on tunnels entering the node and the non-zero exit ports of forwards on tunnels leaving it, the excluded forward left out |
| ForwardPorts.ForwardHoldsItsPorts | go-backend/service/forward_service.go:590-609 | every counted forward's entry port is taken on its tunnel's entry node, and its non-zero exit port on the exit node |
| ForwardPorts.ExcludingFrees | go-backend/service/forward_service.go:586-603 | excluding a forward only ever frees ports |
| ForwardPorts.IsPortUsed | go-backend/service/forward_service.go:614-617 | true exactly when the port is in the node's used set |
| ForwardPorts.FindFreePort | go-backend/service/forward_service.go:564-576 | the method's result is FreePort: the missing-node error, "无可用端口", or the port the scan finds |
| ForwardPorts.ScanFree | go-backend/service/forward_service.go:570-575 | the upward scan returns the lowest port of the range that is not taken, or nothing |
| ForwardPorts.LowestFreeIsLowest | go-backend/service/forward_service.go:570-575 | the port found lies in the range, is free, and every lower port of the range is taken; nothing is found only when every port of the range is taken |
| ForwardPorts.FreePortIsFree | go-backend/service/forward_service.go:564-576 | a found port is free on the node and no lower port of its range is; "无可用端口" comes back exactly when the node exists and none of its range is free |
| ForwardPorts.SkipsTakenPorts | go-backend/tests/port_allocation_test.go:121-126 | with 10000, 10001 and 10050 taken in 10000-10100, the next free port is 10002 |
| ForwardPorts.PortCheck | go-backend/service/forward_service.go:550-562 | no error exactly when the port is free (node exists, in range, not taken); a missing node gives "节点不存在"; the taken-port message ends in "占用" |
| ForwardPorts.CheckPortAvailable | go-backend/service/forward_service.go:550-562 | the method returns exactly PortCheck's answer |
| ForwardPorts.Allocation | go-backend/service/forward_service.go:510-548 | an allocated entry port is free, and is the requested port when one was given; a tunnel forward's exit port is free on the exit node and is the requested one when a non-zero one was given; any other type reuses the entry port; a taken requested port fails, and no free entry port gives "入口节点无可用端口" |
| ForwardPorts.AllocatePorts | go-backend/service/forward_service.go:510-548 | the method returns exactly Allocation's outcome |
| ForwardPorts.AllocationAvoidsCollisions | go-backend/service/forward_service.go:510-548 | an allocated entry port differs from every counted forward's entry port on the same entry node, and a tunnel forward's exit port from every counted non-zero exit port on the same exit node |
| ForwardPorts.EntryIps | go-backend/service/forward_service.go:648-651 | the set holds the trimmed pieces of the comma-separated entry addresses |
| ForwardPorts.InIpSetMembers | go-backend/service/forward_service.go:648-651 | an address is in the set exactly when some piece trims to it |
| ForwardPorts.AddressTargets | go-backend/service/forward_service.go:654-657 | one host and port per remote address, in order |
| ForwardPorts.CheckLoopbackAddress | go-backend/service/forward_service.go:646-665 | the method returns exactly the reference guard's answer over the remote addresses and the entry set |
| ForwardPorts.LoopbackNamesFirstHit | go-backend/service/forward_service.go:655-664 | the guard refuses exactly when some remote address's host is an entry address and its port is the entry port, and the message names the first such host |
| ForwardPorts.SelfTargetRefused | go-backend/service/forward_service.go:646-665 | a remote address written as one of the tunnel's entry addresses with the entry port is refused |
| ForwardPorts.SingleTarget | go-backend/service/forward_service.go:654-657 | "host:port" with no comma is one remote address naming that host and port |
| ForwardPorts.NoCommaInNumber | go-backend/service/forward_service.go:654 | a printed port has no comma, so it cannot split the address list |
| ForwardGost.Sent | go-backend/utils/gost_util.go:41-133 | one wire command per wrapper call, in order |
| ForwardGost.SentAppend | go-backend/utils/gost_util.go:41-133 | the commands of two request lists in a row are the first's followed by the second's |
| ForwardGost.OpNamesAgree | go-backend/utils/gost_util.go:41-133 | what a wrapper call is said to create or remove is exactly what its command carries |
| ForwardGost.ReachAppend | go-backend/service/forward_service.go:395-501 | what a run creates and removes is the union over its requests |
| ForwardGost.RequiredNodes | go-backend/service/forward_service.go:619-633 | succeeds exactly when the entry node exists and, for a tunnel forward (type 2), the exit node too; the exit node is present exactly for type 2; a missing entry node gives "入口节点不存在" |
| ForwardGost.PlanInstalls | go-backend/service/forward_service.go:403-431 | a successful create's requests create exactly the forward's artifacts: tcp and udp on the entry node, plus the chain on the entry node and the tls relay on the exit node for a tunnel forward, and remove nothing |
| ForwardGost.CreateSucceeds | go-backend/service/forward_service.go:403-431 | a create succeeds exactly when every request of the plan is answered "OK", and then it sends just the plan |
| ForwardGost.CreateInstalls | go-backend/service/forward_service.go:395-432 | a successful createGostServices found its nodes and installed exactly the forward's artifacts under its service name |
| ForwardGost.CreateCompensates | go-backend/service/forward_service.go:409-430 | after a failed create, everything one of its requests created is removed by a later request on the same node (the chain after a relay or service failure, the relay after a service failure) |
| ForwardGost.DeleteUndoesCreate | go-backend/service/forward_service.go:481-501 | a delete creates nothing; it succeeds exactly when the entry delete is answered "OK" and then removes exactly what a create installs; otherwise it stops with the agent's reply as the error, having asked only for the entry services' removal |
| ForwardGost.AsUpdate | go-backend/service/forward_service.go:447-470 | an update call replaces exactly the artifacts of the add it stands for |
| ForwardGost.StepFacts | go-backend/service/forward_service.go:447-477 | one update step sends the update, then the add only when the reply holds "not found"; any other non-"OK" reply is the error under the step's prefix |
| ForwardGost.UpdateAllFacts | go-backend/service/forward_service.go:441-478 | an update run removes nothing, sends an add only right after its update was answered "not found", creates the whole plan when it succeeds, and otherwise reports the last reply under one of the prefixes |
| ForwardGost.UpdateAllShape | go-backend/service/forward_service.go:441-478 | an update run removes nothing, starts with an update, and sends an add only after "not found" |
| ForwardGost.UpdateAllCreated | go-backend/service/forward_service.go:441-478 | an update run without error created every artifact of the plan |
| ForwardGost.UpdateAllError | go-backend/service/forward_service.go:452-475 | a failed update run stopped at a reply that was neither "OK" nor "not found" and names it under the step's prefix |
| ForwardGost.FollowAppend | go-backend/service/forward_service.go:441-478 | the "add only after not found" rule survives joining two runs |
| ForwardGost.UpdateReachesPlan | go-backend/service/forward_service.go:434-479 | a successful updateGostServices leaves the forward's artifacts as a create would, removing nothing; a failed one reports "Update Chain Error: ", "Update Remote Service Error: " or "Update Service Error: " and the reply |
| ForwardGost.NameEndings | go-backend/utils/gost_util.go:59-130 | an entry service name never equals a chain or relay name |
| ForwardGost.RemovalsEndInS | go-backend/utils/gost_util.go:95-130 | every name a request other than a service delete removes ends in `s` |
| ForwardGost.EntriesNeedServiceDelete | go-backend/utils/gost_util.go:57-62 | without a DeleteService request no entry service is removed |
| ForwardGost.EntryNeedsServiceDelete | go-backend/utils/gost_util.go:57-62 | a name ending in `p` is removed only by a DeleteService request |
| ForwardGost.CreateKeepsEntries | go-backend/service/forward_service.go:395-432 | no create run removes any entry service |
| ForwardGost.CreateDeletesNoService | go-backend/service/forward_service.go:414-428 | the only deletes a create run sends are the compensating chain and relay deletes |
| ForwardGost.CreateOnDeletesNoService | go-backend/service/forward_service.go:414-428 | once the nodes are known, a create run sends no DeleteService |
| ForwardGost.RemovedOnlyBy | go-backend/service/forward_service.go:395-501 | an artifact is removed only by a request on its node that names it |
| ForwardGost.MoveToOtherEntry | go-backend/service/forward_service.go:287-294 | when the entry node changes and the new create fails, the old entry services are untouched; when it succeeds, the run is the new plan followed by deletes only |
| ForwardGost.MoveOnSameEntry | go-backend/service/forward_service.go:270-286 | on the same entry node the first request deletes the old entry services, and a failed create of the new ones is followed by re-creating the old ones |
| ForwardGost.Issue | go-backend/websocket/server.go:339-381 | one wrapper call appends its command to the log and returns the next reply |
| ForwardGost.IssueNext | go-backend/websocket/server.go:339-381 | a call after `sent` keeps the log equal to the commands of `sent` plus this one and returns the matching reply |
| ForwardGost.CreateGostServices | go-backend/service/forward_service.go:395-432 | the agents receive exactly the requests of CreateRun, in order, and the method returns its error |
| ForwardGost.CreateOnNodes | go-backend/service/forward_service.go:403-431 | once the nodes are known, the agents receive exactly CreateOn's requests and the method returns its error |
| ForwardGost.CreateRelayed | go-backend/service/forward_service.go:409-430 | chain, relay and entry service are sent in order, each failure followed by the deletes that undo what came before |
| ForwardGost.CreateDirect | go-backend/service/forward_service.go:424-430 | a port forward sends its entry services, and on failure only the chain delete |
| ForwardGost.DeleteGostServices | go-backend/service/forward_service.go:481-501 | the agents receive exactly DeleteRun's requests; a missing node means nothing is sent and no error |
| ForwardGost.DeleteOnNodes | go-backend/service/forward_service.go:485-499 | the entry delete first, and the chain and relay deletes only after it was answered "OK" |
| ForwardGost.ContinueStep | go-backend/service/forward_service.go:441-478 | an update run is its first step followed by the run over the rest of the plan |
| ForwardGost.UpdateNext | go-backend/service/forward_service.go:447-477 | issuing one step after `sent` extends the log by exactly that step's requests |
| ForwardGost.UpdateIssue | go-backend/service/forward_service.go:447-477 | one update step sends the update, then the add on "not found" |
| ForwardGost.UpdateGostServices | go-backend/service/forward_service.go:434-479 | the agents receive exactly UpdateRun's requests and the method returns its error |
| ForwardGost.UpdateOnNodes | go-backend/service/forward_service.go:441-478 | once the nodes are known, the agents receive exactly UpdateOn's requests |
| ForwardGost.UpdateRelayed | go-backend/service/forward_service.go:441-478 | the chain, relay and entry steps of a tunnel forward's update, in that order |
| ForwardGost.UpdateLast | go-backend/service/forward_service.go:470-477 | the entry service step that ends every update |
| ForwardGost.MoveGostServices | go-backend/service/forward_service.go:263-294 | the agents receive exactly MoveRun's requests: delete then create (re-creating the old on failure) on the same entry node, create then delete across nodes |
| ForwardGost.MoveWithinNode | go-backend/service/forward_service.go:270-286 | delete, create, and on failure re-create the old services |
| ForwardGost.MoveAcrossNodes | go-backend/service/forward_service.go:288-294 | create first, and delete the old services only once the create succeeded |
| ForwardGost.CreateAfter | go-backend/service/forward_service.go:275-289 | a create issued after `sent` extends the log by exactly its own requests |
| ForwardGost.DeleteAfter | go-backend/service/forward_service.go:273-293 | a delete issued after `sent` extends the log by exactly its own requests |
| ForwardService.CountOwned | go-backend/service/forward_service.go:85-88 | the count of a user's forwards is at most the table size, and zero exactly when no row belongs to the user |
| ForwardService.NextId | go-backend/service/forward_service.go:144 | the id given to a new row is above every id already in the table |
| ForwardService.Without | go-backend/service/forward_service.go:345 | deleting by primary key keeps exactly the rows with another id |
| ForwardService.SavedTouchesOneRow | go-backend/service/forward_service.go:758-838 | saving a row overwrites the row with its id, leaves every other row as it was, and changes nothing when no row has that id |
| ForwardService.FirstRowSaved | go-backend/service/forward_service.go:758-838 | after a save, a lookup by the saved row's id finds the saved row |
| ForwardService.WithoutFresh | go-backend/service/forward_service.go:144-152 | deleting a just-appended row whose id is above all others gives the old table back |
| ForwardService.Target | go-backend/service/forward_service.go:41-60 | a non-administrator, or an administrator naming nobody, creates for themself; an administrator naming an account gets it exactly when it exists, and "指定用户不存在" otherwise |
| ForwardService.AdmissionIff | go-backend/service/forward_service.go:32-110 | the checks admit a request exactly when the tunnel exists and is active, the owner resolves, and the owner is the administrator or an active, unexpired account under its cap with an active permission on the tunnel; an admitted non-administrator brings that permission, an administrator none |
| ForwardService.CreateAppendsRow | go-backend/service/forward_service.go:127-156 | a successful create appends exactly one active row with a fresh id on the requested tunnel, owned by the caller unless an administrator named another account |
| ForwardService.CreateRowSound | go-backend/service/forward_service.go:112-125 | a request that passes the checks gets an entry port free on the entry node (the requested one when given), a free exit port on the exit node for a tunnel forward (the entry port otherwise), no target pointing back at the entry port, and an owner allowed on the active tunnel |
| ForwardService.CommitKeepsRow | go-backend/service/forward_service.go:143-156 | a successful save-and-sync ends with the new row appended |
| ForwardService.CreateInstallsServices | go-backend/service/forward_service.go:148-154 | a synchronised create that succeeded installed exactly the forward's services, named after the new id, its owner and the owner's permission (0 for an administrator), and removed nothing |
| ForwardService.CommitInstalls | go-backend/service/forward_service.go:148-154 | a synchronised save that succeeded installed exactly the row's services and removed nothing |
| ForwardService.CommitRollsBack | go-backend/service/forward_service.go:150-153 | a failed sync deletes the saved row again and everything its requests created is removed by a later request |
| ForwardService.CreateFailureLeavesNothing | go-backend/service/forward_service.go:23-157 | a refused or failed create leaves the forward table as it was and leaves nothing installed behind |
| ForwardService.CapRefused | go-backend/service/forward_service.go:84-91 | a non-administrator at their forward cap is refused with the cap in the message before any port is allocated or any agent is asked |
| ForwardService.CreateForward | go-backend/service/forward_service.go:23-157 | the handler's reply, forward table and agent traffic are exactly those of the create's specification; no other table changes |
| ForwardService.Check | go-backend/service/forward_service.go:32-125 | the checks, port allocation and self-loop guard return exactly the specified stage |
| ForwardService.Insert | go-backend/service/forward_service.go:143-156 | save, sync and rollback produce exactly the specified reply, table and agent traffic |
| ForwardService.DeleteRemovesRow | go-backend/service/forward_service.go:318-346 | a delete succeeds exactly when the forward exists, the caller may act on it, and its tunnel is gone or the agents delete its entry service; then exactly the rows with that id go, otherwise the table is unchanged; it creates nothing and, when both nodes are known, removes exactly what the create installed |
| ForwardService.DeleteForward | go-backend/service/forward_service.go:318-346 | the handler's reply, forward table and agent traffic are exactly those of the delete's specification; no other table changes |
| ForwardService.TogglesAgree | go-backend/utils/gost_util.go:41-133 | the names a pause or resume request addresses are the ones its command carries |
| ForwardService.ToggleSwitchesAll | go-backend/service/forward_service.go:741-841 | a pause or resume succeeds exactly when the entry and, for a tunnel forward, the relay answer "OK", and then exactly the forward's live services are paused or resumed; an entry refusal sends nothing else and changes nothing |
| ForwardService.ToggleRollsBack | go-backend/service/forward_service.go:748-833 | when the relay refuses, the same entry services are switched back on the same node and an error is returned; if that answer is "OK" (and the entry was not switched before) the paused set is back where it started, otherwise the entry stays switched |
| ForwardService.ToggleServices | go-backend/service/forward_service.go:741-834 | the agents receive exactly the switch's requests and the method returns its error |
| ForwardService.ResumeMatchesUserLimits | go-backend/service/forward_service.go:785-814 | the account checks refuse a non-administrator exactly when the flow controller's user limits would pause their forwards (a missing account counts as disabled), and passing them means an active permission on the tunnel |
| ForwardService.PauseSetsStatus | go-backend/service/forward_service.go:720-761 | a pause succeeds exactly when the forward and its tunnel exist, the caller may act on it and the switch succeeds; then that row alone has status 0, otherwise the table is unchanged |
| ForwardService.ResumeSetsStatus | go-backend/service/forward_service.go:763-841 | a resume succeeds exactly when the forward exists, the caller may act on it, its tunnel exists and is active, the caller passes the account checks and the switch succeeds; then that row alone has status 1, otherwise the table is unchanged |
| ForwardService.OthersRefused | go-backend/service/forward_service.go:325-772 | a non-administrator acting on another account's forward is refused by delete, pause and resume without any request and without a change |
| ForwardService.PauseForward | go-backend/service/forward_service.go:720-761 | the handler's reply, forward table and agent traffic are exactly those of the pause's specification |
| ForwardService.ResumeForward | go-backend/service/forward_service.go:763-841 | the handler's reply, forward table and agent traffic are exactly those of the resume's specification |
| TunnelService.NextTunnelId | go-backend/service/tunnel_service.go:115 | the id given to a new tunnel is above every id already in the table |
| TunnelService.RemoveTunnel | go-backend/service/tunnel_service.go:370 | deleting by primary key keeps exactly the rows with another id |
| TunnelService.RemoveFresh | go-backend/service/tunnel_service.go:115-124 | deleting a just-inserted row whose id is above all others gives the old table back |
| TunnelService.ForwardsOn | go-backend/service/tunnel_service.go:358-360 | the count of forwards on a tunnel is zero exactly when no forward references it |
| TunnelService.PermissionsOn | go-backend/service/tunnel_service.go:361-363 | the count of permissions on a tunnel is zero exactly when no permission references it |
| TunnelService.SharedPortsUsed | go-backend/service/tunnel_service.go:406-418 | a port is collected exactly when some other tunnel forward leaving by the node holds it as a non-zero shared exit port |
| TunnelService.UsedOutPortsAre | go-backend/service/tunnel_service.go:402-432 | the used set holds exactly the non-zero shared exit ports of the other tunnel forwards leaving by the node and the non-zero exit ports of the forwards on tunnels leaving by it |
| TunnelService.GetUsedTunnelOutPorts | go-backend/service/tunnel_service.go:402-432 | the two loops collect exactly the specified used set |
| TunnelService.MinPort | go-backend/service/tunnel_service.go:391-398 | the smaller of two optional ports is one of them, no larger than either, and absent only when both are |
| TunnelService.FirstFreeIsLowest | go-backend/service/tunnel_service.go:389-398 | the search finds the lowest port the ranges hold that is not used, and finds none only when every port they hold is used |
| TunnelService.LowestIsFirstFree | go-backend/service/tunnel_service.go:389-398 | any port that is the lowest unused one of the ranges is the one the search finds |
| TunnelService.OutPortIsLowestFree | go-backend/service/tunnel_service.go:379-399 | an allocated exit port is the lowest port of the exit node's ranges that is not used; "出口节点无可用端口" comes exactly when the node exists, its ranges parse and every port they hold is used |
| TunnelService.OutPortAvoidsCollisions | go-backend/service/tunnel_service.go:379-399 | an allocated exit port differs from every other tunnel forward's shared port on the node and every non-zero exit port of a forward leaving by it |
| TunnelService.AllocateTunnelOutPort | go-backend/service/tunnel_service.go:379-399 | the method returns exactly the specified allocation: missing node, unparsable ranges, no free port, or the lowest free port |
| TunnelService.FirstUnused | go-backend/service/tunnel_service.go:391-396 | scanning the ascending list of the ranges' ports returns the lowest unused port of the ranges |
| TunnelService.FirstInOrder | go-backend/service/tunnel_service.go:391-396 | the first unused port of the ascending list is the lowest unused port of the ranges |
| TunnelService.SharedCreateOutcome | go-backend/service/tunnel_service.go:435-464 | the shared services are created exactly when both nodes exist and the chain and relay are answered "OK", and then the agents hold the tunnel's chain on the entry node and its relay on the exit node; a failure leaves nothing, except the chain when its compensating delete was refused |
| TunnelService.DeleteUndoesShared | go-backend/service/tunnel_service.go:467-480 | deleting the shared services of a tunnel whose creation succeeded, with both deletes answered "OK", leaves nothing installed |
| TunnelService.Wire.constructor | go-backend/service/tunnel_service.go:452-478 | a new wire has sent nothing and will answer with the given script |
| TunnelService.Wire.Send | go-backend/service/tunnel_service.go:452-478 | one wrapper call is logged and answered with the next reply of the script |
| TunnelService.CreateSharedServices | go-backend/service/tunnel_service.go:435-464 | the agents receive exactly the specified requests, in order, and the method returns the specified error |
| TunnelService.DeleteSharedServices | go-backend/service/tunnel_service.go:467-480 | the agents receive exactly the chain delete and the relay delete for the nodes that exist, whatever they answer |
| TunnelService.DraftAccepts | go-backend/service/tunnel_service.go:25-97 | a request passes the checks exactly when its name is free, its entry node is online, a tunnel forward (type 2) names a protocol, and any type other than a port forward (type 1) names an online exit node distinct from the entry node; only another type without an exit node dereferences the missing pointer |
| TunnelService.DraftFields | go-backend/service/tunnel_service.go:48-105 | a drafted row is active, named and typed as requested, enters by the entry node with its address list, leaves by the entry node (port forward) or the named exit node with that node's server address, has the protocol only for a tunnel forward, a ratio of 1.0 when none is given, and listen addresses 0.0.0.0 unless given |
| TunnelService.RowForSound | go-backend/service/tunnel_service.go:106-117 | the row inserted is the draft with a fresh id; a tunnel forward's exit port is the allocated one, any other type keeps exit port 0 |
| TunnelService.CreateTunnelAppends | go-backend/service/tunnel_service.go:115-128 | a successful create appends the row, and for a tunnel forward leaves its chain on the entry node and its relay on the exit node; a port forward sends nothing |
| TunnelService.CreateTunnelFailure | go-backend/service/tunnel_service.go:25-127 | a refused or failed create leaves the tunnel table as it was and the agents hold nothing of it, except the chain when its compensating delete was refused |
| TunnelService.CreateTunnel | go-backend/service/tunnel_service.go:25-127 | the handler's reply, tunnel table and agent traffic are exactly those of the create's specification; no other table changes |
| TunnelService.Insert | go-backend/service/tunnel_service.go:115-127 | insert, shared services and rollback produce exactly the specified reply, table and traffic |
| TunnelService.DeleteTunnelGuard | go-backend/service/tunnel_service.go:352-373 | a tunnel is deleted exactly when it exists and no forward and no permission references it; a refusal changes nothing and sends nothing; a deletion removes that tunnel's rows and no other |
| TunnelService.DeleteTunnel | go-backend/service/tunnel_service.go:352-373 | the handler's reply, tunnel table and agent traffic are exactly those of the delete's specification |
| TunnelService.OnTunnel | go-backend/service/tunnel_service.go:226-227 | the forwards handed on are exactly the forwards on the tunnel |
| TunnelService.UpdateTunnelSaves | go-backend/service/tunnel_service.go:186-245 | an update succeeds exactly when the tunnel exists and no other tunnel has the name; it overwrites that row alone with the request's fields (the ratio only when non-zero), hands every forward of the tunnel to the resynchronisation after a change of listen address, protocol or interface and none otherwise; a refusal changes nothing |
| TunnelService.NonCriticalKeepsCommands | go-backend/service/tunnel_service.go:199-205 | without such a change, every command that builds a forward's services on the tunnel is the same before and after the update |
| TunnelService.UpdateTunnel | go-backend/service/tunnel_service.go:186-245 | the handler's reply, tunnel table and list of forwards to resynchronise are exactly those of the update's specification |
| FlowBuffer.ApplyAllAppend | go-backend/controller/flow_buffer.go:96-177 | applying calls and then one more is applying the longer sequence |
| FlowBuffer.ApplyAllConcat | go-backend/controller/flow_buffer.go:96-177 | applying two sequences of calls in turn is applying their concatenation |
| FlowBuffer.ApplyEntry | go-backend/controller/flow_buffer.go:96-177 | one Add call leaves its key's entry at the old entry (zero when missing) plus the deltas and every other key and map unchanged; hour buckets keep the identity fields their key spells |
| FlowBuffer.BumpCommutes | go-backend/controller/flow_buffer.go:96-139 | adding deltas to two keys of a traffic map gives the same map in either order |
| FlowBuffer.BumpRawCommutes | go-backend/controller/flow_buffer.go:141-152 | adding raw deltas to two node keys gives the same map in either order |
| FlowBuffer.BumpHistoryCommutes | go-backend/controller/flow_buffer.go:154-177 | adding to two hour buckets gives the same map in either order |
| FlowBuffer.ApplyCommutes | go-backend/controller/flow_buffer.go:96-177 | two Add calls give the same buffer contents in either order |
| FlowBuffer.MoveToFront | go-backend/controller/flow_buffer.go:96-177 | moving one call from the middle of a sequence to its front does not change the contents |
| FlowBuffer.AddsCommute | go-backend/controller/flow_buffer.go:96-177 | any reordering of the same Add calls, as concurrent reporters produce, leaves the same contents |
| FlowBuffer.Incremented | go-backend/controller/flow_buffer.go:206-249 | an increment-by-id loop keeps exactly the rows that exist: missing rows are not created |
| FlowBuffer.TunnelTotalRemove | go-backend/controller/flow_buffer.go:227-236 | the user-tunnel delta a row receives does not depend on the order the key texts are taken in |
| FlowBuffer.Upserted | go-backend/controller/flow_buffer.go:256-272 | after the upserts the history holds exactly the old rows and one row per bucket |
| FlowBuffer.FlushEmptyWritesNothing | go-backend/controller/flow_buffer.go:179-198 | flushing an empty buffer writes nothing, so a delta reaches the database only once |
| FlowBuffer.FlushDropsWithoutForwards | go-backend/controller/flow_buffer.go:196-198 | a snapshot without forward and user deltas is dropped, whatever node, user-tunnel or history deltas it holds |
| FlowBuffer.FlushAddsDeltas | go-backend/controller/flow_buffer.go:201-272 | a committed flush keeps the set of rows of each table, adds each forward, user, user-tunnel and node delta to its row, raises each user's quota by the user's billed bytes as the code does, and adds each bucket's counters to its history row or inserts it |
| FlowBuffer.FailedTransactionKeepsHistory | go-backend/controller/flow_buffer.go:201-253 | when the transaction fails the counter deltas are lost but the history is still written |
| FlowBuffer.QuotaGrowsWithTraffic | go-backend/controller/flow_buffer.go:215-222 | as written the user row's quota grows with the billed bytes, so a user a byte short of quota stays under it after the traffic that should exhaust it; the corrected write puts the user over quota |
| FlowBuffer.FlushKeepsQuota | go-backend/controller/flow_buffer.go:215-222 | corrected: the intended user write never touches the quota and writes the same traffic counters as the code; the code's quota grows by exactly the billed bytes |
| FlowBuffer.CorrectedFlushKeepsQuotas | go-backend/controller/flow_buffer.go:179-275 | corrected: a flush with the intended user write leaves every table as the flush as written does, except that each user's quota keeps its old value |
| FlowBuffer.Store.constructor | go-backend/controller/flow_buffer.go:201-272 | a store starts with the given tables |
| FlowBuffer.IncrementRows | go-backend/controller/flow_buffer.go:206-249 | one increment loop over a delta map computes exactly the specified rows |
| FlowBuffer.IncrementTunnelRows | go-backend/controller/flow_buffer.go:227-236 | the user-tunnel loop, which converts each key text to a row id, adds to each row the sum of the deltas whose key names it |
| FlowBuffer.UpsertHistory | go-backend/controller/flow_buffer.go:256-272 | the history loop upserts exactly the specified rows |
| FlowBuffer.Commit | go-backend/controller/flow_buffer.go:201-250 | the transaction leaves the counter tables exactly as a committing transaction specifies, with the user rows written as the code writes them (quota raised by the billed bytes) |
| FlowBuffer.Buffer.constructor | go-backend/controller/flow_buffer.go:58-70 | a new buffer has five empty maps |
| FlowBuffer.Buffer.AddForward | go-backend/controller/flow_buffer.go:96-109 | the forward map gains the deltas at the forward's id, nothing else changes |
| FlowBuffer.Buffer.AddUser | go-backend/controller/flow_buffer.go:111-124 | the user map gains the deltas at the user's id, nothing else changes |
| FlowBuffer.Buffer.AddUserTunnel | go-backend/controller/flow_buffer.go:126-139 | the user-tunnel map gains the deltas at the key text, nothing else changes |
| FlowBuffer.Buffer.AddNode | go-backend/controller/flow_buffer.go:141-152 | the node map gains the raw deltas at the node's id, nothing else changes |
| FlowBuffer.Buffer.AddHistory | go-backend/controller/flow_buffer.go:154-177 | the bucket keyed by hour and ids gains the three counters, created with its identity fields when missing |
| FlowBuffer.Buffer.Flush | go-backend/controller/flow_buffer.go:179-275 | the buffer is empty afterwards and the database is exactly the old one with the swapped-out snapshot flushed, user rows written as the code writes them |
| FlowController.TruncDiv | go-backend/controller/flow_controller.go:306-307 | the quotient rounds toward zero for either sign, as the conversion of a product to int64 does |
| FlowController.Billing | go-backend/controller/flow_controller.go:303-315 | a tunnel billing one way (flow 1) bills nothing inbound; one billing both ways bills equal raw directions equally |
| FlowController.BillingExample | go-backend/controller/flow_controller.go:303-315 | raw 100 in and 200 out at ratio 2.0 bill (0, 400) one way and (200, 400) both ways |
| FlowController.BillingAtUnitRatio | go-backend/controller/flow_controller.go:303-315 | at ratio 1.0 a tunnel billing both ways bills the raw bytes |
| FlowController.ScaleMonotone | go-backend/controller/flow_controller.go:306-307 | scaling by a non-negative ratio keeps the order of byte counts |
| FlowController.BillingMonotone | go-backend/controller/flow_controller.go:303-315 | more raw traffic is never billed less, in either direction |
| FlowController.QuotaRule | go-backend/controller/flow_controller.go:392-446 | for an active, unexpired account or permission the check fails exactly when a quota is set and the billed traffic reached it; a quota of 0 never triggers |
| FlowController.OverLimitStays | go-backend/controller/flow_controller.go:392-446 | once over the limit, more traffic or a later clock keeps an account or permission over it |
| FlowController.SweepImpliesOverLimit | go-backend/controller/flow_controller.go:392-446 | every account or permission the daily expiry sweep (corrected) pauses is also over the limit here |
| FlowController.PauseForwardCalls | go-backend/controller/flow_controller.go:470-483 | at most two commands, none exactly when the tunnel is missing, and every one a pause |
| FlowController.PerForward | go-backend/controller/flow_controller.go:450-467 | one block of commands per forward row, the commands for that row under the chosen naming |
| Seqs.ConcatMember | go-backend/controller/flow_controller.go:454-466 | a command sent by the loop comes from one of the rows |
| FlowController.PauseRows | go-backend/controller/flow_controller.go:450-467 | the table after a pause has the same rows in the same order, each as the row pause leaves it |
| FlowController.PauseRow | go-backend/controller/flow_controller.go:470-487 | pausing a row keeps its id, owner and tunnel |
| FlowController.PauseRowsEffect | go-backend/controller/flow_controller.go:450-487 | a pause changes only the status column, and a row ends paused exactly when it was paused already or is in scope with an existing tunnel (the replies do not matter) |
| FlowController.ReportingNameReused | go-backend/controller/flow_controller.go:450-481 | as written, every forward in scope is paused under the reporting service's name: with two forwards of one account, the second forward's command reaches none of its own services, so it keeps running while its row says paused |
| FlowController.ForwardCallsNamed | go-backend/controller/flow_controller.go:470-483 | every command sent for a forward switches some artifacts of the name it addresses (the reporting name as written, the forward's own when corrected) and nothing else; a forward in scope whose tunnel exists gets at least the entry pause |
| FlowController.ScopeCallsOwn | go-backend/controller/flow_controller.go:450-467 | corrected: every command of a pause that addresses each forward by its own name acts only on the services of a forward in scope |
| FlowController.ScopeCallsReporting | go-backend/controller/flow_controller.go:450-487 | as written, for every table: each pause command acts only on the reporting service's artifacts, so any forward whose own name differs from the reported one is reached by none of them |
| FlowController.ArtifactsDisjoint | go-backend/utils/gost_util.go:64-103 | two different service names own disjoint `_tcp`/`_udp`/`_tls` artifacts |
| FlowController.ScopeCallsIgnoreStatus | go-backend/controller/flow_controller.go:450-467 | the commands a pause sends do not depend on the status column, so a second pause sends what the first one did |
| FlowController.SameCalls | go-backend/controller/flow_controller.go:470-487 | forwards that differ at most in status get the same commands |
| FlowController.PauseRowsIdempotent | go-backend/controller/flow_controller.go:450-487 | pausing twice over the same scope leaves the table as pausing once |
| FlowController.SendPauses | go-backend/controller/flow_controller.go:476-482 | the entry pause, then for a tunnel forward the exit pause, are sent on the tunnel's nodes |
| FlowController.PauseForwardService | go-backend/controller/flow_controller.go:470-487 | the agents receive exactly the specified pauses and the row is saved paused whatever they answer; nothing is sent or saved when the tunnel is missing |
| FlowController.PauseForwards | go-backend/controller/flow_controller.go:450-467 | the forwards table becomes the paused table and the agents receive exactly the commands for the forwards in scope, each addressed by the reporting service's name; no other table changes |
| FlowController.PauseEach | go-backend/controller/flow_controller.go:454-466 | the loop produces exactly the paused rows and sends exactly the commands of the forwards in scope, in table order, under the reporting name |
| FlowController.PauseRowService | go-backend/controller/flow_controller.go:470-487 | one row of the loop is paused under the reporting name and saved exactly as specified |
| FlowController.CheckUserLimits | go-backend/controller/flow_controller.go:386-415 | a missing account does nothing; one over its limits has all its forwards paused under the reporting service's name, one within them nothing |
| FlowController.CheckUserTunnelLimits | go-backend/controller/flow_controller.go:418-447 | a missing permission does nothing; one over its limits has the reporting account's forwards on its tunnel paused under the reporting service's name, one within them nothing |
| FlowController.ReportedForward | go-backend/controller/flow_controller.go:247-261 | a report reaches a forward only when its name has at least three parts whose first spells the forward's id |
| FlowController.MalformedNameDropped | go-backend/controller/flow_controller.go:247-251 | a name with fewer than three parts is dropped: no buffer call and no check |
| FlowController.ReportOpsShape | go-backend/controller/flow_controller.go:264-292 | a report on a known forward adds to the forward and its owner (raw in is the download, raw out the upload), to the permission exactly when the name carries one, to the node, and to the hour bucket with billed in plus billed out |
| FlowController.CheckName | go-backend/controller/flow_controller.go:295 | the name the limit checks use splits back into exactly the report's first three parts |
| FlowController.ProtocolReportName | go-backend/controller/flow_controller.go:295-299 | for a per-protocol report `<service>_tcp` or `<service>_udp`, and for the bare service name, the check name is the service name whose `_tcp`/`_udp` services the pauses address |
| FlowController.ProtocolReportParts | go-backend/controller/flow_controller.go:247-255 | a per-protocol report splits into the service name's three numbers and the protocol |
| FlowController.OwnNameReport | go-backend/controller/flow_controller.go:253-299 | a report under a forward's own service name reaches that forward, names a permission exactly when its id is not 0, and then checks that account and that permission |
| FlowController.NameParts | go-backend/service/forward_service.go:635-641 | a service name splits back into its three numbers, and its permission part is "0" exactly when the permission id is 0 |
| FlowController.DefaultTextIsZero | go-backend/controller/flow_controller.go:284-296 | the decimal text of an id is "0" exactly when the id is 0 |
| FlowController.RecordReport | go-backend/controller/flow_controller.go:245-292 | the buffer receives exactly the report's calls |
| FlowController.RecordForward | go-backend/controller/flow_controller.go:277-292 | the buffer receives the calls for a known forward in the order they are made |
| FlowController.FiveCalls | go-backend/controller/flow_controller.go:277-292 | the calls made one group at a time leave the buffer as all of them in order |
| FlowController.ProcessFlowData | go-backend/controller/flow_controller.go:245-300 | the buffer receives exactly the report's calls, then, for a name with a permission part, the account check and the permission check run in turn, every pause addressed by the name rejoined from the report's first three parts (`forwardId_userId_userTunnelId`) |
| TaskService.ResetOncePerMonth | go-backend/service/task_service.go:48-66 | a row with a reset day is reset exactly on that day, or on the month's last day when the month is too short for it |
| TaskService.ResetUser | go-backend/service/task_service.go:45-57 | a user row with a reset day that is due has its in and out counters zeroed; nothing else changes, and a row without a reset day is untouched |
| TaskService.ResetUserTunnel | go-backend/service/task_service.go:60-72 | the same rule on a tunnel permission row |
| TaskService.ResetFlow | go-backend/service/task_service.go:40-73 | both loops leave every user and permission row reset as specified and no other table changed |
| TaskService.ResetIdempotent | go-backend/service/task_service.go:40-73 | resetting twice on the same day is resetting once |
| TaskService.PermanentAccountSwept | go-backend/service/task_service.go:79-96 | the written selection sweeps up a regular active account (and an active permission) whose expiry 0 means "never" |
| TaskService.CorrectedKeepsPermanent | go-backend/service/task_service.go:79-96 | corrected: an account or permission with expiry 0 is left alone, and so is a forward whose owner and permissions never expire; wherever an expiry is set the two selections agree in both directions |
| TaskService.PauseForward | go-backend/service/task_service.go:110-131 | the agents receive exactly the forward's pause commands: none without the tunnel or the owner's permission on it, else the entry pause under the forward's own service name, then the exit pause for a tunnel forward with an exit node |
| TaskService.PauseCallsArePauses | go-backend/service/task_service.go:110-131 | a forward's sweep commands are at most two pauses, and there are some exactly when its tunnel and its owner's permission on it exist |
| TaskService.PauseCallsIgnoreStatus | go-backend/service/task_service.go:110-122 | the commands for a forward do not depend on its status or on the permissions' status, so the sweep's own writes never change them |
| TaskService.RowPausesIgnoreStatus | go-backend/service/task_service.go:110-122 | the same for a whole forwards table: tables that differ only in status get the same per-row commands |
| TaskService.WhereCallsMember | go-backend/service/task_service.go:83-89 | a command of one inner loop is a pause command of an active forward the query selects, and every such command is sent |
| TaskService.PauseForwardsWhere | go-backend/service/task_service.go:83-89 | the inner loop saves every active forward the query selects with status 0, leaves the others, and sends exactly the selected forwards' pause commands in table order; no other table changes |
| TaskService.PauseRowWhere | go-backend/service/task_service.go:85-89 | one selected row is paused and saved with status 0; an unselected row sends nothing and stays as it was |
| TaskService.AfterPicksStep | go-backend/service/task_service.go:81-92 | running the next account's (or permission's) inner loop on the table the earlier loops left gives the table after one more query |
| TaskService.PicksCallsExact | go-backend/service/task_service.go:81-92 | the queries of a pass send a command exactly when it is a pause command of a forward that was active and is selected by one of them |
| TaskService.PassClosed | go-backend/service/task_service.go:81-107 | a pass run one query at a time ends with the closed-form table and the closed-form commands |
| TaskService.PassKeepsRowPauses | go-backend/service/task_service.go:94-107 | along a pass, and after the accounts are disabled, every forward row still gets the commands it had before the sweep |
| TaskService.OwnerHit | go-backend/service/task_service.go:80-84 | a forward is selected by the first pass exactly when its owner is an expired active regular account |
| TaskService.PermissionHit | go-backend/service/task_service.go:96-99 | a forward is selected by the second pass exactly when its owner's permission on its tunnel is expired and active |
| TaskService.ExpireUsers | go-backend/service/task_service.go:78-92 | as written (`exp_time < now`), every expired active regular account is disabled, its active forwards paused and saved in the order of the queries, and the agents receive exactly those commands |
| TaskService.ExpireUserAt | go-backend/service/task_service.go:81-92 | one account of the first pass: its forwards are paused and then it is disabled when it is selected; nothing happens otherwise |
| TaskService.ExpirePermissions | go-backend/service/task_service.go:94-107 | as written, every expired active permission is disabled, the active forwards of its holder on its tunnel paused and saved in order, and the agents receive exactly those commands |
| TaskService.ExpirePermissionAt | go-backend/service/task_service.go:97-107 | one permission of the second pass: its holder's forwards on its tunnel are paused and then it is disabled when selected |
| TaskService.RunPick | go-backend/service/task_service.go:83-89 | one inner loop moves the pass one query on, in the table and in the commands sent |
| TaskService.SweptTable | go-backend/service/task_service.go:75-108 | after both passes each forward is paused exactly when it was active and its owner's account or its permission was expired |
| TaskService.SweepCallsExact | go-backend/service/task_service.go:75-131 | the sweep sends a command exactly when it is a pause command of a forward the sweep disables |
| TaskService.CheckExpiry | go-backend/service/task_service.go:75-108 | as written: accounts and permissions end disabled exactly when expired, each forward ends as the two passes sweep it, the agents receive exactly the two passes' pause commands in order, and nothing else changes |
| TaskService.SweepSettles | go-backend/service/task_service.go:75-108 | after a sweep no account or permission is expired and active, a second sweep on the same clock changes no forward, and a forward left active was active and under no expired account or permission |
| UserService.ParseHourReadsLabel | go-backend/service/user_service.go:381-394 | an "HH:mm" label with hour below 24 parses back to that hour, whatever the current hour |
| UserService.ParseHourFallsBack | go-backend/service/user_service.go:381-394 | text shorter than two characters, or whose text before the first `:` does not parse as a number, yields the current hour |
| UserService.Reversed | go-backend/service/user_service.go:332-335 | the reversal keeps the length and puts element k at position length-1-k |
| UserService.UserRecords | go-backend/service/user_service.go:330 | the query returns only rows of the requested user, all taken from the statistics table |
| UserService.Recent | go-backend/service/user_service.go:330-335 | the query is capped at 24 rows |
| UserService.ReverseInPlace | go-backend/service/user_service.go:332-335 | the two-index swap loop leaves the array holding the reversal of what it held |
| UserService.ChronologicalRecords | go-backend/service/user_service.go:330-335 | reversing the newest-first query result in an array gives the user's last (at most 24) rows oldest first |
| UserService.ReversedTwice | go-backend/service/user_service.go:332-335 | reversing twice gives back the original sequence |
| UserService.PadHistory | go-backend/service/user_service.go:362-376 | the padding loop ends with exactly 24 entries, keeps the entries it was given, and fills slot k with a zero entry for the k-th hour counted down from the start, wrapping below 0 to 23 |
| UserService.Last24HoursFlowStatistics | go-backend/service/user_service.go:328-379 | the result always has 24 entries: the user's recent records oldest first, then zero entries whose hours count down from the hour before the newest record (or from the current hour when there is none) |
| UserService.PadHourCountsDown | go-backend/service/user_service.go:362-376 | for a start hour between -1 and 23, the k-th padding hour is start-k modulo 24 |
| UserService.PadHourSteps | go-backend/service/user_service.go:362-376 | the first padding hour is the start wrapped into 0..23 and each next one is one less, 23 following 0 |
| UserService.ZeroUserFlow | go-backend/service/user_service.go:227-239 | the reset keeps the number of user rows |
| UserService.ZeroUserTunnelFlow | go-backend/service/user_service.go:241-250 | the reset keeps the number of user-tunnel rows |
| UserService.ResetFlow | go-backend/service/user_service.go:226-250 | type 1 zeroes the user's in and out flow or fails with "用户不存在"; any other type zeroes the user-tunnel's flow or fails with "隧道不存在"; a failure changes nothing and each branch leaves the other table alone |
| UserService.ZeroUserFlowOnlyCounters | go-backend/service/user_service.go:227-239 | the reset zeroes only the two counters of the addressed row, leaves every other field and every other row as it was, and keeps the row findable |
| UserService.ZeroUserFlowIdempotent | go-backend/service/user_service.go:227-239 | resetting twice is the same as resetting once |
| UserService.UpdateRows | go-backend/service/user_service.go:121-139 | the update keeps the number of user rows |
| UserService.UpdateUser | go-backend/service/user_service.go:103-146 | a missing user, the admin, or a name taken by another user fails with the source's message and changes nothing; otherwise the row is rewritten with the new fields and the reply is "更新成功"; the permission, tunnel, forward, node and statistics tables are untouched |
| UserService.AdminIsProtected | go-backend/service/user_service.go:106-155 | the admin row can be neither updated ("不能修改管理员") nor deleted ("不能删除管理员"); a passing check names an existing non-admin row and, for an update, a name no other user holds |
| UserService.DefaultCredentialsOnlyBuiltIn | go-backend/service/user_service.go:203-205 | only the built-in "admin_user"/"admin_user" login counts as default credentials |
| WsServer.Client.constructor | go-backend/websocket/server.go:310-322 | a new connection is valid, open and has written nothing |
| WsServer.Client.SendText | go-backend/websocket/server.go:310-317 | an invalidated connection fails with "connection closed" and writes nothing; a valid one appends exactly the frame |
| WsServer.Client.SendEncrypted | go-backend/websocket/server.go:319-337 | the frame written is sealed when the connection has an AES key and plain otherwise, with the same closed-connection error |
| WsServer.Manager.constructor | go-backend/websocket/server.go:54-92 | the registry starts with no sessions, no pending requests and no broadcasts |
| WsServer.Manager.Register | go-backend/websocket/server.go:54-72 | a node connection replaces any earlier session of the same node, which is invalidated and closed, and an online status is broadcast to the admins; any other connection joins the admin sessions; the registry stays well-filed |
| WsServer.Manager.Unregister | go-backend/websocket/server.go:74-92 | the connection always ends invalid and closed; the node's current session is removed, with an offline broadcast and a status-0 write; a stale node session removes nothing; an admin connection leaves the admin sessions |
| WsServer.Manager.HandleMessage | go-backend/websocket/server.go:259-308 | a message is taken as a reply exactly when it carries a non-empty request id, and then the id stops being pending and its reply (message defaulting to "OK") is delivered only if it was pending; any other node message is broadcast to the admins as info and, when it mentions memory_usage, answered with a call command |
| WsServer.Manager.Post | go-backend/websocket/server.go:349-369 | the request id is registered as pending and the command carrying it is written to the node, sealed when the node has a key |
| WsServer.Manager.SendMsg | go-backend/websocket/server.go:339-381 | an offline or invalidated node answers "节点不在线" and no frame is written to any session; otherwise exactly one frame, the command (sealed when the connection is keyed), is appended to that node's session, the reply message defaults to "OK", no reply gives "Timeout", and no request id is left pending; every other session's frames and every session's valid and closed flags are unchanged |
| WsServer.Manager.Await | go-backend/websocket/server.go:371-381 | the wait returns the node's reply or "Timeout", drops the request id from the pending set in both cases, and writes nothing to the connection |
| WsServer.OneSessionPerNode | go-backend/websocket/server.go:58-65 | two different node ids never share one connection |

## Left out

- AES-GCM sealing and SHA-256 key derivation (`websocket/crypto.go`) are foreign crypto. A sealed frame is the abstract constructor `Sealed(text)`.
- JSON encoding and decoding, the websocket upgrade, read pump and socket writes, gin handlers, routing and JWT checks are library I/O. Messages are modelled as decoded values or abstract text.
- Goroutines, channels, tickers, timers and mutexes are not modelled. This covers the flow queue consumer, `FlowBuffer.Start/Stop`, the scheduled tasks, the 10-second wait in `SendMsg` and the broadcast fan-out. A timeout is an absent scripted reply. Interleavings are not modelled.
- GORM/SQL queries are modelled as in-memory sequences. Row order is table order, and a lookup returns the first matching row.
- Failed database writes are not modelled. Each write succeeds, so "转发创建失败", "隧道创建失败", "隧道删除失败", "隧道更新失败", "更新失败", "重置失败" and "删除失败" never arise. The flush transaction is the exception: `FlowBuffer.Buffer.Flush` takes whether it commits as a parameter.
- Floating point is not modelled. The tunnel's traffic ratio is integer hundredths (the column is `decimal(10,2)`), and billing is `raw * hundredths / 100` truncated toward zero. Rounding of the float product is not captured.
- int64 overflow of the traffic counters and of `flow * 2^30` is not modelled: integers are unbounded.
- ForwardService.NextId and TunnelService.NextTunnelId: the auto-increment key is modelled as one more than the largest existing id.
- `Node.PortSta/PortEnd` and `Tunnel.ChainPort` are read by the forward service, but the node and tunnel records do not declare them. They are modelled as explicit fields.
- Creation and update timestamps are not modelled.
- Migration.RunMigrations: the error returned names the failed step (or the missing table) but drops the wrapped database error text (`: %w`), because database errors are not modelled.
- Strs.TrimSpace: trims the white space of Go's `unicode.IsSpace`, which `strings.TrimSpace` uses. The `trim` of `format.ts` is modelled with the same set, although JavaScript keeps U+0085 and also strips U+FEFF.
- ForwardGost.CreateOn, ForwardGost.UpdateOn, ForwardGost.DeleteOn and the methods that run them (`CreateRelayed`, `CreateDirect`, `UpdateIssue`, `UpdateLast`, `DeleteOnNodes`) return the agent's reply text verbatim after its prefix. The source passes that text to `fmt.Errorf` as the format string, so a `%` verb in a reply is rewritten by Go's formatter (for example `%d` becomes `%!d(MISSING)`); that rewriting is not modelled.
- FlowChart.HourAgo: the hour labels step back one hour with `(hour - i) % 24`. The JavaScript `Date` arithmetic of `flowChart.ts` follows the local time zone, so on a daylight-saving change a label may repeat or be skipped; time zones are not modelled.
- `formatResetTime` and `getExpStatus` are calendar arithmetic on the clock and are not part of this model.
- The `toFixed` float branches of `formatFlow` are left out. The 99999 and GB branches are modelled.
- `ForceDeleteForward`, `DiagnoseForward`, `DiagnoseTunnel`, `PerformTcpPing`, `getOutNodeTcpPort`, `GetAllTunnels`, `GetAllForwards`, `UpdateForwardOrder` and the user-tunnel listing are reporting or CRUD glue, not part of this model.
- `UpdateForward`'s field validation and row save are not modelled. Its agent-side ordering when a forward changes tunnel is modelled by `ForwardGost.MoveGostServices`.
- TunnelService.UpdateTunnel returns the list of forwards to resynchronise after a critical change. It does not run the per-forward update calls.
- `AddTunnelChain`, `AddTunnelRelayService`, `DeleteTunnelChain` and `DeleteTunnelRelayService` are called by the tunnel service but are absent from `utils/gost_util.go`. They are abstract commands here, and their wire format is not part of this model.
- `Login`, `CreateUser`, `UpdatePassword` and `deleteUserRelatedData` are not part of this model. `DeleteUser` is modelled by its admin guard only, and the MD5 password digest is not modelled.
- The legacy per-table updaters in `controller/flow_controller.go:318-383` (`updateForwardFlow`, `updateUserFlow`, `updateUserTunnelFlow`, `updateNodeFlow`, `recordTrafficHistory`) are unused since the flow buffer replaced them. They are not modelled.
- Generated request ids (uuid) are parameters and are assumed fresh.
- The frontend dashboard duplicate of `format.ts`, the captcha generator and the migration commands of `main.go` are outside the core.

## Findings

| source | as written | input that shows it | evidently intended | confidence | as-written member | corrected member |
|---|---|---|---|---|---|---|
| go-backend/service/task_service.go:79-96 | the expiry sweep selects `exp_time < now`, and this also catches an expiry of 0 | a regular active user (or user-tunnel) with expiry 0 and any positive clock is disabled | an expiry of 0 means "never", as in the forward service and the traffic checks (`ExpTime > 0`) | not executed | TaskService.PermanentAccountSwept | TaskService.CorrectedKeepsPermanent |
| go-backend/controller/flow_buffer.go:215-222 | the flush adds the billed bytes to the user's `flow` column, which holds the quota in GB | a user one byte short of a 1 GB quota who is billed 100 bytes ends at quota 101 GB, under it again | the flush adds traffic to the usage counters and leaves the quota alone | not executed | FlowBuffer.QuotaGrowsWithTraffic | FlowBuffer.CorrectedFlushKeepsQuotas |
| go-backend/controller/flow_controller.go:450-467 | every forward of the user or user-tunnel is paused under the service name of the report that triggered the check | user 7 with forwards 1 and 2 on one tunnel: the report for `1_7_3` sends both pauses to `1_7_3`, and `2_7_3` keeps running | each forward is paused under its own service name | not executed | FlowController.ReportingNameReused | FlowController.ScopeCallsOwn |

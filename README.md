# Zero-touch provisioning scripts for network packet brokers, in Dafny

This project models the decision logic of the Ixia Vision zero-touch provisioning (ZTP)
scripts. These Python scripts configure a network packet broker (an NPB, called "NTO" in
the code) through its REST client.

The device is a value, `Nto.Device`:
- id-keyed tables of JSON-like property records for ports, port groups, filters and AFMs;
- the port name index, the icon names and the LLDP neighbor table;
- the id the next created object gets;
- the firmware's decision to accept or refuse each write.

A connection is the class `Nto.Client`. It holds the device and the **write log**: every
`Create(kind, props)` and `Modify(kind, target, props)` call the scripts issue, in order.
Each script that writes to the device is a method with `modifies nto`. Its `ensures` ties
the new state, and the outcome, to a specification function of the old state. The capture
and the system-status report only read: they take the device, or its answers, as values.
The command-line handling is pure functions and loops over the arguments. Lemmas about those functions state
what the scripts promise: which writes are issued, with which payloads, and when none is.

The modules follow the scripts:

- `Nto`: the device, the writes and their effect, searches, and the client. `Seqs` and
  `Text` hold sequence helpers (`AppendNew`, the `if x not in l: l.append(x)` idiom) and
  string helpers (`strip`, `split`, `join`, `upper`, substring).
- `Restore` (`set_nto_config_safe.py`): the snapshot restore.
  - It makes four passes over the parsed snapshot: icons, ports, port groups, filters.
  - Each pass records `new_id` on the objects it handles.
  - It pushes whitelisted properties, one modify per property.
  - It rewrites every cross-reference list through `new_id`.
- `Capture` (`get_nto_config_tagged.py`): the snapshot table of tagged ports and all AFMs.
- `NtoLib` (`ixvision_ztp_ntolib.py`): the mode tables, and `df_connect_via_tags`, which
  extends one side of a filter's connections as a set union.
- `PortGroup` (`ixvision_ztp_port_group.py`): `form_port_groups`, find/create/merge of a
  port group, including its fall-through and crash paths.
- `DynamicFilter` (`ixvision_ztp_filter.py`): `form_dynamic_filter` and its two list helpers.
- `PortMode` (`ixvision_ztp_port_mode.py`): `set_port_mode`.
- `LldpTag` (`ixvision_ztp_lldp_tag.py`, and the duplicate in `ixvision_lldp_tag.py`):
  `tag_ports`.
- `Discovery` (`ixvision_ztp_port_discovery.py`, and `portInventory` in `ixvision_ztp.py`):
  the per-port discovery passes.
  - The two link-settling pauses are oracles `up1` and `up2`: whether each port's link is
    up after the pause.
- `SysInfo` (`ixvision_ztp_sysinfo.py`): label padding, MAC formatting, MAIN-module
  selection, and the Ansible and display modes.
- `Cli`: the command lines of the five scripts.
  - The option loop after `getopt`.
  - The usage checks that exit with status 2.
  - Tag splitting.
  - The hosts-file parser.

Python exceptions (a `KeyError`, a `None` dereference, an unbound name) are `Crashed`
outcomes. The log then holds exactly the writes issued before the exception. Python's
iteration order over sets and over the restore's parsed dict is unspecified, so
`Restore.Orders` takes it as a parameter. The restore methods require `Restore.ValidOrders`:
each order lists every key of the table, or every property of its whitelist, exactly once.

Behaviour of the code worth noting:

- Tags are upper-cased only by the port grouper and the port-mode script. The LLDP tagger
  splits `-t` as typed (`ixvision_lldp_tag.py:81`) and matches case-sensitively.
- When a port group of the given name exists with another type or mode, the run goes on,
  converts the tagged ports' modes, and then dereferences `None`
  (`ixvision_ztp_port_group.py:75-119`).
- When several port groups share the name, the message reads an unbound name first and
  the run crashes (`ixvision_ztp_port_group.py:82`).
- Hosts-file lines are split on single spaces. Repeated spaces give empty fields, and only
  the first field is used.
- `-t ""` passes the "no tags" usage check with the one tag `""`. The empty tag is a
  substring of every port description, so the LLDP tagger then tags every port that has a
  neighbor (`Cli.TagCheckOnlyWithoutOption`).

## Model

| member | source | states |
|---|---|---|
| NtoLib.DfConnectViaTags | ixvision_ztp_ntolib.py:19-59 | the outcome and the writes are those of `ConnectPlan`: an unsupported side returns before any call, no match returns before reading the filter, at most one `modifyFilter` |
| NtoLib.MatchTags | ixvision_ztp_ntolib.py:31-33 | the tag loop adds the port once when some tag is among its keywords, and crashes when there is a tag and the keywords are not a list, a string or an object; `in` is list membership, a substring test on a string and a key test on an object |
| NtoLib.MatchPorts | ixvision_ztp_ntolib.py:27-34 | the candidate loop computes `MatchFrom`, skipping ports whose properties cannot be read |
| NtoLib.Extend | ixvision_ztp_ntolib.py:49-52 | the new list is the current list followed by each matched id not already in it (`AppendNew`) |
| NtoLib.MatchFromIsUnionWithTagged | ixvision_ztp_ntolib.py:28-34 | the matching loop crashes exactly on unsearchable keywords (not a list, string or object), and otherwise appends the tagged candidates in search order, each once |
| NtoLib.MatchingIsTaggedCandidates | ixvision_ztp_ntolib.py:31-34 | the matched ids have no repeats, are exactly the tagged candidates, and keep search order even when several tags match a port |
| NtoLib.ConnectedPortsQualify | ixvision_ztp_ntolib.py:26 | every connected port is enabled, in no port group and in `NETWORK` mode for `input` or `TOOL` mode for `output` |
| NtoLib.ConnectWrite | ixvision_ztp_ntolib.py:48-59 | the one write sets the side's list to the current list, unchanged at the front, plus the missing matched ids; it is issued iff some matched id was missing |
| NtoLib.SecondRunWritesNothing | ixvision_ztp_ntolib.py:54-59 | once the write is accepted, a second run on the new device state issues no write |
| PortGroup.Contains | ixvision_ztp_port_group.py:99-102 | `already_matched` is true iff the port id is in the matching list |
| PortGroup.FindOrCreateGroup | ixvision_ztp_port_group.py:42-88 | the group lookup, create and keyword merge leave the state and return the group and members `FindOrCreate` gives |
| PortGroup.MatchPort | ixvision_ztp_port_group.py:94-109 | one candidate port follows `PortStep`: matched once, converted when its mode differs |
| PortGroup.MatchPorts | ixvision_ztp_port_group.py:91-109 | the port loop follows `MatchFrom` over the free ports |
| PortGroup.FormPortGroups | ixvision_ztp_port_group.py:34-120 | the outcome and final state are those of `Form` |
| PortGroup.MatchFromWrites | ixvision_ztp_port_group.py:93-109 | the port loop only appends mode writes, each converting a port whose mode differed, no port twice; the matched list extends the earlier one without repeats |
| PortGroup.NewGroupCreated | ixvision_ztp_port_group.py:45-54 | with no group of that name the first write creates one with the name, the key's mode and type and keywords `_ZTP_LLDP` plus the tags; a refused create ends the run with that write only |
| PortGroup.KeywordMerge | ixvision_ztp_port_group.py:62-74 | a matching group keeps its keywords in order plus each missing tag once, is modified iff a tag was missing, and carries its `port_list` on |
| PortGroup.AmbiguousNameWritesNothing | ixvision_ztp_port_group.py:80-88 | several groups of that name: the run crashes on the unbound name with no write |
| PortGroup.MismatchFallsThrough | ixvision_ztp_port_group.py:75-119 | a type or mode mismatch does not return: ports are still converted and, with any match, the run crashes on the `None` group |
| PortGroup.FormedMembership | ixvision_ztp_port_group.py:91-119 | a formed group's last write sets `port_list` to the matched ids, each once, followed by the existing members; the matched ids are exactly the free ports whose keywords hold a tag; the earlier loop writes converted matched ports |
| PortGroup.MatchFromMembers | ixvision_ztp_port_group.py:93-105 | a port is matched iff it was matched already or it is a candidate whose keywords, read before any conversion, hold a tag |
| PortGroup.MatchFromConverts | ixvision_ztp_port_group.py:106-109 | every newly matched port has a mode, and the loop writes its conversion iff that mode differs from the group's (once, by `MatchFromWrites`) |
| PortGroup.NoMatchesKeepsMembership | ixvision_ztp_port_group.py:112-114 | a run that reports no matches found no free port whose keywords hold a tag, and after the lookup it wrote only ports, never the group's membership |
| DynamicFilter.CriteriaRequired | ixvision_ztp_filter.py:23-24 | true iff the mode key is `pbc` or `dbc` |
| DynamicFilter.ModeValue | ixvision_ztp_filter.py:55-58 | the mapped mode is one of the table's values, and `DISABLE` for an unknown key |
| DynamicFilter.SearchPortGroupIds | ixvision_ztp_filter.py:27-32 | the ids of the groups the name search returns, in search order |
| DynamicFilter.RemoveEmptyPortGroups | ixvision_ztp_filter.py:35-41 | the loop computes `NonEmptyGroups` |
| DynamicFilter.ExistingUpdate | ixvision_ztp_filter.py:91-102 | the update parameters are `UpdateParams`, and the filter needs updating iff some parameter was set |
| DynamicFilter.ListDuplicates | ixvision_ztp_filter.py:108-113 | the listing of duplicates gets through iff every duplicate has a `default_name` |
| DynamicFilter.CreateFilter | ixvision_ztp_filter.py:70-81 | with no filter of that name, one create with the name, `_ZTP_LLDP`, the mode and any non-empty criteria is issued; the run stops when the device refuses it (`NewFilter`) |
| DynamicFilter.UpdateFilter | ixvision_ztp_filter.py:82-103 | the one filter of that name gets its mode and merged criteria written only when they changed, and its connection lists are carried on; a missing property crashes with no write (`ExistingFilter`) |
| DynamicFilter.FindOrCreateFilter | ixvision_ztp_filter.py:54-114 | the lookup, create and update leave the state and return the filter, parameters and connection lists `FindOrCreate` gives |
| DynamicFilter.FormDynamicFilter | ixvision_ztp_filter.py:52-132 | the outcome and final state are those of `Form` |
| DynamicFilter.CriteriaCheckedFirst | ixvision_ztp_filter.py:60-62 | a criteria-driven mode without a non-empty criteria dict ends the run before any device call |
| DynamicFilter.NewFilterCreated | ixvision_ztp_filter.py:71-82 | with no filter of that name the first write creates one with the name, keywords `_ZTP_LLDP` and the mapped mode, with criteria iff they are a non-empty dict; a refused create is the only write |
| DynamicFilter.MergedCriteriaDiffer | ixvision_ztp_filter.py:97-99 | the merge lets existing entries win, so it differs from the existing criteria iff a supplied key is new |
| DynamicFilter.ExistingFilterUpdate | ixvision_ztp_filter.py:91-104 | `mode` is in the update iff it differs, `criteria` iff a supplied key is new (with the merged value), and the filter is modified iff the update is non-empty |
| DynamicFilter.EmptyCriteriaReplaced | ixvision_ztp_filter.py:97-104 | existing criteria that are an empty list or string merge nothing, so the supplied criteria are the update and the filter is modified |
| DynamicFilter.AmbiguousNameWritesNothing | ixvision_ztp_filter.py:106-114 | several filters of that name: no write |
| DynamicFilter.NonEmptyGroupsKept | ixvision_ztp_filter.py:35-41 | exactly the listed groups whose `port_list` is a non-empty list are kept; the result is no longer than the list, and equals it iff every group has members |
| DynamicFilter.NonEmptyGroupsAppend | ixvision_ztp_filter.py:35-41 | pruning a concatenated list prunes each part and keeps the parts in order |
| DynamicFilter.NonEmptyGroupsSnoc | ixvision_ztp_filter.py:35-41 | a group added at the end of the list ends up at the end of the result iff it has members, so the kept groups keep the list's order |
| DynamicFilter.GroupConnectionsAppended | ixvision_ztp_filter.py:118-127 | outside tag mode the last write carries the parameters and both lists, each the current list followed by the non-empty groups, with no de-duplication |
| PortMode.MatchTags | ixvision_ztp_port_mode.py:40-43 | the tag loop for one port follows `ModeStep` |
| PortMode.MatchPorts | ixvision_ztp_port_mode.py:35-43 | the candidate loop follows `MatchFrom` |
| PortMode.SetPortMode | ixvision_ztp_port_mode.py:30-58 | the outcome and final state are those of `SetMode` |
| PortMode.MatchedModeKnown | ixvision_ztp_port_mode.py:41 | a port is matched only after the mode key was looked up, so a non-empty match list means a known key |
| PortMode.MatchFromQualifying | ixvision_ztp_port_mode.py:37-43 | the loop adds, each once and in candidate order, exactly the readable candidates with an upper-cased tag among their keywords and a mode other than the target |
| PortMode.MatchedPortsFree | ixvision_ztp_port_mode.py:35 | every matched port is enabled, in no group, with no filter connections, and qualifies |
| PortMode.ConvertWrites | ixvision_ztp_port_mode.py:51-58 | the conversion loop issues the matched ports' mode writes in order and nothing else; a completed loop reports once per port |
| PortMode.RunWrites | ixvision_ztp_port_mode.py:45-52 | no match means no write; a completed run issues exactly one write of the target mode per matched port, with no port twice |
| LldpTag.AddTag | ixvision_ztp_lldp_tag.py:59-64 | one matched tag writes the fetched keywords (none if null) plus the tag, and fails, writing nothing, when the port cannot be read or its keywords cannot be extended |
| LldpTag.TagNeighbor | ixvision_ztp_lldp_tag.py:56-64 | the tag loop for one neighbor issues one keyword write per tag found in its description, each the fetched keywords plus that tag; it fails only at the first match of an unreadable port |
| LldpTag.TagPort | ixvision_ztp_lldp_tag.py:54-64 | one neighbor-table entry issues exactly `PortWrites`, or fails with no write; the duplicate `tag_ports` of `ixvision_lldp_tag.py` (lines 45-56) follows the same rules |
| LldpTag.TagPortsRun | ixvision_ztp_lldp_tag.py:43-64 | the outcome and final state are those of `TagPorts`: an empty neighbor table means no write |
| LldpTag.FoundTagsCount | ixvision_ztp_lldp_tag.py:56-57 | the tags found in a description are exactly the tags that are case-sensitive substrings of it |
| LldpTag.OneWritePerMatchingPair | ixvision_ztp_lldp_tag.py:55-64 | a port gets one write per matching (neighbor, tag) pair, and a tag is written iff it occurs in some neighbor's description |
| LldpTag.LastTagWins | ixvision_ztp_lldp_tag.py:59-64 | keywords are fetched once, so the port ends with the fetched keywords plus only the last matched tag, even one already present |
| LldpTag.KeywordWritesKeepNames | ixvision_ztp_lldp_tag.py:64 | keyword writes keep the port name index and the set of port ids |
| LldpTag.EntryWrites | ixvision_ztp_lldp_tag.py:53-64 | an entry's writes are keyword-only writes to the port its name resolves to |
| LldpTag.OnlyNamedPortsWritten | ixvision_ztp_lldp_tag.py:53-64 | only the ports the neighbor table names are written, and only their keywords |
| Discovery.InventoryPorts | ixvision_ztp_port_discovery.py:54-56 | the scope table is `Inventory` of the search results |
| Discovery.CollectStatus | ixvision_ztp_port_discovery.py:96-107 | a status collection is `Collect`: a fresh entry per port, in table order |
| Discovery.CollectNoneStays | ixvision_ztp_port_discovery.py:96-107 | once one read of a collection raises, the collection raises |
| Discovery.ConvertPort | ixvision_ztp_port_discovery.py:68-89 | one port of pass 1 follows `PassOneStep` |
| Discovery.RunPassOne | ixvision_ztp_port_discovery.py:67-89 | pass 1 follows `PassOne` |
| Discovery.DowngradePort | ixvision_ztp_port_discovery.py:111-115 | one port of pass 2 follows `PassTwoStep` |
| Discovery.RunPassTwo | ixvision_ztp_port_discovery.py:110-115 | pass 2 follows `PassTwo` |
| Discovery.RunFinalPass | ixvision_ztp_port_discovery.py:138-149 | the final pass follows `FinalPass` |
| Discovery.DiscoverPorts | ixvision_ztp_port_discovery.py:42-149 | the outcome and final state are those of `Discover`, pass by pass, with the pauses as oracles; `portInventory` in `ixvision_ztp.py` (lines 54-162) runs the same state machine with its own scope test and final keyword |
| Discovery.InventoryIsFoundPorts | ixvision_ztp_port_discovery.py:54-56 | the table has one entry per port found, in first-found order, each fetched from the device; it raises iff a found port has no default name |
| Discovery.ScopeIsDisabledPorts | ixvision_ztp_port_discovery.py:49-56 | the scope is every listed disabled port, carrying the keyword when it narrows the search, each once; in `portInventory` (`ixvision_ztp.py` lines 61-69) the keyword narrows the scope whenever it is not empty |
| Discovery.NoScopeIffNothingFound | ixvision_ztp_port_discovery.py:58-59 | the run stops with no write iff the search finds nothing |
| Discovery.CollectReadsEach | ixvision_ztp_port_discovery.py:123-134 | a collection succeeds iff every port can be read, and its entries are the fresh reads |
| Discovery.CollectAfterPause | ixvision_ztp_port_discovery.py:91-107 | after a pause each entry's result is what the link oracle said and its details are the fresh record |
| Discovery.PassTwoConvertsDownPorts | ixvision_ztp_port_discovery.py:110-115 | pass 2 completes iff every entry is readable, and then issues one 1G/`AUTO`/`NETWORK` write to exactly the ports that are down, enabled and 10G, in order |
| Discovery.ConvertedPortEnabled | ixvision_ztp_port_discovery.py:69-89 | when the firmware takes the writes, a 1G or 10G port with a mode and an `enabled` property ends enabled, 10G and `NETWORK` |
| Discovery.FinalPassKeeps | ixvision_ztp_port_discovery.py:138-149 | the final pass leaves every port outside the table as it was |
| Discovery.FinalPortStates | ixvision_ztp_port_discovery.py:138-149 | a port that came up and has LLDP support ends with LLDP receive on and keywords exactly the final tag; a failed port ends disabled, 10G, `10G_FULL`, `NETWORK` |
| Discovery.PassOneWritesScope | ixvision_ztp_port_discovery.py:67-89 | pass 1 only writes ports in the table |
| Discovery.PassTwoWritesScope | ixvision_ztp_port_discovery.py:110-115 | pass 2 only writes ports in the table |
| Discovery.FinalPassWritesScope | ixvision_ztp_port_discovery.py:138-149 | the final pass only writes ports in the table |
| Discovery.OnlyScopeWritten | ixvision_ztp_port_discovery.py:54-149 | a run only ever writes the ports its search found, whatever the links do |
| Capture.AddObjects | get_nto_config_tagged.py:34-40 | each fetch loop is `AddFrom`: every listed object stored under its id, later ones replacing earlier |
| Capture.GetConfig | get_nto_config_tagged.py:28-44 | the table written out is `Captured`: the tagged ports, then all AFMs, with no write to the device |
| Capture.AddFromResult | get_nto_config_tagged.py:34-40 | the loop raises iff an object cannot be fetched with its default name; otherwise each listed id maps to its captured entry and other entries are kept |
| Capture.CapturedTable | get_nto_config_tagged.py:34-40 | the table's keys are the ports the keyword search finds plus all AFMs; an AFM replaces a port under the same id; a port entry is `{name, type: 'port', details}` of a port carrying the keyword |
| Capture.CaptureFails | get_nto_config_tagged.py:35-40 | the capture raises iff a found port or a listed AFM has no default name |
| Restore.PushProperties | set_nto_config_safe.py:168-170 | the whitelist loop issues `Pushes`: one single-key modify per whitelisted property present in the details |
| Restore.RemapIds | set_nto_config_safe.py:189-191 | the remap loop is `Remap`: each id replaced by its object's `new_id`, raising on the first that has none |
| Restore.RemapNoneStays | set_nto_config_safe.py:189-191 | once a prefix fails to remap, the whole list fails |
| Restore.LinkIconOf | set_nto_config_safe.py:171-172 | the icon link follows `LinkIcon` |
| Restore.RestoreIcon | set_nto_config_safe.py:146-154 | one object of the icon pass follows `IconStep`, with no write: an icon found by name gets its `new_id`; one with no `name` crashes, because the handler re-reads the name; any other unresolvable name ends the restore |
| Restore.RestorePort | set_nto_config_safe.py:157-172 | one object of the port pass follows `PortStep`: an object with no `name` crashes in the handler, and an unresolvable name ends the restore with no write |
| Restore.RestoreGroup | set_nto_config_safe.py:175-194 | one object of the port-group pass follows `GroupStep` |
| Restore.ConnectFilter | set_nto_config_safe.py:206-224 | the four list rewrites follow `ConnectLists` |
| Restore.RestoreFilter | set_nto_config_safe.py:197-224 | one object of the filter pass follows `FilterStep` |
| Restore.RunPassOver | set_nto_config_safe.py:146-224 | over orders that list every table key and whitelisted property once, one pass over the table follows `RunPass` |
| Restore.RestoreConfig | set_nto_config_safe.py:136-224 | over orders that list every table key and whitelisted property once, the outcome, the annotated table and the final state are those of `SetConfig`: four passes, each stopping the restore when it does not finish |
| Restore.PushesArePresent | set_nto_config_safe.py:168-170 | the pushes are exactly one `{property: value}` modify per whitelisted property present in the details, in whitelist order |
| Restore.PresentKeys | set_nto_config_safe.py:168-170 | a property is pushed iff the given order lists it and the details hold it; an order without repeats pushes none twice |
| Restore.EnumeratesMembers | set_nto_config_safe.py:146 | helper of `RestoreStamps`: an order that lists a set once holds exactly its members |
| Restore.EnumeratesNoDup | set_nto_config_safe.py:168 | helper of `WhitelistPushed`: an order that lists a set once has no repeats |
| Restore.CountedTwice | set_nto_config_safe.py:168 | helper of `EnumeratesNoDup`: an element at two positions is counted twice |
| Restore.WhitelistPushed | set_nto_config_safe.py:168-170 | over an order that lists the whitelist once, the pushed properties are exactly the whitelisted ones the details hold, each pushed once |
| Restore.PushesWhitelisted | set_nto_config_safe.py:168-170 | every write of the whitelist loop modifies the restored object and sets only whitelisted properties, to their captured values |
| Restore.PortNeverPushed | set_nto_config_safe.py:32-78 | the port loop never pushes `mod_count` or `custom_icon_id` |
| Restore.GroupNeverPushed | set_nto_config_safe.py:80-114 | the port-group loop never pushes `port_list`, `mode` or `custom_icon_id` |
| Restore.FilterNeverPushed | set_nto_config_safe.py:116-134 | the filter loop never pushes `mode`, `criteria`, `custom_icon_id` or any of the four connection lists |
| Restore.RemapElementwise | set_nto_config_safe.py:189-192 | a remap succeeds iff every id has a `new_id`, and then keeps length and order with each element replaced by its `new_id` |
| Restore.IconLinkUsesNewId | set_nto_config_safe.py:171-172 | `custom_icon_id` is pushed only when truthy, and its value is the linked object's `new_id`, never the original id |
| Restore.PushesModify | set_nto_config_safe.py:168-170 | the pushes only modify the object being restored |
| Restore.LinkIconModifies | set_nto_config_safe.py:171-172 | the icon link only modifies the object being restored and keeps the table |
| Restore.ConnectListsModify | set_nto_config_safe.py:206-224 | the list rewrites only modify the new filter |
| Restore.ConnectListsRemapped | set_nto_config_safe.py:206-224 | completed rewrites write each connection list, in order, as its element-wise remap |
| Restore.PortStepEffect | set_nto_config_safe.py:157-172 | the port pass only writes ports; a missing port changes nothing and had a `name`; a nameless port crashes with no write; a port that is written is not `G10_INTERNAL`, was found by name, has its `new_id` recorded and is written by name only |
| Restore.GroupFillEffect | set_nto_config_safe.py:185-194 | after a create, every write modifies the new group, and a completed fill has written `port_list` as the remapped member list |
| Restore.GroupStepEffect | set_nto_config_safe.py:175-194 | groups of type `NETFLOW`, `FABRIC` or `INTERNAL` are never created; others are created first with their `mode` and `type`; a refused create aborts after that one write; otherwise `new_id` is recorded and the rest modifies only the new group |
| Restore.FilterFillEffect | set_nto_config_safe.py:202-224 | a completed filter fill ends with the four connection lists remapped, in order |
| Restore.FilterStepEffect | set_nto_config_safe.py:197-224 | each filter is created first with its `mode` and `criteria`; a refused create raises after that write; otherwise `new_id` is recorded and the rest modifies only the new filter |
| Restore.RunPassWrites | set_nto_config_safe.py:146-224 | the icon pass writes nothing, each other pass writes only its own kind, and each abort comes from its own pass |
| Restore.OnlyKindChain | set_nto_config_safe.py:157-224 | helper of `RestoreOrder`: writes of one kind in two stretches are writes of that kind overall |
| Restore.Layers | set_nto_config_safe.py:146-224 | helper of `RestoreOrder`: three passes of port, group and filter writes leave the writes in pass order |
| Restore.RestoreOrder | set_nto_config_safe.py:146-224 | all port writes come before all group writes, which come before all filter writes; a missing icon aborts before any write; a missing port aborts before any group or filter write; a refused group aborts before any filter write |
| Restore.AfterPorts | set_nto_config_safe.py:174-224 | helper of `RestoreOrder`: the group and filter passes after the port pass keep the writes in pass order |
| Restore.RestoreObject | set_nto_config_safe.py:146-224 | one object of a pass follows `Step` |
| Restore.RunKeys | set_nto_config_safe.py:146-224 | the loop of a pass follows `RunPass` over the listed keys, stopping at the first object that does not finish |
| Restore.StepRecords | set_nto_config_safe.py:146-224 | helper of `StepStamps`: a step changes only its own object, and only its `new_id` |
| Restore.StepStamps | set_nto_config_safe.py:146-224 | one object: the table changes only by that object's `new_id`, and an object the pass handles has it once the step finishes |
| Restore.StampOfChain | set_nto_config_safe.py:151 | helper of `StampedChain`: two `new_id` updates are one, and keep the object's type and details |
| Restore.StampedChain | set_nto_config_safe.py:146-224 | helper of `RestoreStamps`: recording ids twice is recording ids, and a recorded id stays recorded |
| Restore.PassStamps | set_nto_config_safe.py:146-224 | a pass changes the table only by recording new ids, and a finished pass has recorded one on every listed object it handles |
| Restore.StampsAcross | set_nto_config_safe.py:157-224 | helper of `RestoreStamps`: a later pass keeps the ids recorded so far |
| Restore.RestoreStamps | set_nto_config_safe.py:146-224 | over an order listing every key once, the restore changes the table only by recording new ids, and a finished restore has recorded one on every icon, non-internal port, created port-group type and filter |
| SysInfo.Spaces | ixvision_ztp_sysinfo.py:22 | `' ' * n` is `n` blanks, and none when `n` is not positive |
| SysInfo.LabelLine | ixvision_ztp_sysinfo.py:21-22 | the line is the label, blanks up to column 16 (none when the label has 16 or more characters), then the value |
| SysInfo.Slice | ixvision_ztp_sysinfo.py:60 | `s[i:j]` has Python's length, clamped at the end of the string |
| SysInfo.MacLayout | ixvision_ztp_sysinfo.py:60 | a MAC of 12 or more characters formats as 17 characters: upper-cased pairs of positions 0-11 with colons at every third position |
| SysInfo.MacLength | ixvision_ztp_sysinfo.py:77 | the formatted MAC has the first 12 characters (or fewer) plus five colons |
| SysInfo.SelectMain | ixvision_ztp_sysinfo.py:64-67 | the module loop computes `MainIdent` from blank numbers |
| SysInfo.PrintLines | ixvision_ztp_sysinfo.py:71-81 | the header lines are printed as `PrintFrom` says, stopping where a read raises |
| SysInfo.PrintModules | ixvision_ztp_sysinfo.py:83-87 | the display module loop prints `ModuleItems` |
| SysInfo.GetSysinfo | ixvision_ztp_sysinfo.py:24-87 | the report is `Sysinfo` of the two device reads and the mode |
| SysInfo.AnsibleBranch | ixvision_ztp_sysinfo.py:54-69 | Ansible mode returns `AnsibleFacts` |
| SysInfo.LastMainWins | ixvision_ztp_sysinfo.py:64-67 | the loop raises iff a module's type cannot be read or a MAIN module lacks its numbers; otherwise the numbers are the last MAIN module's, or stay blank with none |
| SysInfo.AnsibleReport | ixvision_ztp_sysinfo.py:36-69 | Ansible mode prints nothing and returns exactly the eight label keys, with the formatted MAC and the last MAIN module's numbers |
| SysInfo.PrintFromAll | ixvision_ztp_sysinfo.py:71-87 | printing stops at the first line that cannot be read, and otherwise prints every line in order |
| SysInfo.ModuleItemsComplete | ixvision_ztp_sysinfo.py:83-87 | the display module loop gets through iff the Ansible module loop does |
| SysInfo.MainModulePrinted | ixvision_ztp_sysinfo.py:84-86 | every readable MAIN module's part and serial numbers are printed under their labels |
| SysInfo.PrintedTwoParts | ixvision_ztp_sysinfo.py:71-87 | the display output is the header lines followed by the module lines |
| SysInfo.ModesAgree | ixvision_ztp_sysinfo.py:26-87 | both modes raise on the same answers; every fact but the module numbers is printed under its label with the dict's value, and the numbers are printed unless they stayed blank |
| SysInfo.HeaderComplete | ixvision_ztp_sysinfo.py:71-81 | the header lines can all be read iff the Ansible facts other than the module numbers can |
| SysInfo.HeaderFacts | ixvision_ztp_sysinfo.py:71-81 | each header fact is printed under its label with the value Ansible mode returns |
| SysInfo.AnsibleFactsOk | ixvision_ztp_sysinfo.py:54-69 | Ansible mode returns its dict iff every fact it reads is there and the module loop gets through |
| SysInfo.ModuleFacts | ixvision_ztp_sysinfo.py:83-87 | the module numbers Ansible mode returns are printed under their labels unless they stayed blank |
| Cli.ParseOptions | ixvision_lldp_tag.py:75-87 | the option loop computes `AssignAll` from the initial settings; the same loop runs in `ixvision_ztp.py` (181-193, `-k` in place of `-t`), `ixvision_ztp_port_group.py` (145-161, with `-n`, `-m` and upper-cased tags), `get_nto_config_tagged.py` (60-72, `-k`) and `set_nto_config_safe.py` (240-250, no tags or keyword) |
| Cli.CheckUsage | ixvision_ztp_port_group.py:163-185 | the script exits with status 2 iff the username or password is empty or neither host nor hosts file is given; the LLDP tagger and port grouper also when there are no tags, the port grouper also with no group name or a mode other than `net` and `lb`, the config capture also with an empty keyword (`ixvision_lldp_tag.py` 89-103, `ixvision_ztp.py` 195-205, `get_nto_config_tagged.py` 74-88, `set_nto_config_safe.py` 252-262) |
| Cli.LastOptionWins | ixvision_lldp_tag.py:75-87 | each variable holds the argument of the last occurrence of its option, or its initial value without one; the tags are that argument split |
| Cli.TagCheckOnlyWithoutOption | ixvision_lldp_tag.py:101-103 | the tag list is empty iff no tag option was given, so `-t ""` passes with the one tag `""`; the same holds for the port grouper (`ixvision_ztp_port_group.py` 175-177) |
| Cli.TagsRoundTrip | ixvision_lldp_tag.py:81 | the LLDP tagger's tags, joined by commas, give back the argument as typed, the port grouper's (`ixvision_ztp_port_group.py` 151) the upper-cased argument; no tag holds a comma |
| Cli.GroupTagsUpper | ixvision_ztp_port_group.py:151 | every character of the port grouper's tags is upper case |
| Cli.ReadHosts | ixvision_lldp_tag.py:107-116 | `hosts_list` is `HostsList`: the file's entries when a hosts file is named, otherwise `[[host, host]]`; the same parser appears in `ixvision_ztp.py` (207-216), `ixvision_ztp_port_group.py` (188-197), `get_nto_config_tagged.py` (90-99) and `set_nto_config_safe.py` (264-273) |
| Cli.HostEntriesFromLines | ixvision_lldp_tag.py:110-113 | every entry comes from a line that is neither blank nor a comment once stripped |
| Cli.LinesGiveHostEntries | ixvision_lldp_tag.py:110-113 | every such line gives an entry, its space-separated fields |
| Cli.HostEntriesMembers | ixvision_lldp_tag.py:110-113 | an entry exists exactly for each such line |
| Cli.HostEntriesRoundTrip | ixvision_lldp_tag.py:111-113 | each entry has a field, and its fields joined by spaces give back a stripped line of the file |
| Cli.AddressesWellFormed | ixvision_lldp_tag.py:115-120 | every address (`host[0]`) from a hosts file is non-empty and starts with neither whitespace nor `#`; without a file the one address is the `-h` host |

## Left out

- The thread-per-host fan-out, polling join and interrupt handling. Their point is
  concurrency; the model covers one host's run.
- `NtoApiClient` internals (HTTP, authentication, debug logging). The client is the
  device value plus the write log.
  - A search returns the listed records whose queried fields are equal, except that
    `keywords: [k]` asks for a keyword list containing `k`.
  - A refused write changes nothing.
- File I/O and JSON encoding and decoding.
  - The restore takes the already-parsed snapshot as a map keyed by stringified ids.
  - The capture returns the table instead of writing it.
  - The pre-ZTP snapshot file of the discovery scripts is not modelled.
  - The hosts file is given as its lines.
- Printed text. Messages are not modelled, except for the system-status lines, which are
  kept as (label, JSON value) pairs rather than rendered text.
- `getopt` itself. Options arrive already parsed as (option, argument) pairs, so an
  unknown option and its exit status 2 are not modelled.
- `ixvztp.py`. It is argument-dispatch glue over the modelled functions, and it refers to
  a table no file defines.
- `time.sleep`. Each pause is a link-status oracle.
- Python's iteration order over sets and dicts, which is a parameter.
  - In the restore, over the snapshot table's keys and over each whitelist.
  - Dicts built by the scripts are taken in insertion order.
- Values of an unexpected JSON type where the code would raise. Examples are port keywords
  that are null, a number or a boolean, and `str()` of an id that is neither a number nor a
  string. These are crashes.
- JSON numbers are integers. A number with a fraction cannot be represented, and neither
  can `str()` of a float id (`"5.0"`).
- DynamicFilter.UpdateParams: existing criteria that are a non-empty list are treated as a
  crash. Python's `dict.update` would merge the list when every item is a pair, and raise
  otherwise. Any other non-dict criteria, and an empty list or string, are modelled.
- Restore.GroupFill: a snapshot `port_list` that is a string or an object is treated as a
  crash. Python would iterate its characters or keys and remap each through the table, so
  an empty one gives `port_list: []`.
- Restore.ConnectLists: the same holds for the four filter connection lists.
- PortGroup.KeywordMerge: an existing group whose keywords are a string or an object is
  treated as a crash. Python's `extend` would copy its characters or keys and go on.
- Restore.PortStepEffect: a port's snapshot `id` is taken to be the table key it is
  stored under, as `getConfig` writes it.
- SysInfo.GetSysinfo: iterating a `module_list` that is a non-empty dict or string is
  treated as a crash. Python would iterate the keys or characters and then fail on the
  first `module['id']`, so the outcome is the same.
- Text.Upper: upper-casing is ASCII-only.
- Discovery.DiscoverPorts: `getPort` re-reads of a port already in the scope table are
  assumed to give the same record, because the search and the fetch happen with no write
  in between.

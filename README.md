# nxtoolkit physical objects — a verified model

This project models the data-handling core of `nxtoolkit/nxphysobject.py`,
the physical-object layer of a Python toolkit for Cisco Nexus switches
(NX-API REST). The model covers every part of that layer that works on data
already fetched from a switch:

- **The response indexer `WorkingData`.** It takes the flat list of
  class-tagged records of a query response and indexes them:
  - by distinguished name (dn);
  - by class, where fabricNode records are de-duplicated according to
    their role.

  It answers exact-dn, class and dn-prefix ("subtree") lookups. From the
  L3 context and bridge-domain records it derives the vnid table and the
  two reverse tables.
- **Node facts.**
  - The vPC summary (`_add_vpc_info`).
  - The topSystem, chassis and slot/module counts (`_get_topsystem_info`).
  - The running firmware lookup, the chassis type, node equality and the
    role checks of `Node` and `ExternalSwitch`.
- **Links.** `Link` is a value. The model covers the dn parser, the two
  port ids, `__str__` and `__eq__`.
- **Interfaces.**
  - The `eth<module>/<port>` name split.
  - The dn and name parsers, and the REST path and URL.
  - The configuration setters, the CDP/LLDP toggles and the conditional
    attribute serialiser `_get_attributes`.
  - `__eq__`.
  - The discovery-protocol matching loop, which applies CDP or LLDP
    policy relations to a list of interfaces.
- **The ethernet port manager `Ethpm`.** Its four settings, its attribute
  serialiser and its URL.

Python exceptions raised on malformed strings (IndexError, ValueError,
TypeError, NotImplementedError, and a KeyError that depends on data) are
modelled as `Result` errors. Attribute keys that the code reads without a
guard from a record it has just matched on class are preconditions. Records
are datatypes. Objects whose methods update fields in place are classes:
`WorkingData`, `Node`, `ExternalSwitch`, `Interface` and `Ethpm`. Loops in
the source are methods with loops. Each such method is proved against a
specification function (a fold over the input), and the properties are
lemmas about those functions.

Where the documentation in the source and the code disagree, the model
follows the code and proves what the code does:

- **The vnid of a context or bridge domain.** It is the second
  `'-'`-separated field of the encapsulation (`split('-')[1]`), as the
  code computes it (`Vnid.ContextVnidSecondField`).
- **The dn parsers.**
  - Both dn parsers document the short form `sys/phys-[eth1/1]`.
  - That form has a `"sys"` segment, so `parse_dn` hands it to the
    physical parser, which raises IndexError
    (`Interfaces.ShortSysFormRejected`).
- **`Link.__eq__`.**
  - Its documentation says two links are equal when their end points match.
  - The code compares the pod and the first end only, so links with
    different second ends can be equal (`Links.EqualsIffPortId1`).
- **`parse_name`.**
  - It documents `<type> <pod>/<mod>/<port>`.
  - The code unpacks exactly two `'/'` fields, so that form raises
    ValueError (`Interfaces.NameWithPodRejected`).

Files:
- `results.dfy`: `Option`, `Result` and the Python error kinds.
- `pystr.dfy`: the Python string operations used: `split(sep)`, `join`,
  `in`, `replace(sub, '')`, `split()`, clamped slices and ASCII `lower`.
- `dicts.dfy`: dictionaries filled by loops, and Python truthiness of
  attributes.
- `records.dfy`: response records.
- `working_data.dfy`: the indexer.
- `vnid.dfy`: the vnid derivation.
- `node.dfy`: Node and ExternalSwitch.
- `dn.dfy`: the pod/id dn parser.
- `link.dfy`: Link.
- `interface.dfy`: Interface.
- `discovery.dfy`: the CDP/LLDP policy table and relation matching.
- `ethpm.dfy`: Ethpm.

## Model

| member | source | states |
|---|---|---|
| PyStr.Split | nxtoolkit/nxphysobject.py:1585 | `str.split(sep)` always yields at least one field, and at least two when the one-character separator occurs |
| PyStr.JoinSplit | nxtoolkit/nxphysobject.py:1585 | joining the fields of `split(sep)` with `sep` gives back the string |
| PyStr.SplitJoin | nxtoolkit/nxphysobject.py:1837-1841 | splitting a join of separator-free fields gives back the fields |
| PyStr.SplitFieldsFree | nxtoolkit/nxphysobject.py:1585 | no field of `split(c)` contains `c` |
| PyStr.Words | nxtoolkit/nxphysobject.py:1849-1850 | `str.split()` yields non-empty words with no whitespace |
| PyStr.WordsCons | nxtoolkit/nxphysobject.py:1849-1850 | a leading word followed by whitespace is the first word of `split()` |
| PyStr.WordsSingle | nxtoolkit/nxphysobject.py:1849-1850 | a non-empty string without whitespace is its own single word |
| PyStr.SplitOnce | nxtoolkit/nxphysobject.py:1942-1943 | a string holding a two-character-headed separator once, with no earlier start of it, splits into the text before and after it |
| PyStr.RemoveAllAbsent | nxtoolkit/nxphysobject.py:1585 | `replace(sub, '')` leaves a string without `sub` unchanged |
| PyStr.Take | nxtoolkit/nxphysobject.py:1584 | the slice `s[:n]` never fails and has length `min(n, len(s))` |
| PyStr.Drop | nxtoolkit/nxphysobject.py:1862-1863 | the slice `s[n:]` never fails and is the rest after `s[:n]` |
| PyStr.Lower | nxtoolkit/nxphysobject.py:966-967 | `lower()` keeps the length and leaves no upper-case ASCII letter |
| Dicts.AssignAppend | nxtoolkit/nxphysobject.py:2254-2292 | two assignment loops in a row are one loop over both sequences |
| Dicts.AssignLast | nxtoolkit/nxphysobject.py:2173-2176 | the value stored under a key is the one of the last assignment with that key |
| Dicts.AssignUntouched | nxtoolkit/nxphysobject.py:2173-2176 | a key no assignment mentions keeps its old entry or stays absent |
| Dicts.AssignKeys | nxtoolkit/nxphysobject.py:2173-2176 | the keys afterwards are the old keys plus the assigned keys |
| Index.IndexDn | nxtoolkit/nxphysobject.py:2173-2176 | indexing by dn keeps every entry stored under its own dn and never stores an error record |
| Index.DnStep | nxtoolkit/nxphysobject.py:2175-2176 | one record: an error record is skipped, any other is stored under its dn |
| Index.IndexDnKeys | nxtoolkit/nxphysobject.py:2173-2176 | after indexing, the dns are the old ones plus the dn of every non-error record |
| Index.IndexDnLast | nxtoolkit/nxphysobject.py:2173-2176 | a dn maps to the last non-error record carrying it: later records overwrite earlier ones |
| Index.IndexDnOthers | nxtoolkit/nxphysobject.py:2173-2176 | a dn no new record carries keeps its old entry or stays absent |
| Index.ClassStep | nxtoolkit/nxphysobject.py:2177-2199 | one record keeps every class list well-formed: each record listed under its own tag |
| Index.IndexClass | nxtoolkit/nxphysobject.py:2177-2199 | indexing by class keeps every class list well-formed |
| Index.IndexClassGrows | nxtoolkit/nxphysobject.py:2177-2199 | indexing only appends: an old class list is a prefix of the new one |
| Index.IndexClassInOrder | nxtoolkit/nxphysobject.py:2177-2186 | for a class other than fabricNode, the list gains exactly that class's records in input order |
| Index.IndexClassAbsent | nxtoolkit/nxphysobject.py:2202-2210 | a class no record carries stays absent, so `get_class` answers `[]` |
| Index.LeavesAndSpinesKept | nxtoolkit/nxphysobject.py:2186-2190 | every leaf and spine fabricNode is appended in input order, duplicates included |
| Index.FabricOkPreserved | nxtoolkit/nxphysobject.py:2186-2199 | the fabricNode list holds only leaves, spines and controllers, and controllers have distinct dns |
| Index.ControllersListed | nxtoolkit/nxphysobject.py:2191-2199 | every controller's dn ends up in the fabricNode list |
| Index.OtherRolesDropped | nxtoolkit/nxphysobject.py:2186-2199 | a fabricNode with any other role is never added to the class list |
| Index.ControllerDuplicateDropped | nxtoolkit/nxphysobject.py:2173-2199 | a second controller with the same dn is kept out of the class list but still overwrites the dn entry |
| Index.LeafDuplicateKept | nxtoolkit/nxphysobject.py:2186-2190 | a second leaf with the same dn is listed twice |
| Index.FindDn | nxtoolkit/nxphysobject.py:2191-2194 | the duplicate search finds a record exactly when the list holds one with that dn |
| Index.ClassListAdd | nxtoolkit/nxphysobject.py:2177-2199 | non-fabricNode records are appended; a fabricNode is appended exactly when its role admits it |
| Index.Subtree | nxtoolkit/nxphysobject.py:2212-2230 | the subtree holds exactly the listed records whose dn has the prefix as a plain string prefix |
| Index.SubtreeAppend | nxtoolkit/nxphysobject.py:2226-2229 | the filter keeps the order of the class list |
| Index.SubtreeIsStringPrefix | nxtoolkit/nxphysobject.py:2226-2229 | the prefix `a/b` also selects the dn `a/bc` |
| Index.TwoClassesIndexed | nxtoolkit/nxphysobject.py:2173-2199 | two records of different classes and dns give one entry each in both indexes |
| Index.ContextWithBridgeDomain | nxtoolkit/nxphysobject.py:2243-2292 | one context and one bridge domain in it give the vnid, context and bridge-domain tables expected |
| Index.ContextAndBridgeDomainInputs | nxtoolkit/nxphysobject.py:2270-2281 | those two records satisfy what the vnid build reads |
| Index.ContextAndBridgeDomainExample | nxtoolkit/nxphysobject.py:2243-2292 | `vxlan-12345` and `vxlan-16000` with `uni/tn-X:bd1` give vnids 12345 and 16000 and short name `bd1` |
| Index.BridgeDomainWithoutContext | nxtoolkit/nxphysobject.py:2270-2281 | a response holding a bridge domain but not its context is indexed, and the vnid build raises TypeError before making any entry |
| Index.WorkingData.constructor | nxtoolkit/nxphysobject.py:2123-2132 | a new indexer starts with empty indexes and tables |
| Index.WorkingData.Add | nxtoolkit/nxphysobject.py:2134-2168 | an empty response raises TypeError and changes nothing; otherwise the records are indexed, and the vnid tables and the exception they end with are those of the vnid build over the new indexes |
| Index.WorkingData.IndexObjects | nxtoolkit/nxphysobject.py:2169-2199 | the indexing loop leaves both indexes equal to the indexing folds over the records |
| Index.WorkingData.IndexOne | nxtoolkit/nxphysobject.py:2173-2199 | one iteration is one step of each fold |
| Index.WorkingData.BuildVnidDictionary | nxtoolkit/nxphysobject.py:2243-2292 | the tables are the old ones plus l3Inst, then l3Ctx, then the l2BD records up to the first that raises, with that exception |
| Index.WorkingData.LoadContexts | nxtoolkit/nxphysobject.py:2251-2269 | the context loop is the context fold over its records |
| Index.WorkingData.LoadBridgeDomains | nxtoolkit/nxphysobject.py:2270-2292 | the bridge-domain loop enters each bridge domain until one raises IndexError (no `-` in fabEncap) or TypeError (nothing at its parent dn) |
| Index.WorkingData.GetClass | nxtoolkit/nxphysobject.py:2202-2210 | `[]` for an unseen class; otherwise the indexed list of that class, whose records all carry that class and a dn |
| Index.WorkingData.GetSubtree | nxtoolkit/nxphysobject.py:2212-2230 | exactly the class's records whose dn starts with the prefix |
| Index.WorkingData.GetObject | nxtoolkit/nxphysobject.py:2232-2241 | a record exactly when the dn is indexed, and then a non-error record carrying that dn |
| Vnid.OneContext | nxtoolkit/nxphysobject.py:2256-2269 | one context sets `vnid_dict[vnid]` to its name as a context and `ctx_dict[name]` to the vnid |
| Vnid.OneBridgeDomain | nxtoolkit/nxphysobject.py:2270-2292 | one bridge domain sets its vnid entry, with short name and parent context, and `bd_dict[name]` |
| Vnid.ContextThenBridgeDomain | nxtoolkit/nxphysobject.py:2251-2292 | a context followed by a bridge domain inside it gives all three tables |
| Vnid.ContextVnidOf | nxtoolkit/nxphysobject.py:2261-2264 | the vnid of `kind-id` is `id` |
| Vnid.ContextVnidPlain | nxtoolkit/nxphysobject.py:2261-2266 | an encapsulation without `'-'` is its own context vnid |
| Vnid.ContextVnidSecondField | nxtoolkit/nxphysobject.py:2261-2264 | the vnid is the second field, not the last: `vxlan-1-2` gives `1` |
| Vnid.ShortNameAfterColon | nxtoolkit/nxphysobject.py:2274-2277 | the short name is the text after the last `':'`, or the vnid when that is empty |
| Vnid.ShortNameNoColon | nxtoolkit/nxphysobject.py:2274-2277 | a name without `':'` is its own short name, or the vnid when empty |
| Vnid.ParentDnOf | nxtoolkit/nxphysobject.py:2280 | the parent of `parent/leaf` is `parent` |
| Vnid.ParentDnSplit | nxtoolkit/nxphysobject.py:2280 | a dn is its parent, `'/'` and its last segment |
| Vnid.ContextsLastWins | nxtoolkit/nxphysobject.py:2256-2269 | each table entry comes from the last context with that vnid or name |
| Vnid.BridgeDomainWins | nxtoolkit/nxphysobject.py:2270-2292 | a bridge domain replaces a context with the same vnid, because bridge domains are processed after contexts |
| Vnid.BridgeDomainNameLastWins | nxtoolkit/nxphysobject.py:2285-2292 | `bd_dict` holds the vnid of the last bridge domain with each name |
| Vnid.ContextSurvives | nxtoolkit/nxphysobject.py:2251-2292 | a context vnid no bridge domain uses keeps its context entry |
| Vnid.ContextVnid | nxtoolkit/nxphysobject.py:2260-2263 | a context's vnid holds no `-`, and an encap without `-` is its own vnid |
| Vnid.BdVnid | nxtoolkit/nxphysobject.py:2273 | a bridge domain's vnid is computed as a context's is, and holds no `-` |
| Vnid.ShortName | nxtoolkit/nxphysobject.py:2274-2276 | the short name is the vnid or a non-empty name without `:` |
| Vnid.ParentDn | nxtoolkit/nxphysobject.py:2277-2279 | the parent dn is a prefix of the dn, which it completes with `/` and the last segment |
| Vnid.ContextOf | nxtoolkit/nxphysobject.py:2280-2286 | the context is the name of the record at the parent dn exactly when that record is an l3Ctx or l3Inst, otherwise None |
| Vnid.BdError | nxtoolkit/nxphysobject.py:2273-2281 | a bridge domain raises exactly when it does not resolve: IndexError exactly when fabEncap has no `-`, otherwise TypeError |
| Vnid.FirstUnresolved | nxtoolkit/nxphysobject.py:2272-2281 | the loop stops at a position where every earlier bridge domain resolves and the one there does not |
| Vnid.BridgeDomainLoop | nxtoolkit/nxphysobject.py:2270-2292 | the loop raises exactly when some bridge domain does not resolve, with IndexError or TypeError; otherwise the tables are the fold over all of them |
| Vnid.BridgeDomainLoopStops | nxtoolkit/nxphysobject.py:2272-2281 | the loop keeps the entries of the bridge domains before the first that raises, and that one's exception |
| Vnid.OrphanBridgeDomain | nxtoolkit/nxphysobject.py:2277-2281 | a bridge domain with nothing at its parent dn raises TypeError and changes no table |
| Vnid.EncapWithoutDash | nxtoolkit/nxphysobject.py:2273 | a fabEncap without `-` raises IndexError and changes no table |
| DnParse.PodAndId | nxtoolkit/nxphysobject.py:716-724 | pod and id are the second `'-'` fields of the second and third `'/'` segments; IndexError otherwise |
| DnParse.PodAndIdOf | nxtoolkit/nxphysobject.py:716-724 | a dn built from `pod-P` and `node-N` segments parses back to `(P, N)` |
| DnParse.PodAndIdExample | nxtoolkit/nxphysobject.py:716-724 | `topology/pod-1/node-101` gives `("1", "101")` |
| DnParse.PodAndIdTooShort | nxtoolkit/nxphysobject.py:716-724 | a dn with two segments raises IndexError |
| Links.FromAttributes | nxtoolkit/nxphysobject.py:1379-1394 | a link takes its six end fields and dn from the attributes, and pod and link id from the dn |
| Links.PortId1 | nxtoolkit/nxphysobject.py:1535-1542 | the first port id splits back into pod, node, slot and port of the first end |
| Links.PortId2 | nxtoolkit/nxphysobject.py:1544-1551 | the second port id splits back into pod, node, slot and port of the second end |
| Links.Equals | nxtoolkit/nxphysobject.py:1401-1410 | equal links have the same first port id |
| Links.EqualsIffPortId1 | nxtoolkit/nxphysobject.py:1401-1410 | two links are equal exactly when their first port ids are equal: the second end is ignored |
| Links.ToString | nxtoolkit/nxphysobject.py:1396-1399 | the text form splits into `n<node>`, `s<slot>`, `p<port>-n<node>`, `s<slot>`, `p<port>` |
| Links.ToStringDeterminesEnds | nxtoolkit/nxphysobject.py:1396-1399 | links with the same text have the same two ends |
| Nodes.PeerInfo | nxtoolkit/nxphysobject.py:808-819 | the vpcDom copy has its eleven keys, with the peer ip and domain id taken from the record |
| Nodes.ActiveVpcInfo | nxtoolkit/nxphysobject.py:800-819 | an active vPC summary holds the admin state, `active` and the eleven domain keys |
| Nodes.VpcInfo | nxtoolkit/nxphysobject.py:765-823 | the summary is active exactly when the admin state is enabled and a vpcDom exists; only then does it hold domain keys |
| Nodes.VpcWithoutInstance | nxtoolkit/nxphysobject.py:795-799 | without a vpcInst record the summary is disabled and inactive |
| Nodes.VpcEnabledWithoutDomain | nxtoolkit/nxphysobject.py:802-806 | enabled without a vpcDom is inactive |
| Nodes.InsertedCount | nxtoolkit/nxphysobject.py:877-908 | the module count never exceeds the slot count |
| Nodes.InsertedCountExtremes | nxtoolkit/nxphysobject.py:877-908 | the counts are equal exactly when every slot is inserted, and zero exactly when none is |
| Nodes.CountInserted | nxtoolkit/nxphysobject.py:886-890 | the counting loop gives the number of inserted slots |
| Nodes.CountModules | nxtoolkit/nxphysobject.py:877-908 | the four counting loops give the inserted counts of fans, linecards, PSUs and supervisors |
| Nodes.StoredAs | nxtoolkit/nxphysobject.py:846-848 | a record exactly when the object at the dn is of the given class (topSystem at `<dn>/sys`, eqptCh at `<dn>/sys/ch`), and then that object |
| Nodes.ChassisType | nxtoolkit/nxphysobject.py:957-971 | a type exactly for a non-empty model: no `'-'` in it, lower case, no longer than the model |
| Nodes.ChassisTypeOf | nxtoolkit/nxphysobject.py:965-967 | `FAMILY-rest` gives the lower-cased family |
| Nodes.ChassisTypeWhole | nxtoolkit/nxphysobject.py:965-967 | a non-empty model without `-` gives the whole model lower-cased |
| Nodes.Node.constructor | nxtoolkit/nxphysobject.py:609-658 | a new node keeps its name and role, and every fact starts unset and every count at zero |
| Nodes.NewNode | nxtoolkit/nxphysobject.py:618-620 | a role outside the valid roles raises ValueError; otherwise a new node |
| Nodes.Node.GetChassisType | nxtoolkit/nxphysobject.py:957-971 | the node's chassis type is that of its model |
| Nodes.Node.AddVpcInfo | nxtoolkit/nxphysobject.py:765-823 | the vPC summary is computed from the vpcInst object and vpcDom subtree at the node's vpc dn |
| Nodes.Node.GetFirmware | nxtoolkit/nxphysobject.py:738-747 | controllers keep their firmware; a switch without a dn raises TypeError and keeps it; other switches take the running version at the supervisor dn when present |
| Nodes.Node.GetTopsystemInfo | nxtoolkit/nxphysobject.py:843-924 | a node without a dn raises TypeError and changes nothing; otherwise the state the topSystem load describes, and modules never exceed slots |
| Nodes.Node.TopsystemInfoAt | nxtoolkit/nxphysobject.py:846-924 | nothing changes without a topSystem record; otherwise the system and chassis facts and the port, slot and module counts are those of the records at the dn |
| Nodes.Node.LoadTopsystem | nxtoolkit/nxphysobject.py:850-924 | the system fields, chassis fields when present, counts, and `unknown` load-balancing mode and vxlan port |
| Nodes.Node.LoadSystem | nxtoolkit/nxphysobject.py:850-857 | the address, tep ip, mac, state, mode, management addresses and uptime |
| Nodes.Node.LoadChassis | nxtoolkit/nxphysobject.py:860-865 | the chassis state, qualifier and description, only when a chassis record exists |
| Nodes.Node.LoadCounts | nxtoolkit/nxphysobject.py:867-919 | ports and fan slots only when non-empty, the other slots always, the module counts, and `unknown` modes |
| Nodes.Node.Equals | nxtoolkit/nxphysobject.py:825-831 | equal nodes look up the same vPC instance dn |
| Nodes.EqualsIgnoresFacts | nxtoolkit/nxphysobject.py:825-831 | nodes with the same pod, node, name and role are equal whatever their dn, model, firmware and other facts |
| Nodes.NewNodesEqual | nxtoolkit/nxphysobject.py:609-658 | two distinct nodes created with the same name and role are equal |
| Nodes.ExternalSwitch.constructor | nxtoolkit/nxphysobject.py:1075-1096 | a new external switch has role `external_switch` and no name |
| Nodes.ExternalSwitch.SetRole | nxtoolkit/nxphysobject.py:1133-1143 | only `None` and `external_switch` are accepted; otherwise ValueError and the role is unchanged |
| Nodes.NewSwitchesEqual | nxtoolkit/nxphysobject.py:1311-1314 | `__eq__` compares names only: two distinct new switches whose roles differ (one reset to None by the role setter) are equal both ways |
| Interfaces.ParseIfName | nxtoolkit/nxphysobject.py:1580-1591 | TypeError exactly when `eth` is absent; otherwise module and port joined by `'/'` are the name without `eth`, and ValueError unless there are exactly two fields |
| Interfaces.IfNameRoundTrip | nxtoolkit/nxphysobject.py:1580-1589 | `eth<module>/<port>` gives back module and port |
| Interfaces.IfNameThreeFields | nxtoolkit/nxphysobject.py:1585 | a name with a second `'/'` raises ValueError |
| Interfaces.ParseSegments | nxtoolkit/nxphysobject.py:1860-1865 | IndexError exactly without `'['`; type and module are the text after `'['`, and the port is a `']'`-free prefix of its segment |
| Interfaces.ParsePhysicalDn | nxtoolkit/nxphysobject.py:1855-1867 | succeeds exactly when there are four segments and the third holds `'['`; IndexError otherwise |
| Interfaces.ParsePathDn | nxtoolkit/nxphysobject.py:1869-1881 | succeeds exactly when there are three segments and the second holds `'['`; IndexError otherwise |
| Interfaces.ParseDn | nxtoolkit/nxphysobject.py:1883-1895 | the only error is IndexError; a result has a type of at most three characters and a port without `]` |
| Interfaces.Path | nxtoolkit/nxphysobject.py:1837-1841 | the path lies under `sys/intf/phys-[eth`, ends with `]` and holds the module and port |
| Interfaces.Url | nxtoolkit/nxphysobject.py:1815-1821 | the URL lies under `/api/mo/sys/intf/phys-[eth` and ends with `.` and the format |
| Interfaces.PathSegments | nxtoolkit/nxphysobject.py:1837-1841 | the path splits into `sys`, `intf`, `phys-[eth<module>` and `<port>]` |
| Interfaces.PathRoundTrip | nxtoolkit/nxphysobject.py:1837-1895 | `parse_dn` of an interface's path gives back `eth`, its module and its port |
| Interfaces.UrlInjective | nxtoolkit/nxphysobject.py:1815-1821 | two interfaces have the same URL exactly when they have the same module and port |
| Interfaces.ShortSysFormRejected | nxtoolkit/nxphysobject.py:1869-1895 | the documented short form raises IndexError through `parse_dn`, though the path parser reads it |
| Interfaces.ParseName | nxtoolkit/nxphysobject.py:1844-1852 | IndexError exactly with fewer than two words; ValueError unless the second word has exactly two `'/'` fields; otherwise the type, module and port |
| Interfaces.NameRoundTrip | nxtoolkit/nxphysobject.py:1844-1852 | `<type> <module>/<port>` gives back its three parts |
| Interfaces.NameWithPodRejected | nxtoolkit/nxphysobject.py:1844-1852 | the documented `<type> <pod>/<module>/<port>` raises ValueError |
| Interfaces.Interface.constructor | nxtoolkit/nxphysobject.py:1572-1613 | a new interface has the module and port its name parses to and the default configuration |
| Interfaces.NewInterface | nxtoolkit/nxphysobject.py:1572-1613 | the constructor fails exactly when the name does not parse, with the same error; otherwise defaults |
| Interfaces.Interface.SetLayer | nxtoolkit/nxphysobject.py:1634-1637 | only `Layer2` and `Layer3` are accepted; otherwise TypeError and the layer is unchanged |
| Interfaces.Interface.SetNativeVlan | nxtoolkit/nxphysobject.py:1691-1695 | always NotImplementedError, changing nothing |
| Interfaces.Interface.SetDescr | nxtoolkit/nxphysobject.py:1622-1623 | the description is the value given |
| Interfaces.Interface.SetMode | nxtoolkit/nxphysobject.py:1628-1629 | the mode is the value given |
| Interfaces.Interface.SetSnmpStatus | nxtoolkit/nxphysobject.py:1642-1643 | the SNMP trap state is the value given |
| Interfaces.Interface.SetAdminStatus | nxtoolkit/nxphysobject.py:1648-1649 | the admin state is the value given |
| Interfaces.Interface.SetSpeed | nxtoolkit/nxphysobject.py:1654-1655 | the speed is the value given |
| Interfaces.Interface.SetMtu | nxtoolkit/nxphysobject.py:1660-1661 | the MTU is the value given |
| Interfaces.Interface.SetLinkLog | nxtoolkit/nxphysobject.py:1666-1667 | the link log setting is the value given |
| Interfaces.Interface.SetTrunkLog | nxtoolkit/nxphysobject.py:1672-1673 | the trunk log setting is the value given |
| Interfaces.Interface.SetDuplex | nxtoolkit/nxphysobject.py:1678-1679 | the duplex is the value given |
| Interfaces.Interface.SetAccessVlan | nxtoolkit/nxphysobject.py:1684-1686 | the access VLAN is the value given |
| Interfaces.Interface.EnableCdp | nxtoolkit/nxphysobject.py:1708-1728 | afterwards CDP reads as enabled and not disabled |
| Interfaces.Interface.DisableCdp | nxtoolkit/nxphysobject.py:1708-1734 | afterwards CDP reads as disabled and not enabled |
| Interfaces.Interface.EnableLldp | nxtoolkit/nxphysobject.py:1736-1756 | afterwards LLDP reads as enabled and not disabled |
| Interfaces.Interface.DisableLldp | nxtoolkit/nxphysobject.py:1736-1762 | afterwards LLDP reads as disabled and not enabled |
| Interfaces.Interface.Attributes | nxtoolkit/nxphysobject.py:1781-1813 | `id` always; every other key exactly when its field is truthy, with that field's value; no other keys |
| Interfaces.PortAttributes | nxtoolkit/nxphysobject.py:1786-1797 | accessVlan, trunkVlans, mtu, adminSt, speed and layer are each sent exactly when set and non-empty |
| Interfaces.LinkAttributes | nxtoolkit/nxphysobject.py:1798-1809 | snmpTrapSt, descr, duplex, mode, linkLog and trunkLog are each sent exactly when set and non-empty |
| Interfaces.DefaultAttributes | nxtoolkit/nxphysobject.py:1600-1613 | a new interface sends mtu 1500, speed 10G, mode access, duplex auto, three `default` settings and its id, and nothing else |
| Interfaces.EqualsIffSamePath | nxtoolkit/nxphysobject.py:2101-2108 | two interfaces are equal exactly when they have the same REST path |
| Interfaces.Interface.Equals | nxtoolkit/nxphysobject.py:2101-2108 | two valid interfaces with the same name are equal, whatever their configuration |
| Discovery.ProtocolOf | nxtoolkit/nxphysobject.py:1922-1933 | only `cdp` and `lldp` are accepted; anything else raises ValueError |
| Discovery.CollectPolicies | nxtoolkit/nxphysobject.py:1912-1919 | the policy loop builds the name-to-state table of the policy records, later names overwriting earlier ones |
| Discovery.PolicyFound | nxtoolkit/nxphysobject.py:1912-1919 | a policy maps to the admin state (CDP) or transmit state (LLDP) of the last record with its name |
| Discovery.PolicyAbsent | nxtoolkit/nxphysobject.py:1912-1919 | a name no policy record carries has no entry |
| Discovery.RelationTarget | nxtoolkit/nxphysobject.py:1941-1947 | a relation names a policy and an `eth` interface; its errors are parse errors, never KeyError |
| Discovery.RelationTargetRoundTrip | nxtoolkit/nxphysobject.py:1941-1947 | a relation whose target dn ends in the policy marker and a name, and whose own dn is an interface path followed by the relation suffix, names exactly that policy and the `eth` interface with that module and port |
| Discovery.FirstMatch | nxtoolkit/nxphysobject.py:1948-1960 | the position of the first equal interface, or none exactly when there is no equal interface |
| Discovery.FindInterface | nxtoolkit/nxphysobject.py:1948-1960 | the inner loop stops at the first interface equal to the searched one |
| Discovery.Step | nxtoolkit/nxphysobject.py:1939-1960 | other classes change nothing; a KeyError arises exactly when a matching interface exists and its policy is missing; only the first interface equal to the target changes, and it takes `enabled` or `disabled` from the policy's state |
| Discovery.ApplyPermitted | nxtoolkit/nxphysobject.py:1939-1960 | across all relations only the first of several equal interfaces changes, and only to `enabled` or `disabled` |
| Discovery.ApplyUntargeted | nxtoolkit/nxphysobject.py:1939-1960 | an interface that no relation of the class names keeps its CDP/LLDP state through the whole loop |
| Discovery.ApplyLastWins | nxtoolkit/nxphysobject.py:1939-1960 | when the loop ends without error, the first interface equal to a relation's target ends enabled or disabled according to the policy of the last relation naming it |
| Discovery.ApplyStopsAtError | nxtoolkit/nxphysobject.py:1939-1960 | an exception ends the loop: later relations change nothing |
| Discovery.ApplyIgnoresOtherClasses | nxtoolkit/nxphysobject.py:1939-1940 | records of other classes are ignored |
| Discovery.SetState | nxtoolkit/nxphysobject.py:1950-1959 | a policy in state `enabled` enables the protocol, any other state disables it, and the other protocol is untouched |
| Discovery.ApplyOne | nxtoolkit/nxphysobject.py:1939-1960 | one iteration of the loop is one step of the specification |
| Discovery.ApplyAt | nxtoolkit/nxphysobject.py:1939-1960 | iteration i of the loop, from a state equal to the fold over the first i relations, reaches the fold over i + 1 and leaves the other protocol untouched |
| Discovery.ApplyRelations | nxtoolkit/nxphysobject.py:1939-1961 | the loop leaves the interfaces' states and its error equal to the fold over the relations; the other protocol is untouched |
| Discovery.DiscoveryRelations | nxtoolkit/nxphysobject.py:1922-1961 | an unknown protocol raises ValueError with nothing changed; otherwise the relations are applied |
| EthernetPortManager.Ethpm.constructor | nxtoolkit/nxphysobject.py:2527-2538 | a missing or empty name becomes `""`, and every setting starts unset |
| EthernetPortManager.Ethpm.SetUnsupportedTransceiver | nxtoolkit/nxphysobject.py:2540-2541 | the unsupported-transceiver setting is the value given |
| EthernetPortManager.Ethpm.SetDefaultAdminSt | nxtoolkit/nxphysobject.py:2546-2547 | the default admin state is the value given |
| EthernetPortManager.Ethpm.SetDefaultLayer | nxtoolkit/nxphysobject.py:2552-2553 | the default layer is the value given |
| EthernetPortManager.Ethpm.SetJumboMtu | nxtoolkit/nxphysobject.py:2558-2559 | the jumbo MTU is the value given |
| EthernetPortManager.Ethpm.Attributes | nxtoolkit/nxphysobject.py:2565-2575 | each setting is sent under its key exactly when set and non-empty, and nothing else |
| EthernetPortManager.NewSendsNothing | nxtoolkit/nxphysobject.py:2527-2575 | a new port manager sends no attributes |
| EthernetPortManager.Url | nxtoolkit/nxphysobject.py:2580-2581 | the URL is `/api/mo/sys/ethpm/inst.` followed by the format |
| EthernetPortManager.UrlSegments | nxtoolkit/nxphysobject.py:2580-2581 | the URL addresses `sys/ethpm/inst` with the format as the extension, whatever the state |

## Left out

- Session and HTTP I/O: every `session.get` and JSON decoding. This covers `WorkingData.add`'s query, `Interface.get`, `Fan.get`, `Process.get`, `System.get`, `Ethpm.get`, `Node.get_health` and the ExternalSwitch fetches. The records they would return are inputs. The policy records of `_get_discoveryprot_policies` and the relation records of `_get_discoveryprot_relations` are inputs too.
- `WorkingData.add`'s session and query: a call without a session returns before anything else and is not modelled; the decoded `imdata` list is the input.
- `WorkingData.add`'s `rawjson` field is not kept. For a non-empty list the `'error' not in` test asks whether the string `error` is an element of a list of records, which it never is, so the model indexes every non-empty response.
- Report rendering (`get_table`, searchables), the base-class tree plumbing (parents, children, `get_json`, `check_parent`) and `Link.get_node1` … `get_port2`: that code is not part of this model.
- The `_populate_from_attributes` copies other than Link's, `Process._populate_stats`, `InterfaceStats` and the `Concrete*` classes: field copies with no logic.
- The getters: each returns a field, and the model's fields are public.
- Stubs: `Node.get` and `Link.get` return nothing. `Interface.set_native_vlan` is modelled by `SetNativeVlan`.
- Nodes.Node.constructor: does not model the TypeError for a non-string name; names are strings here.
- Nodes.Node.constructor: `pod` and `node` come from the base class, which is not part of this model; a new node is taken to have both unset.
- Nodes.Node.LoadCounts: the load-balancing mode stays `unknown`. The loop that would set it inspects `eqptSupCSlot` records for a `topoctrlLbP` key, which a single-tagged record never has.
- Nodes.Node.GetTopsystemInfo: computes the module counts before storing the facts, where the source interleaves them. The fields are disjoint, so the final state is the same.
- Interfaces.Interface.Attributes: the setters accept only optional strings, so Python truthiness of other value types (numbers, lists) is not modelled.
- Interfaces.Interface.Attributes: the result is a map, so the insertion order of keys in the Python dict is not modelled.
- Interfaces.NewInterface: the copied `attributes` dict, parent registration, session and `InterfaceStats` are not modelled. The search interface of the discovery loop is represented by its identity (`eth`, module, port) rather than by a new object.
- Discovery.ApplyRelations: requires the interface objects in the list to be distinct, so aliasing (the same object listed twice) is not modelled.
- Discovery.RelationTarget: requires `tDn` and `dn` on each relation record; a missing key (a KeyError in the source) is not modelled.
- PyStr.Lower: lowers ASCII letters only.
- `Link` is a value (a datatype) rather than an object, since nothing updates it after population.
- EthernetPortManager.Ethpm.constructor: the session and the base-class name handling are not modelled.

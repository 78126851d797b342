/** Switch nodes (`fabricNode`) and the facts a node reads out of a
    WorkingData cache: its vPC state, its slot and module counts, its
    firmware version and its chassis type; and external (LLDP-discovered)
    switches. */
module Nodes {
  import opened Results
  import opened PyStr
  import opened Records
  import opened Index

  /** The roles a node may be created with. */
  const ValidNodeRoles: set<Option<string>> :=
    {None, Some("spine"), Some("leaf"), Some("controller"), Some("vleaf"), Some("vip"),
     Some("protection-chain"), Some("unsupported")}

  /** `'{0}'.format(value)` of an optional string: "None" when absent. */
  function Format(o: Option<string>): string {
    if o.Some? then o.value else "None"
  }

  /** `str(attributes.get(key))`: "None" when the key is absent. */
  function StrGet(attrs: map<string, string>, key: string): string {
    if key in attrs then attrs[key] else "None"
  }

  // ---------------------------------------------------------------------
  // vPC

  /** The dn of a node's vPC instance. */
  function VpcInstDn(pod: Option<string>, node: Option<string>): string {
    "topology/pod-" + Format(pod) + "/node-" + Format(node) + "/sys/vpc/inst"
  }

  /** The summary keys filled from a vpcDom record when the vPC is active. */
  const VpcDomKeys: set<string> :=
    {"domain_id", "system_mac", "local_mac", "monitoring_policy", "peer_ip", "peer_mac",
     "peer_version", "peer_state", "vtep_ip", "vtep_mac", "oper_role"}

  predicate IsVpcInst(obj: Option<Record>) {
    obj.Some? && obj.value.tag == "vpcInst"
  }

  predicate HasVpcDom(dom: seq<Record>) {
    |dom| > 0 && dom[0].tag == "vpcDom"
  }

  /** The vpcDom attributes the summary copies. */
  predicate VpcDomComplete(d: map<string, string>) {
    "id" in d && "sysMac" in d && "localMAC" in d && "monPolDn" in d && "peerIp" in d &&
    "peerMAC" in d && "peerVersion" in d && "peerSt" in d && "virtualIp" in d &&
    "vpcMAC" in d && "operRole" in d
  }

  /** What `_add_vpc_info` reads: the vpcInst's adminSt, and the copied
      attributes of the first vpcDom. */
  predicate VpcReady(obj: Option<Record>, dom: seq<Record>) {
    (IsVpcInst(obj) ==> "adminSt" in obj.value.attrs) &&
    (HasVpcDom(dom) ==> VpcDomComplete(dom[0].attrs))
  }

  /** The admin state: the vpcInst's adminSt, or 'disabled' when there is
      no vpcInst record. */
  function VpcAdmin(obj: Option<Record>): string
    requires IsVpcInst(obj) ==> "adminSt" in obj.value.attrs
  {
    if IsVpcInst(obj) then obj.value.attrs["adminSt"] else "disabled"
  }

  /** The summary of an active vPC: the admin state and the copied
      vpcDom attributes. */
  /** The peer data copied from a vpcDom record, under the summary's own key names. */
  function PeerInfo(d: map<string, string>): (r: map<string, string>)
    requires VpcDomComplete(d)
    ensures r.Keys == VpcDomKeys
    ensures r["peer_ip"] == d["peerIp"] && r["domain_id"] == d["id"]
  {
    map["domain_id" := d["id"], "system_mac" := d["sysMac"], "local_mac" := d["localMAC"],
        "monitoring_policy" := d["monPolDn"], "peer_ip" := d["peerIp"], "peer_mac" := d["peerMAC"],
        "peer_version" := d["peerVersion"], "peer_state" := d["peerSt"], "vtep_ip" := d["virtualIp"],
        "vtep_mac" := d["vpcMAC"], "oper_role" := d["operRole"]]
  }

  /** The summary of an enabled instance with a vpcDom record: active, with the peer data. */
  function ActiveVpcInfo(admin: string, d: map<string, string>): (r: map<string, string>)
    requires VpcDomComplete(d)
    ensures r.Keys == {"admin_state", "oper_state"} + VpcDomKeys
    ensures r["admin_state"] == admin && r["oper_state"] == "active"
    ensures r["peer_ip"] == d["peerIp"] && r["domain_id"] == d["id"]
  {
    PeerInfo(d)["admin_state" := admin]["oper_state" := "active"]
  }

  /** The `vpc_info` summary given the record at the vPC instance dn and the
      vpcDom records under it. The peer data is present exactly when the
      summary is active, which it is exactly when the instance is enabled
      and a vpcDom record exists. */
  function VpcInfo(obj: Option<Record>, dom: seq<Record>): (r: map<string, string>)
    requires VpcReady(obj, dom)
    ensures "admin_state" in r && "oper_state" in r && r["admin_state"] == VpcAdmin(obj)
    ensures r["oper_state"] == "active" || r["oper_state"] == "inactive"
    ensures r["oper_state"] == "active" <==> r["admin_state"] == "enabled" && HasVpcDom(dom)
    ensures r["oper_state"] == "active" ==> r.Keys == {"admin_state", "oper_state"} + VpcDomKeys
    ensures r["oper_state"] == "inactive" ==> r.Keys == {"admin_state", "oper_state"}
    ensures r["oper_state"] == "active" ==>
              r["peer_ip"] == dom[0].attrs["peerIp"] && r["domain_id"] == dom[0].attrs["id"]
  {
    var admin := VpcAdmin(obj);
    if admin == "enabled" && HasVpcDom(dom) then ActiveVpcInfo(admin, dom[0].attrs)
    else map["admin_state" := admin, "oper_state" := "inactive"]
  }

  /** Without a vpcInst record the summary is exactly disabled and inactive. */
  lemma VpcWithoutInstance(obj: Option<Record>, dom: seq<Record>)
    requires VpcReady(obj, dom) && !IsVpcInst(obj)
    ensures VpcInfo(obj, dom) == map["admin_state" := "disabled", "oper_state" := "inactive"]
  {
  }

  /** An enabled instance without a vpcDom record is inactive, with no peer data. */
  lemma VpcEnabledWithoutDomain(obj: Option<Record>)
    requires VpcReady(obj, []) && IsVpcInst(obj) && obj.value.attrs["adminSt"] == "enabled"
    ensures VpcInfo(obj, []) == map["admin_state" := "enabled", "oper_state" := "inactive"]
  {
  }

  // ---------------------------------------------------------------------
  // Slot and module counting

  predicate AllHaveOperSt(slots: seq<Record>) {
    forall i :: 0 <= i < |slots| ==> "operSt" in slots[i].attrs
  }

  /** A slot whose operSt is 'inserted'. */
  predicate Inserted(slot: Record) {
    "operSt" in slot.attrs && slot.attrs["operSt"] == "inserted"
  }

  /** The number of slots whose operSt is 'inserted'; never more than the slots. */
  function InsertedCount(slots: seq<Record>): (n: nat)
    ensures n <= |slots|
    decreases |slots|
  {
    if |slots| == 0 then 0
    else
      var front := slots[..|slots| - 1];
      InsertedCount(front) + (if Inserted(slots[|slots| - 1]) then 1 else 0)
  }

  /** Every slot is counted exactly when every slot is filled, and none is
      counted exactly when none is. */
  lemma {:induction false} InsertedCountExtremes(slots: seq<Record>)
    ensures InsertedCount(slots) == |slots| <==> forall i :: 0 <= i < |slots| ==> Inserted(slots[i])
    ensures InsertedCount(slots) == 0 <==> forall i :: 0 <= i < |slots| ==> !Inserted(slots[i])
    decreases |slots|
  {
    if |slots| > 0 {
      var front := slots[..|slots| - 1];
      InsertedCountExtremes(front);
      assert forall i :: 0 <= i < |front| ==> front[i] == slots[i];
    }
  }

  /** The module-counting loop of `_get_topsystem_info`. */
  method CountInserted(slots: seq<Record>) returns (n: nat)
    requires AllHaveOperSt(slots)
    ensures n == InsertedCount(slots)
  {
    n := 0;
    var i := 0;
    while i < |slots|
      invariant 0 <= i <= |slots|
      invariant n == InsertedCount(slots[..i])
    {
      assert slots[..i + 1][..i] == slots[..i];
      if slots[i].attrs["operSt"] == "inserted" {
        n := n + 1;
      }
      i := i + 1;
    }
    assert slots[..|slots|] == slots;
  }

  /** The number of inserted fan, linecard, power-supply and supervisor modules. */
  datatype ModuleCounts = ModuleCounts(fans: nat, linecards: nat, psus: nat, sups: nat)

  /** The inserted modules of each slot kind. */
  function ModulesOf(inv: Inventory): ModuleCounts {
    ModuleCounts(InsertedCount(inv.fans), InsertedCount(inv.linecards), InsertedCount(inv.psus), InsertedCount(inv.sups))
  }

  /** The four module-counting loops of `_get_topsystem_info`. */
  method CountModules(inv: Inventory) returns (r: ModuleCounts)
    requires inv.Ok()
    ensures r.fans == InsertedCount(inv.fans) && r.linecards == InsertedCount(inv.linecards)
    ensures r.psus == InsertedCount(inv.psus) && r.sups == InsertedCount(inv.sups)
  {
    var fans := CountInserted(inv.fans);
    var linecards := CountInserted(inv.linecards);
    var psus := CountInserted(inv.psus);
    var sups := CountInserted(inv.sups);
    r := ModuleCounts(fans, linecards, psus, sups);
  }

  /** The record stored at `dn` when it is of class `tag`: the
      `get_object(dn)` followed by the `'<tag>' in data` test. */
  function StoredAs(wd: WorkingData, dn: string, tag: string): (r: Option<Record>)
    reads wd
    requires wd.Valid()
    ensures r.Some? <==> dn in wd.byDn && wd.byDn[dn].tag == tag
    ensures r.Some? ==> r.value == wd.byDn[dn]
  {
    var obj := wd.GetObject(dn);
    if obj.Some? && obj.value.tag == tag then obj else None
  }

  /** The topSystem record of the node at `dn`. */
  function TopSystem(wd: WorkingData, dn: string): Option<Record>
    reads wd
    requires wd.Valid()
  {
    StoredAs(wd, dn + "/sys", "topSystem")
  }

  /** The eqptCh record of the node at `dn`. */
  function Chassis(wd: WorkingData, dn: string): Option<Record>
    reads wd
    requires wd.Valid()
  {
    StoredAs(wd, dn + "/sys/ch", "eqptCh")
  }

  /** What `_get_topsystem_info` reads of the cache, all of it only once a
      topSystem record is present: the system attributes, the chassis
      attributes when that record exists, and the slot states. */
  predicate TopsystemReady(wd: WorkingData, dn: string)
    reads wd
    requires wd.Valid()
  {
    var top := TopSystem(wd, dn);
    var ch := Chassis(wd, dn);
    top.Some? ==>
      HasTopSystemAttributes(top.value.attrs) &&
      (ch.Some? ==> HasChassisAttributes(ch.value.attrs)) &&
      InventoryOf(wd, dn).Ok()
  }

  // ---------------------------------------------------------------------
  // Chassis type

  /** `get_chassis_type`: the lower-cased text before the first '-' of a
      non-empty model, else None. */
  function ChassisType(model: Option<string>): (r: Option<string>)
    ensures r.Some? <==> model.Some? && model.value != ""
    ensures r.Some? ==> |r.value| <= |model.value| && '-' !in r.value
    ensures r.Some? ==> forall i :: 0 <= i < |r.value| ==> !('A' <= r.value[i] <= 'Z')
  {
    if model.Some? && model.value != "" then
      var first := Split(model.value, "-")[0];
      SplitFirstPrefix(model.value, '-');
      Some(Lower(first))
    else None
  }

  /** A non-empty model without '-' has the whole model, lower-cased, as
      its chassis type. */
  lemma ChassisTypeWhole(model: string)
    requires model != "" && '-' !in model
    ensures ChassisType(Some(model)) == Some(Lower(model))
  {
    SplitNoSep(model, '-');
  }

  /** A model "<family>-<rest>" has chassis type `family` lower-cased. */
  lemma ChassisTypeOf(family: string, rest: string)
    requires '-' !in family
    ensures ChassisType(Some(family + "-" + rest)) == Some(Lower(family))
  {
    SplitAround(family, '-', rest);
    SplitNoSep(family, '-');
    assert family + "-" + rest == family + ['-'] + rest;
  }

  // ---------------------------------------------------------------------
  // The node object

  class Node {
    var name: Option<string>
    var role: Option<string>
    var pod: Option<string>
    var node: Option<string>
    var dn: Option<string>
    var model: Option<string>
    var firmware: Option<string>
    var vpcInfo: Option<map<string, string>>
    var ipAddress: Option<string>
    var tepIp: Option<string>
    var macAddress: Option<string>
    var state: Option<string>
    var mode: Option<string>
    var oobMgmtIp: Option<string>
    var inbMgmtIp: Option<string>
    var systemUptime: Option<string>
    var operSt: Option<string>
    var operStQual: Option<string>
    var descr: Option<string>
    var numPorts: nat
    var numFanSlots: nat
    var numFanModules: nat
    var numLcSlots: nat
    var numLcModules: nat
    var numPsSlots: nat
    var numPsModules: nat
    var numSupSlots: nat
    var numSupModules: nat
    var dynamicLoadBalancingMode: Option<string>
    var ivxlanUdpPort: Option<string>

    /** No slot kind counts more modules than slots. */
    ghost predicate CountsOk()
      reads this`numFanModules, this`numFanSlots, this`numLcModules, this`numLcSlots
      reads this`numPsModules, this`numPsSlots, this`numSupModules, this`numSupSlots
    {
      numFanModules <= numFanSlots && numLcModules <= numLcSlots &&
      numPsModules <= numPsSlots && numSupModules <= numSupSlots
    }

    /** A node as `__init__` leaves it: every counter 0, every fact unknown. */
    constructor (name: Option<string>, role: Option<string>)
      requires role in ValidNodeRoles
      ensures this.name == name && this.role == role
      ensures pod == None && node == None && dn == None && model == None
      ensures firmware == None && vpcInfo == None && dynamicLoadBalancingMode == None
      ensures ipAddress == None && tepIp == None && macAddress == None && state == None && mode == None
      ensures operSt == None && operStQual == None && descr == None
      ensures oobMgmtIp == None && inbMgmtIp == None && systemUptime == None
      ensures numPorts == 0 && numFanSlots == 0 && numFanModules == 0 && numLcSlots == 0
      ensures numLcModules == 0 && numPsSlots == 0 && numPsModules == 0
      ensures numSupSlots == 0 && numSupModules == 0
      ensures CountsOk()
    {
      this.name := name;
      this.role := role;
      pod, node, dn, model, firmware, vpcInfo := None, None, None, None, None, None;
      ipAddress, tepIp, macAddress, state, mode := None, None, None, None, None;
      oobMgmtIp, inbMgmtIp, systemUptime := None, None, None;
      operSt, operStQual, descr := None, None, None;
      numPorts, numFanSlots, numFanModules, numLcSlots, numLcModules := 0, 0, 0, 0, 0;
      numPsSlots, numPsModules, numSupSlots, numSupModules := 0, 0, 0, 0;
      dynamicLoadBalancingMode, ivxlanUdpPort := None, None;
    }

    /** `__eq__`: pod, node number, name and role; nothing else is compared.
        Equal nodes look up the same vPC instance. */
    predicate Equals(other: Node)
      reads this, other
      ensures Equals(other) ==> VpcInstDn(pod, node) == VpcInstDn(other.pod, other.node)
    {
      pod == other.pod && node == other.node && name == other.name && role == other.role
    }

    /** `get_chassis_type` of this node. */
    function GetChassisType(): (r: Option<string>)
      reads this
      ensures r.Some? <==> model.Some? && model.value != ""
    {
      ChassisType(model)
    }

    /** `_add_vpc_info`: look up the vPC instance and its vpcDom subtree and
        store the summary. */
    method AddVpcInfo(wd: WorkingData)
      requires wd.Valid()
      requires VpcReady(wd.GetObject(VpcInstDn(pod, node)), wd.GetSubtree("vpcDom", VpcInstDn(pod, node)))
      modifies this`vpcInfo
      ensures vpcInfo == Some(VpcInfo(wd.GetObject(VpcInstDn(pod, node)), wd.GetSubtree("vpcDom", VpcInstDn(pod, node))))
    {
      var partialDn := VpcInstDn(pod, node);
      var adminState := "disabled";
      var data := wd.GetObject(partialDn);
      if data.Some? && data.value.tag == "vpcInst" {
        adminState := data.value.attrs["adminSt"];
      }
      var result := map["admin_state" := adminState];
      if adminState == "enabled" {
        result := result["oper_state" := "inactive"];
        var dom := wd.GetSubtree("vpcDom", partialDn);
        if |dom| > 0 && dom[0].tag == "vpcDom" {
          var d := dom[0].attrs;
          result := ActiveVpcInfo(adminState, d);
        }
      } else {
        result := result["oper_state" := "inactive"];
      }
      assert result == VpcInfo(data, wd.GetSubtree("vpcDom", partialDn));
      vpcInfo := Some(result);
    }

    /** `get_firmware`: for a node that is not a controller, the version of
        the running-firmware record under its supervisor slot 1, if present. */
    method GetFirmware(wd: WorkingData) returns (err: Option<PyError>)
      requires wd.Valid()
      requires role != Some("controller") && dn.Some? ==> FirmwareReady(wd, dn.value)
      modifies this`firmware
      ensures err.Some? <==> role != Some("controller") && dn.None?
      ensures err.Some? ==> err.value == TypeError
      ensures role == Some("controller") || dn.None? ==> firmware == old(firmware)
      ensures role != Some("controller") && dn.Some? ==> firmware == RunningFirmware(wd, dn.value, old(firmware))
    {
      err := None;
      if role != Some("controller") {
        if dn.None? {
          return Some(TypeError);
        }
        var runningDn := dn.value + "/sys/ch/supslot-1/sup/running";
        var data := wd.GetObject(runningDn);
        if data.Some? && data.value.tag == "firmwareCardRunning" {
          firmware := Some(data.value.attrs["version"]);
        }
      }
    }

    /** `_get_topsystem_info`: a node without a dn raises TypeError and
        changes nothing; otherwise the node holds what `TopsystemLoaded`
        describes. */
    method GetTopsystemInfo(wd: WorkingData) returns (err: Option<PyError>)
      requires wd.Valid() && CountsOk()
      requires dn.Some? ==> TopsystemReady(wd, dn.value)
      modifies this`ipAddress, this`tepIp, this`macAddress, this`state, this`mode
      modifies this`oobMgmtIp, this`inbMgmtIp, this`systemUptime, this`operSt, this`operStQual, this`descr
      modifies this`numPorts, this`numFanSlots, this`numFanModules, this`numLcSlots, this`numLcModules
      modifies this`numPsSlots, this`numPsModules, this`numSupSlots, this`numSupModules
      modifies this`dynamicLoadBalancingMode, this`ivxlanUdpPort
      ensures err.Some? <==> dn.None?
      ensures err.Some? ==> err.value == TypeError
      ensures dn.None? ==> FactsUnchanged()
      ensures CountsOk()
      ensures dn.Some? ==> TopsystemLoaded(wd, dn.value)
    {
      if dn.None? {
        return Some(TypeError);
      }
      err := None;
      TopsystemInfoAt(wd, dn.value);
    }

    /** `_get_topsystem_info` for the node at `d`. */
    method TopsystemInfoAt(wd: WorkingData, d: string)
      requires wd.Valid() && TopsystemReady(wd, d) && CountsOk()
      modifies this`ipAddress, this`tepIp, this`macAddress, this`state, this`mode
      modifies this`oobMgmtIp, this`inbMgmtIp, this`systemUptime, this`operSt, this`operStQual, this`descr
      modifies this`numPorts, this`numFanSlots, this`numFanModules, this`numLcSlots, this`numLcModules
      modifies this`numPsSlots, this`numPsModules, this`numSupSlots, this`numSupModules
      modifies this`dynamicLoadBalancingMode, this`ivxlanUdpPort
      ensures CountsOk()
      ensures TopsystemLoaded(wd, d)
    {
      var nodeData := TopSystem(wd, d);
      if nodeData.Some? {
        var inv := InventoryOf(wd, d);
        var modules := CountModules(inv);
        var f := FactsOf(nodeData.value.attrs, Chassis(wd, d), inv, modules);
        assert FactsAt(wd, d) == Some(f);
        LoadTopsystem(f);
      }
    }

    /** None of the facts `_get_topsystem_info` may store has changed. */
    twostate predicate FactsUnchanged()
      reads this
    {
      unchanged(this`ipAddress, this`tepIp, this`macAddress, this`state, this`mode) &&
      unchanged(this`oobMgmtIp, this`inbMgmtIp, this`systemUptime, this`operSt, this`operStQual, this`descr) &&
      unchanged(this`numPorts, this`numFanSlots, this`numFanModules, this`numLcSlots, this`numLcModules) &&
      unchanged(this`numPsSlots, this`numPsModules, this`numSupSlots, this`numSupModules) &&
      unchanged(this`dynamicLoadBalancingMode, this`ivxlanUdpPort)
    }

    /** The state `_get_topsystem_info` leaves for the node at `d`: nothing
        changes unless a topSystem record is stored at `<d>/sys`; then the
        system facts are copied, the chassis facts when an eqptCh record
        exists, and the ports, fan, linecard, power-supply and supervisor
        slots are counted, ports and fan slots only when any exist. */
    twostate predicate TopsystemLoaded(wd: WorkingData, d: string)
      reads this, wd
      requires wd.Valid() && TopsystemReady(wd, d)
    {
      var f := FactsAt(wd, d);
      (f.None? ==> FactsUnchanged()) && (f.Some? ==> Loaded(f.value))
    }

    /** The node holds the facts `f`: the system facts, the chassis facts
        when there are any (else the old ones), the port and fan-slot counts
        when non-zero (else the old ones), the other counts, and the two
        tunables left unknown. */
    twostate predicate Loaded(f: TopsystemFacts)
      reads this
    {
      ipAddress == Some(f.address) && tepIp == ipAddress && macAddress == Some(f.fabricMac) &&
      state == Some(f.state) && mode == Some(f.mode) && oobMgmtIp == Some(f.oobMgmtIp) &&
      inbMgmtIp == Some(f.inbMgmtIp) && systemUptime == Some(f.systemUptime) &&
      (if f.chassis.Some? then
         operSt == Some(f.chassis.value.operSt) && operStQual == Some(f.chassis.value.operStQual) &&
         descr == Some(f.chassis.value.descr)
       else operSt == old(operSt) && operStQual == old(operStQual) && descr == old(descr)) &&
      numPorts == (if f.ports > 0 then f.ports else old(numPorts)) &&
      numFanSlots == (if f.fanSlots > 0 then f.fanSlots else old(numFanSlots)) &&
      numFanModules == f.fanModules && numLcSlots == f.lcSlots && numLcModules == f.lcModules &&
      numPsSlots == f.psSlots && numPsModules == f.psModules &&
      numSupSlots == f.supSlots && numSupModules == f.supModules &&
      dynamicLoadBalancingMode == Some("unknown") && ivxlanUdpPort == Some("unknown")
    }

    /** Every store `_get_topsystem_info` makes once a topSystem record is
        found, given the facts it read from the cache. */
    method LoadTopsystem(f: TopsystemFacts)
      modifies this`ipAddress, this`tepIp, this`macAddress, this`state, this`mode
      modifies this`oobMgmtIp, this`inbMgmtIp, this`systemUptime, this`operSt, this`operStQual, this`descr
      modifies this`numPorts, this`numFanSlots, this`numFanModules, this`numLcSlots, this`numLcModules
      modifies this`numPsSlots, this`numPsModules, this`numSupSlots, this`numSupModules
      modifies this`dynamicLoadBalancingMode, this`ivxlanUdpPort
      ensures Loaded(f)
    {
      LoadCounts(f);
      LoadChassis(f.chassis);
      LoadSystem(f);
    }

    /** The topSystem facts. */
    method LoadSystem(f: TopsystemFacts)
      modifies this`ipAddress, this`tepIp, this`macAddress, this`state, this`mode
      modifies this`oobMgmtIp, this`inbMgmtIp, this`systemUptime
      ensures ipAddress == Some(f.address) && tepIp == ipAddress && macAddress == Some(f.fabricMac) &&
        state == Some(f.state) && mode == Some(f.mode) && oobMgmtIp == Some(f.oobMgmtIp) &&
        inbMgmtIp == Some(f.inbMgmtIp) && systemUptime == Some(f.systemUptime)
    {
      ipAddress := Some(f.address);
      tepIp := ipAddress;
      macAddress := Some(f.fabricMac);
      state := Some(f.state);
      mode := Some(f.mode);
      oobMgmtIp := Some(f.oobMgmtIp);
      inbMgmtIp := Some(f.inbMgmtIp);
      systemUptime := Some(f.systemUptime);
    }

    /** The eqptCh facts, when that record exists. */
    method LoadChassis(c: Option<ChassisFacts>)
      modifies this`operSt, this`operStQual, this`descr
      ensures if c.Some? then
          operSt == Some(c.value.operSt) && operStQual == Some(c.value.operStQual) && descr == Some(c.value.descr)
        else operSt == old(operSt) && operStQual == old(operStQual) && descr == old(descr)
    {
      if c.Some? {
        operSt := Some(c.value.operSt);
        operStQual := Some(c.value.operStQual);
        descr := Some(c.value.descr);
      }
    }

    /** The port, slot and module counters, ports and fan slots only when
        some exist, and the two tunables left unknown. */
    method LoadCounts(f: TopsystemFacts)
      modifies this`numPorts, this`numFanSlots, this`numFanModules, this`numLcSlots, this`numLcModules
      modifies this`numPsSlots, this`numPsModules, this`numSupSlots, this`numSupModules
      modifies this`dynamicLoadBalancingMode, this`ivxlanUdpPort
      ensures numPorts == (if f.ports > 0 then f.ports else old(numPorts)) &&
        numFanSlots == (if f.fanSlots > 0 then f.fanSlots else old(numFanSlots)) &&
        numFanModules == f.fanModules && numLcSlots == f.lcSlots && numLcModules == f.lcModules &&
        numPsSlots == f.psSlots && numPsModules == f.psModules &&
        numSupSlots == f.supSlots && numSupModules == f.supModules
      ensures dynamicLoadBalancingMode == Some("unknown") && ivxlanUdpPort == Some("unknown")
    {
      if f.ports > 0 {
        numPorts := f.ports;
      }
      if f.fanSlots > 0 {
        numFanSlots := f.fanSlots;
      }
      numFanModules, numLcSlots, numLcModules := f.fanModules, f.lcSlots, f.lcModules;
      numPsSlots, numPsModules := f.psSlots, f.psModules;
      numSupSlots, numSupModules := f.supSlots, f.supModules;
      dynamicLoadBalancingMode, ivxlanUdpPort := Some("unknown"), Some("unknown");
    }
  }

  predicate HasTopSystemAttributes(top: map<string, string>) {
    "address" in top && "fabricMAC" in top && "state" in top && "mode" in top
  }

  predicate HasChassisAttributes(ch: map<string, string>) {
    "operSt" in ch && "operStQual" in ch && "descr" in ch
  }

  /** The five subtrees `_get_topsystem_info` counts. */
  datatype Inventory = Inventory(ports: seq<Record>, fans: seq<Record>, linecards: seq<Record>,
                                 psus: seq<Record>, sups: seq<Record>)
  {
    predicate Ok() {
      AllHaveOperSt(fans) && AllHaveOperSt(linecards) && AllHaveOperSt(psus) && AllHaveOperSt(sups)
    }
  }

  /** The eqptCh attributes `_get_topsystem_info` copies. */
  datatype ChassisFacts = ChassisFacts(operSt: string, operStQual: string, descr: string)

  /** Everything `_get_topsystem_info` stores, as read from the cache: the
      topSystem attributes (an absent optional one reads as "None"), the
      eqptCh attributes when that record exists, and the slot counts. */
  datatype TopsystemFacts = TopsystemFacts(
    address: string, fabricMac: string, state: string, mode: string,
    oobMgmtIp: string, inbMgmtIp: string, systemUptime: string,
    chassis: Option<ChassisFacts>,
    ports: nat, fanSlots: nat, fanModules: nat, lcSlots: nat, lcModules: nat,
    psSlots: nat, psModules: nat, supSlots: nat, supModules: nat)

  function FactsOf(top: map<string, string>, ch: Option<Record>, inv: Inventory, modules: ModuleCounts): TopsystemFacts
    requires HasTopSystemAttributes(top) && (ch.Some? ==> HasChassisAttributes(ch.value.attrs))
  {
    TopsystemFacts(
      top["address"], top["fabricMAC"], top["state"], top["mode"],
      StrGet(top, "oobMgmtAddr"), StrGet(top, "inbMgmtAddr"), StrGet(top, "systemUpTime"),
      if ch.Some? then Some(ChassisFacts(ch.value.attrs["operSt"], ch.value.attrs["operStQual"], ch.value.attrs["descr"]))
      else None,
      |inv.ports|, |inv.fans|, modules.fans, |inv.linecards|, modules.linecards,
      |inv.psus|, modules.psus, |inv.sups|, modules.sups)
  }

  /** The facts `_get_topsystem_info` reads for the node at `dn`, none
      without a topSystem record. */
  function FactsAt(wd: WorkingData, dn: string): Option<TopsystemFacts>
    reads wd
    requires wd.Valid() && TopsystemReady(wd, dn)
  {
    var top := TopSystem(wd, dn);
    if top.None? then None
    else
      var inv := InventoryOf(wd, dn);
      Some(FactsOf(top.value.attrs, Chassis(wd, dn), inv, ModulesOf(inv)))
  }

  /** The l1PhysIf and eqptFtSlot records under `<dn>/sys` and the
      eqptLCSlot, eqptPsuSlot and eqptSupCSlot records under `<dn>/sys/ch`. */
  function InventoryOf(wd: WorkingData, dn: string): Inventory
    reads wd
    requires wd.Valid()
  {
    Inventory(wd.GetSubtree("l1PhysIf", dn + "/sys"), wd.GetSubtree("eqptFtSlot", dn + "/sys"),
              wd.GetSubtree("eqptLCSlot", dn + "/sys/ch"), wd.GetSubtree("eqptPsuSlot", dn + "/sys/ch"),
              wd.GetSubtree("eqptSupCSlot", dn + "/sys/ch"))
  }

  /** What `get_firmware` reads: the version of a running-firmware record. */
  predicate FirmwareReady(wd: WorkingData, dn: string)
    reads wd
    requires wd.Valid()
  {
    var obj := wd.GetObject(dn + "/sys/ch/supslot-1/sup/running");
    obj.Some? && obj.value.tag == "firmwareCardRunning" ==> "version" in obj.value.attrs
  }

  /** The firmware after `get_firmware` on a switch: the running version, or
      the previous value when no running-firmware record is stored. */
  function RunningFirmware(wd: WorkingData, dn: string, previous: Option<string>): Option<string>
    reads wd
    requires wd.Valid() && FirmwareReady(wd, dn)
  {
    var obj := wd.GetObject(dn + "/sys/ch/supslot-1/sup/running");
    if obj.Some? && obj.value.tag == "firmwareCardRunning" then Some(obj.value.attrs["version"]) else previous
  }

  /** `Node(name, role)`: a role outside the valid list raises ValueError. */
  method NewNode(name: Option<string>, role: Option<string>) returns (r: Result<Node>)
    ensures r.Err? <==> role !in ValidNodeRoles
    ensures r.Err? ==> r.error == ValueError
    ensures r.Ok? ==> fresh(r.value) && r.value.name == name && r.value.role == role && r.value.CountsOk()
    ensures r.Ok? ==> r.value.numPorts == 0 && r.value.vpcInfo == None && r.value.firmware == None
  {
    if role !in ValidNodeRoles {
      return Err(ValueError);
    }
    var n := new Node(name, role);
    return Ok(n);
  }

  /** Node equality ignores everything read from the cache: two nodes with
      the same pod, node number, name and role are equal whatever their dn,
      model, firmware, vPC summary, system facts and counters. */
  lemma EqualsIgnoresFacts(a: Node, b: Node)
    requires a.pod == b.pod && a.node == b.node && a.name == b.name && a.role == b.role
    ensures a.Equals(b) && b.Equals(a)
  {
  }

  /** Two nodes created with the same name and role are equal. */
  method NewNodesEqual(name: Option<string>, role: Option<string>) returns (a: Node, b: Node)
    requires role in ValidNodeRoles
    ensures fresh(a) && fresh(b) && a != b
    ensures a.Equals(b)
  {
    a := new Node(name, role);
    b := new Node(name, role);
  }

  // ---------------------------------------------------------------------
  // External switches

  /** The roles an external switch may carry. */
  const ValidExternalRoles: set<Option<string>> := {None, Some("external_switch")}

  class ExternalSwitch {
    var name: Option<string>
    var role: Option<string>

    ghost predicate Valid()
      reads this
    {
      role in ValidExternalRoles
    }

    /** `__init__`: no name yet, role 'external_switch'. */
    constructor ()
      ensures Valid() && name == None && role == Some("external_switch")
    {
      name := None;
      role := Some("external_switch");
    }

    /** The `role` setter: only None and 'external_switch' are accepted;
        anything else raises ValueError and leaves the role as it was. */
    method SetRole(value: Option<string>) returns (r: Result<()>)
      modifies this`role
      ensures r.Ok? <==> value in ValidExternalRoles
      ensures r.Ok? ==> role == value
      ensures r.Err? ==> r.error == ValueError && role == old(role)
      ensures old(Valid()) ==> Valid()
    {
      if value !in ValidExternalRoles {
        return Err(ValueError);
      }
      role := value;
      return Ok(());
    }

    /** `__eq__`: external switches compare by name only, so the role never
        matters. */
    predicate Equals(other: ExternalSwitch)
      reads this, other
    {
      name == other.name
    }
  }

  /** What `ExternalSwitch.__eq__` ignores: two distinct new switches, one of
      them with its role reset to None, still compare equal. */
  method NewSwitchesEqual() returns (a: ExternalSwitch, b: ExternalSwitch)
    ensures fresh(a) && fresh(b) && a != b
    ensures a.Valid() && b.Valid() && a.role != b.role
    ensures a.Equals(b) && b.Equals(a)
  {
    a := new ExternalSwitch();
    b := new ExternalSwitch();
    var r := b.SetRole(None);
  }
}

/** Physical ethernet interfaces: parsing interface names and distinguished
    names, the REST path of an interface, its configuration state and the
    attributes it sends, and the CDP/LLDP discovery-policy matching. */
module Interfaces {
  import opened Results
  import opened PyStr
  import opened Records
  import opened Dicts

  // ---------------------------------------------------------------------
  // Interface names: "eth<module>/<port>"

  /** The constructor's name handling: a name without "eth" raises
      TypeError; otherwise every "eth" is removed and the rest must split on
      '/' into exactly a module and a port (a ValueError from the unpack
      otherwise). */
  function ParseIfName(ifName: string): (r: Result<(string, string)>)
    ensures r.Err? ==> r.error == TypeError || r.error == ValueError
    ensures r.Err? && r.error == TypeError <==> !Contains(ifName, "eth")
    ensures r.Ok? <==> Contains(ifName, "eth") && |Split(RemoveAll(ifName, "eth"), "/")| == 2
    ensures r.Ok? ==> r.value.0 + "/" + r.value.1 == RemoveAll(ifName, "eth")
    ensures r.Ok? ==> '/' !in r.value.0 && '/' !in r.value.1
  {
    if !Contains(ifName, "eth") then Err(TypeError)
    else
      var rest := RemoveAll(ifName, "eth");
      var parts := Split(rest, "/");
      if |parts| != 2 then Err(ValueError)
      else
        JoinSplit(rest, "/");
        SplitFieldsFree(rest, '/');
        Ok((parts[0], parts[1]))
  }

  /** "eth<module>/<port>" gives back module and port. */
  lemma IfNameRoundTrip(moduleId: string, port: string)
    requires '/' !in moduleId && '/' !in port && 'e' !in moduleId && 'e' !in port
    ensures ParseIfName("eth" + moduleId + "/" + port) == Ok((moduleId, port))
  {
    var tail := moduleId + "/" + port;
    var name := "eth" + tail;
    assert name == "eth" + moduleId + "/" + port;
    assert "eth" <= name;
    PrefixContains(name, "eth");
    assert name[|"eth"|..] == tail;
    assert 'e' !in tail;
    NotContainsFirst(tail, "eth");
    RemoveAllAbsent(tail, "eth");
    assert RemoveAll(name, "eth") == tail;
    Split2(moduleId, port, '/');
  }

  /** A name with a second '/' is rejected by the unpack. */
  lemma IfNameThreeFields(a: string, b: string, c: string)
    requires '/' !in a && '/' !in b && '/' !in c && 'e' !in a && 'e' !in b && 'e' !in c
    ensures ParseIfName("eth" + a + "/" + b + "/" + c) == Err(ValueError)
  {
    var tail := a + "/" + b + "/" + c;
    var name := "eth" + tail;
    assert name == "eth" + a + "/" + b + "/" + c;
    assert "eth" <= name;
    PrefixContains(name, "eth");
    assert name[|"eth"|..] == tail;
    assert 'e' !in tail;
    NotContainsFirst(tail, "eth");
    RemoveAllAbsent(tail, "eth");
    Split3(a, b, c, '/');
  }

  // ---------------------------------------------------------------------
  // Distinguished names

  /** The shared tail of both dn parsers: the text after the first '[' of
      the module segment is the interface type (its first three
      characters) and the module (the rest); the port is the port segment
      up to its first ']'. A module segment without '[' raises IndexError. */
  function ParseSegments(modSeg: string, portSeg: string): (r: Result<(string, string, string)>)
    ensures r.Ok? <==> '[' in modSeg
    ensures r.Err? ==> r.error == IndexError
    ensures r.Ok? ==> r.value.0 + r.value.1 == Split(modSeg, "[")[1] && |r.value.0| <= 3
    ensures r.Ok? ==> r.value.2 <= portSeg && ']' !in r.value.2
  {
    var br := Split(modSeg, "[");
    SplitHasSep(modSeg, '[');
    if |br| < 2 then Err(IndexError)
    else
      SplitFirstPrefix(portSeg, ']');
      Ok((Take(br[1], 3), Drop(br[1], 3), Split(portSeg, "]")[0]))
  }

  /** `_parse_physical_dn`: module in the third '/' segment, port in the
      fourth, as in "sys/intf/phys-[eth1/1]". */
  function ParsePhysicalDn(dn: string): (r: Result<(string, string, string)>)
    ensures r.Ok? <==> var name := Split(dn, "/"); |name| >= 4 && '[' in name[2]
    ensures r.Err? ==> r.error == IndexError
  {
    var name := Split(dn, "/");
    if |name| < 4 then Err(IndexError) else ParseSegments(name[2], name[3])
  }

  /** `_parse_path_dn`: module in the second '/' segment, port in the third,
      as in "sys/phys-[eth1/1]". */
  function ParsePathDn(dn: string): (r: Result<(string, string, string)>)
    ensures r.Ok? <==> var name := Split(dn, "/"); |name| >= 3 && '[' in name[1]
    ensures r.Err? ==> r.error == IndexError
  {
    var name := Split(dn, "/");
    if |name| < 3 then Err(IndexError) else ParseSegments(name[1], name[2])
  }

  /** `parse_dn`: the physical parser when some segment is exactly "sys",
      the path parser otherwise. */
  function ParseDn(dn: string): (r: Result<(string, string, string)>)
    ensures r.Err? ==> r.error == IndexError
    ensures r.Ok? ==> |r.value.0| <= 3 && ']' !in r.value.2
  {
    if "sys" in Split(dn, "/") then ParsePhysicalDn(dn) else ParsePathDn(dn)
  }

  /** `_get_path`: the module and port inside "sys/intf/phys-[eth…]". */
  function Path(moduleId: string, port: string): (r: string)
    ensures "sys/intf/phys-[eth" <= r && r[|r| - 1] == ']'
    ensures |r| == |"sys/intf/phys-[eth/]"| + |moduleId| + |port|
  {
    "sys/intf/phys-[eth" + moduleId + "/" + port + "]"
  }

  /** `get_url`: the REST address of the path, with the format as the
      extension. */
  function Url(moduleId: string, port: string, fmt: string): (r: string)
    ensures "/api/mo/sys/intf/phys-[eth" <= r
    ensures |r| == |"/api/mo/"| + |Path(moduleId, port)| + 1 + |fmt|
    ensures r[|r| - |fmt| - 1..] == "." + fmt
  {
    "/api/mo/" + Path(moduleId, port) + "." + fmt
  }

  /** The four '/' segments of a path. */
  lemma PathSegments(moduleId: string, port: string)
    requires '/' !in moduleId && '/' !in port
    ensures Split(Path(moduleId, port), "/") == ["sys", "intf", "phys-[eth" + moduleId, port + "]"]
  {
    var parts := ["sys", "intf", "phys-[eth" + moduleId, port + "]"];
    PathJoin(moduleId, port);
    assert '/' !in "phys-[eth" + moduleId by { PrefixFree("phys-[eth", moduleId, '/'); }
    assert '/' !in port + "]" by { PrefixFree(port, "]", '/'); }
    SplitJoin(parts, '/');
  }

  lemma PathJoin(moduleId: string, port: string)
    ensures Path(moduleId, port) == Join(["sys", "intf", "phys-[eth" + moduleId, port + "]"], "/")
  {
    var a, b := "phys-[eth" + moduleId, port + "]";
    JoinCons(a, [b], "/");
    JoinCons("intf", [a, b], "/");
    assert ["intf", a, b] == ["intf"] + [a, b];
    JoinCons("sys", ["intf", a, b], "/");
    assert ["sys", "intf", a, b] == ["sys"] + ["intf", a, b];
    var tail := a + "/" + b;
    assert tail == "phys-[eth" + (moduleId + "/" + port + "]");
    assert "sys" + "/" + ("intf" + "/" + tail) == "sys/intf/" + tail;
    assert "sys/intf/" + tail == "sys/intf/phys-[eth" + (moduleId + "/" + port + "]");
  }

  /** The module segment of a path parses to "eth" and the module, and the
      port segment to the port. */
  lemma SegmentsOfPath(moduleId: string, port: string)
    requires '[' !in moduleId && ']' !in port
    ensures ParseSegments("phys-[eth" + moduleId, port + "]") == Ok(("eth", moduleId, port))
  {
    assert "phys-[eth" + moduleId == "phys-" + "[" + ("eth" + moduleId);
    assert '[' !in "eth" + moduleId by { PrefixFree("eth", moduleId, '['); }
    Split2("phys-", "eth" + moduleId, '[');
    assert port + "]" == port + "]" + "";
    Split2(port, "", ']');
    assert ("eth" + moduleId)[..3] == "eth" && ("eth" + moduleId)[3..] == moduleId;
  }

  /** Parsing the path of an interface gives back its type, module and port:
      the path has a "sys" segment, so the physical parser reads it. */
  lemma PathRoundTrip(moduleId: string, port: string)
    requires '/' !in moduleId && '[' !in moduleId && '/' !in port && ']' !in port
    ensures ParseDn(Path(moduleId, port)) == Ok(("eth", moduleId, port))
  {
    PathSegments(moduleId, port);
    SegmentsOfPath(moduleId, port);
  }

  /** Different interfaces have different URLs. */
  lemma UrlInjective(m1: string, p1: string, m2: string, p2: string, fmt: string)
    requires '/' !in m1 && '[' !in m1 && '/' !in p1 && ']' !in p1
    requires '/' !in m2 && '[' !in m2 && '/' !in p2 && ']' !in p2
    ensures Url(m1, p1, fmt) == Url(m2, p2, fmt) <==> m1 == m2 && p1 == p2
  {
    if Url(m1, p1, fmt) == Url(m2, p2, fmt) {
      var n := |"/api/mo/"|;
      assert |Path(m1, p1)| == |Path(m2, p2)|;
      assert Path(m1, p1) == Url(m1, p1, fmt)[n..n + |Path(m1, p1)|];
      assert Path(m2, p2) == Url(m2, p2, fmt)[n..n + |Path(m2, p2)|];
      PathRoundTrip(m1, p1);
      PathRoundTrip(m2, p2);
    }
  }

  /** The short form "sys/phys-[eth<m>/<p>]" that both parsers document has a
      "sys" segment, so `parse_dn` hands it to the physical parser, which
      finds no '[' in the third segment and raises IndexError; the path
      parser would have read it. */
  lemma ShortSysFormRejected(moduleId: string, port: string)
    requires '/' !in moduleId && '[' !in moduleId && '/' !in port && '[' !in port && ']' !in port
    ensures ParseDn("sys/phys-[eth" + moduleId + "/" + port + "]") == Err(IndexError)
    ensures ParsePathDn("sys/phys-[eth" + moduleId + "/" + port + "]") == Ok(("eth", moduleId, port))
  {
    var dn := "sys/phys-[eth" + moduleId + "/" + port + "]";
    assert dn == "sys" + "/" + ("phys-[eth" + moduleId) + "/" + (port + "]");
    assert '/' !in "phys-[eth" + moduleId by { PrefixFree("phys-[eth", moduleId, '/'); }
    assert '/' !in port + "]" by { PrefixFree(port, "]", '/'); }
    Split3("sys", "phys-[eth" + moduleId, port + "]", '/');
    assert '[' !in port + "]" by { PrefixFree(port, "]", '['); }
    SegmentsOfPath(moduleId, port);
  }

  // ---------------------------------------------------------------------
  // Interface names with a type: "<type> <module>/<port>"

  /** `parse_name`: the first two whitespace-separated words (IndexError
      when there are fewer), the second split on '/' into exactly module and
      port (ValueError otherwise). */
  function ParseName(name: string): (r: Result<(string, string, string)>)
    ensures r.Err? ==> (r.error == IndexError <==> |Words(name)| < 2)
    ensures r.Err? ==> r.error == IndexError || r.error == ValueError
    ensures r.Ok? ==> |Words(name)| >= 2 && r.value.0 == Words(name)[0] && r.value.1 + "/" + r.value.2 == Words(name)[1]
    ensures r.Ok? ==> '/' !in r.value.1 && '/' !in r.value.2
  {
    var words := Words(name);
    if |words| < 2 then Err(IndexError)
    else
      var parts := Split(words[1], "/");
      if |parts| != 2 then Err(ValueError)
      else
        JoinSplit(words[1], "/");
        SplitFieldsFree(words[1], '/');
        Ok((words[0], parts[0], parts[1]))
  }

  /** "<type> <module>/<port>" gives back its three parts. */
  lemma NameRoundTrip(ifType: string, moduleId: string, port: string)
    requires |ifType| > 0 && NoSpace(ifType) && NoSpace(moduleId) && NoSpace(port)
    requires '/' !in moduleId && '/' !in port
    ensures ParseName(ifType + " " + moduleId + "/" + port) == Ok((ifType, moduleId, port))
  {
    var tail := moduleId + "/" + port;
    assert ifType + " " + moduleId + "/" + port == ifType + [' '] + tail;
    WordsCons(ifType, ' ', tail);
    assert NoSpace(tail) by {
      forall i | 0 <= i < |tail| ensures !IsSpace(tail[i]) {
        if i < |moduleId| { assert tail[i] == moduleId[i]; }
        else if i > |moduleId| { assert tail[i] == port[i - |moduleId| - 1]; }
      }
    }
    assert |tail| > 0 by { assert tail[|moduleId|] == '/'; }
    WordsSingle(tail);
    Split2(moduleId, port, '/');
  }

  /** The documented "<type> <pod>/<module>/<port>" form has three '/'
      fields and is rejected with ValueError. */
  lemma NameWithPodRejected(ifType: string, pod: string, moduleId: string, port: string)
    requires |ifType| > 0 && NoSpace(ifType) && NoSpace(pod) && NoSpace(moduleId) && NoSpace(port)
    requires '/' !in pod && '/' !in moduleId && '/' !in port
    ensures ParseName(ifType + " " + pod + "/" + moduleId + "/" + port) == Err(ValueError)
  {
    var tail := pod + "/" + moduleId + "/" + port;
    assert ifType + " " + pod + "/" + moduleId + "/" + port == ifType + [' '] + tail;
    WordsCons(ifType, ' ', tail);
    assert NoSpace(tail) by {
      forall i | 0 <= i < |tail| ensures !IsSpace(tail[i]) {
        if i < |pod| { assert tail[i] == pod[i]; }
        else if |pod| < i < |pod| + 1 + |moduleId| { assert tail[i] == moduleId[i - |pod| - 1]; }
        else if i > |pod| + 1 + |moduleId| { assert tail[i] == port[i - |pod| - |moduleId| - 2]; }
      }
    }
    assert |tail| > 0 by { assert tail[|pod|] == '/'; }
    WordsSingle(tail);
    Split3(pod, moduleId, port, '/');
  }

  // ---------------------------------------------------------------------
  // The interface object

  /** The keys `_get_attributes` can produce. */
  const AttributeKeys: set<string> :=
    {"accessVlan", "trunkVlans", "mtu", "adminSt", "speed", "layer", "snmpTrapSt",
     "descr", "duplex", "mode", "linkLog", "trunkLog", "id"}

  class Interface {
    const ifName: string
    const ifType: string
    const interfaceType: string
    const moduleId: string
    const port: string
    var layer: Option<string>
    var mode: Option<string>
    var snmpTrapSt: Option<string>
    var adminStatus: Option<string>
    var speed: Option<string>
    var mtu: Option<string>
    var linkLog: Option<string>
    var trunkLog: Option<string>
    var duplex: Option<string>
    var accessVlan: Option<string>
    var trunkVlans: Option<string>
    var nativeVlan: Option<string>
    var descr: Option<string>
    var cdpConfig: Option<string>
    var lldpConfig: Option<string>

    /** The identity fixed at construction: an ethernet interface whose
        module and port are those its name parses to. */
    predicate Valid() {
      interfaceType == "eth" && ifType == Take(ifName, 3) && ParseIfName(ifName) == Ok((moduleId, port))
    }

    /** The configuration a new interface starts with. */
    predicate Defaults()
      reads this
    {
      layer == None && mode == Some("access") && snmpTrapSt == Some("default") &&
      adminStatus == None && speed == Some("10G") && mtu == Some("1500") &&
      linkLog == Some("default") && trunkLog == Some("default") && duplex == Some("auto") &&
      accessVlan == None && trunkVlans == None && nativeVlan == None && descr == Some("") &&
      cdpConfig == None && lldpConfig == None
    }

    /** `__init__` for a name that parses (see `NewInterface` for the
        rejected ones). */
    constructor (ifName: string, moduleId: string, port: string)
      requires ParseIfName(ifName) == Ok((moduleId, port))
      ensures Valid() && this.ifName == ifName && this.moduleId == moduleId && this.port == port
      ensures Defaults()
    {
      this.ifName := ifName;
      this.ifType := Take(ifName, 3);
      this.interfaceType := "eth";
      this.moduleId := moduleId;
      this.port := port;
      layer, mode, snmpTrapSt, adminStatus := None, Some("access"), Some("default"), None;
      speed, mtu, linkLog, trunkLog := Some("10G"), Some("1500"), Some("default"), Some("default");
      duplex, accessVlan, trunkVlans, nativeVlan := Some("auto"), None, None, None;
      descr, cdpConfig, lldpConfig := Some(""), None, None;
    }

    method SetDescr(value: Option<string>)
      modifies this`descr
      ensures descr == value
    {
      descr := value;
    }

    method SetMode(value: Option<string>)
      modifies this`mode
      ensures mode == value
    {
      mode := value;
    }

    /** `set_layer`: only "Layer2" and "Layer3" are accepted; anything else
        raises TypeError and leaves the layer as it was. */
    method SetLayer(value: Option<string>) returns (r: Result<()>)
      modifies this`layer
      ensures r.Ok? <==> value == Some("Layer2") || value == Some("Layer3")
      ensures r.Ok? ==> layer == value
      ensures r.Err? ==> r.error == TypeError && layer == old(layer)
    {
      if value != Some("Layer2") && value != Some("Layer3") {
        return Err(TypeError);
      }
      layer := value;
      r := Ok(());
    }

    method SetSnmpStatus(value: Option<string>)
      modifies this`snmpTrapSt
      ensures snmpTrapSt == value
    {
      snmpTrapSt := value;
    }

    method SetAdminStatus(value: Option<string>)
      modifies this`adminStatus
      ensures adminStatus == value
    {
      adminStatus := value;
    }

    method SetSpeed(value: Option<string>)
      modifies this`speed
      ensures speed == value
    {
      speed := value;
    }

    method SetMtu(value: Option<string>)
      modifies this`mtu
      ensures mtu == value
    {
      mtu := value;
    }

    method SetLinkLog(value: Option<string>)
      modifies this`linkLog
      ensures linkLog == value
    {
      linkLog := value;
    }

    method SetTrunkLog(value: Option<string>)
      modifies this`trunkLog
      ensures trunkLog == value
    {
      trunkLog := value;
    }

    method SetDuplex(value: Option<string>)
      modifies this`duplex
      ensures duplex == value
    {
      duplex := value;
    }

    method SetAccessVlan(value: Option<string>)
      modifies this`accessVlan
      ensures accessVlan == value
    {
      accessVlan := value;
    }

    /** `set_native_vlan` is a stub: it always raises NotImplementedError
        and changes nothing. */
    method SetNativeVlan(value: Option<string>) returns (r: Result<()>)
      ensures r == Err(NotImplemented)
    {
      r := Err(NotImplemented);
    }

    predicate CdpEnabled()
      reads this`cdpConfig
    {
      cdpConfig == Some("enabled")
    }

    predicate CdpDisabled()
      reads this`cdpConfig
    {
      cdpConfig == Some("disabled")
    }

    predicate LldpEnabled()
      reads this`lldpConfig
    {
      lldpConfig == Some("enabled")
    }

    predicate LldpDisabled()
      reads this`lldpConfig
    {
      lldpConfig == Some("disabled")
    }

    method EnableCdp()
      modifies this`cdpConfig
      ensures CdpEnabled() && !CdpDisabled()
    {
      cdpConfig := Some("enabled");
    }

    method DisableCdp()
      modifies this`cdpConfig
      ensures CdpDisabled() && !CdpEnabled()
    {
      cdpConfig := Some("disabled");
    }

    method EnableLldp()
      modifies this`lldpConfig
      ensures LldpEnabled() && !LldpDisabled()
    {
      lldpConfig := Some("enabled");
    }

    method DisableLldp()
      modifies this`lldpConfig
      ensures LldpDisabled() && !LldpEnabled()
    {
      lldpConfig := Some("disabled");
    }

    /** `_get_attributes`: "id" always, every other key exactly when its
        field is truthy, with that field's value. */
    function Attributes(): (att: map<string, string>)
      reads this`accessVlan, this`trunkVlans, this`mtu, this`adminStatus, this`speed, this`layer
      reads this`snmpTrapSt, this`descr, this`duplex, this`mode, this`linkLog, this`trunkLog
      ensures "id" in att && att["id"] == ifName
      ensures forall key :: key in AttributeKeys && key != "id" ==> Entry(att, key, Field(key))
      ensures att.Keys <= AttributeKeys
    {
      (map key | key in AttributeKeys && key != "id" && Truthy(Field(key)) :: Field(key).value)["id" := ifName]
    }

    /** The field behind each conditional key of `_get_attributes`. */
    function Field(key: string): Option<string>
      reads this`accessVlan, this`trunkVlans, this`mtu, this`adminStatus, this`speed, this`layer
      reads this`snmpTrapSt, this`descr, this`duplex, this`mode, this`linkLog, this`trunkLog
    {
      match key
      case "accessVlan" => accessVlan
      case "trunkVlans" => trunkVlans
      case "mtu" => mtu
      case "adminSt" => adminStatus
      case "speed" => speed
      case "layer" => layer
      case "snmpTrapSt" => snmpTrapSt
      case "descr" => descr
      case "duplex" => duplex
      case "mode" => mode
      case "linkLog" => linkLog
      case "trunkLog" => trunkLog
      case _ => None
    }

    /** `__eq__`: same interface type, module and port. The configuration
        is never compared, so two valid interfaces with the same name are
        equal. */
    predicate Equals(other: Interface)
      ensures Valid() && other.Valid() && ifName == other.ifName ==> Equals(other)
    {
      interfaceType == other.interfaceType && moduleId == other.moduleId && port == other.port
    }
  }

  /** `Interface(if_name)`: TypeError for a name without "eth", ValueError
      when the rest is not exactly "<module>/<port>", otherwise a new
      interface with the default configuration. */
  method NewInterface(ifName: string) returns (r: Result<Interface>)
    ensures r.Err? <==> ParseIfName(ifName).Err?
    ensures r.Err? ==> r.error == ParseIfName(ifName).error
    ensures r.Ok? ==> fresh(r.value) && r.value.Valid() && r.value.ifName == ifName && r.value.Defaults()
  {
    match ParseIfName(ifName) {
      case Err(e) => r := Err(e);
      case Ok((moduleId, port)) =>
        var x := new Interface(ifName, moduleId, port);
        r := Ok(x);
    }
  }

  /** The VLAN, MTU, admin state, speed and layer keys, each sent exactly
      when its field is set and non-empty. */
  lemma PortAttributes(x: Interface)
    ensures var att := x.Attributes();
      Entry(att, "accessVlan", x.accessVlan) && Entry(att, "trunkVlans", x.trunkVlans) &&
      Entry(att, "mtu", x.mtu) && Entry(att, "adminSt", x.adminStatus) &&
      Entry(att, "speed", x.speed) && Entry(att, "layer", x.layer)
  {
    var att := x.Attributes();
    assert Entry(att, "accessVlan", x.Field("accessVlan"));
    assert Entry(att, "trunkVlans", x.Field("trunkVlans"));
    assert Entry(att, "mtu", x.Field("mtu"));
    assert Entry(att, "adminSt", x.Field("adminSt"));
    assert Entry(att, "speed", x.Field("speed"));
    assert Entry(att, "layer", x.Field("layer"));
  }

  /** The SNMP trap, description, duplex, mode and logging keys, each sent
      exactly when its field is set and non-empty. */
  lemma LinkAttributes(x: Interface)
    ensures var att := x.Attributes();
      Entry(att, "snmpTrapSt", x.snmpTrapSt) && Entry(att, "descr", x.descr) &&
      Entry(att, "duplex", x.duplex) && Entry(att, "mode", x.mode) &&
      Entry(att, "linkLog", x.linkLog) && Entry(att, "trunkLog", x.trunkLog)
  {
    var att := x.Attributes();
    assert Entry(att, "snmpTrapSt", x.Field("snmpTrapSt"));
    assert Entry(att, "descr", x.Field("descr"));
    assert Entry(att, "duplex", x.Field("duplex"));
    assert Entry(att, "mode", x.Field("mode"));
    assert Entry(att, "linkLog", x.Field("linkLog"));
    assert Entry(att, "trunkLog", x.Field("trunkLog"));
  }

  /** A new interface sends mtu 1500, speed 10G, mode access, duplex auto,
      snmpTrapSt, linkLog and trunkLog "default", and its id, nothing else. */
  lemma DefaultAttributes(x: Interface)
    requires x.Defaults()
    ensures x.Attributes() ==
      map["mtu" := "1500", "speed" := "10G", "snmpTrapSt" := "default", "mode" := "access",
          "duplex" := "auto", "linkLog" := "default", "trunkLog" := "default", "id" := x.ifName]
  {
    PortAttributes(x);
    LinkAttributes(x);
    var att := x.Attributes();
    var expected := map["mtu" := "1500", "speed" := "10G", "snmpTrapSt" := "default", "mode" := "access",
                        "duplex" := "auto", "linkLog" := "default", "trunkLog" := "default", "id" := x.ifName];
    assert att.Keys == expected.Keys;
  }

  /** Two valid interfaces are equal exactly when they have the same path,
      and equality is an equivalence. */
  lemma EqualsIffSamePath(a: Interface, b: Interface)
    requires a.Valid() && b.Valid()
    ensures a.Equals(b) <==> Path(a.moduleId, a.port) == Path(b.moduleId, b.port)
  {
    if Path(a.moduleId, a.port) == Path(b.moduleId, b.port) {
      PathSegments(a.moduleId, a.port);
      PathSegments(b.moduleId, b.port);
      var sa, sb := Split(Path(a.moduleId, a.port), "/"), Split(Path(b.moduleId, b.port), "/");
      assert sa[2] == sb[2] && sa[3] == sb[3];
      assert a.moduleId == sa[2][9..] && b.moduleId == sb[2][9..];
      assert a.port == sa[3][..|sa[3]| - 1] && b.port == sb[3][..|sb[3]| - 1];
    }
  }
}

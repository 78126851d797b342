/** The ethernet port manager: system-wide port defaults (unsupported
    transceivers, default admin state, default layer, jumbo MTU). */
module EthernetPortManager {
  import opened Results
  import opened PyStr
  import opened Dicts

  /** The keys `_get_attributes` can produce. */
  const AttributeKeys: set<string> :=
    {"allowUnsupportedSfp", "systemDefaultAdminSt", "systemDefaultLayer", "systemJumboMtu"}

  class Ethpm {
    const name: string
    const objectClass: string
    var unsupportedSfp: Option<string>
    var defaultAdminSt: Option<string>
    var defaultLayer: Option<string>
    var jumboMtu: Option<string>

    /** `__init__`: a missing or empty name becomes ""; every setting starts
        unset. */
    constructor (name: Option<string>)
      ensures this.name == (if Truthy(name) then name.value else "")
      ensures objectClass == "ethpmInst"
      ensures unsupportedSfp == None && defaultAdminSt == None && defaultLayer == None && jumboMtu == None
    {
      this.name := if Truthy(name) then name.value else "";
      objectClass := "ethpmInst";
      unsupportedSfp, defaultAdminSt, defaultLayer, jumboMtu := None, None, None, None;
    }

    method SetUnsupportedTransceiver(value: Option<string>)
      modifies this`unsupportedSfp
      ensures unsupportedSfp == value
    {
      unsupportedSfp := value;
    }

    method SetDefaultAdminSt(value: Option<string>)
      modifies this`defaultAdminSt
      ensures defaultAdminSt == value
    {
      defaultAdminSt := value;
    }

    method SetDefaultLayer(value: Option<string>)
      modifies this`defaultLayer
      ensures defaultLayer == value
    {
      defaultLayer := value;
    }

    method SetJumboMtu(value: Option<string>)
      modifies this`jumboMtu
      ensures jumboMtu == value
    {
      jumboMtu := value;
    }

    /** `_get_attributes`: each setting is sent exactly when it is set and
        non-empty, under its own key, and nothing else is sent. */
    function Attributes(): (att: map<string, string>)
      reads this`unsupportedSfp, this`defaultAdminSt, this`defaultLayer, this`jumboMtu
      ensures Entry(att, "allowUnsupportedSfp", unsupportedSfp)
      ensures Entry(att, "systemDefaultAdminSt", defaultAdminSt)
      ensures Entry(att, "systemDefaultLayer", defaultLayer)
      ensures Entry(att, "systemJumboMtu", jumboMtu)
      ensures att.Keys <= AttributeKeys
    {
      map key | key in AttributeKeys && Truthy(Field(key)) :: Field(key).value
    }

    /** The setting behind each key of `_get_attributes`. */
    function Field(key: string): Option<string>
      reads this`unsupportedSfp, this`defaultAdminSt, this`defaultLayer, this`jumboMtu
    {
      match key
      case "allowUnsupportedSfp" => unsupportedSfp
      case "systemDefaultAdminSt" => defaultAdminSt
      case "systemDefaultLayer" => defaultLayer
      case "systemJumboMtu" => jumboMtu
      case _ => None
    }
  }

  /** A new port manager sends no attributes. */
  lemma NewSendsNothing(x: Ethpm)
    requires x.unsupportedSfp == None && x.defaultAdminSt == None && x.defaultLayer == None && x.jumboMtu == None
    ensures x.Attributes() == map[]
  {
    var att := x.Attributes();
    assert forall key :: key in att ==> key in AttributeKeys;
  }

  /** `get_url`: the one instance object, whatever the manager's state. */
  function Url(fmt: string): (r: string)
    ensures |r| == |"/api/mo/sys/ethpm/inst."| + |fmt|
    ensures "/api/mo/sys/ethpm/inst." <= r && r[|r| - |fmt|..] == fmt
  {
    "/api/mo/sys/ethpm/inst." + fmt
  }

  /** The URL's path names the instance "inst" under "ethpm" under "sys",
      with the format as the extension. */
  lemma UrlSegments(fmt: string)
    requires '/' !in fmt
    ensures Split(Url(fmt), "/") == ["", "api", "mo", "sys", "ethpm", "inst." + fmt]
  {
    var parts := ["", "api", "mo", "sys", "ethpm", "inst." + fmt];
    var last := "inst." + fmt;
    assert '/' !in last by {
      assert forall i :: 0 <= i < |last| ==> last[i] == if i < 5 then "inst."[i] else fmt[i - 5];
    }
    UrlJoin(fmt);
    SplitJoin(parts, '/');
  }

  lemma UrlJoin(fmt: string)
    ensures Url(fmt) == Join(["", "api", "mo", "sys", "ethpm", "inst." + fmt], "/")
  {
    var last := "inst." + fmt;
    JoinCons("ethpm", [last], "/");
    JoinCons("sys", ["ethpm", last], "/");
    assert ["sys", "ethpm", last] == ["sys"] + ["ethpm", last];
    JoinCons("mo", ["sys", "ethpm", last], "/");
    assert ["mo", "sys", "ethpm", last] == ["mo"] + ["sys", "ethpm", last];
    JoinCons("api", ["mo", "sys", "ethpm", last], "/");
    assert ["api", "mo", "sys", "ethpm", last] == ["api"] + ["mo", "sys", "ethpm", last];
    JoinCons("", ["api", "mo", "sys", "ethpm", last], "/");
    assert ["", "api", "mo", "sys", "ethpm", last] == [""] + ["api", "mo", "sys", "ethpm", last];
    assert "" + "/" + ("api" + "/" + ("mo" + "/" + ("sys" + "/" + ("ethpm" + "/" + last)))) ==
           "/api/mo/sys/ethpm/" + last;
    assert "/api/mo/sys/ethpm/" + last == "/api/mo/sys/ethpm/inst." + fmt;
  }
}

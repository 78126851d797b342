/** A fabric link between two switch ports, as read from a `fabricLink`
    record: its printed form, its port ids and its equality. */
module Links {
  import opened Results
  import opened PyStr
  import opened DnParse

  /** A populated link: its pod and link number parsed from the dn, and
      the node, slot and port of each end. */
  datatype Link = Link(
    dn: string, pod: string, link: string,
    node1: string, slot1: string, port1: string,
    node2: string, slot2: string, port2: string,
    linkState: string, linkStatus: string, modifyTime: string)

  /** The attribute keys `_populate_from_attributes` reads. */
  predicate HasLinkAttributes(attrs: map<string, string>) {
    "linkState" in attrs && "status" in attrs && "dn" in attrs && "modTs" in attrs &&
    "n1" in attrs && "s1" in attrs && "p1" in attrs && "n2" in attrs && "s2" in attrs && "p2" in attrs
  }

  /** `_populate_from_attributes`: copy the endpoints and parse the pod and
      link number from the dn, which fails as `_parse_dn` does. */
  function FromAttributes(attrs: map<string, string>): (r: Result<Link>)
    requires HasLinkAttributes(attrs)
    ensures r.Ok? <==> PodAndId(attrs["dn"]).Ok?
    ensures r.Ok? ==> (r.value.pod, r.value.link) == PodAndId(attrs["dn"]).value && r.value.dn == attrs["dn"]
    ensures r.Ok? ==> r.value.node1 == attrs["n1"] && r.value.slot1 == attrs["s1"] && r.value.port1 == attrs["p1"]
    ensures r.Ok? ==> r.value.node2 == attrs["n2"] && r.value.slot2 == attrs["s2"] && r.value.port2 == attrs["p2"]
  {
    match PodAndId(attrs["dn"])
    case Err(e) => Err(e)
    case Ok((pod, link)) =>
      Ok(Link(attrs["dn"], pod, link, attrs["n1"], attrs["s1"], attrs["p1"],
              attrs["n2"], attrs["s2"], attrs["p2"], attrs["linkState"], attrs["status"], attrs["modTs"]))
  }

  /** `str(link)`: "n<node1>/s<slot1>/p<port1>-n<node2>/s<slot2>/p<port2>".
      When no field holds '/', the text splits on '/' into the node and
      slot of each end, with the first port and the second node sharing
      the middle field. */
  function ToString(l: Link): (r: string)
    ensures NoSlash(l) ==>
      Split(r, "/") == ["n" + l.node1, "s" + l.slot1, "p" + l.port1 + "-n" + l.node2, "s" + l.slot2, "p" + l.port2]
  {
    PrintedFields(l.node1, l.slot1, l.port1, l.node2, l.slot2, l.port2);
    "n" + l.node1 + "/s" + l.slot1 + "/p" + l.port1 + "-n" + l.node2 + "/s" + l.slot2 + "/p" + l.port2
  }

  /** `get_port_id1`: "pod/node/slot/port" of the first end, which splits
      back into its four fields when none holds '/'. */
  function PortId1(l: Link): (r: string)
    ensures CleanPort(l.pod, l.node1, l.slot1, l.port1) ==> Split(r, "/") == [l.pod, l.node1, l.slot1, l.port1]
  {
    PortIdFields(l.pod, l.node1, l.slot1, l.port1);
    l.pod + "/" + l.node1 + "/" + l.slot1 + "/" + l.port1
  }

  /** `get_port_id2`: "pod/node/slot/port" of the second end, which splits
      back into its four fields when none holds '/'. */
  function PortId2(l: Link): (r: string)
    ensures CleanPort(l.pod, l.node2, l.slot2, l.port2) ==> Split(r, "/") == [l.pod, l.node2, l.slot2, l.port2]
  {
    PortIdFields(l.pod, l.node2, l.slot2, l.port2);
    l.pod + "/" + l.node2 + "/" + l.slot2 + "/" + l.port2
  }

  /** `__eq__`: the pod and the first end only; the link number and the
      second end are not compared. Equal links have the same first port id. */
  predicate Equals(a: Link, b: Link)
    ensures Equals(a, b) ==> PortId1(a) == PortId1(b)
  {
    a.pod == b.pod && a.node1 == b.node1 && a.slot1 == b.slot1 && a.port1 == b.port1
  }

  /** No end field of a link holds '/'. */
  predicate NoSlash(l: Link) {
    '/' !in l.node1 && '/' !in l.slot1 && '/' !in l.port1 &&
    '/' !in l.node2 && '/' !in l.slot2 && '/' !in l.port2
  }

  /** The fields of a port id contain no '/'. */
  predicate CleanPort(pod: string, node: string, slot: string, port: string) {
    '/' !in pod && '/' !in node && '/' !in slot && '/' !in port
  }

  /** A port id splits back into its pod, node, slot and port. */
  lemma PortIdFields(pod: string, node: string, slot: string, port: string)
    ensures CleanPort(pod, node, slot, port) ==>
              Split(pod + "/" + node + "/" + slot + "/" + port, "/") == [pod, node, slot, port]
  {
    if !CleanPort(pod, node, slot, port) {
      return;
    }
    JoinCons(slot, [port], "/");
    JoinCons(node, [slot, port], "/");
    assert [node] + [slot, port] == [node, slot, port];
    JoinCons(pod, [node, slot, port], "/");
    assert [pod] + [node, slot, port] == [pod, node, slot, port];
    assert Join([pod, node, slot, port], "/") == pod + "/" + node + "/" + slot + "/" + port;
    SplitJoin([pod, node, slot, port], '/');
  }

  /** Two links are equal exactly when their first port ids are. */
  lemma EqualsIffPortId1(a: Link, b: Link)
    requires CleanPort(a.pod, a.node1, a.slot1, a.port1) && CleanPort(b.pod, b.node1, b.slot1, b.port1)
    ensures Equals(a, b) <==> PortId1(a) == PortId1(b)
  {
    var ia, ib := PortId1(a), PortId1(b);
  }

  /** The printed form of six end fields joins its five '/'-separated
      fields. */
  lemma PrintedJoin(n1: string, s1: string, p1: string, n2: string, s2: string, p2: string)
    ensures Join(["n" + n1, "s" + s1, "p" + p1 + "-n" + n2, "s" + s2, "p" + p2], "/") ==
            "n" + n1 + "/s" + s1 + "/p" + p1 + "-n" + n2 + "/s" + s2 + "/p" + p2
  {
    var f := ["n" + n1, "s" + s1, "p" + p1 + "-n" + n2, "s" + s2, "p" + p2];
    JoinCons(f[3], [f[4]], "/");
    JoinCons(f[2], [f[3], f[4]], "/");
    assert [f[2]] + [f[3], f[4]] == f[2..];
    JoinCons(f[1], f[2..], "/");
    assert [f[1]] + f[2..] == f[1..];
    JoinCons(f[0], f[1..], "/");
    assert [f[0]] + f[1..] == f;
  }

  /** The printed form of six end fields without '/' splits on '/' into
      those five fields. */
  lemma PrintedFields(n1: string, s1: string, p1: string, n2: string, s2: string, p2: string)
    ensures '/' !in n1 && '/' !in s1 && '/' !in p1 && '/' !in n2 && '/' !in s2 && '/' !in p2 ==>
            Split("n" + n1 + "/s" + s1 + "/p" + p1 + "-n" + n2 + "/s" + s2 + "/p" + p2, "/") ==
            ["n" + n1, "s" + s1, "p" + p1 + "-n" + n2, "s" + s2, "p" + p2]
  {
    if !('/' !in n1 && '/' !in s1 && '/' !in p1 && '/' !in n2 && '/' !in s2 && '/' !in p2) {
      return;
    }
    PrintedJoin(n1, s1, p1, n2, s2, p2);
    PrefixFree("n", n1, '/');
    PrefixFree("s", s1, '/');
    PrefixFree("s", s2, '/');
    PrefixFree("p", p2, '/');
    PrefixFree("p", p1, '/');
    PrefixFree("-n", n2, '/');
    PrefixFree("p" + p1, "-n" + n2, '/');
    assert "p" + p1 + "-n" + n2 == ("p" + p1) + ("-n" + n2);
    SplitJoin(["n" + n1, "s" + s1, "p" + p1 + "-n" + n2, "s" + s2, "p" + p2], '/');
  }

  /** Links with the same printed form have the same two ends, as long as
      no field contains '/' and the first port and second node contain no '-'. */
  lemma ToStringDeterminesEnds(a: Link, b: Link)
    requires NoSlash(a) && NoSlash(b)
    requires '-' !in a.port1 && '-' !in a.node2 && '-' !in b.port1 && '-' !in b.node2
    requires ToString(a) == ToString(b)
    ensures (a.node1, a.slot1, a.port1) == (b.node1, b.slot1, b.port1)
    ensures (a.node2, a.slot2, a.port2) == (b.node2, b.slot2, b.port2)
  {
    var fa, fb := Split(ToString(a), "/"), Split(ToString(b), "/");
    assert "n" + a.node1 == "n" + b.node1 && "s" + a.slot1 == "s" + b.slot1;
    assert "s" + a.slot2 == "s" + b.slot2 && "p" + a.port2 == "p" + b.port2;
    assert a.node1 == ("n" + a.node1)[1..];
    assert a.slot1 == ("s" + a.slot1)[1..] && b.slot1 == ("s" + b.slot1)[1..];
    assert a.slot2 == ("s" + a.slot2)[1..] && b.slot2 == ("s" + b.slot2)[1..];
    assert a.port2 == ("p" + a.port2)[1..] && b.port2 == ("p" + b.port2)[1..];
    assert b.node1 == ("n" + b.node1)[1..];
    var ma, mb := "p" + a.port1 + "-n" + a.node2, "p" + b.port1 + "-n" + b.node2;
    assert ma == mb;
    assert ma == ("p" + a.port1) + ['-'] + ("n" + a.node2);
    assert mb == ("p" + b.port1) + ['-'] + ("n" + b.node2);
    Split2("p" + a.port1, "n" + a.node2, '-');
    Split2("p" + b.port1, "n" + b.node2, '-');
    assert a.port1 == ("p" + a.port1)[1..] && b.port1 == ("p" + b.port1)[1..];
    assert a.node2 == ("n" + a.node2)[1..] && b.node2 == ("n" + b.node2)[1..];
  }
}

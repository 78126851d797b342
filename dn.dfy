/** Positional parsing of the pod and node (or link) numbers out of a
    distinguished name such as "topology/pod-1/node-101". */
module DnParse {
  import opened Results
  import opened PyStr

  /** `Node._parse_dn` and `Link._parse_dn`: the second '-' field of the
      second and of the third '/' segment. A dn with fewer segments, or a
      segment without '-', raises IndexError. */
  function PodAndId(dn: string): (r: Result<(string, string)>)
    ensures r.Ok? <==>
      var name := Split(dn, "/");
      |name| >= 3 && '-' in name[1] && '-' in name[2]
    ensures r.Err? ==> r.error == IndexError
    ensures r.Ok? ==> '-' !in r.value.0 && '-' !in r.value.1
  {
    var name := Split(dn, "/");
    if |name| < 3 then Err(IndexError)
    else
      var pod := Split(name[1], "-");
      var id := Split(name[2], "-");
      SplitHasSep(name[1], '-');
      SplitHasSep(name[2], '-');
      if |pod| < 2 || |id| < 2 then Err(IndexError)
      else
        SplitFieldsFree(name[1], '-');
        SplitFieldsFree(name[2], '-');
        Ok((pod[1], id[1]))
  }

  /** A dn `<root>/<kind>-<pod>/<kind>-<id>` followed by any further
      segments parses to (pod, id). */
  lemma {:induction false} PodAndIdOf(root: string, podKind: string, pod: string, idKind: string, id: string,
                                      more: seq<string>)
    requires '/' !in root && '/' !in podKind && '/' !in pod && '/' !in idKind && '/' !in id
    requires forall i :: 0 <= i < |more| ==> '/' !in more[i]
    requires '-' !in podKind && '-' !in pod && '-' !in idKind && '-' !in id
    ensures PodAndId(Join([root, podKind + "-" + pod, idKind + "-" + id] + more, "/")) == Ok((pod, id))
  {
    var fields := [root, podKind + "-" + pod, idKind + "-" + id] + more;
    assert '/' !in podKind + "-" + pod;
    assert '/' !in idKind + "-" + id;
    assert forall i :: 0 <= i < |fields| ==> '/' !in fields[i] by {
      forall i | 0 <= i < |fields| ensures '/' !in fields[i] {
        if i >= 3 { assert fields[i] == more[i - 3]; }
      }
    }
    SplitJoin(fields, '/');
    Split2(podKind, pod, '-');
    Split2(idKind, id, '-');
    assert '-' in podKind + "-" + pod by { assert (podKind + "-" + pod)[|podKind|] == '-'; }
    assert '-' in idKind + "-" + id by { assert (idKind + "-" + id)[|idKind|] == '-'; }
  }

  /** "topology/pod-1/node-101" gives ("1", "101"). */
  lemma PodAndIdExample(dn: string)
    requires dn == "topology/pod-1/node-101"
    ensures PodAndId(dn) == Ok(("1", "101"))
  {
    var more: seq<string> := [];
    PodAndIdOf("topology", "pod", "1", "node", "101", more);
    ExampleJoin(dn, more);
  }

  lemma ExampleJoin(dn: string, more: seq<string>)
    requires dn == "topology/pod-1/node-101" && more == []
    ensures Join(["topology", "pod" + "-" + "1", "node" + "-" + "101"] + more, "/") == dn
  {
    var fields := ["topology", "pod" + "-" + "1", "node" + "-" + "101"] + more;
    assert "pod" + "-" + "1" == "pod-1" && "node" + "-" + "101" == "node-101";
    assert fields == ["topology", "pod-1", "node-101"];
    assert fields[1..][1..] == ["node-101"];
    assert Join(fields[1..], "/") == "pod-1" + "/" + "node-101";
  }

  /** A dn with only two segments raises IndexError. */
  lemma PodAndIdTooShort(a: string, b: string)
    requires '/' !in a && '/' !in b
    ensures PodAndId(a + "/" + b) == Err(IndexError)
  {
    Split2(a, b, '/');
  }
}

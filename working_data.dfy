/** WorkingData: the cache that holds one subtree query's records and serves
    them back by dn, by class, and by class under a dn prefix, together with
    the vnid tables derived from its contexts and bridge domains. */
module Index {
  import opened Results
  import opened PyStr
  import opened Records
  import opened Dicts
  import opened Vnid

  const FabricNode := "fabricNode"

  // ---------------------------------------------------------------------
  // by_dn

  /** Every entry of `by_dn` is a non-error record stored under its own dn. */
  predicate ByDnOk(byDn: map<string, Record>) {
    forall k :: k in byDn ==> !IsError(byDn[k]) && Indexable(byDn[k]) && Dn(byDn[k]) == k
  }

  /** `by_dn` after indexing `rs`: each non-error record is stored under its
      dn, a later record overwriting an earlier one with the same dn. */
  function IndexDn(byDn: map<string, Record>, rs: seq<Record>): (r: map<string, Record>)
    requires AllIndexable(rs)
    ensures ByDnOk(byDn) ==> ByDnOk(r)
    decreases |rs|
  {
    if |rs| == 0 then byDn else DnStep(IndexDn(byDn, rs[..|rs| - 1]), rs[|rs| - 1])
  }

  function DnStep(byDn: map<string, Record>, item: Record): (r: map<string, Record>)
    requires Indexable(item)
    ensures ByDnOk(byDn) ==> ByDnOk(r)
  {
    if IsError(item) then byDn else byDn[Dn(item) := item]
  }

  // ---------------------------------------------------------------------
  // by_class

  predicate AllHaveDn(lst: seq<Record>) {
    forall i :: 0 <= i < |lst| ==> "dn" in lst[i].attrs
  }

  /** Every list of `by_class` holds records of its own class, never 'error'. */
  predicate ClassMapOk(byClass: map<string, seq<Record>>) {
    forall c :: c in byClass ==>
      c != "error" && (forall i :: 0 <= i < |byClass[c]| ==> byClass[c][i].tag == c && Indexable(byClass[c][i]))
  }

  /** `get_class`: the stored list, or [] for a class never seen. */
  function LookupClass(byClass: map<string, seq<Record>>, c: string): seq<Record> {
    if c in byClass then byClass[c] else []
  }

  /** Some record of the list has dn `dn`. */
  predicate ListsDn(lst: seq<Record>, dn: string)
    requires AllHaveDn(lst)
  {
    exists k :: 0 <= k < |lst| && Dn(lst[k]) == dn
  }

  predicate IsFabricNode(r: Record) {
    r.tag == FabricNode && "role" in r.attrs && "dn" in r.attrs
  }

  function Role(r: Record): string
    requires IsFabricNode(r)
  {
    r.attrs["role"]
  }

  predicate IsLeafOrSpine(r: Record) {
    IsFabricNode(r) && (Role(r) == "leaf" || Role(r) == "spine")
  }

  predicate IsController(r: Record) {
    IsFabricNode(r) && Role(r) == "controller"
  }

  /** Whether a fabricNode record joins the class list: leaf and spine
      always, a controller only when no listed record has its dn, any other
      role never. */
  predicate Admits(lst: seq<Record>, r: Record)
    requires AllHaveDn(lst) && IsFabricNode(r)
  {
    IsLeafOrSpine(r) || (IsController(r) && !ListsDn(lst, Dn(r)))
  }

  function ClassStep(byClass: map<string, seq<Record>>, item: Record): (r: map<string, seq<Record>>)
    requires ClassMapOk(byClass) && Indexable(item)
    ensures ClassMapOk(r)
  {
    if IsError(item) then byClass
    else
      var lst := LookupClass(byClass, item.tag);
      if item.tag != FabricNode || Admits(lst, item) then byClass[item.tag := lst + [item]]
      else byClass[item.tag := lst]
  }

  /** `by_class` after indexing `rs`. */
  function IndexClass(byClass: map<string, seq<Record>>, rs: seq<Record>): (r: map<string, seq<Record>>)
    requires ClassMapOk(byClass) && AllIndexable(rs)
    ensures ClassMapOk(r)
    decreases |rs|
  {
    if |rs| == 0 then byClass
    else ClassStep(IndexClass(byClass, rs[..|rs| - 1]), rs[|rs| - 1])
  }

  /** The records of `rs` tagged `c`, in input order. */
  function WithTag(rs: seq<Record>, c: string): seq<Record>
    decreases |rs|
  {
    if |rs| == 0 then []
    else WithTag(rs[..|rs| - 1], c) + (if rs[|rs| - 1].tag == c then [rs[|rs| - 1]] else [])
  }

  /** The leaf and spine records of a list, in order. */
  function LeavesAndSpines(lst: seq<Record>): seq<Record>
    decreases |lst|
  {
    if |lst| == 0 then []
    else LeavesAndSpines(lst[..|lst| - 1]) + (if IsLeafOrSpine(lst[|lst| - 1]) then [lst[|lst| - 1]] else [])
  }

  /** The shape of the fabricNode list: only leaf, spine and controller
      records, and no controller shares its dn with a record listed before it. */
  predicate FabricOk(lst: seq<Record>) {
    (forall i :: 0 <= i < |lst| ==> IsLeafOrSpine(lst[i]) || IsController(lst[i])) &&
    (forall i, j :: 0 <= i < j < |lst| && IsController(lst[j]) ==> Dn(lst[i]) != Dn(lst[j]))
  }

  /** The duplicate search of `_index_objects`: scan the list for a record
      with dn `dn`, stopping at the first. */
  method FindDn(lst: seq<Record>, dn: string) returns (found: bool)
    requires AllHaveDn(lst)
    ensures found <==> ListsDn(lst, dn)
  {
    found := false;
    var j := 0;
    while j < |lst|
      invariant 0 <= j <= |lst|
      invariant forall k :: 0 <= k < j ==> Dn(lst[k]) != dn
    {
      if dn == Dn(lst[j]) {
        found := true;
        break;
      }
      j := j + 1;
    }
  }

  /** The class-list update of `_index_objects` for one non-error record:
      append it, except that a fabricNode joins only when admitted. */
  method ClassListAdd(lst: seq<Record>, item: Record) returns (r: seq<Record>)
    requires AllHaveDn(lst) && Indexable(item) && !IsError(item)
    ensures item.tag != FabricNode ==> r == lst + [item]
    ensures item.tag == FabricNode ==> r == if Admits(lst, item) then lst + [item] else lst
  {
    r := lst;
    if item.tag == FabricNode {
      var role := item.attrs["role"];
      if role == "leaf" || role == "spine" {
        r := lst + [item];
      } else if role == "controller" && item !in lst {
        var found := FindDn(lst, Dn(item));
        if !found {
          r := lst + [item];
        }
      } else if role == "controller" {
        var k :| 0 <= k < |lst| && lst[k] == item;
        assert ListsDn(lst, Dn(item));
      }
    } else {
      r := lst + [item];
    }
  }

  // ---------------------------------------------------------------------
  // get_subtree

  /** The records of `lst` whose dn starts with `prefix` as a plain string,
      in order: "a/b" selects "a/bc" as well as "a/b/c". */
  function Subtree(lst: seq<Record>, prefix: string): (r: seq<Record>)
    requires AllHaveDn(lst)
    ensures forall x :: x in r <==> x in lst && prefix <= Dn(x)
    ensures |r| <= |lst|
    decreases |lst|
  {
    if |lst| == 0 then []
    else (if prefix <= Dn(lst[0]) then [lst[0]] else []) + Subtree(lst[1..], prefix)
  }

  // ---------------------------------------------------------------------
  // The vnid tables over the index

  /** What `build_vnid_dictionary` reads without a guard is present (a
      missing key is a KeyError). */
  predicate VnidInputsOk(byDn: map<string, Record>, byClass: map<string, seq<Record>>) {
    ClassMapOk(byClass) &&
    AllContexts(LookupClass(byClass, "l3Inst") + LookupClass(byClass, "l3Ctx")) &&
    AllBridgeDomains(byDn, LookupClass(byClass, "l2BD"))
  }

  /** The tables after `build_vnid_dictionary`, and the exception it ends
      with: contexts (l3Inst records, then l3Ctx records) first, bridge
      domains second, up to the first bridge domain that raises. */
  function VnidBuild(t: Tables, byDn: map<string, Record>, byClass: map<string, seq<Record>>): Build
    requires VnidInputsOk(byDn, byClass)
  {
    var ctxs := LookupClass(byClass, "l3Inst") + LookupClass(byClass, "l3Ctx");
    BridgeDomainLoop(AddContexts(t, ctxs), byDn, LookupClass(byClass, "l2BD"))
  }

  // ---------------------------------------------------------------------
  // The cache object

  class WorkingData {
    var byDn: map<string, Record>
    var byClass: map<string, seq<Record>>
    var vnidDict: map<string, Segment>
    var ctxDict: map<string, string>
    var bdDict: map<string, string>

    ghost predicate Valid()
      reads this
    {
      ByDnOk(byDn) && ClassMapOk(byClass) && FabricOk(LookupClass(byClass, FabricNode))
    }

    /** A cache built without a session holds nothing. */
    constructor ()
      ensures Valid()
      ensures byDn == map[] && byClass == map[]
      ensures vnidDict == map[] && ctxDict == map[] && bdDict == map[]
    {
      byDn, byClass := map[], map[];
      vnidDict, ctxDict, bdDict := map[], map[], map[];
    }

    /** `add`, with the query's `imdata` list given as `records`. An empty
        list leaves `rawjson` None, and the test `'error' not in None` raises
        TypeError before anything changes. Otherwise the records are indexed
        and the vnid tables rebuilt, which may end in an exception of its own
        after the indexes are updated. */
    method Add(records: seq<Record>) returns (err: Option<PyError>)
      requires Valid() && AllIndexable(records)
      requires records != [] ==> VnidInputsOk(IndexDn(byDn, records), IndexClass(byClass, records))
      modifies this
      ensures Valid()
      ensures records == [] ==>
        err == Some(TypeError) && byDn == old(byDn) && byClass == old(byClass) &&
        vnidDict == old(vnidDict) && ctxDict == old(ctxDict) && bdDict == old(bdDict)
      ensures records != [] ==>
        byDn == IndexDn(old(byDn), records) && byClass == IndexClass(old(byClass), records) &&
        Build(Tables(vnidDict, ctxDict, bdDict), err) ==
          VnidBuild(Tables(old(vnidDict), old(ctxDict), old(bdDict)), byDn, byClass)
    {
      if records == [] {
        return Some(TypeError);
      }
      IndexObjects(records);
      err := BuildVnidDictionary();
    }

    /** `_index_objects`: one pass over the records filling both indexes. */
    method IndexObjects(records: seq<Record>)
      requires Valid() && AllIndexable(records)
      modifies this`byDn, this`byClass
      ensures Valid()
      ensures byDn == IndexDn(old(byDn), records)
      ensures byClass == IndexClass(old(byClass), records)
    {
      var i := 0;
      while i < |records|
        invariant 0 <= i <= |records|
        invariant ByDnOk(byDn) && ClassMapOk(byClass)
        invariant byDn == IndexDn(old(byDn), records[..i])
        invariant byClass == IndexClass(old(byClass), records[..i])
      {
        assert records[..i + 1][..i] == records[..i];
        IndexOne(records[i]);
        i := i + 1;
      }
      assert records[..|records|] == records;
      FabricOkPreserved(old(byClass), records);
    }

    /** The body of the `_index_objects` loop for one element. */
    method IndexOne(item: Record)
      requires ByDnOk(byDn) && ClassMapOk(byClass) && Indexable(item)
      modifies this`byDn, this`byClass
      ensures byDn == DnStep(old(byDn), item)
      ensures byClass == ClassStep(old(byClass), item)
    {
      if item.tag != "error" {
        byDn := byDn[Dn(item) := item];
        var c := item.tag;
        if c !in byClass {
          byClass := byClass[c := []];
        }
        var lst := byClass[c];
        assert lst == LookupClass(old(byClass), c) && AllHaveDn(lst);
        lst := ClassListAdd(lst, item);
        byClass := byClass[c := lst];
        assert byClass == old(byClass)[c := lst];
      }
    }

    /** `build_vnid_dictionary`: contexts first, then bridge domains. */
    method BuildVnidDictionary() returns (err: Option<PyError>)
      requires VnidInputsOk(byDn, byClass)
      modifies this`vnidDict, this`ctxDict, this`bdDict
      ensures Build(Tables(vnidDict, ctxDict, bdDict), err) ==
              VnidBuild(Tables(old(vnidDict), old(ctxDict), old(bdDict)), byDn, byClass)
    {
      LoadContexts(LookupClass(byClass, "l3Inst") + LookupClass(byClass, "l3Ctx"));
      err := LoadBridgeDomains(LookupClass(byClass, "l2BD"));
    }

    /** The context loop of `build_vnid_dictionary`. */
    method LoadContexts(ctxData: seq<Record>)
      requires AllContexts(ctxData)
      modifies this`vnidDict, this`ctxDict
      ensures Tables(vnidDict, ctxDict, bdDict) == AddContexts(Tables(old(vnidDict), old(ctxDict), bdDict), ctxData)
    {
      var i := 0;
      while i < |ctxData|
        invariant 0 <= i <= |ctxData|
        invariant vnidDict == Assign(old(vnidDict), ContextVnidPairs(ctxData[..i]))
        invariant ctxDict == Assign(old(ctxDict), ContextNamePairs(ctxData[..i]))
      {
        var ctx := ctxData[i];
        var vnid := ContextVnid(ctx.attrs["encap"]);
        var name := ctx.attrs["name"];
        ContextPairsStep(ctxData, i);
        AssignStep(old(vnidDict), ContextVnidPairs(ctxData[..i]), (vnid, Context(name)));
        AssignStep(old(ctxDict), ContextNamePairs(ctxData[..i]), (name, vnid));
        vnidDict := vnidDict[vnid := Context(name)];
        ctxDict := ctxDict[name := vnid];
        i := i + 1;
      }
      assert ctxData[..|ctxData|] == ctxData;
    }

    /** The bridge-domain loop of `build_vnid_dictionary`: it stops at the
        first bridge domain whose fabEncap has no '-' (IndexError) or whose
        parent dn holds no record (TypeError). */
    method LoadBridgeDomains(bdData: seq<Record>) returns (err: Option<PyError>)
      requires AllBridgeDomains(byDn, bdData)
      modifies this`vnidDict, this`bdDict
      ensures Build(Tables(vnidDict, ctxDict, bdDict), err) ==
              BridgeDomainLoop(Tables(old(vnidDict), ctxDict, old(bdDict)), byDn, bdData)
    {
      var i := 0;
      while i < |bdData|
        invariant 0 <= i <= |bdData|
        invariant forall j :: 0 <= j < i ==> Resolved(byDn, bdData[j])
        invariant AllBridgeDomains(byDn, bdData[..i]) && AllResolved(byDn, bdData[..i])
        invariant vnidDict == Assign(old(vnidDict), BdVnidPairs(byDn, bdData[..i]))
        invariant bdDict == Assign(old(bdDict), BdNamePairs(byDn, bdData[..i]))
      {
        var bd := bdData[i];
        if '-' !in bd.attrs["fabEncap"] {
          BridgeDomainLoopStops(Tables(old(vnidDict), ctxDict, old(bdDict)), byDn, bdData, i);
          return Some(IndexError);
        }
        var vnid := BdVnid(bd.attrs["fabEncap"]);
        var name := ShortName(bd.attrs["name"], vnid);
        if ParentDn(Dn(bd)) !in byDn {
          BridgeDomainLoopStops(Tables(old(vnidDict), ctxDict, old(bdDict)), byDn, bdData, i);
          return Some(TypeError);
        }
        var context := ContextOf(byDn, bd);
        BdPairsStep(byDn, bdData, i);
        AssignStep(old(vnidDict), BdVnidPairs(byDn, bdData[..i]), (vnid, BridgeDomain(name, context)));
        AssignStep(old(bdDict), BdNamePairs(byDn, bdData[..i]), (name, vnid));
        vnidDict := vnidDict[vnid := BridgeDomain(name, context)];
        bdDict := bdDict[name := vnid];
        i := i + 1;
      }
      assert bdData[..|bdData|] == bdData;
      FirstUnresolvedAt(byDn, bdData, i);
      err := None;
    }

    /** `get_class`: the records of class `c` in indexing order; a class
        never seen gives [], never a failure. */
    function GetClass(c: string): (r: seq<Record>)
      reads this
      requires Valid()
      ensures c !in byClass ==> r == []
      ensures c in byClass ==> r == byClass[c]
      ensures forall i :: 0 <= i < |r| ==> r[i].tag == c && "dn" in r[i].attrs
    {
      LookupClass(byClass, c)
    }

    /** `get_subtree`: the records of class `c` whose dn starts with `prefix`,
        in `get_class` order. */
    function GetSubtree(c: string, prefix: string): (r: seq<Record>)
      reads this
      requires Valid()
      ensures forall x :: x in r <==> x in GetClass(c) && prefix <= Dn(x)
      ensures forall i :: 0 <= i < |r| ==> r[i].tag == c
    {
      var r := Subtree(GetClass(c), prefix);
      assert forall i :: 0 <= i < |r| ==> r[i] in r;
      r
    }

    /** `get_object`: exact-dn lookup; the record found has exactly the dn
        asked for, and a dn that is only a prefix of stored dns gives None. */
    function GetObject(dn: string): (r: Option<Record>)
      reads this
      requires Valid()
      ensures r.Some? <==> dn in byDn
      ensures r.Some? ==> !IsError(r.value) && "dn" in r.value.attrs && Dn(r.value) == dn
    {
      if dn in byDn then Some(byDn[dn]) else None
    }
  }

  // ---------------------------------------------------------------------
  // Properties of by_dn

  /** The dns indexed are the old ones and those of the non-error records. */
  lemma {:induction false} IndexDnKeys(byDn: map<string, Record>, rs: seq<Record>)
    requires AllIndexable(rs)
    ensures IndexDn(byDn, rs).Keys == byDn.Keys + IndexedDns(rs)
    decreases |rs|
  {
    if |rs| > 0 {
      IndexDnKeys(byDn, rs[..|rs| - 1]);
      IndexedDnsSnoc(rs);
    }
  }

  /** The dns of the non-error records of `rs`. */
  ghost function IndexedDns(rs: seq<Record>): set<string>
    requires AllIndexable(rs)
  {
    set i | 0 <= i < |rs| && !IsError(rs[i]) :: Dn(rs[i])
  }

  lemma IndexedDnsSnoc(rs: seq<Record>)
    requires AllIndexable(rs) && |rs| > 0
    ensures var last := rs[|rs| - 1];
            IndexedDns(rs) == IndexedDns(rs[..|rs| - 1]) + (if IsError(last) then {} else {Dn(last)})
  {
    var front := rs[..|rs| - 1];
    var last := rs[|rs| - 1];
    forall k | k in IndexedDns(rs) ensures k in IndexedDns(front) + (if IsError(last) then {} else {Dn(last)}) {
      var i :| 0 <= i < |rs| && !IsError(rs[i]) && Dn(rs[i]) == k;
      if i < |rs| - 1 { assert front[i] == rs[i]; }
    }
    forall k | k in IndexedDns(front) ensures k in IndexedDns(rs) {
      var i :| 0 <= i < |front| && !IsError(front[i]) && Dn(front[i]) == k;
      assert rs[i] == front[i];
    }
  }

  /** A record is found under its dn unless a later non-error record has the
      same dn: later records overwrite earlier ones. */
  lemma {:induction false} IndexDnLast(byDn: map<string, Record>, rs: seq<Record>, i: nat)
    requires AllIndexable(rs) && i < |rs| && !IsError(rs[i])
    requires forall j :: i < j < |rs| && !IsError(rs[j]) ==> Dn(rs[j]) != Dn(rs[i])
    ensures Dn(rs[i]) in IndexDn(byDn, rs) && IndexDn(byDn, rs)[Dn(rs[i])] == rs[i]
    decreases |rs|
  {
    if i < |rs| - 1 {
      var front := rs[..|rs| - 1];
      assert front[i] == rs[i];
      IndexDnLast(byDn, front, i);
    }
  }

  /** A dn no record carries keeps its old entry, or stays absent: from an
      empty cache, `get_object` of such a dn is None. */
  lemma {:induction false} IndexDnOthers(byDn: map<string, Record>, rs: seq<Record>, dn: string)
    requires AllIndexable(rs)
    requires forall j :: 0 <= j < |rs| && !IsError(rs[j]) ==> Dn(rs[j]) != dn
    ensures (dn in IndexDn(byDn, rs)) == (dn in byDn)
    ensures dn in byDn ==> IndexDn(byDn, rs)[dn] == byDn[dn]
    decreases |rs|
  {
    if |rs| > 0 {
      IndexDnOthers(byDn, rs[..|rs| - 1], dn);
    }
  }

  // ---------------------------------------------------------------------
  // Properties of by_class

  /** Class lists only grow: what was listed stays listed, in place. */
  lemma {:induction false} IndexClassGrows(byClass: map<string, seq<Record>>, rs: seq<Record>, c: string)
    requires ClassMapOk(byClass) && AllIndexable(rs)
    ensures LookupClass(byClass, c) <= LookupClass(IndexClass(byClass, rs), c)
    decreases |rs|
  {
    if |rs| > 0 {
      IndexClassGrows(byClass, rs[..|rs| - 1], c);
    }
  }

  /** Every class but fabricNode keeps all its records in input order. */
  lemma {:induction false} IndexClassInOrder(byClass: map<string, seq<Record>>, rs: seq<Record>, c: string)
    requires ClassMapOk(byClass) && AllIndexable(rs)
    requires c != FabricNode && c != "error"
    ensures LookupClass(IndexClass(byClass, rs), c) == LookupClass(byClass, c) + WithTag(rs, c)
    decreases |rs|
  {
    if |rs| > 0 {
      IndexClassInOrder(byClass, rs[..|rs| - 1], c);
    }
  }

  /** A class with no record in the batch is still unknown afterwards when
      it was unknown before: `get_class` gives []. */
  lemma {:induction false} IndexClassAbsent(byClass: map<string, seq<Record>>, rs: seq<Record>, c: string)
    requires ClassMapOk(byClass) && AllIndexable(rs)
    requires c !in byClass
    requires forall j :: 0 <= j < |rs| ==> rs[j].tag != c
    ensures c !in IndexClass(byClass, rs)
    decreases |rs|
  {
    if |rs| > 0 {
      IndexClassAbsent(byClass, rs[..|rs| - 1], c);
    }
  }

  /** Leaf and spine records are all kept, duplicates included, in order. */
  lemma {:induction false} LeavesAndSpinesKept(byClass: map<string, seq<Record>>, rs: seq<Record>)
    requires ClassMapOk(byClass) && AllIndexable(rs)
    ensures LeavesAndSpines(LookupClass(IndexClass(byClass, rs), FabricNode)) ==
            LeavesAndSpines(LookupClass(byClass, FabricNode)) + LeavesAndSpines(WithTag(rs, FabricNode))
    decreases |rs|
  {
    if |rs| > 0 {
      var front, item := rs[..|rs| - 1], rs[|rs| - 1];
      LeavesAndSpinesKept(byClass, front);
      var prev := IndexClass(byClass, front);
      var lst := LookupClass(prev, FabricNode);
      var w := WithTag(front, FabricNode);
      var cur := LookupClass(IndexClass(byClass, rs), FabricNode);
      assert IndexClass(byClass, rs) == ClassStep(prev, item);
      FabricStep(prev, item);
      var base := LeavesAndSpines(LookupClass(byClass, FabricNode));
      if item.tag == FabricNode {
        assert cur == lst + (if Admits(lst, item) then [item] else []);
        AdmittedLeaves(lst, item);
        assert WithTag(rs, FabricNode) == w + [item];
        LeavesAndSpinesSnoc(w, item);
        var x := if IsLeafOrSpine(item) then [item] else [];
        AppendBoth(base, LeavesAndSpines(lst), LeavesAndSpines(w), x);
      } else {
        assert cur == lst;
        assert WithTag(rs, FabricNode) == w;
      }
    }
  }

  lemma AppendBoth(base: seq<Record>, l: seq<Record>, w: seq<Record>, x: seq<Record>)
    requires l == base + w
    ensures l + x == base + (w + x)
  {
  }

  /** Admitting a fabricNode record adds it to the leaves and spines exactly
      when it is a leaf or a spine. */
  lemma AdmittedLeaves(lst: seq<Record>, item: Record)
    requires AllHaveDn(lst) && IsFabricNode(item)
    ensures LeavesAndSpines(lst + (if Admits(lst, item) then [item] else [])) ==
            LeavesAndSpines(lst) + (if IsLeafOrSpine(item) then [item] else [])
  {
    if Admits(lst, item) {
      LeavesAndSpinesSnoc(lst, item);
    } else {
      assert lst + [] == lst;
    }
  }

  /** What one indexing step does to the fabricNode list. */
  lemma FabricStep(byClass: map<string, seq<Record>>, item: Record)
    requires ClassMapOk(byClass) && Indexable(item)
    ensures item.tag != FabricNode ==>
      LookupClass(ClassStep(byClass, item), FabricNode) == LookupClass(byClass, FabricNode)
    ensures item.tag == FabricNode ==>
      LookupClass(ClassStep(byClass, item), FabricNode) ==
        LookupClass(byClass, FabricNode) + (if Admits(LookupClass(byClass, FabricNode), item) then [item] else [])
  {
  }

  lemma LeavesAndSpinesSnoc(lst: seq<Record>, x: Record)
    ensures LeavesAndSpines(lst + [x]) == LeavesAndSpines(lst) + (if IsLeafOrSpine(x) then [x] else [])
  {
    assert (lst + [x])[..|lst|] == lst;
  }

  /** Indexing keeps the fabricNode list's shape: no role other than leaf,
      spine and controller, and no controller listed after a record with its dn. */
  lemma {:induction false} FabricOkPreserved(byClass: map<string, seq<Record>>, rs: seq<Record>)
    requires ClassMapOk(byClass) && AllIndexable(rs)
    requires FabricOk(LookupClass(byClass, FabricNode))
    ensures FabricOk(LookupClass(IndexClass(byClass, rs), FabricNode))
    decreases |rs|
  {
    if |rs| > 0 {
      var front, item := rs[..|rs| - 1], rs[|rs| - 1];
      FabricOkPreserved(byClass, front);
      var lst := LookupClass(IndexClass(byClass, front), FabricNode);
      if item.tag == FabricNode && Admits(lst, item) {
        var lst' := lst + [item];
        forall i, j | 0 <= i < j < |lst'| && IsController(lst'[j])
          ensures Dn(lst'[i]) != Dn(lst'[j])
        {
          if j == |lst| {
            assert lst'[i] == lst[i];
          }
        }
      }
    }
  }

  /** Every controller record of the batch is represented in the fabricNode
      list by a record with its dn (the first one seen). */
  lemma {:induction false} ControllersListed(byClass: map<string, seq<Record>>, rs: seq<Record>, i: nat)
    requires ClassMapOk(byClass) && AllIndexable(rs)
    requires i < |rs| && IsController(rs[i])
    ensures ListsDn(LookupClass(IndexClass(byClass, rs), FabricNode), Dn(rs[i]))
    decreases |rs|
  {
    var front := rs[..|rs| - 1];
    var lst := LookupClass(IndexClass(byClass, front), FabricNode);
    if i < |rs| - 1 {
      assert front[i] == rs[i];
      ControllersListed(byClass, front, i);
      var k :| 0 <= k < |lst| && Dn(lst[k]) == Dn(rs[i]);
      IndexClassGrows(IndexClass(byClass, front), [rs[|rs| - 1]], FabricNode);
      assert [rs[|rs| - 1]][..0] == [];
      var lst' := LookupClass(IndexClass(byClass, rs), FabricNode);
      assert lst'[k] == lst[k];
    } else if !ListsDn(lst, Dn(rs[i])) {
      var lst' := LookupClass(IndexClass(byClass, rs), FabricNode);
      assert lst' == lst + [rs[i]];
      assert Dn(lst'[|lst|]) == Dn(rs[i]);
    }
  }

  /** A fabricNode record whose role is not leaf, spine or controller never
      enters the fabricNode list, though it is in `by_dn`. */
  lemma {:induction false} OtherRolesDropped(byClass: map<string, seq<Record>>, rs: seq<Record>, x: Record)
    requires ClassMapOk(byClass) && AllIndexable(rs)
    requires IsFabricNode(x) && !IsLeafOrSpine(x) && !IsController(x)
    requires x !in LookupClass(byClass, FabricNode)
    ensures x !in LookupClass(IndexClass(byClass, rs), FabricNode)
    decreases |rs|
  {
    if |rs| > 0 {
      OtherRolesDropped(byClass, rs[..|rs| - 1], x);
    }
  }

  // ---------------------------------------------------------------------
  // Properties of get_subtree

  /** The subtree of a concatenation is the concatenation of the subtrees:
      the filter keeps the class list's order. */
  lemma {:induction false} SubtreeAppend(a: seq<Record>, b: seq<Record>, prefix: string)
    requires AllHaveDn(a) && AllHaveDn(b)
    ensures AllHaveDn(a + b)
    ensures Subtree(a + b, prefix) == Subtree(a, prefix) + Subtree(b, prefix)
    decreases |a|
  {
    if |a| > 0 {
      assert (a + b)[0] == a[0];
      assert (a + b)[1..] == a[1..] + b;
      SubtreeAppend(a[1..], b, prefix);
    } else {
      assert a + b == b;
    }
  }

  /** The prefix is a plain string prefix, not a path-segment prefix: "a/b"
      selects a record at "a/bc". */
  lemma SubtreeIsStringPrefix(r: Record)
    requires "dn" in r.attrs && Dn(r) == "a/bc"
    ensures Subtree([r], "a/b") == [r]
  {
    assert "a/b" <= Dn(r);
  }

  // ---------------------------------------------------------------------
  // The indexing rules on small batches

  /** Two controller records with the same dn: the class list keeps the
      first only, while `by_dn` holds the second. */
  lemma ControllerDuplicateDropped(a: Record, b: Record)
    requires IsController(a) && IsController(b) && Dn(a) == Dn(b)
    ensures LookupClass(IndexClass(map[], [a, b]), FabricNode) == [a]
    ensures IndexDn(map[], [a, b])[Dn(a)] == b
  {
    assert [a, b][..1] == [a];
    assert IndexClass(map[], [a]) == ClassStep(IndexClass(map[], []), a);
    assert !ListsDn([], Dn(a)) && [] + [a] == [a];
    assert ListsDn([a], Dn(b)) by { assert Dn([a][0]) == Dn(b); }
  }

  /** Two leaf or spine records with the same dn: both stay in the class list. */
  lemma LeafDuplicateKept(a: Record, b: Record)
    requires IsLeafOrSpine(a) && IsLeafOrSpine(b) && Dn(a) == Dn(b)
    ensures LookupClass(IndexClass(map[], [a, b]), FabricNode) == [a, b]
  {
    assert [a, b][..1] == [a];
    assert IndexClass(map[], [a]) == ClassStep(IndexClass(map[], []), a);
    assert [] + [a] == [a];
  }

  /** One batch with a context and a bridge domain directly under it: the
      bridge domain's entry names that context, and the context keeps its
      reverse entry (its `vnid_dict` entry too, unless the vnids collide). */
  lemma ContextWithBridgeDomain(ctx: Record, bd: Record)
    requires ctx.tag == "l3Ctx" && VnidReady(ctx) && "dn" in ctx.attrs
    requires bd.tag == "l2BD" && VnidReady(bd) && '-' in bd.attrs["fabEncap"]
    requires ParentDn(Dn(bd)) == Dn(ctx) && Dn(bd) != Dn(ctx)
    ensures VnidInputsOk(IndexDn(map[], [ctx, bd]), IndexClass(map[], [ctx, bd]))
    ensures var b := VnidBuild(Tables(map[], map[], map[]), IndexDn(map[], [ctx, bd]), IndexClass(map[], [ctx, bd]));
            var t := b.tables;
            b.error == None &&
            var cv, cn := ContextVnid(ctx.attrs["encap"]), ctx.attrs["name"];
            var bv := BdVnid(bd.attrs["fabEncap"]);
            var sn := ShortName(bd.attrs["name"], bv);
            t.vnids == map[cv := Context(cn)][bv := BridgeDomain(sn, Some(cn))] &&
            t.contexts == map[cn := cv] &&
            t.bds == map[sn := bv]
  {
    TwoClassesIndexed(ctx, bd);
    var byDn := map[Dn(ctx) := ctx, Dn(bd) := bd];
    ContextAndBridgeDomainInputs(ctx, bd);
    ContextThenBridgeDomain(byDn, ctx, bd);
  }

  /** The index of a context and a bridge domain under it is what
      `build_vnid_dictionary` needs, with one context and one bridge domain. */
  lemma ContextAndBridgeDomainInputs(ctx: Record, bd: Record)
    requires ctx.tag == "l3Ctx" && VnidReady(ctx) && "dn" in ctx.attrs
    requires bd.tag == "l2BD" && VnidReady(bd) && '-' in bd.attrs["fabEncap"]
    requires ParentDn(Dn(bd)) == Dn(ctx) && Dn(bd) != Dn(ctx)
    ensures var byDn, byClass := map[Dn(ctx) := ctx, Dn(bd) := bd], map["l3Ctx" := [ctx], "l2BD" := [bd]];
            VnidInputsOk(byDn, byClass) && AllResolved(byDn, [bd]) &&
            LookupClass(byClass, "l3Inst") + LookupClass(byClass, "l3Ctx") == [ctx] &&
            LookupClass(byClass, "l2BD") == [bd]
  {
    var byClass := map["l3Ctx" := [ctx], "l2BD" := [bd]];
    assert LookupClass(byClass, "l3Inst") + LookupClass(byClass, "l3Ctx") == [ctx];
  }

  /** A batch holding a bridge domain without its context: indexing
      succeeds, and building the tables raises TypeError before any entry is
      made. */
  lemma BridgeDomainWithoutContext(bd: Record)
    requires bd.tag == "l2BD" && VnidReady(bd) && '-' in bd.attrs["fabEncap"]
    requires ParentDn(Dn(bd)) != Dn(bd)
    ensures VnidInputsOk(IndexDn(map[], [bd]), IndexClass(map[], [bd]))
    ensures VnidBuild(Tables(map[], map[], map[]), IndexDn(map[], [bd]), IndexClass(map[], [bd])) ==
            Build(Tables(map[], map[], map[]), Some(TypeError))
  {
    var t := Tables(map[], map[], map[]);
    assert [bd][..0] == [] && [] + [bd] == [bd];
    assert IndexDn(map[], [bd]) == DnStep(IndexDn(map[], []), bd);
    assert IndexClass(map[], [bd]) == ClassStep(IndexClass(map[], []), bd);
    var byDn, byClass := map[Dn(bd) := bd], map["l2BD" := [bd]];
    assert LookupClass(byClass, "l3Inst") + LookupClass(byClass, "l3Ctx") == [];
    assert AddContexts(t, []) == t;
    OrphanBridgeDomain(t, byDn, bd);
  }

  /** The batch `l3Ctx` "sys/inst-ctxA" (encap "vxlan-12345", name "ctxA")
      and `l2BD` "sys/inst-ctxA/bd-[vxlan-16000]" (fabEncap "vxlan-16000",
      name "uni/tn-X:bd1"). */
  lemma ContextAndBridgeDomainExample(ctx: Record, bd: Record)
    requires ctx == Record("l3Ctx", map["dn" := "sys/inst-ctxA", "encap" := "vxlan-12345", "name" := "ctxA"])
    requires bd == Record("l2BD", map["dn" := "sys/inst-ctxA/bd-[vxlan-16000]", "fabEncap" := "vxlan-16000",
                                      "name" := "uni/tn-X:bd1"])
    ensures VnidInputsOk(IndexDn(map[], [ctx, bd]), IndexClass(map[], [ctx, bd]))
    ensures var b := VnidBuild(Tables(map[], map[], map[]), IndexDn(map[], [ctx, bd]), IndexClass(map[], [ctx, bd]));
            var t := b.tables;
            b.error == None &&
            t.vnids == map["12345" := Context("ctxA"), "16000" := BridgeDomain("bd1", Some("ctxA"))] &&
            t.contexts == map["ctxA" := "12345"] &&
            t.bds == map["bd1" := "16000"]
  {
    ExampleRecords(ctx, bd);
    ContextWithBridgeDomain(ctx, bd);
    ExampleNames();
  }

  /** The example's records are a context and a bridge domain under it. */
  lemma ExampleRecords(ctx: Record, bd: Record)
    requires ctx == Record("l3Ctx", map["dn" := "sys/inst-ctxA", "encap" := "vxlan-12345", "name" := "ctxA"])
    requires bd == Record("l2BD", map["dn" := "sys/inst-ctxA/bd-[vxlan-16000]", "fabEncap" := "vxlan-16000",
                                      "name" := "uni/tn-X:bd1"])
    ensures ctx.tag == "l3Ctx" && VnidReady(ctx) && "dn" in ctx.attrs
    ensures bd.tag == "l2BD" && VnidReady(bd) && '-' in bd.attrs["fabEncap"]
    ensures ParentDn(Dn(bd)) == Dn(ctx) && Dn(bd) != Dn(ctx)
    ensures ctx.attrs["encap"] == "vxlan-12345" && ctx.attrs["name"] == "ctxA"
    ensures bd.attrs["fabEncap"] == "vxlan-16000" && bd.attrs["name"] == "uni/tn-X:bd1"
  {
    ExampleParent(Dn(bd));
    ExampleDash(bd.attrs["fabEncap"]);
  }

  lemma ExampleDash(encap: string)
    requires encap == "vxlan-16000"
    ensures '-' in encap
  {
    assert encap[5] == '-';
  }

  /** The vnids, parent dn and short name the example's attributes give. */
  lemma ExampleNames()
    ensures ContextVnid("vxlan-12345") == "12345" && BdVnid("vxlan-16000") == "16000"
    ensures ParentDn("sys/inst-ctxA/bd-[vxlan-16000]") == "sys/inst-ctxA"
    ensures ShortName("uni/tn-X:bd1", "16000") == "bd1"
  {
    ExampleVnid("vxlan-12345", "12345");
    ExampleVnid("vxlan-16000", "16000");
    ExampleParent("sys/inst-ctxA/bd-[vxlan-16000]");
    ExampleShortName("uni/tn-X:bd1");
  }

  lemma ExampleVnid(encap: string, id: string)
    requires (encap == "vxlan-12345" && id == "12345") || (encap == "vxlan-16000" && id == "16000")
    ensures ContextVnid(encap) == id && BdVnid(encap) == id
  {
    ContextVnidOf("vxlan", id);
    if id == "12345" {
      assert encap == "vxlan" + "-" + "12345";
    } else {
      assert encap == "vxlan" + "-" + "16000";
    }
  }

  lemma ExampleParent(dn: string)
    requires dn == "sys/inst-ctxA/bd-[vxlan-16000]"
    ensures ParentDn(dn) == "sys/inst-ctxA"
  {
    var parent, leaf := ExampleDnParts(dn);
    ParentDnOf(parent, leaf);
  }

  lemma ExampleDnParts(dn: string) returns (parent: string, leaf: string)
    requires dn == "sys/inst-ctxA/bd-[vxlan-16000]"
    ensures dn == parent + "/" + leaf && '/' !in leaf && parent == "sys/inst-ctxA"
  {
    parent, leaf := "sys/inst-ctxA", "bd-[vxlan-16000]";
    assert dn == parent + "/" + leaf;
  }

  lemma ExampleShortName(name: string)
    requires name == "uni/tn-X:bd1"
    ensures ShortName(name, "16000") == "bd1"
  {
    ShortNameAfterColon("uni/tn-X", "bd1", "16000");
    assert name == "uni/tn-X" + ":" + "bd1";
  }

  /** Indexing two ordinary records of different classes and dns. */
  lemma TwoClassesIndexed(a: Record, b: Record)
    requires !IsError(a) && !IsError(b) && a.tag != FabricNode && b.tag != FabricNode
    requires Indexable(a) && Indexable(b) && a.tag != b.tag && Dn(a) != Dn(b)
    ensures IndexDn(map[], [a, b]) == map[Dn(a) := a, Dn(b) := b]
    ensures IndexClass(map[], [a, b]) == map[a.tag := [a], b.tag := [b]]
  {
    assert [a, b][..1] == [a];
    assert IndexClass(map[], [a]) == ClassStep(IndexClass(map[], []), a);
    assert [] + [a] == [a] && [] + [b] == [b];
    assert IndexDn(map[], [a]) == DnStep(IndexDn(map[], []), a);
  }
}

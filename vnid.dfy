/** The segment (vnid) tables WorkingData derives from L3 contexts and
    bridge domains: `vnid_dict`, `ctx_dict` and `bd_dict`. */
module Vnid {
  import opened Results
  import opened PyStr
  import opened Records
  import opened Dicts

  /** An entry of `vnid_dict`: `{'name', 'type': 'context'}` or
      `{'name', 'type': 'bd', 'context'}`. */
  datatype Segment = Context(name: string) | BridgeDomain(name: string, context: Option<string>)

  /** `vnid_dict` (vnid to segment), `ctx_dict` (context name to vnid) and
      `bd_dict` (bridge-domain short name to vnid). */
  datatype Tables = Tables(vnids: map<string, Segment>, contexts: map<string, string>, bds: map<string, string>)

  /** The two class names that describe an L3 context. */
  predicate IsContextTag(tag: string) {
    tag == "l3Inst" || tag == "l3Ctx"
  }

  /** What the vnid builder reads of a record without a guard (a missing
      key is a KeyError). */
  predicate VnidReady(r: Record) {
    (IsContextTag(r.tag) ==> "encap" in r.attrs && "name" in r.attrs) &&
    (r.tag == "l2BD" ==> "dn" in r.attrs && "fabEncap" in r.attrs && "name" in r.attrs)
  }

  /** A context's vnid: the second '-' field of its encap when it has a '-',
      otherwise the whole encap. It never contains '-'. */
  function ContextVnid(encap: string): (r: string)
    ensures '-' !in r
    ensures '-' !in encap ==> r == encap
  {
    SplitFieldsFree(encap, '-');
    if '-' in encap then Split(encap, "-")[1] else encap
  }

  /** A bridge domain's vnid: the second '-' field of its fabEncap (without
      a '-' the source raises IndexError, see `BdError`). */
  function BdVnid(fabEncap: string): (r: string)
    requires '-' in fabEncap
    ensures '-' !in r && r == ContextVnid(fabEncap)
  {
    SplitFieldsFree(fabEncap, '-');
    Split(fabEncap, "-")[1]
  }

  /** A bridge domain's short name: the text after the last ':' of its name,
      or the vnid when that text is empty. It is the vnid or a non-empty
      name without ':'. */
  function ShortName(name: string, vnid: string): (r: string)
    ensures r == vnid || (r != "" && ':' !in r)
  {
    SplitFieldsFree(name, ':');
    var s := Last(Split(name, ":"));
    if s == "" then vnid else s
  }

  /** `'/'.join(dn.split('/')[0:-1])`: the dn without its last segment, a
      prefix of the dn that '/' and the last segment complete. */
  function ParentDn(dn: string): (r: string)
    ensures r <= dn
    ensures '/' in dn ==> dn == r + "/" + Last(Split(dn, "/"))
  {
    var fields := Split(dn, "/");
    JoinSplit(dn, "/");
    var r := Join(fields[..|fields| - 1], "/");
    if |fields| > 1 then
      assert fields == fields[..|fields| - 1] + [Last(fields)];
      JoinAppend(fields[..|fields| - 1], Last(fields), "/");
      r
    else
      r
  }

  /** What resolving a bridge domain's context reads without a guard: the
      name of a context record stored at its parent dn. */
  predicate ParentReady(byDn: map<string, Record>, bd: Record)
    requires "dn" in bd.attrs
  {
    var parent := ParentDn(Dn(bd));
    parent in byDn && IsContextTag(byDn[parent].tag) ==> "name" in byDn[parent].attrs
  }

  /** A bridge domain the loop gets through: its fabEncap has a '-' and a
      record is stored at its parent dn. */
  predicate Resolved(byDn: map<string, Record>, bd: Record)
    requires bd.tag == "l2BD" && VnidReady(bd)
  {
    '-' in bd.attrs["fabEncap"] && ParentDn(Dn(bd)) in byDn
  }

  /** The exception one bridge domain raises: IndexError from
      `fabEncap.split('-')[1]` without a '-', else TypeError from
      `'l3Ctx' in None` when `get_object` finds nothing at the parent dn. */
  function BdError(byDn: map<string, Record>, bd: Record): (e: Option<PyError>)
    requires bd.tag == "l2BD" && VnidReady(bd)
    ensures e.None? <==> Resolved(byDn, bd)
    ensures e.Some? ==> (e.value == IndexError <==> '-' !in bd.attrs["fabEncap"])
    ensures e.Some? ==> e.value == IndexError || e.value == TypeError
  {
    if '-' !in bd.attrs["fabEncap"] then Some(IndexError)
    else if ParentDn(Dn(bd)) !in byDn then Some(TypeError)
    else None
  }

  /** The name of the context whose record sits at the parent dn, or None
      when that record is of another class. */
  function ContextOf(byDn: map<string, Record>, bd: Record): (r: Option<string>)
    requires "dn" in bd.attrs && ParentDn(Dn(bd)) in byDn && ParentReady(byDn, bd)
    ensures r.Some? <==> IsContextTag(byDn[ParentDn(Dn(bd))].tag)
    ensures r.Some? ==> r.value == byDn[ParentDn(Dn(bd))].attrs["name"]
  {
    var parent := byDn[ParentDn(Dn(bd))];
    if IsContextTag(parent.tag) then Some(parent.attrs["name"]) else None
  }

  predicate AllContexts(ctxs: seq<Record>) {
    forall i :: 0 <= i < |ctxs| ==> IsContextTag(ctxs[i].tag) && VnidReady(ctxs[i])
  }

  /** The bridge-domain records and what resolving their context reads. */
  predicate AllBridgeDomains(byDn: map<string, Record>, bds: seq<Record>) {
    forall i :: 0 <= i < |bds| ==> bds[i].tag == "l2BD" && VnidReady(bds[i]) && ParentReady(byDn, bds[i])
  }

  predicate AllResolved(byDn: map<string, Record>, bds: seq<Record>)
    requires AllBridgeDomains(byDn, bds)
  {
    forall i :: 0 <= i < |bds| ==> Resolved(byDn, bds[i])
  }

  /** The position of the first bridge domain that raises, or the length
      when none does. */
  function FirstUnresolved(byDn: map<string, Record>, bds: seq<Record>): (n: nat)
    requires AllBridgeDomains(byDn, bds)
    ensures n <= |bds|
    ensures forall i :: 0 <= i < n ==> Resolved(byDn, bds[i])
    ensures n < |bds| ==> !Resolved(byDn, bds[n])
    decreases |bds|
  {
    if |bds| == 0 || !Resolved(byDn, bds[0]) then 0
    else
      var m := FirstUnresolved(byDn, bds[1..]);
      assert forall i :: 1 <= i < m + 1 ==> bds[i] == bds[1..][i - 1];
      1 + m
  }

  /** The position where the loop stops is determined by what comes before
      it: all resolved, then the end or one that is not. */
  lemma FirstUnresolvedAt(byDn: map<string, Record>, bds: seq<Record>, i: nat)
    requires AllBridgeDomains(byDn, bds) && i <= |bds|
    requires forall j :: 0 <= j < i ==> Resolved(byDn, bds[j])
    requires i < |bds| ==> !Resolved(byDn, bds[i])
    ensures FirstUnresolved(byDn, bds) == i
  {
  }

  /** The `vnid_dict` assignments made for the contexts, in order. */
  function ContextVnidPairs(ctxs: seq<Record>): seq<(string, Segment)>
    requires AllContexts(ctxs)
  {
    seq(|ctxs|, i requires 0 <= i < |ctxs| =>
      (ContextVnid(ctxs[i].attrs["encap"]), Context(ctxs[i].attrs["name"])))
  }

  /** The `ctx_dict` assignments made for the contexts, in order. */
  function ContextNamePairs(ctxs: seq<Record>): seq<(string, string)>
    requires AllContexts(ctxs)
  {
    seq(|ctxs|, i requires 0 <= i < |ctxs| =>
      (ctxs[i].attrs["name"], ContextVnid(ctxs[i].attrs["encap"])))
  }

  /** The segment entry of one bridge domain. */
  function BdSegment(byDn: map<string, Record>, bd: Record): Segment
    requires bd.tag == "l2BD" && VnidReady(bd) && ParentReady(byDn, bd) && Resolved(byDn, bd)
  {
    var vnid := BdVnid(bd.attrs["fabEncap"]);
    BridgeDomain(ShortName(bd.attrs["name"], vnid), ContextOf(byDn, bd))
  }

  /** The `vnid_dict` assignments made for the bridge domains, in order. */
  function BdVnidPairs(byDn: map<string, Record>, bds: seq<Record>): seq<(string, Segment)>
    requires AllBridgeDomains(byDn, bds) && AllResolved(byDn, bds)
  {
    seq(|bds|, i requires 0 <= i < |bds| =>
      (BdVnid(bds[i].attrs["fabEncap"]), BdSegment(byDn, bds[i])))
  }

  /** The `bd_dict` assignments made for the bridge domains, in order. */
  function BdNamePairs(byDn: map<string, Record>, bds: seq<Record>): seq<(string, string)>
    requires AllBridgeDomains(byDn, bds) && AllResolved(byDn, bds)
  {
    seq(|bds|, i requires 0 <= i < |bds| =>
      (ShortName(bds[i].attrs["name"], BdVnid(bds[i].attrs["fabEncap"])), BdVnid(bds[i].attrs["fabEncap"])))
  }

  /** The tables after the context loop. */
  function AddContexts(t: Tables, ctxs: seq<Record>): Tables
    requires AllContexts(ctxs)
  {
    Tables(Assign(t.vnids, ContextVnidPairs(ctxs)), Assign(t.contexts, ContextNamePairs(ctxs)), t.bds)
  }

  /** The tables after the bridge-domain loop over bridge domains that all
      resolve. */
  function AddBridgeDomains(t: Tables, byDn: map<string, Record>, bds: seq<Record>): Tables
    requires AllBridgeDomains(byDn, bds) && AllResolved(byDn, bds)
  {
    Tables(Assign(t.vnids, BdVnidPairs(byDn, bds)), t.contexts, Assign(t.bds, BdNamePairs(byDn, bds)))
  }

  /** The tables a loop leaves and the exception it ends with, if any. */
  datatype Build = Build(tables: Tables, error: Option<PyError>)

  /** The bridge-domain loop: the bridge domains before the first one that
      raises are entered, and that one's exception ends the loop. */
  function BridgeDomainLoop(t: Tables, byDn: map<string, Record>, bds: seq<Record>): (r: Build)
    requires AllBridgeDomains(byDn, bds)
    ensures r.error.None? <==> AllResolved(byDn, bds)
    ensures r.error.None? ==> r.tables == AddBridgeDomains(t, byDn, bds)
    ensures r.error.Some? ==> r.error.value == IndexError || r.error.value == TypeError
  {
    var n := FirstUnresolved(byDn, bds);
    var done := bds[..n];
    assert forall i :: 0 <= i < n ==> done[i] == bds[i];
    assert n == |bds| ==> done == bds;
    Build(AddBridgeDomains(t, byDn, done), if n < |bds| then BdError(byDn, bds[n]) else None)
  }

  /** A bridge domain that raises ends the loop: the tables are those of the
      bridge domains before it, and later ones are never looked at. */
  lemma BridgeDomainLoopStops(t: Tables, byDn: map<string, Record>, bds: seq<Record>, i: nat)
    requires AllBridgeDomains(byDn, bds) && i < |bds|
    requires forall j :: 0 <= j < i ==> Resolved(byDn, bds[j])
    requires !Resolved(byDn, bds[i])
    ensures AllBridgeDomains(byDn, bds[..i]) && AllResolved(byDn, bds[..i])
    ensures BridgeDomainLoop(t, byDn, bds) == Build(AddBridgeDomains(t, byDn, bds[..i]), BdError(byDn, bds[i]))
  {
    FirstUnresolvedAt(byDn, bds, i);
  }

  /** A bridge domain indexed without its context (nothing stored at its
      parent dn) raises TypeError before any table changes. */
  lemma OrphanBridgeDomain(t: Tables, byDn: map<string, Record>, bd: Record)
    requires bd.tag == "l2BD" && VnidReady(bd) && '-' in bd.attrs["fabEncap"]
    requires ParentDn(Dn(bd)) !in byDn
    ensures AllBridgeDomains(byDn, [bd])
    ensures BridgeDomainLoop(t, byDn, [bd]) == Build(t, Some(TypeError))
  {
    assert [bd][0] == bd && [bd][..0] == [];
    BridgeDomainLoopStops(t, byDn, [bd], 0);
  }

  /** A fabEncap without '-' raises IndexError before any table changes,
      whatever is stored at the parent dn. */
  lemma EncapWithoutDash(t: Tables, byDn: map<string, Record>, bd: Record)
    requires bd.tag == "l2BD" && VnidReady(bd) && ParentReady(byDn, bd) && '-' !in bd.attrs["fabEncap"]
    ensures AllBridgeDomains(byDn, [bd])
    ensures BridgeDomainLoop(t, byDn, [bd]) == Build(t, Some(IndexError))
  {
    assert [bd][0] == bd && [bd][..0] == [];
    BridgeDomainLoopStops(t, byDn, [bd], 0);
  }

  /** One more context is one more pair of each kind. */
  lemma ContextPairsStep(ctxs: seq<Record>, i: nat)
    requires AllContexts(ctxs) && i < |ctxs|
    ensures AllContexts(ctxs[..i]) && AllContexts(ctxs[..i + 1])
    ensures ContextVnidPairs(ctxs[..i + 1]) ==
            ContextVnidPairs(ctxs[..i]) + [(ContextVnid(ctxs[i].attrs["encap"]), Context(ctxs[i].attrs["name"]))]
    ensures ContextNamePairs(ctxs[..i + 1]) ==
            ContextNamePairs(ctxs[..i]) + [(ctxs[i].attrs["name"], ContextVnid(ctxs[i].attrs["encap"]))]
  {
  }

  /** One more bridge domain is one more pair of each kind. */
  lemma BdPairsStep(byDn: map<string, Record>, bds: seq<Record>, i: nat)
    requires AllBridgeDomains(byDn, bds) && i < |bds|
    requires forall j :: 0 <= j <= i ==> Resolved(byDn, bds[j])
    ensures AllBridgeDomains(byDn, bds[..i]) && AllBridgeDomains(byDn, bds[..i + 1])
    ensures AllResolved(byDn, bds[..i]) && AllResolved(byDn, bds[..i + 1])
    ensures BdVnidPairs(byDn, bds[..i + 1]) ==
            BdVnidPairs(byDn, bds[..i]) + [(BdVnid(bds[i].attrs["fabEncap"]), BdSegment(byDn, bds[i]))]
    ensures BdNamePairs(byDn, bds[..i + 1]) ==
            BdNamePairs(byDn, bds[..i]) + [(ShortName(bds[i].attrs["name"], BdVnid(bds[i].attrs["fabEncap"])), BdVnid(bds[i].attrs["fabEncap"]))]
  {
  }

  /** The context loop over a single context. */
  lemma OneContext(t: Tables, c: Record)
    requires AllContexts([c])
    ensures AddContexts(t, [c]) ==
            Tables(t.vnids[ContextVnid(c.attrs["encap"]) := Context(c.attrs["name"])],
                   t.contexts[c.attrs["name"] := ContextVnid(c.attrs["encap"])], t.bds)
  {
    assert [c][0] == c;
    var vnid, name := ContextVnid(c.attrs["encap"]), c.attrs["name"];
    assert ContextVnidPairs([c]) == [] + [(vnid, Context(name))];
    assert ContextNamePairs([c]) == [] + [(name, vnid)];
    AssignStep(t.vnids, [], (vnid, Context(name)));
    AssignStep(t.contexts, [], (name, vnid));
  }

  /** The bridge-domain loop over a single bridge domain. */
  lemma OneBridgeDomain(t: Tables, byDn: map<string, Record>, bd: Record)
    requires bd.tag == "l2BD" && VnidReady(bd) && ParentReady(byDn, bd) && Resolved(byDn, bd)
    ensures AddBridgeDomains(t, byDn, [bd]) ==
            Tables(t.vnids[BdVnid(bd.attrs["fabEncap"]) := BdSegment(byDn, bd)], t.contexts,
                   t.bds[ShortName(bd.attrs["name"], BdVnid(bd.attrs["fabEncap"])) := BdVnid(bd.attrs["fabEncap"])])
  {
    assert [bd][0] == bd;
    assert AllBridgeDomains(byDn, [bd]) && AllResolved(byDn, [bd]);
    var vnid := BdVnid(bd.attrs["fabEncap"]);
    var name := ShortName(bd.attrs["name"], vnid);
    assert BdVnidPairs(byDn, [bd]) == [] + [(vnid, BdSegment(byDn, bd))];
    assert BdNamePairs(byDn, [bd]) == [] + [(name, vnid)];
    AssignStep(t.vnids, [], (vnid, BdSegment(byDn, bd)));
    AssignStep(t.bds, [], (name, vnid));
  }

  /** From empty tables, one context and then one bridge domain whose parent
      dn holds that context: the bridge domain's segment names the context. */
  lemma ContextThenBridgeDomain(byDn: map<string, Record>, ctx: Record, bd: Record)
    requires IsContextTag(ctx.tag) && VnidReady(ctx) && bd.tag == "l2BD" && VnidReady(bd)
    requires '-' in bd.attrs["fabEncap"]
    requires ParentDn(Dn(bd)) in byDn && byDn[ParentDn(Dn(bd))] == ctx
    ensures var t := AddBridgeDomains(AddContexts(Tables(map[], map[], map[]), [ctx]), byDn, [bd]);
            var cv, cn := ContextVnid(ctx.attrs["encap"]), ctx.attrs["name"];
            var bv := BdVnid(bd.attrs["fabEncap"]);
            var sn := ShortName(bd.attrs["name"], bv);
            t.vnids == map[cv := Context(cn)][bv := BridgeDomain(sn, Some(cn))] &&
            t.contexts == map[cn := cv] &&
            t.bds == map[sn := bv]
  {
    assert [ctx][0] == ctx && [bd][0] == bd;
    assert AllContexts([ctx]) && AllBridgeDomains(byDn, [bd]);
    var t1 := AddContexts(Tables(map[], map[], map[]), [ctx]);
    OneContext(Tables(map[], map[], map[]), ctx);
    OneBridgeDomain(t1, byDn, bd);
  }

  // ---------------------------------------------------------------------
  // Deriving vnids, short names and parent dns

  /** `"<type>-<id>"` has vnid `<id>`, e.g. "vxlan-12345" gives "12345". */
  lemma ContextVnidOf(kind: string, id: string)
    requires '-' !in kind && '-' !in id
    ensures ContextVnid(kind + "-" + id) == id
    ensures BdVnid(kind + "-" + id) == id
  {
    Split2(kind, id, '-');
    assert '-' in kind + "-" + id by { assert (kind + "-" + id)[|kind|] == '-'; }
  }

  /** An encap without '-' is its own vnid. */
  lemma ContextVnidPlain(encap: string)
    requires '-' !in encap
    ensures ContextVnid(encap) == encap
  {
  }

  /** The vnid is the second '-' field, not the last one: "vxlan-1-2" gives "1". */
  lemma ContextVnidSecondField()
    ensures ContextVnid("vxlan-1-2") == "1"
  {
    Split3("vxlan", "1", "2", '-');
    assert "vxlan-1-2" == "vxlan" + ['-'] + "1" + ['-'] + "2";
  }

  /** The short name is the text after the last ':', whatever comes before. */
  lemma {:induction false} ShortNameAfterColon(prefix: string, short: string, vnid: string)
    requires ':' !in short
    ensures ShortName(prefix + ":" + short, vnid) == if short == "" then vnid else short
  {
    SplitAround(prefix, ':', short);
    SplitNoSep(short, ':');
  }

  /** A name without ':' is its own short name unless it is empty. */
  lemma ShortNameNoColon(name: string, vnid: string)
    requires ':' !in name
    ensures ShortName(name, vnid) == if name == "" then vnid else name
  {
    SplitNoSep(name, ':');
  }

  /** Stripping the last segment of `parent/leaf` gives `parent`. */
  lemma {:induction false} ParentDnOf(parent: string, leaf: string)
    requires '/' !in leaf
    ensures ParentDn(parent + "/" + leaf) == parent
  {
    SplitAround(parent, '/', leaf);
    SplitNoSep(leaf, '/');
    var fields := Split(parent + "/" + leaf, "/");
    assert fields[..|fields| - 1] == Split(parent, "/");
    JoinSplit(parent, "/");
  }

  /** A dn without '/' has the empty parent, and the last segment of a dn
      never contains '/'. */
  lemma {:induction false} ParentDnSplit(dn: string)
    ensures '/' !in dn ==> ParentDn(dn) == ""
    ensures '/' !in Last(Split(dn, "/"))
  {
    SplitFieldsFree(dn, '/');
    if '/' !in dn {
      SplitNoSep(dn, '/');
    }
  }

  // ---------------------------------------------------------------------
  // The tables

  /** After the context loop, a vnid maps to the context of the last record
      carrying it, and a context name to the vnid of its last record. */
  lemma ContextsLastWins(t: Tables, ctxs: seq<Record>, i: nat)
    requires AllContexts(ctxs) && i < |ctxs|
    ensures var vnid := ContextVnid(ctxs[i].attrs["encap"]);
            (forall j :: i < j < |ctxs| ==> ContextVnid(ctxs[j].attrs["encap"]) != vnid) ==>
              vnid in AddContexts(t, ctxs).vnids &&
              AddContexts(t, ctxs).vnids[vnid] == Context(ctxs[i].attrs["name"])
    ensures var name := ctxs[i].attrs["name"];
            (forall j :: i < j < |ctxs| ==> ctxs[j].attrs["name"] != name) ==>
              name in AddContexts(t, ctxs).contexts &&
              AddContexts(t, ctxs).contexts[name] == ContextVnid(ctxs[i].attrs["encap"])
  {
    var vp := ContextVnidPairs(ctxs);
    var np := ContextNamePairs(ctxs);
    if forall j :: i < j < |ctxs| ==> ContextVnid(ctxs[j].attrs["encap"]) != ContextVnid(ctxs[i].attrs["encap"]) {
      assert forall j :: i < j < |vp| ==> vp[j].0 != vp[i].0;
      AssignLast(t.vnids, vp, i);
    }
    if forall j :: i < j < |ctxs| ==> ctxs[j].attrs["name"] != ctxs[i].attrs["name"] {
      assert forall j :: i < j < |np| ==> np[j].0 != np[i].0;
      AssignLast(t.contexts, np, i);
    }
  }

  /** Bridge domains are processed after contexts, so the last bridge domain
      carrying a vnid owns it even when a context carries the same vnid. */
  lemma BridgeDomainWins(t: Tables, ctxs: seq<Record>, byDn: map<string, Record>, bds: seq<Record>, i: nat)
    requires AllContexts(ctxs) && AllBridgeDomains(byDn, bds) && AllResolved(byDn, bds) && i < |bds|
    ensures var vnid := BdVnid(bds[i].attrs["fabEncap"]);
            (forall j :: i < j < |bds| ==> BdVnid(bds[j].attrs["fabEncap"]) != vnid) ==>
              vnid in AddBridgeDomains(AddContexts(t, ctxs), byDn, bds).vnids &&
              AddBridgeDomains(AddContexts(t, ctxs), byDn, bds).vnids[vnid] == BdSegment(byDn, bds[i])
  {
    var vp := BdVnidPairs(byDn, bds);
    var t1 := AddContexts(t, ctxs);
    var vnid := BdVnid(bds[i].attrs["fabEncap"]);
    if forall j :: i < j < |bds| ==> BdVnid(bds[j].attrs["fabEncap"]) != vnid {
      assert forall j :: i < j < |vp| ==> vp[j].0 != vp[i].0;
      AssignLast(t1.vnids, vp, i);
    }
  }

  /** A bridge domain's short name maps back to its vnid unless a later
      bridge domain has the same short name. */
  lemma BridgeDomainNameLastWins(t: Tables, byDn: map<string, Record>, bds: seq<Record>, i: nat)
    requires AllBridgeDomains(byDn, bds) && AllResolved(byDn, bds) && i < |bds|
    ensures var vnid := BdVnid(bds[i].attrs["fabEncap"]);
            var short := ShortName(bds[i].attrs["name"], vnid);
            (forall j :: i < j < |bds| ==>
              ShortName(bds[j].attrs["name"], BdVnid(bds[j].attrs["fabEncap"])) != short) ==>
              short in AddBridgeDomains(t, byDn, bds).bds &&
              AddBridgeDomains(t, byDn, bds).bds[short] == vnid
  {
    var np := BdNamePairs(byDn, bds);
    var vnid := BdVnid(bds[i].attrs["fabEncap"]);
    var short := ShortName(bds[i].attrs["name"], vnid);
    if forall j :: i < j < |bds| ==> ShortName(bds[j].attrs["name"], BdVnid(bds[j].attrs["fabEncap"])) != short {
      assert forall j :: i < j < |np| ==> np[j].0 != np[i].0;
      AssignLast(t.bds, np, i);
    }
  }

  /** A vnid no bridge domain carries keeps what the context loop gave it,
      and the context loop leaves `bd_dict` alone while the bridge-domain
      loop leaves `ctx_dict` alone. */
  lemma ContextSurvives(t: Tables, ctxs: seq<Record>, byDn: map<string, Record>, bds: seq<Record>, vnid: string)
    requires AllContexts(ctxs) && AllBridgeDomains(byDn, bds) && AllResolved(byDn, bds)
    requires forall j :: 0 <= j < |bds| ==> BdVnid(bds[j].attrs["fabEncap"]) != vnid
    ensures var t2 := AddBridgeDomains(AddContexts(t, ctxs), byDn, bds);
            (vnid in t2.vnids <==> vnid in AddContexts(t, ctxs).vnids) &&
            (vnid in t2.vnids ==> t2.vnids[vnid] == AddContexts(t, ctxs).vnids[vnid]) &&
            t2.contexts == AddContexts(t, ctxs).contexts && AddContexts(t, ctxs).bds == t.bds
  {
    var vp := BdVnidPairs(byDn, bds);
    assert forall j :: 0 <= j < |vp| ==> vp[j].0 != vnid;
    AssignUntouched(AddContexts(t, ctxs).vnids, vp, vnid);
  }
}

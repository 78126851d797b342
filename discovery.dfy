/** CDP and LLDP discovery: the table of protocol policies and the
    application of the policy relations to a list of interfaces. */
module Discovery {
  import opened Results
  import opened PyStr
  import opened Records
  import opened Dicts
  import opened Interfaces

  datatype Protocol = Cdp | Lldp

  /** The protocol argument: "cdp" or "lldp", a ValueError otherwise. */
  function ProtocolOf(prot: string): (r: Result<Protocol>)
    ensures r.Ok? <==> prot == "cdp" || prot == "lldp"
    ensures r.Err? ==> r.error == ValueError
    ensures r.Ok? ==> (r.value == Cdp <==> prot == "cdp")
  {
    if prot == "cdp" then Ok(Cdp) else if prot == "lldp" then Ok(Lldp) else Err(ValueError)
  }

  function Other(p: Protocol): Protocol {
    if p == Cdp then Lldp else Cdp
  }

  /** The class of the policy objects. */
  function PolicyClass(p: Protocol): string {
    if p == Cdp then "cdpIfPol" else "lldpIfPol"
  }

  /** The attribute holding a policy's state. */
  function StateKey(p: Protocol): string {
    if p == Cdp then "adminSt" else "adminTxSt"
  }

  /** The class of the relation objects. */
  function RelationClass(p: Protocol): string {
    if p == Cdp then "l1RsCdpIfPolCons" else "l1RsLldpIfPolCons"
  }

  /** What precedes the policy name in a relation's target dn. */
  function DnClass(p: Protocol): string {
    if p == Cdp then "/cdpIfP-" else "/lldpIfP-"
  }

  /** What follows the interface dn in a relation's own dn. */
  function RelationDn(p: Protocol): string {
    if p == Cdp then "/rscdpIfPolCons" else "/rslldpIfPolCons"
  }

  // ---------------------------------------------------------------------
  // The policy table

  /** A policy element carries its name and its state. */
  predicate PolicyReady(p: Protocol, r: Record) {
    r.tag == PolicyClass(p) ==> "name" in r.attrs && StateKey(p) in r.attrs
  }

  predicate AllPoliciesReady(p: Protocol, data: seq<Record>) {
    forall i :: 0 <= i < |data| ==> PolicyReady(p, data[i])
  }

  /** The (name, state) assignments the policy loop makes, in order. */
  function PolicyPairs(p: Protocol, data: seq<Record>): seq<(string, string)>
    requires AllPoliciesReady(p, data)
    decreases |data|
  {
    if |data| == 0 then []
    else
      var r := data[|data| - 1];
      var front := PolicyPairs(p, data[..|data| - 1]);
      if r.tag == PolicyClass(p) then front + [(r.attrs["name"], r.attrs[StateKey(p)])] else front
  }

  /** The table `_get_discoveryprot_policies` builds from the policy elements
      of the response: name to admin state (CDP) or transmit state (LLDP). */
  method CollectPolicies(p: Protocol, data: seq<Record>) returns (policies: map<string, string>)
    requires AllPoliciesReady(p, data)
    ensures policies == Assign(map[], PolicyPairs(p, data))
  {
    policies := map[];
    var i := 0;
    while i < |data|
      invariant 0 <= i <= |data|
      invariant policies == Assign(map[], PolicyPairs(p, data[..i]))
    {
      var r := data[i];
      assert data[..i + 1][..i] == data[..i];
      if r.tag == PolicyClass(p) {
        AssignStep(map[], PolicyPairs(p, data[..i]), (r.attrs["name"], r.attrs[StateKey(p)]));
        policies := policies[r.attrs["name"] := r.attrs[StateKey(p)]];
      }
      i := i + 1;
    }
    assert data[..i] == data;
  }

  /** A policy's entry is the state of the last element with its name;
      elements of other classes are ignored. */
  lemma {:induction false} PolicyFound(p: Protocol, data: seq<Record>, i: nat)
    requires AllPoliciesReady(p, data)
    requires i < |data| && data[i].tag == PolicyClass(p)
    requires forall j :: i < j < |data| && data[j].tag == PolicyClass(p) ==>
               data[j].attrs["name"] != data[i].attrs["name"]
    ensures var t := Assign(map[], PolicyPairs(p, data));
      data[i].attrs["name"] in t && t[data[i].attrs["name"]] == data[i].attrs[StateKey(p)]
    decreases |data|
  {
    var n := |data|;
    var front := data[..n - 1];
    var r := data[n - 1];
    if i == n - 1 {
      AssignStep(map[], PolicyPairs(p, front), (r.attrs["name"], r.attrs[StateKey(p)]));
    } else {
      assert front[i] == data[i];
      PolicyFound(p, front, i);
      if r.tag == PolicyClass(p) {
        AssignStep(map[], PolicyPairs(p, front), (r.attrs["name"], r.attrs[StateKey(p)]));
      }
    }
  }

  /** A name no policy element carries has no entry. */
  lemma {:induction false} PolicyAbsent(p: Protocol, data: seq<Record>, name: string)
    requires AllPoliciesReady(p, data)
    requires forall j :: 0 <= j < |data| && data[j].tag == PolicyClass(p) ==> data[j].attrs["name"] != name
    ensures name !in Assign(map[], PolicyPairs(p, data))
    decreases |data|
  {
    if |data| > 0 {
      var front := data[..|data| - 1];
      var r := data[|data| - 1];
      PolicyAbsent(p, front, name);
      if r.tag == PolicyClass(p) {
        AssignStep(map[], PolicyPairs(p, front), (r.attrs["name"], r.attrs[StateKey(p)]));
      }
    }
  }

  // ---------------------------------------------------------------------
  // Applying the relations

  /** A relation element carries its target dn and its own dn. */
  predicate RelationReady(p: Protocol, r: Record) {
    r.tag == RelationClass(p) ==> "tDn" in r.attrs && "dn" in r.attrs
  }

  predicate AllRelationsReady(p: Protocol, rels: seq<Record>) {
    forall i :: 0 <= i < |rels| ==> RelationReady(p, rels[i])
  }

  /** The identity `__eq__` compares: interface type, module and port. */
  type Key = (string, string, string)

  /** What one relation names: the policy (the target dn after the policy
      prefix; IndexError when the prefix is missing) and the interface (the
      relation dn up to the relation suffix, read by the physical dn parser
      and made into an interface name, whose own errors propagate). */
  function RelationTarget(p: Protocol, rel: Record): (r: Result<(string, Key)>)
    requires "tDn" in rel.attrs && "dn" in rel.attrs
    ensures r.Ok? ==> r.value.1.0 == "eth"
    ensures r.Err? ==> r.error != KeyError && r.error != NotImplemented
  {
    var pol := Split(rel.attrs["tDn"], DnClass(p));
    if |pol| < 2 then Err(IndexError)
    else
      var intfDn := Split(rel.attrs["dn"], RelationDn(p))[0];
      match ParsePhysicalDn(intfDn)
      case Err(e) => Err(e)
      case Ok((t, m, port)) =>
        match ParseIfName(t + m + "/" + port)
        case Err(e) => Err(e)
        case Ok((m2, p2)) => Ok((pol[1], ("eth", m2, p2)))
  }

  /** In the path of an interface whose port does not start with 'r', no
      '/' is followed by 'r', so the relation suffix is found only at its
      end. */
  lemma PathNoSlashR(moduleId: string, port: string)
    requires '/' !in moduleId && '/' !in port && (port == "" || port[0] != 'r')
    ensures NoPair(Path(moduleId, port), '/', 'r')
  {
    var head := "sys/intf/phys-[eth";
    assert NoPair(head, '/', 'r') by {
      forall i | 0 <= i < |head| - 1 ensures !(head[i] == '/' && head[i + 1] == 'r') {
      }
    }
    NoPairWithout(moduleId, '/', 'r');
    NoPairConcat(head, moduleId, '/', 'r');
    assert NoPair("/", '/', 'r');
    NoPairConcat(head + moduleId, "/", '/', 'r');
    NoPairWithout(port, '/', 'r');
    NoPairConcat(head + moduleId + "/", port, '/', 'r');
    NoPairWithout("]", '/', 'r');
    var x := head + moduleId + "/" + port;
    NoPairConcat(x, "]", '/', 'r');
    assert Path(moduleId, port) == x + "]";
  }

  /** A relation built from a policy name and an interface path names that
      policy and that interface: the target dn is some prefix, the policy
      class marker and the name, and the relation's own dn is the interface
      path followed by the relation suffix. */
  lemma RelationTargetRoundTrip(p: Protocol, rel: Record, pre: string, name: string, moduleId: string, port: string)
    requires "tDn" in rel.attrs && "dn" in rel.attrs
    requires rel.attrs["tDn"] == pre + DnClass(p) + name && NoPair(pre, '/', DnClass(p)[1]) && '/' !in name
    requires rel.attrs["dn"] == Path(moduleId, port) + RelationDn(p)
    requires '/' !in moduleId && '[' !in moduleId && 'e' !in moduleId
    requires '/' !in port && ']' !in port && 'e' !in port && (port == "" || port[0] != 'r')
    ensures RelationTarget(p, rel) == Ok((name, ("eth", moduleId, port)))
  {
    SplitOnce(pre, DnClass(p), name);
    PathNoSlashR(moduleId, port);
    assert rel.attrs["dn"] == Path(moduleId, port) + RelationDn(p) + "";
    SplitOnce(Path(moduleId, port), RelationDn(p), "");
    PathSegments(moduleId, port);
    SegmentsOfPath(moduleId, port);
    IfNameRoundTrip(moduleId, port);
  }

  /** The position of the first key equal to `key`. */
  function FirstMatch(keys: seq<Key>, key: Key): (r: Option<nat>)
    ensures r.Some? ==> r.value < |keys| && keys[r.value] == key
    ensures r.Some? ==> forall j :: 0 <= j < r.value ==> keys[j] != key
    ensures r.None? <==> key !in keys
    decreases |keys|
  {
    if |keys| == 0 then None
    else if keys[0] == key then Some(0)
    else match FirstMatch(keys[1..], key)
      case None => None
      case Some(k) => Some(k + 1)
  }

  /** The state a matched interface is set to: enabled for a policy in state
      "enabled", disabled for any other state. */
  function NewState(state: string): Option<string> {
    Some(if state == "enabled" then "enabled" else "disabled")
  }

  /** `after` differs from `before` only at first occurrences of a key, and
      only by a discovery state. */
  predicate Permitted(keys: seq<Key>, before: seq<Option<string>>, after: seq<Option<string>>) {
    |after| == |before| == |keys| &&
    forall j :: 0 <= j < |before| ==>
      after[j] == before[j] ||
      (FirstMatch(keys, keys[j]) == Some(j) && (after[j] == Some("enabled") || after[j] == Some("disabled")))
  }

  /** `rel` is a relation of the class whose interface is `key`. */
  predicate Targets(p: Protocol, rel: Record, key: Key)
    requires RelationReady(p, rel)
  {
    rel.tag == RelationClass(p) && RelationTarget(p, rel).Ok? && RelationTarget(p, rel).value.1 == key
  }

  /** One relation: ignored unless of the relation class; otherwise the first
      interface equal to its target gets the policy's state, a missing policy
      being a KeyError only then. */
  function Step(keys: seq<Key>, configs: seq<Option<string>>, p: Protocol,
                policies: map<string, string>, rel: Record): (r: Result<seq<Option<string>>>)
    requires |configs| == |keys| && RelationReady(p, rel)
    ensures rel.tag != RelationClass(p) ==> r == Ok(configs)
    ensures r.Ok? ==> Permitted(keys, configs, r.value)
    ensures r == Err(KeyError) <==>
      rel.tag == RelationClass(p) && RelationTarget(p, rel).Ok? &&
      RelationTarget(p, rel).value.1 in keys && RelationTarget(p, rel).value.0 !in policies
    ensures r.Ok? ==> forall j :: 0 <= j < |configs| && r.value[j] != configs[j] ==> Targets(p, rel, keys[j])
    ensures rel.tag == RelationClass(p) && RelationTarget(p, rel).Ok? && RelationTarget(p, rel).value.0 in policies ==>
      r.Ok? && forall j :: 0 <= j < |keys| && FirstMatch(keys, keys[j]) == Some(j) && keys[j] == RelationTarget(p, rel).value.1 ==>
        r.value[j] == NewState(policies[RelationTarget(p, rel).value.0])
  {
    if rel.tag != RelationClass(p) then Ok(configs)
    else match RelationTarget(p, rel)
      case Err(e) => Err(e)
      case Ok((policy, key)) =>
        match FirstMatch(keys, key)
        case None => Ok(configs)
        case Some(k) =>
          if policy !in policies then Err(KeyError)
          else Ok(configs[k := NewState(policies[policy])])
  }

  /** The configurations after a prefix of the relations, and the error that
      stopped the loop, if any. */
  datatype Outcome = Outcome(configs: seq<Option<string>>, error: Option<PyError>)

  function Apply(keys: seq<Key>, configs: seq<Option<string>>, p: Protocol,
                 policies: map<string, string>, rels: seq<Record>): (o: Outcome)
    requires |configs| == |keys| && AllRelationsReady(p, rels)
    ensures |o.configs| == |configs|
    decreases |rels|
  {
    if |rels| == 0 then Outcome(configs, None)
    else
      var o := Apply(keys, configs, p, policies, rels[..|rels| - 1]);
      if o.error.Some? then o
      else match Step(keys, o.configs, p, policies, rels[|rels| - 1])
        case Err(e) => Outcome(o.configs, Some(e))
        case Ok(c) => Outcome(c, None)
  }

  lemma PermittedTrans(keys: seq<Key>, a: seq<Option<string>>, b: seq<Option<string>>, c: seq<Option<string>>)
    requires Permitted(keys, a, b) && Permitted(keys, b, c)
    ensures Permitted(keys, a, c)
  {
  }

  /** Across all relations, only the first of several equal interfaces is
      ever changed (the inner loop breaks at it), and only to "enabled" or
      "disabled". */
  lemma {:induction false} ApplyPermitted(keys: seq<Key>, configs: seq<Option<string>>, p: Protocol,
                                          policies: map<string, string>, rels: seq<Record>)
    requires |configs| == |keys| && AllRelationsReady(p, rels)
    ensures Permitted(keys, configs, Apply(keys, configs, p, policies, rels).configs)
    decreases |rels|
  {
    if |rels| > 0 {
      var front := rels[..|rels| - 1];
      ApplyPermitted(keys, configs, p, policies, front);
      var o := Apply(keys, configs, p, policies, front);
      if o.error.None? {
        var s := Step(keys, o.configs, p, policies, rels[|rels| - 1]);
        if s.Ok? {
          PermittedTrans(keys, configs, o.configs, s.value);
        }
      }
    }
  }

  /** An interface no relation names keeps its configuration. */
  lemma {:induction false} ApplyUntargeted(keys: seq<Key>, configs: seq<Option<string>>, p: Protocol,
                                           policies: map<string, string>, rels: seq<Record>, j: nat)
    requires |configs| == |keys| && AllRelationsReady(p, rels) && j < |keys|
    requires forall i :: 0 <= i < |rels| ==> !Targets(p, rels[i], keys[j])
    ensures Apply(keys, configs, p, policies, rels).configs[j] == configs[j]
    decreases |rels|
  {
    if |rels| > 0 {
      ApplyUntargeted(keys, configs, p, policies, rels[..|rels| - 1], j);
    }
  }

  /** When the loop runs to the end, the first interface equal to a relation's
      target takes the state of that relation's policy, provided no later
      relation names the same interface. */
  lemma {:induction false} ApplyLastWins(keys: seq<Key>, configs: seq<Option<string>>, p: Protocol,
                                         policies: map<string, string>, rels: seq<Record>, i: nat, j: nat)
    requires |configs| == |keys| && AllRelationsReady(p, rels)
    requires Apply(keys, configs, p, policies, rels).error.None?
    requires i < |rels| && j < |keys| && FirstMatch(keys, keys[j]) == Some(j)
    requires Targets(p, rels[i], keys[j]) && RelationTarget(p, rels[i]).value.0 in policies
    requires forall i' :: i < i' < |rels| ==> !Targets(p, rels[i'], keys[j])
    ensures Apply(keys, configs, p, policies, rels).configs[j] == NewState(policies[RelationTarget(p, rels[i]).value.0])
    decreases |rels|
  {
    var n := |rels| - 1;
    var front := rels[..n];
    ApplyLastKeeps(keys, configs, p, policies, rels, j);
    if i < n {
      assert front[i] == rels[i];
      assert forall i' :: i < i' < |front| ==> front[i'] == rels[i'];
      ApplyLastWins(keys, configs, p, policies, front, i, j);
      assert !Targets(p, rels[n], keys[j]);
    } else {
      assert i == n;
      ApplyLastSets(keys, configs, p, policies, rels, j);
    }
  }

  /** A loop that ends without error ended without error one relation
      earlier, and its last relation leaves every interface it does not name
      as it was. */
  lemma ApplyLastKeeps(keys: seq<Key>, configs: seq<Option<string>>, p: Protocol,
                       policies: map<string, string>, rels: seq<Record>, j: nat)
    requires |configs| == |keys| && AllRelationsReady(p, rels) && |rels| > 0 && j < |keys|
    requires Apply(keys, configs, p, policies, rels).error.None?
    ensures Apply(keys, configs, p, policies, rels[..|rels| - 1]).error.None?
    ensures !Targets(p, rels[|rels| - 1], keys[j]) ==>
      Apply(keys, configs, p, policies, rels).configs[j] == Apply(keys, configs, p, policies, rels[..|rels| - 1]).configs[j]
  {
  }

  /** The last relation of a loop that ends without error sets the first
      interface equal to its target to its policy's state. */
  lemma ApplyLastSets(keys: seq<Key>, configs: seq<Option<string>>, p: Protocol,
                      policies: map<string, string>, rels: seq<Record>, j: nat)
    requires |configs| == |keys| && AllRelationsReady(p, rels) && |rels| > 0 && j < |keys|
    requires Apply(keys, configs, p, policies, rels).error.None?
    requires FirstMatch(keys, keys[j]) == Some(j) && Targets(p, rels[|rels| - 1], keys[j])
    requires RelationTarget(p, rels[|rels| - 1]).value.0 in policies
    ensures Apply(keys, configs, p, policies, rels).configs[j] == NewState(policies[RelationTarget(p, rels[|rels| - 1]).value.0])
  {
  }

  /** One more relation is one more step, unless an error has ended the loop. */
  lemma ApplyNext(keys: seq<Key>, configs: seq<Option<string>>, p: Protocol,
                  policies: map<string, string>, rels: seq<Record>, i: nat)
    requires |configs| == |keys| && AllRelationsReady(p, rels) && i < |rels|
    requires Apply(keys, configs, p, policies, rels[..i]).error.None?
    ensures var o := Apply(keys, configs, p, policies, rels[..i]);
      var s := Step(keys, o.configs, p, policies, rels[i]);
      Apply(keys, configs, p, policies, rels[..i + 1]) ==
        if s.Ok? then Outcome(s.value, None) else Outcome(o.configs, Some(s.error))
  {
    assert rels[..i + 1][..i] == rels[..i];
  }

  /** An exception ends the loop: relations after it change nothing. */
  lemma {:induction false} ApplyStopsAtError(keys: seq<Key>, configs: seq<Option<string>>, p: Protocol,
                                             policies: map<string, string>, rels: seq<Record>, n: nat)
    requires |configs| == |keys| && AllRelationsReady(p, rels) && n <= |rels|
    requires Apply(keys, configs, p, policies, rels[..n]).error.Some?
    ensures Apply(keys, configs, p, policies, rels) == Apply(keys, configs, p, policies, rels[..n])
    decreases |rels| - n
  {
    if n < |rels| {
      var front := rels[..|rels| - 1];
      assert front[..n] == rels[..n];
      ApplyStopsAtError(keys, configs, p, policies, front, n);
    } else {
      assert rels[..n] == rels;
    }
  }

  /** Elements of other classes in the response are ignored. */
  lemma {:induction false} ApplyIgnoresOtherClasses(keys: seq<Key>, configs: seq<Option<string>>, p: Protocol,
                                                    policies: map<string, string>, rels: seq<Record>)
    requires |configs| == |keys| && AllRelationsReady(p, rels)
    requires forall i :: 0 <= i < |rels| ==> rels[i].tag != RelationClass(p)
    ensures Apply(keys, configs, p, policies, rels) == Outcome(configs, None)
    decreases |rels|
  {
    if |rels| > 0 {
      ApplyIgnoresOtherClasses(keys, configs, p, policies, rels[..|rels| - 1]);
    }
  }

  // ---------------------------------------------------------------------
  // The interfaces

  function Config(x: Interface, p: Protocol): Option<string>
    reads x`cdpConfig, x`lldpConfig
  {
    if p == Cdp then x.cdpConfig else x.lldpConfig
  }

  function Keys(xs: seq<Interface>): (keys: seq<Key>)
    ensures |keys| == |xs|
  {
    seq(|xs|, i requires 0 <= i < |xs| => (xs[i].interfaceType, xs[i].moduleId, xs[i].port))
  }

  function Configs(xs: seq<Interface>, p: Protocol): (cs: seq<Option<string>>)
    reads xs
    ensures |cs| == |xs|
  {
    seq(|xs|, i requires 0 <= i < |xs| reads xs => Config(xs[i], p))
  }

  predicate Distinct(xs: seq<Interface>) {
    forall i, j :: 0 <= i < j < |xs| ==> xs[i] != xs[j]
  }

  /** The inner loop of `_get_discoveryprot_relations`: the first interface
      equal to the searched one. */
  method FindInterface(xs: seq<Interface>, key: Key) returns (k: Option<nat>)
    ensures k == FirstMatch(Keys(xs), key)
  {
    var keys := Keys(xs);
    var j := 0;
    while j < |xs|
      invariant 0 <= j <= |xs|
      invariant forall i :: 0 <= i < j ==> keys[i] != key
    {
      if xs[j].interfaceType == key.0 && xs[j].moduleId == key.1 && xs[j].port == key.2 {
        assert keys[j] == key;
        FirstMatchAt(keys, key, j);
        return Some(j);
      }
      j := j + 1;
    }
    k := None;
  }

  lemma {:induction false} FirstMatchAt(keys: seq<Key>, key: Key, j: nat)
    requires j < |keys| && keys[j] == key
    requires forall i :: 0 <= i < j ==> keys[i] != key
    ensures FirstMatch(keys, key) == Some(j)
    decreases j
  {
    if j > 0 {
      FirstMatchAt(keys[1..], key, j - 1);
    }
  }

  /** The enable or disable call for the protocol. */
  method SetState(x: Interface, p: Protocol, state: string)
    modifies x`cdpConfig, x`lldpConfig
    ensures Config(x, p) == NewState(state)
    ensures Config(x, Other(p)) == old(Config(x, Other(p)))
  {
    if state == "enabled" {
      if p == Cdp { x.EnableCdp(); } else { x.EnableLldp(); }
    } else {
      if p == Cdp { x.DisableCdp(); } else { x.DisableLldp(); }
    }
  }

  /** Setting one interface of a list of distinct interfaces changes that
      position of the list's configurations only. */
  method SetAt(xs: seq<Interface>, k: nat, p: Protocol, state: string)
    requires Distinct(xs) && k < |xs|
    modifies xs`cdpConfig, xs`lldpConfig
    ensures forall j :: 0 <= j < |xs| && j != k ==> unchanged(xs[j])
    ensures Configs(xs, p) == old(Configs(xs, p))[k := NewState(state)]
    ensures Configs(xs, Other(p)) == old(Configs(xs, Other(p)))
  {
    SetState(xs[k], p, state);
    assert forall j :: 0 <= j < |xs| && j != k ==> xs[j] != xs[k];
  }

  /** One iteration of the relation loop. */
  method ApplyOne(xs: seq<Interface>, p: Protocol, policies: map<string, string>, rel: Record)
    returns (err: Option<PyError>)
    requires Distinct(xs) && RelationReady(p, rel)
    modifies xs`cdpConfig, xs`lldpConfig
    ensures var s := Step(Keys(xs), old(Configs(xs, p)), p, policies, rel);
      if s.Ok? then err.None? && Configs(xs, p) == s.value
      else err == Some(s.error) && Configs(xs, p) == old(Configs(xs, p))
    ensures Configs(xs, Other(p)) == old(Configs(xs, Other(p)))
  {
    err := None;
    if rel.tag == RelationClass(p) {
      var target := RelationTarget(p, rel);
      if target.Err? {
        return Some(target.error);
      }
      var k := FindInterface(xs, target.value.1);
      if k.Some? {
        var policy := target.value.0;
        if policy !in policies {
          return Some(KeyError);
        }
        SetAt(xs, k.value, p, policies[policy]);
      }
    }
  }

  /** Iteration `i` of the relation loop, tracked against the fold: when the
      first `i` relations left the configurations in place without error,
      one more relation leaves them where the fold over `i + 1` does. */
  method ApplyAt(xs: seq<Interface>, p: Protocol, policies: map<string, string>, rels: seq<Record>,
                 i: nat, ghost start: seq<Option<string>>)
    returns (err: Option<PyError>)
    requires Distinct(xs) && AllRelationsReady(p, rels) && i < |rels| && |start| == |xs|
    requires Apply(Keys(xs), start, p, policies, rels[..i]) == Outcome(Configs(xs, p), None)
    modifies xs`cdpConfig, xs`lldpConfig
    ensures Apply(Keys(xs), start, p, policies, rels[..i + 1]) == Outcome(Configs(xs, p), err)
    ensures Configs(xs, Other(p)) == old(Configs(xs, Other(p)))
  {
    ApplyNext(Keys(xs), start, p, policies, rels, i);
    err := ApplyOne(xs, p, policies, rels[i]);
  }

  /** `_get_discoveryprot_relations` after the protocol check: every
      relation element of the response, in order, sets the CDP or LLDP state
      of the first matching interface. An error ends the loop with the
      changes made so far kept. */
  method ApplyRelations(xs: seq<Interface>, p: Protocol, policies: map<string, string>, rels: seq<Record>)
    returns (err: Option<PyError>)
    requires Distinct(xs) && AllRelationsReady(p, rels)
    modifies xs`cdpConfig, xs`lldpConfig
    ensures var o := Apply(Keys(xs), old(Configs(xs, p)), p, policies, rels);
      Configs(xs, p) == o.configs && err == o.error
    ensures Configs(xs, Other(p)) == old(Configs(xs, Other(p)))
  {
    ghost var start := Configs(xs, p);
    ghost var other := Configs(xs, Other(p));
    err := None;
    var i := 0;
    while i < |rels|
      invariant 0 <= i <= |rels| && err.None?
      invariant Apply(Keys(xs), start, p, policies, rels[..i]) == Outcome(Configs(xs, p), None)
      invariant Configs(xs, Other(p)) == other
    {
      err := ApplyAt(xs, p, policies, rels, i, start);
      if err.Some? {
        ApplyStopsAtError(Keys(xs), start, p, policies, rels, i + 1);
        return;
      }
      i := i + 1;
    }
    assert rels[..i] == rels;
  }

  /** The whole of `_get_discoveryprot_relations` on the response elements:
      an unknown protocol raises ValueError before anything changes. */
  method DiscoveryRelations(xs: seq<Interface>, prot: string, policies: map<string, string>, rels: seq<Record>)
    returns (err: Option<PyError>)
    requires Distinct(xs)
    requires ProtocolOf(prot).Ok? ==> AllRelationsReady(ProtocolOf(prot).value, rels)
    modifies xs`cdpConfig, xs`lldpConfig
    ensures ProtocolOf(prot).Err? ==>
      err == Some(ValueError) && Configs(xs, Cdp) == old(Configs(xs, Cdp)) && Configs(xs, Lldp) == old(Configs(xs, Lldp))
    ensures ProtocolOf(prot).Ok? ==>
      var p := ProtocolOf(prot).value;
      var o := Apply(Keys(xs), old(Configs(xs, p)), p, policies, rels);
      Configs(xs, p) == o.configs && err == o.error && Configs(xs, Other(p)) == old(Configs(xs, Other(p)))
  {
    match ProtocolOf(prot) {
      case Err(e) => err := Some(e);
      case Ok(p) => err := ApplyRelations(xs, p, policies, rels);
    }
  }
}

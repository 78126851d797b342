/** Python dictionaries filled by a loop of `d[k] = v` assignments. */
module Dicts {
  import opened Results

  /** `for (k, v) in pairs: d[k] = v`: later pairs overwrite earlier ones. */
  function Assign<K, V>(d: map<K, V>, pairs: seq<(K, V)>): map<K, V>
    decreases |pairs|
  {
    if |pairs| == 0 then d
    else Assign(d, pairs[..|pairs| - 1])[pairs[|pairs| - 1].0 := pairs[|pairs| - 1].1]
  }

  /** One more loop iteration is one more assignment. */
  lemma AssignStep<K, V>(d: map<K, V>, pairs: seq<(K, V)>, p: (K, V))
    ensures Assign(d, pairs + [p]) == Assign(d, pairs)[p.0 := p.1]
  {
    assert (pairs + [p])[..|pairs|] == pairs;
  }

  /** Two loops in a row are one loop over both sequences. */
  lemma {:induction false} AssignAppend<K, V>(d: map<K, V>, ps: seq<(K, V)>, qs: seq<(K, V)>)
    ensures Assign(d, ps + qs) == Assign(Assign(d, ps), qs)
    decreases |qs|
  {
    if |qs| == 0 {
      assert ps + qs == ps;
    } else {
      var front, q := qs[..|qs| - 1], qs[|qs| - 1];
      assert qs == front + [q];
      assert ps + qs == (ps + front) + [q];
      AssignStep(d, ps + front, q);
      AssignAppend(d, ps, front);
      AssignStep(Assign(d, ps), front, q);
    }
  }

  /** The value stored under a key is the one of the last pair with that key. */
  lemma {:induction false} AssignLast<K, V>(d: map<K, V>, ps: seq<(K, V)>, i: nat)
    requires i < |ps|
    requires forall j :: i < j < |ps| ==> ps[j].0 != ps[i].0
    ensures ps[i].0 in Assign(d, ps) && Assign(d, ps)[ps[i].0] == ps[i].1
    decreases |ps|
  {
    if i < |ps| - 1 {
      AssignLast(d, ps[..|ps| - 1], i);
    }
  }

  /** A key no pair mentions keeps its old entry, or stays absent. */
  lemma {:induction false} AssignUntouched<K, V>(d: map<K, V>, ps: seq<(K, V)>, k: K)
    requires forall j :: 0 <= j < |ps| ==> ps[j].0 != k
    ensures (k in Assign(d, ps)) == (k in d)
    ensures k in d ==> Assign(d, ps)[k] == d[k]
    decreases |ps|
  {
    if |ps| > 0 {
      AssignUntouched(d, ps[..|ps| - 1], k);
    }
  }

  /** The keys afterwards are the old keys and the keys of the pairs. */
  lemma {:induction false} AssignKeys<K, V>(d: map<K, V>, ps: seq<(K, V)>)
    ensures Assign(d, ps).Keys == d.Keys + (set j | 0 <= j < |ps| :: ps[j].0)
    decreases |ps|
  {
    if |ps| > 0 {
      var front := ps[..|ps| - 1];
      AssignKeys(d, front);
      var s := set j | 0 <= j < |front| :: front[j].0;
      var t := set j | 0 <= j < |ps| :: ps[j].0;
      assert t == s + {ps[|ps| - 1].0} by {
        forall k | k in t ensures k in s + {ps[|ps| - 1].0} {
          var j :| 0 <= j < |ps| && ps[j].0 == k;
          if j < |ps| - 1 { assert front[j].0 == k; }
        }
        forall k | k in s ensures k in t {
          var j :| 0 <= j < |front| && front[j].0 == k;
          assert ps[j].0 == k;
        }
      }
    }
  }

  /** Python truthiness of an optional string attribute: present and
      non-empty. */
  predicate Truthy(v: Option<string>) {
    v.Some? && v.value != ""
  }

  /** `if v: att[key] = v` has put `key` in `att` exactly when `v` is truthy,
      with `v`'s value. */
  predicate Entry(att: map<string, string>, key: string, v: Option<string>) {
    (key in att <==> Truthy(v)) && (key in att ==> att[key] == v.value)
  }
}

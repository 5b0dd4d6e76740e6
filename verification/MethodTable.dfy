/** The affinity configuration of methods, gcp_balancer.go:251-262. */
module MethodTable {
  import opened Options
  import opened PoolSpec

  datatype Affinity = Affinity(command: Command, key: string)

  /** An entry of the API configuration. */
  datatype MethodConfig = MethodConfig(names: seq<string>, affinity: Option<Affinity>)

  predicate Names(m: MethodConfig, name: string) {
    m.affinity.Some? && name in m.names
  }

  predicate Decides(methods: seq<MethodConfig>, i: nat, name: string)
    requires i < |methods|
  {
    Names(methods[i], name) && forall j | i < j < |methods| :: !Names(methods[j], name)
  }

  function LastNaming(methods: seq<MethodConfig>, name: string): Option<Affinity> {
    if |methods| == 0 then None
    else if Names(methods[|methods| - 1], name) then methods[|methods| - 1].affinity
    else LastNaming(methods[..|methods| - 1], name)
  }

  /** It is the affinity of the last entry that names the method and has one. */
  lemma {:induction false} LastDecides(methods: seq<MethodConfig>, i: nat, name: string)
    requires i < |methods| && Decides(methods, i, name)
    ensures LastNaming(methods, name) == methods[i].affinity
    decreases |methods|
  {
    if i < |methods| - 1 {
      assert Decides(methods[..|methods| - 1], i, name);
      LastDecides(methods[..|methods| - 1], i, name);
    }
  }

  lemma {:induction false} NamedIff(methods: seq<MethodConfig>, name: string)
    ensures LastNaming(methods, name).Some? <==> exists i :: 0 <= i < |methods| && Names(methods[i], name)
    decreases |methods|
  {
    if |methods| > 0 && !Names(methods[|methods| - 1], name) {
      var front := methods[..|methods| - 1];
      NamedIff(front, name);
      assert forall i | 0 <= i < |methods| && Names(methods[i], name) :: i < |front| && Names(front[i], name);
    }
  }

  method SetAffinity(mp: map<string, Affinity>, names: seq<string>, affinity: Affinity)
    returns (r: map<string, Affinity>)
    ensures r.Keys == mp.Keys + set n | n in names
    ensures forall name | name in r :: r[name] == if name in names then affinity else mp[name]
  {
    r := mp;
    for n := 0 to |names|
      invariant r.Keys == mp.Keys + set name | name in names[..n]
      invariant forall name | name in r :: r[name] == if name in names[..n] then affinity else mp[name]
    {
      r := r[names[n] := affinity];
    }
    assert names[..|names|] == names;
  }

  /** The table of the balancer: the last entry decides. */
  method MethodConfigs(methods: seq<MethodConfig>) returns (mp: map<string, Affinity>)
    ensures forall name :: LastNaming(methods, name) == if name in mp then Some(mp[name]) else None
  {
    mp := map[];
    for i := 0 to |methods|
      invariant forall name :: LastNaming(methods[..i], name) == if name in mp then Some(mp[name]) else None
    {
      assert methods[..i + 1][..i] == methods[..i];
      if methods[i].affinity.Some? {
        mp := SetAffinity(mp, methods[i].names, methods[i].affinity.value);
      }
    }
    assert methods[..|methods|] == methods;
  }

  // ----- what lines 98-100 of grpc_gcp.proto promise instead

  /** A name is a method, or a pattern that ends with ".*". */
  predicate Covers(pattern: string, name: string) {
    || pattern == name
    || (var n := |pattern| - 1;
        n > 0 && pattern[n - 1..] == ".*" && n <= |name| && name[..n] == pattern[..n])
  }

  predicate Matches(m: MethodConfig, name: string) {
    m.affinity.Some? && exists pattern :: pattern in m.names && Covers(pattern, name)
  }

  /** Entries are evaluated one after the other, and the first one that matches takes precedence. */
  function FirstMatching(methods: seq<MethodConfig>, name: string): Option<Affinity> {
    if |methods| == 0 then None
    else if Matches(methods[0], name) then methods[0].affinity
    else FirstMatching(methods[1..], name)
  }

  predicate Precedes(methods: seq<MethodConfig>, i: nat, name: string)
    requires i < |methods|
  {
    Matches(methods[i], name) && forall j | 0 <= j < i :: !Matches(methods[j], name)
  }

  lemma {:induction false} FirstPrecedes(methods: seq<MethodConfig>, i: nat, name: string)
    requires i < |methods| && Precedes(methods, i, name)
    ensures FirstMatching(methods, name) == methods[i].affinity
    decreases i
  {
    if i > 0 {
      assert forall j | 0 <= j < i - 1 :: methods[1..][j] == methods[j + 1];
      FirstPrecedes(methods[1..], i - 1, name);
    }
  }

  lemma {:induction false} FirstMatched(methods: seq<MethodConfig>, name: string, k: nat) returns (i: nat)
    requires k < |methods| && Matches(methods[k], name)
    ensures i < |methods| && Precedes(methods, i, name)
    decreases k
  {
    if j :| 0 <= j < k && Matches(methods[j], name) {
      i := FirstMatched(methods, name, j);
    } else {
      i := k;
    }
  }

  lemma {:induction false} NoneMatches(methods: seq<MethodConfig>, name: string)
    requires forall i | 0 <= i < |methods| :: !Matches(methods[i], name)
    ensures FirstMatching(methods, name) == None
    decreases |methods|
  {
    if |methods| > 0 {
      assert forall i | 0 <= i < |methods| - 1 :: methods[1..][i] == methods[i + 1];
      NoneMatches(methods[1..], name);
    }
  }

  lemma {:induction false} LastNamed(methods: seq<MethodConfig>, name: string) returns (i: nat)
    requires LastNaming(methods, name).Some?
    ensures i < |methods| && Decides(methods, i, name)
    decreases |methods|
  {
    i := |methods| - 1;
    if !Names(methods[i], name) {
      i := LastNamed(methods[..i], name);
    }
  }

  /** Two entries for one method: the documentation promises the first affinity, the table has the second. */
  lemma FirstIsNotLast()
    ensures var methods := [MethodConfig(["m"], Some(Affinity(BIND, "a"))),
                            MethodConfig(["m"], Some(Affinity(UNBIND, "b")))];
      && FirstMatching(methods, "m") == Some(Affinity(BIND, "a"))
      && LastNaming(methods, "m") == Some(Affinity(UNBIND, "b"))
  {
    var methods := [MethodConfig(["m"], Some(Affinity(BIND, "a"))), MethodConfig(["m"], Some(Affinity(UNBIND, "b")))];
    assert Covers("m", "m");
    FirstPrecedes(methods, 0, "m");
    LastDecides(methods, 1, "m");
  }

  /** A pattern covers the method, but the table has nothing for it. */
  lemma PatternsAreNotMatched()
    ensures var methods := [MethodConfig(["s.*"], Some(Affinity(BIND, "a")))];
      && FirstMatching(methods, "s.m") == Some(Affinity(BIND, "a"))
      && LastNaming(methods, "s.m") == None
  {
    var methods := [MethodConfig(["s.*"], Some(Affinity(BIND, "a")))];
    assert Covers("s.*", "s.m");
    FirstPrecedes(methods, 0, "s.m");
    NamedIff(methods, "s.m");
  }

  /**
   If some entry covers the method then some entry names it, and the first of the former agrees with the last of the
   latter.
   */
  predicate EndsAgree(methods: seq<MethodConfig>, name: string) {
    forall i | 0 <= i < |methods| && Precedes(methods, i, name) ::
      exists j :: 0 <= j < |methods| && Decides(methods, j, name) && methods[j].affinity == methods[i].affinity
  }

  /** Over every list: a method has the affinity that is documented exactly under that condition. */
  lemma PrecedenceIsDocumentedIff(methods: seq<MethodConfig>, name: string)
    ensures LastNaming(methods, name) == FirstMatching(methods, name) <==> EndsAgree(methods, name)
  {
    NamedIff(methods, name);
    if k :| 0 <= k < |methods| && Matches(methods[k], name) {
      var i := FirstMatched(methods, name, k);
      FirstPrecedes(methods, i, name);
      assert forall m | 0 <= m < |methods| && Precedes(methods, m, name) :: m == i;
      if LastNaming(methods, name).Some? {
        var j := LastNamed(methods, name);
        LastDecides(methods, j, name);
        assert forall m | 0 <= m < |methods| && Decides(methods, m, name) :: m == j;
      }
    } else {
      NoneMatches(methods, name);
      forall k | 0 <= k < |methods| ensures !Names(methods[k], name) {
        assert Covers(name, name);
        assert !Matches(methods[k], name);
      }
    }
  }
}

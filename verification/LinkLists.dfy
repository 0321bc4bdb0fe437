/** The two lists that hold a link, one at each end: what a record depends on, and what depends
    on it.  Loading keeps them mirror images of each other over all records, but not over the
    services of the set: a service whose load failed stays in the lists of its dependencies. */
module LinkLists {
  import opened Graph
  import opened Services
  import opened Loader

  function OrphanKeys(n: nat): (r: set<Name>)
    ensures forall k :: k in r ==> Hidden(k) && 0 < |k| <= n && k == OrphanKey(|k| - 1)
    ensures forall i: nat :: i < n ==> OrphanKey(i) in r
  {
    set i | 0 <= i < n :: OrphanKey(i)
  }

  /** All records by their keys, orphans included. */
  function Records(st: State): (r: ServiceMap)
    ensures r.Keys == st.services.Keys + OrphanKeys(|st.orphans|)
    ensures forall n :: n in st.services ==> r[n] == st.services[n]
  {
    map n | n in st.services.Keys + OrphanKeys(|st.orphans|) ::
      if n in st.services then st.services[n] else st.orphans[|n| - 1]
  }

  /** As many links from `x` to `n` at one end as at the other. */
  ghost predicate SameCount(records: ServiceMap, dependents: Dependents, x: Name, n: Name, k: DepType)
    requires x in records && n in dependents
  {
    multiset(records[x].deps)[Dep(n, k)] == multiset(dependents[n])[Dept(x, k)]
  }

  /** The lists of dependencies and of dependents say the same. */
  ghost predicate Mirror(records: ServiceMap, dependents: Dependents) {
    && dependents.Keys == records.Keys
    && (forall x, d :: x in records && d in records[x].deps ==> d.to in records)
    && (forall n, e :: n in records && e in dependents[n] ==> e.from in records)
    && (forall x, n, k :: x in records && n in records ==> SameCount(records, dependents, x, n, k))
  }

  ghost predicate Mirrored(st: State) {
    (forall n :: n in st.services ==> !Hidden(n)) && Mirror(Records(st), st.dependents)
  }

  // ----- every step of a load keeps the lists in step -----

  lemma JoinMirrors(r: ServiceMap, ds: Dependents, name: Name)
    requires Mirror(r, ds) && name !in r
    ensures Mirror(r[name := Rec([], 0)], ds[name := []])
  {
    var r', ds' := r[name := Rec([], 0)], ds[name := []];
    forall x, n, k | x in r' && n in r' ensures SameCount(r', ds', x, n, k) {
      if x in r && n in r {
        assert SameCount(r, ds, x, n, k);
      } else if n in r {
        assert Dept(name, k) !in ds[n];
      } else if x in r {
        assert Dep(name, k) !in r[x].deps;
      }
    }
  }

  lemma LinkMirrors(r: ServiceMap, ds: Dependents, name: Name, d: Dep)
    requires Mirror(r, ds) && name in r && d.to in r
    ensures Mirror(r[name := r[name].(deps := r[name].deps + [d])], ds[d.to := ds[d.to] + [Dept(name, d.kind)]])
  {
    var r' := r[name := r[name].(deps := r[name].deps + [d])];
    var ds' := ds[d.to := ds[d.to] + [Dept(name, d.kind)]];
    forall x, n, k | x in r' && n in r' ensures SameCount(r', ds', x, n, k) {
      assert SameCount(r, ds, x, n, k);
    }
  }

  lemma DepthMirrors(r: ServiceMap, ds: Dependents, r': ServiceMap)
    requires Mirror(r, ds) && r'.Keys == r.Keys && forall x :: x in r ==> r'[x].deps == r[x].deps
    ensures Mirror(r', ds)
  {
    forall x, n, k | x in r' && n in r' ensures SameCount(r', ds, x, n, k) {
      assert SameCount(r, ds, x, n, k);
    }
  }

  lemma RecordsUpdated(st: State, services: ServiceMap, name: Name, rec: Rec)
    requires services == st.services[name := rec] && !Hidden(name)
    ensures Records(st.(services := services)) == Records(st)[name := rec]
  {
  }

  lemma EnterMirrors(st: State, name: Name)
    requires Mirrored(st) && name !in st.services && !Hidden(name)
    ensures Mirrored(Enter(st, name))
  {
    hide Mirror;
    var e := Enter(st, name);
    RecordsUpdated(st, e.services, name, Rec([], 0));
    SameRecords(e, st.(services := e.services));
    JoinMirrors(Records(st), st.dependents, name);
  }

  lemma SameRecords(a: State, b: State)
    requires a.services == b.services && a.orphans == b.orphans
    ensures Records(a) == Records(b)
  {
  }

  lemma AddDepMirrors(st: State, name: Name, d: Dep)
    requires Mirrored(st) && name in st.services && d.to in Records(st)
    ensures Mirrored(AddDep(st, name, d))
  {
    var a := AddDep(st, name, d);
    assert d.to in st.dependents;
    RecordsUpdated(st, a.services, name, st.services[name].(deps := st.services[name].deps + [d]));
    SameRecords(a, st.(services := a.services));
    hide Mirror;
    LinkMirrors(Records(st), st.dependents, name, d);
  }

  lemma SettleMirrors(was: State, left: State, name: Name)
    requires Mirrored(left) && name in left.services
    ensures Mirrored(Settle(was, left, name))
  {
    hide Mirror, CalcDepth;
    var s := Settle(was, left, name);
    RecordsUpdated(left, s.services, name, s.services[name]);
    SameRecords(s, left.(services := s.services));
    DepthMirrors(Records(left), left.dependents, Records(s));
  }

  // ----- giving a record a new key -----

  lemma {:induction false} RekeyDepsCount(deps: seq<Dep>, n: Name, key: Name, m: Name, k: DepType)
    requires forall d :: d in deps ==> d.to != key
    requires m != key
    ensures multiset(RekeyDeps(deps, n, key))[Dep(Rekey(m, n, key), k)] == multiset(deps)[Dep(m, k)]
  {
    if deps != [] {
      var last := |deps| - 1;
      var r := RekeyDeps(deps, n, key);
      RekeyDepsCount(deps[..last], n, key, m, k);
      assert deps == deps[..last] + [deps[last]];
      assert r == RekeyDeps(deps[..last], n, key) + [r[last]];
      assert deps[last] in deps;
    }
  }

  lemma {:induction false} RekeyDeptsCount(ds: seq<Dept>, n: Name, key: Name, m: Name, k: DepType)
    requires forall e :: e in ds ==> e.from != key
    requires m != key
    ensures multiset(RekeyDepts(ds, n, key))[Dept(Rekey(m, n, key), k)] == multiset(ds)[Dept(m, k)]
  {
    if ds != [] {
      var last := |ds| - 1;
      var r := RekeyDepts(ds, n, key);
      RekeyDeptsCount(ds[..last], n, key, m, k);
      assert ds == ds[..last] + [ds[last]];
      assert r == RekeyDepts(ds[..last], n, key) + [r[last]];
      assert ds[last] in ds;
    }
  }

  ghost predicate Rekeyed(r: ServiceMap, ds: Dependents, r': ServiceMap, ds': Dependents, n: Name, key: Name) {
    && n in r && key !in r && ds.Keys == r.Keys
    && r'.Keys == r.Keys - {n} + {key} && ds'.Keys == r'.Keys
    && (forall x :: x in r ==> r'[Rekey(x, n, key)] == RekeyRec(r[x], n, key))
    && (forall x :: x in r ==> ds'[Rekey(x, n, key)] == RekeyDepts(ds[x], n, key))
  }

  lemma RekeyMember(r: ServiceMap, ds: Dependents, r': ServiceMap, ds': Dependents, n: Name, key: Name, x': Name) returns (x: Name)
    requires Rekeyed(r, ds, r', ds', n, key) && x' in r'
    ensures x in r && x' == Rekey(x, n, key)
  {
    x := if x' == key then n else x';
  }

  lemma RekeyMirrors(r: ServiceMap, ds: Dependents, r': ServiceMap, ds': Dependents, n: Name, key: Name)
    requires Mirror(r, ds) && Rekeyed(r, ds, r', ds', n, key)
    ensures Mirror(r', ds')
  {
    forall x', d' | x' in r' && d' in r'[x'].deps ensures d'.to in r' {
      var x := RekeyMember(r, ds, r', ds', n, key, x');
      var i :| 0 <= i < |r'[x'].deps| && r'[x'].deps[i] == d';
      assert r[x].deps[i] in r[x].deps;
    }
    forall m', e' | m' in r' && e' in ds'[m'] ensures e'.from in r' {
      var m := RekeyMember(r, ds, r', ds', n, key, m');
      var i :| 0 <= i < |ds'[m']| && ds'[m'][i] == e';
      assert ds[m][i] in ds[m];
    }
    forall x', m', k | x' in r' && m' in r' ensures SameCount(r', ds', x', m', k) {
      var x := RekeyMember(r, ds, r', ds', n, key, x');
      var m := RekeyMember(r, ds, r', ds', n, key, m');
      RekeyDepsCount(r[x].deps, n, key, m, k);
      RekeyDeptsCount(ds[m], n, key, x, k);
      assert SameCount(r, ds, x, m, k);
    }
  }

  lemma RekeyNothing(r: Rec, n: Name, key: Name)
    requires forall d :: d in r.deps ==> d.to != n
    ensures RekeyRec(r, n, key) == r
  {
    var r' := RekeyDeps(r.deps, n, key);
    forall i | 0 <= i < |r'| ensures r'[i] == r.deps[i] { assert r.deps[i] in r.deps; }
  }

  lemma OldOnesDoNotLink(was: State, left: State, name: Name, x: Name)
    requires Mirrored(was) && name !in was.services && !Hidden(name) && x in was.services
    requires x in left.services && was.services[x] == left.services[x]
    ensures forall d :: d in left.services[x].deps ==> d.to != name
  {
    forall d | d in left.services[x].deps ensures d.to != name {
      assert d in Records(was)[x].deps;
    }
  }

  /** Only newer records can link to a record that is being loaded. */
  lemma ForgetRekeys(was: State, left: State, name: Name)
    requires Mirrored(was) && Mirrored(left) && name in left.services && name !in was.services
    requires Extends(was.services, left.services)
    ensures
      var after := Forget(was, left, name);
      Rekeyed(Records(left), left.dependents, Records(after), after.dependents, name, OrphanKey(|left.orphans|))
  {
    var after, key := Forget(was, left, name), OrphanKey(|left.orphans|);
    var r, r' := Records(left), Records(after);
    ForgetKeys(was, left, name);
    ForgetDepts(was, left, name);
    MirrorKeys(r, left.dependents);
    hide Mirror, Forget, Records, RekeyRec, RekeyDepts;
    forall x | x in r ensures r'[Rekey(x, name, key)] == RekeyRec(r[x], name, key) {
      RekeyedRecord(was, left, name, x);
    }
  }

  lemma ForgetDepts(was: State, left: State, name: Name)
    requires Mirrored(left) && name in left.services
    ensures
      var after, key := Forget(was, left, name), OrphanKey(|left.orphans|);
      && after.dependents.Keys == left.dependents.Keys - {name} + {key}
      && forall x :: x in Records(left) ==>
           Rekey(x, name, key) in after.dependents && after.dependents[Rekey(x, name, key)] == RekeyDepts(left.dependents[x], name, key)
  {
    hide RekeyDepts, RekeyRec, RekeyRecs, SameCount;
    ForgetKeys(was, left, name);
  }

  lemma MirrorKeys(r: ServiceMap, ds: Dependents)
    requires Mirror(r, ds)
    ensures ds.Keys == r.Keys
  {
  }

  lemma RekeyedRecord(was: State, left: State, name: Name, x: Name)
    requires Mirrored(was) && Mirrored(left) && name in left.services && name !in was.services
    requires Extends(was.services, left.services) && x in Records(left)
    ensures
      var r', key := Records(Forget(was, left, name)), OrphanKey(|left.orphans|);
      Rekey(x, name, key) in r' && r'[Rekey(x, name, key)] == RekeyRec(Records(left)[x], name, key)
  {
    hide Mirror;
    var after, key := Forget(was, left, name), OrphanKey(|left.orphans|);
    ForgetKeys(was, left, name);
    if x == name {
      assert key !in after.services;
    } else if x in was.services {
      OldOnesDoNotLink(was, left, name, x);
      RekeyNothing(left.services[x], name, key);
    } else if x !in left.services {
      assert x in OrphanKeys(|left.orphans|);
      assert x !in after.services;
      assert (left.orphans + [left.services[name]])[|x| - 1] == left.orphans[|x| - 1];
    }
  }

  lemma MoreOrphanKeys(n: nat)
    ensures OrphanKeys(n + 1) == OrphanKeys(n) + {OrphanKey(n)} && OrphanKey(n) !in OrphanKeys(n)
  {
    forall k | k in OrphanKeys(n + 1) ensures k in OrphanKeys(n) + {OrphanKey(n)} {
      assert k == OrphanKey(|k| - 1);
    }
  }

  lemma ForgetKeys(was: State, left: State, name: Name)
    requires name in left.services && forall n :: n in left.services ==> !Hidden(n)
    ensures
      var after, key := Forget(was, left, name), OrphanKey(|left.orphans|);
      && key !in Records(left) && Records(after).Keys == Records(left).Keys - {name} + {key}
      && after.services.Keys == left.services.Keys - {name} && |after.orphans| == |left.orphans| + 1
  {
    var after, key := Forget(was, left, name), OrphanKey(|left.orphans|);
    ForgetSets(was, left, name);
    hide Forget, OrphanKeys, Records;
    MoreOrphanKeys(|left.orphans|);
    assert Records(left).Keys == left.services.Keys + OrphanKeys(|left.orphans|);
    assert Records(after).Keys == after.services.Keys + OrphanKeys(|after.orphans|);
    assert name !in OrphanKeys(|after.orphans|);
  }

  lemma ForgetSets(was: State, left: State, name: Name)
    requires name in left.services
    ensures
      var after := Forget(was, left, name);
      after.services.Keys == left.services.Keys - {name} && |after.orphans| == |left.orphans| + 1
  {
  }

  lemma ForgetMirrors(was: State, left: State, name: Name)
    requires Mirrored(was) && Mirrored(left) && name in left.services && name !in was.services
    requires Extends(was.services, left.services)
    ensures Mirrored(Forget(was, left, name))
  {
    var after, key := Forget(was, left, name), OrphanKey(|left.orphans|);
    ForgetRekeys(was, left, name);
    RekeyMirrors(Records(left), left.dependents, Records(after), after.dependents, name, key);
  }

  /** Whatever the outcome of a load, over all records the two lists stay mirror images. */
  lemma {:induction false} LoadMirrors(fs: Files, st: State, name: Name)
    requires Mirrored(st)
    ensures Mirrored(LoadService(fs, st, name).0)
    decreases Budget(st), 0, 0
  {
    hide Mirrored, CalcDepth;
    if name !in st.services && st.curDepth < MAX_DEP_DEPTH && name !in st.loading && fs(name).Found? {
      var items := fs(name).items;
      assert !Hidden(name);
      EnterMirrors(st, name);
      DepsMirror(fs, Enter(st, name), name, items);
      var (left, outcome) := LoadDependencies(fs, Enter(st, name), name, items);
      if outcome.Loaded? {
        SettleMirrors(st, left, name);
      } else {
        assert Extends(st.services, left.services);
        ForgetMirrors(st, left, name);
      }
    }
  }

  lemma {:induction false} DepsMirror(fs: Files, st: State, name: Name, items: seq<Item>)
    requires Mirrored(st) && name in st.services
    ensures Mirrored(LoadDependencies(fs, st, name, items).0)
    decreases Budget(st), 1, |items|
  {
    hide Mirrored, LoadService;
    if items != [] && items[0].Link? {
      LoadMirrors(fs, st, items[0].target);
      var (st', outcome) := LoadService(fs, st, items[0].target);
      if outcome.Loaded? {
        AddDepMirrors(st', name, Dep(items[0].target, items[0].kind));
        DepsMirror(fs, AddDep(st', name, Dep(items[0].target, items[0].kind)), name, items[1..]);
      } else if items[0].optional && outcome.NotFound? {
        DepsMirror(fs, st', name, items[1..]);
      }
    }
  }

  // ----- who is listed -----

  /** The dependents of each record, by key. */
  type Lists = map<Name, seq<Name>>

  function Froms(ds: seq<Dept>): (r: seq<Name>)
    ensures |r| == |ds| && forall i :: 0 <= i < |r| ==> r[i] == ds[i].from
  {
    seq(|ds|, i requires 0 <= i < |ds| => ds[i].from)
  }

  function FromLists(dependents: Dependents): (r: Lists)
    ensures r.Keys == dependents.Keys
  {
    map n | n in dependents :: Froms(dependents[n])
  }

  /** The dependents listed for each service are the services that have a link to it. */
  ghost predicate Inverse(services: ServiceMap, lists: Lists) {
    forall n :: n in services ==>
      n in lists && forall x :: x in lists[n] <==> Edge(SetGraph(services), x, n)
  }

  lemma EdgeMember(services: ServiceMap, x: Name, n: Name)
    ensures Edge(SetGraph(services), x, n) <==> x in services && exists d :: d in services[x].deps && d.to == n
  {
    if x in services {
      var deps := services[x].deps;
      if n in TargetNames(deps) {
        var i :| 0 <= i < |deps| && TargetNames(deps)[i] == n;
        assert deps[i] in deps;
      }
      if d :| d in deps && d.to == n {
        var i :| 0 <= i < |deps| && deps[i] == d;
        assert TargetNames(deps)[i] == n;
      }
    }
  }

  lemma FromMember(ds: seq<Dept>, x: Name)
    ensures x in Froms(ds) <==> exists e :: e in ds && e.from == x
  {
    if x in Froms(ds) {
      var i :| 0 <= i < |ds| && Froms(ds)[i] == x;
      assert ds[i] in ds;
    }
    if e :| e in ds && e.from == x {
      var i :| 0 <= i < |ds| && ds[i] == e;
      assert Froms(ds)[i] == x;
    }
  }

  lemma MirrorMember(r: ServiceMap, ds: Dependents, x: Name, n: Name)
    requires Mirror(r, ds) && n in r
    ensures x in Froms(ds[n]) <==> x in r && exists d :: d in r[x].deps && d.to == n
  {
    FromMember(ds[n], x);
    if x in Froms(ds[n]) {
      var e :| e in ds[n] && e.from == x;
      assert SameCount(r, ds, x, n, e.kind);
      assert multiset(ds[n])[Dept(x, e.kind)] > 0;
      assert Dep(n, e.kind) in multiset(r[x].deps);
    }
    if x in r {
      if d :| d in r[x].deps && d.to == n {
        assert SameCount(r, ds, x, n, d.kind);
        assert multiset(r[x].deps)[Dep(n, d.kind)] > 0;
        assert Dept(x, d.kind) in multiset(ds[n]);
      }
    }
  }

  /** Over all records, the lists of dependents are the inverse of the links. */
  lemma MirrorIsInverse(r: ServiceMap, ds: Dependents)
    requires Mirror(r, ds)
    ensures Inverse(r, FromLists(ds))
  {
    hide Mirror;
    MirrorKeys(r, ds);
    forall n, x | n in r ensures x in FromLists(ds)[n] <==> Edge(SetGraph(r), x, n) {
      MirrorMember(r, ds, x, n);
      EdgeMember(r, x, n);
    }
  }

  /** The orphan has a link to a service of the set. */
  ghost predicate Clings(orphan: Rec, services: ServiceMap) {
    exists d :: d in orphan.deps && d.to in services
  }

  /** Over the services of the set they are exactly when no orphan clings to the set. */
  lemma InverseIff(st: State)
    requires Mirrored(st)
    ensures Inverse(st.services, FromLists(st.dependents)) <==>
            forall i :: 0 <= i < |st.orphans| ==> !Clings(st.orphans[i], st.services)
  {
    hide Mirror, Clings;
    var lists := FromLists(st.dependents);
    MirrorIsInverse(Records(st), st.dependents);
    if i :| 0 <= i < |st.orphans| && Clings(st.orphans[i], st.services) {
      var n := ClingsTo(st, i);
      EdgeMember(st.services, OrphanKey(i), n);
    } else {
      forall n, x | n in st.services ensures x in lists[n] <==> Edge(SetGraph(st.services), x, n) {
        NobodyClings(st, x, n);
      }
    }
  }

  lemma ClingsTo(st: State, i: nat) returns (n: Name)
    requires i < |st.orphans| && Clings(st.orphans[i], st.services) && forall n :: n in st.services ==> !Hidden(n)
    ensures n in st.services && OrphanKey(i) !in st.services && Edge(SetGraph(Records(st)), OrphanKey(i), n)
  {
    var d :| d in st.orphans[i].deps && d.to in st.services;
    var r, key := Records(st), OrphanKey(i);
    assert key in r && r[key] == st.orphans[i];
    EdgeMember(r, key, d.to);
    n := d.to;
  }

  lemma NobodyClings(st: State, x: Name, n: Name)
    requires n in st.services && forall i :: 0 <= i < |st.orphans| ==> !Clings(st.orphans[i], st.services)
    ensures Edge(SetGraph(Records(st)), x, n) <==> Edge(SetGraph(st.services), x, n)
  {
    var r := Records(st);
    EdgeMember(r, x, n);
    EdgeMember(st.services, x, n);
    if x in r && x !in st.services {
      assert !Clings(st.orphans[|x| - 1], st.services);
    }
  }

  // ----- what a load leaves in the lists -----

  lemma OrphanDoesNotLink(was: State, name: Name, i: nat)
    requires Mirrored(was) && name !in was.services && !Hidden(name) && i < |was.orphans|
    ensures forall d :: d in was.orphans[i].deps ==> d.to != name
  {
    assert OrphanKey(i) in Records(was) && Records(was)[OrphanKey(i)] == was.orphans[i];
  }

  lemma ForgetKeepsOrphans(was: State, left: State, name: Name)
    requires Mirrored(was) && name !in was.services && !Hidden(name) && name in left.services
    requires |was.orphans| <= |left.orphans| && left.orphans[..|was.orphans|] == was.orphans
    ensures |Forget(was, left, name).orphans| > |was.orphans|
    ensures Forget(was, left, name).orphans[..|was.orphans|] == was.orphans
  {
    hide Mirrored;
    var after, key := Forget(was, left, name), OrphanKey(|left.orphans|);
    var all := left.orphans + [left.services[name]];
    forall i | 0 <= i < |was.orphans| ensures after.orphans[i] == was.orphans[i] {
      assert all[i] == left.orphans[..|was.orphans|][i];
      OrphanDoesNotLink(was, name, i);
      RekeyNothing(was.orphans[i], name, key);
    }
  }

  lemma PrefixTwice(a: seq<Rec>, b: seq<Rec>, c: seq<Rec>)
    requires |a| <= |b| <= |c| && b[..|a|] == a && c[..|b|] == b
    ensures c[..|a|] == a
  {
    assert c[..|a|] == c[..|b|][..|a|];
  }

  /** Orphans stay as they are. */
  lemma {:induction false} LoadKeepsOrphans(fs: Files, st: State, name: Name)
    requires Mirrored(st)
    ensures
      var after := LoadService(fs, st, name).0;
      |after.orphans| >= |st.orphans| && after.orphans[..|st.orphans|] == st.orphans
    decreases Budget(st), 0, 0
  {
    hide Mirrored, CalcDepth, Forget;
    if name !in st.services && st.curDepth < MAX_DEP_DEPTH && name !in st.loading && fs(name).Found? {
      var items := fs(name).items;
      EnterMirrors(st, name);
      DepsKeepOrphans(fs, Enter(st, name), name, items);
      var (left, outcome) := LoadDependencies(fs, Enter(st, name), name, items);
      if !outcome.Loaded? {
        ForgetKeepsOrphans(st, left, name);
      }
    }
  }

  lemma {:induction false} DepsKeepOrphans(fs: Files, st: State, name: Name, items: seq<Item>)
    requires Mirrored(st) && name in st.services
    ensures
      var after := LoadDependencies(fs, st, name, items).0;
      |after.orphans| >= |st.orphans| && after.orphans[..|st.orphans|] == st.orphans
    decreases Budget(st), 1, |items|
  {
    hide Mirrored, LoadService;
    if items != [] && items[0].Link? {
      LoadMirrors(fs, st, items[0].target);
      LoadKeepsOrphans(fs, st, items[0].target);
      var (st', outcome) := LoadService(fs, st, items[0].target);
      if outcome.Loaded? {
        var d := Dep(items[0].target, items[0].kind);
        AddDepMirrors(st', name, d);
        DepsKeepOrphans(fs, AddDep(st', name, d), name, items[1..]);
        PrefixTwice(st.orphans, st'.orphans, LoadDependencies(fs, AddDep(st', name, d), name, items[1..]).0.orphans);
      } else if items[0].optional && outcome.NotFound? {
        DepsKeepOrphans(fs, st', name, items[1..]);
        PrefixTwice(st.orphans, st'.orphans, LoadDependencies(fs, st', name, items[1..]).0.orphans);
      }
    }
  }

  /** A load leaves the lists of dependents the inverse of the links in the set exactly when no
      service that it took out of the set again had already been linked to one that stays. */
  lemma InverseAfterLoad(fs: Files, st: State, name: Name)
    requires Mirrored(st) && Inverse(st.services, FromLists(st.dependents))
    ensures
      var after := LoadService(fs, st, name).0;
      Inverse(after.services, FromLists(after.dependents)) <==>
      forall i :: |st.orphans| <= i < |after.orphans| ==> !Clings(after.orphans[i], after.services)
  {
    hide Mirror, LoadService, Inverse;
    var after := LoadService(fs, st, name).0;
    LoadMirrors(fs, st, name);
    LoadKeepsOrphans(fs, st, name);
    InverseIff(st);
    InverseIff(after);
    forall i | 0 <= i < |st.orphans| ensures !Clings(after.orphans[i], after.services) {
      OldOrphansDoNotCling(st, after, i);
    }
  }

  lemma OldOrphansDoNotCling(st: State, after: State, i: nat)
    requires Mirrored(st) && Mirrored(after) && i < |st.orphans| <= |after.orphans|
    requires after.orphans[..|st.orphans|] == st.orphans && !Clings(st.orphans[i], st.services)
    ensures !Clings(after.orphans[i], after.services)
  {
    assert after.orphans[i] == after.orphans[..|st.orphans|][i] == st.orphans[i];
    assert OrphanKey(i) in Records(st) && Records(st)[OrphanKey(i)] == st.orphans[i];
    forall d | d in st.orphans[i].deps ensures d.to !in after.services {
      assert d.to in Records(st) && d.to !in st.services;
    }
  }

  /** `a` depends on `b`, which has no dependencies, and then on `c`, which nobody describes. */
  ghost predicate LeafThenMissing(fs: Files, a: Name, b: Name, c: Name) {
    && a != b && b != c && a != c
    && fs(a) == Found([Link(b, Regular, false), Link(c, Regular, false)]) && fs(b) == Found([]) && fs(c).Missing?
  }

  /** The state when `c` turns out to be missing. */
  function LeafLinked(st: State, a: Name, b: Name): State {
    var e := Enter(st, a);
    AddDep(Settle(e, Enter(e, b), b), a, Dep(b, Regular))
  }

  lemma LeafThenMissingFails(fs: Files, st: State, a: Name, b: Name, c: Name)
    requires LeafThenMissing(fs, a, b, c) && {a, b, c} !! st.services.Keys + st.loading
    requires st.curDepth + 1 < MAX_DEP_DEPTH
    ensures LoadService(fs, st, a) == (Forget(st, LeafLinked(st, a, b), a), NotFound)
  {
    hide Forget, CalcDepth;
    var e, items := Enter(st, a), fs(a).items;
    assert LoadDependencies(fs, Enter(e, b), b, []) == (Enter(e, b), Loaded);
    assert LoadService(fs, e, b) == (Settle(e, Enter(e, b), b), Loaded);
    var linked := LeafLinked(st, a, b);
    assert items[1..] == [Link(c, Regular, false)];
    assert LoadService(fs, linked, c) == (linked, NotFound);
    assert LoadDependencies(fs, linked, a, items[1..]) == (linked, NotFound);
    assert LoadDependencies(fs, e, a, items) == (linked, NotFound);
  }

  /** So a failed load that had linked something breaks the inverse: `b` goes on listing the
      service that is not in the set. */
  lemma FailedLoadStaysListed(fs: Files, st: State, a: Name, b: Name, c: Name)
    requires Mirrored(st) && LeafThenMissing(fs, a, b, c) && {a, b, c} !! st.services.Keys + st.loading
    requires st.curDepth + 1 < MAX_DEP_DEPTH
    ensures
      var (after, outcome) := LoadService(fs, st, a);
      && outcome.NotFound? && a !in after.services && b in after.services
      && !Inverse(after.services, FromLists(after.dependents))
  {
    hide Mirrored, Inverse, LoadService;
    var linked := LeafLinked(st, a, b);
    LeafThenMissingFails(fs, st, a, b, c);
    LoadMirrors(fs, st, a);
    var after := Forget(st, linked, a);
    var i := |linked.orphans|;
    assert (linked.orphans + [linked.services[a]])[i].deps == [Dep(b, Regular)];
    assert after.orphans[i].deps[0] == Dep(b, Regular);
    assert Clings(after.orphans[i], after.services);
    InverseIff(after);
  }
}

/** What a failed load leaves in the set: the services that were called for by lines before the ones
    it failed at. */
module LoadLeft {
  import opened Services
  import opened Graph
  import opened Loader
  import opened LoadSafety
  import opened LoadLoops

  /** A service that failed to load, and the number of the line it failed at. */
  datatype Fault = Fault(name: Name, line: nat)

  /** One failure brought about the other: the load of `name` failed at a line that cannot be read, or
      whose target failed in turn; a service without a readable description fails by itself. */
  ghost predicate Faults(fs: Files, name: Name, path: seq<Fault>)
    decreases |path|
  {
    path == [] ||
    (&& path[0].name == name && fs(name).Found? && path[0].line < |fs(name).items|
     && var line := fs(name).items[path[0].line];
        if line.Link? then Faults(fs, line.target, path[1..]) else path == [path[0]])
  }

  ghost function Names(path: seq<Fault>): set<Name> {
    set i | 0 <= i < |path| :: path[i].name
  }

  /** A chain of descriptions leads from line `i` of `a` to `n`, past the services of `s`. */
  ghost predicate Calls(fs: Files, s: set<Name>, a: Name, i: nat, n: Name) {
    && fs(n).Found? && fs(a).Found? && i < |fs(a).items| && fs(a).items[i].Link?
    && Leads(fs, s, fs(a).items[i].target, n)
  }

  /** Line `i`, before fault number `j`, calls for `n`, past the set and the services that were being
      loaded by then. */
  ghost predicate CallsAt(fs: Files, s: set<Name>, path: seq<Fault>, j: nat, i: nat, n: Name)
    requires j < |path|
  {
    i < path[j].line && Calls(fs, s + Names(path[..j + 1]), path[j].name, i, n)
  }

  /** A line before one of the faults calls for `n`. */
  ghost predicate CalledBefore(fs: Files, s: set<Name>, path: seq<Fault>, n: Name) {
    exists j: nat, i: nat :: j < |path| && CallsAt(fs, s, path, j, i, n)
  }

  // ----- chains past a set that has grown -----

  lemma ChainRest(fs: Files, s: set<Name>, p: seq<Name>, m: nat)
    requires |p| > 0 && Chain(fs, s, p, p[0]) && m < |p|
    ensures Chain(fs, s, p[m..], p[m])
  {
    var q := p[m..];
    forall i: nat | 0 < i < |q| ensures Descends(fs, q, i) { assert Descends(fs, p, m + i); }
  }

  lemma LeadsJoin(fs: Files, s: set<Name>, a: Name, b: Name, c: Name)
    requires Leads(fs, s, a, b) && Leads(fs, s, b, c) && b !in s
    ensures Leads(fs, s, a, c)
  {
    var p :| Chain(fs, s, p, a) && p[|p| - 1] == b;
    var q :| Chain(fs, s, q, b) && q[|q| - 1] == c;
    var r := p + q[1..];
    forall i: nat | 0 < i < |r| ensures Descends(fs, r, i) {
      if i < |p| { assert Descends(fs, p, i); } else { assert Descends(fs, q, i - |p| + 1); }
    }
    forall i | 0 <= i < |r| - 1 ensures r[i] !in s { if i >= |p| { assert r[i] == q[i - |p| + 1]; } }
    assert Chain(fs, s, r, a) && r[|r| - 1] == c;
  }

  /** `after` is `s` with everything that `t` calls for. */
  ghost predicate GrownBy(fs: Files, s: set<Name>, t: Name, after: set<Name>) {
    forall n :: n in after <==> n in s || (fs(n).Found? && Leads(fs, s, t, n))
  }

  /** What is called for past the grown set, or is in it, is called for past the old one, or is in it. */
  lemma PastGrown(fs: Files, s: set<Name>, t: Name, after: set<Name>, more: set<Name>, x: Name, n: Name)
    requires GrownBy(fs, s, t, after) && fs(n).Found? && n !in after
    ensures Leads(fs, after + more, x, n) <==> Leads(fs, s + more, x, n)
  {
    if p :| Chain(fs, after + more, p, x) && p[|p| - 1] == n {
      assert Chain(fs, s + more, p, x);
    }
    if p :| Chain(fs, s + more, p, x) && p[|p| - 1] == n {
      if m :| 0 <= m < |p| - 1 && p[m] in after {
        ChainRest(fs, s + more, p, m);
        assert Chain(fs, s, p[m..], p[m]) && p[m..][|p| - m - 1] == n;
        assert Leads(fs, s, p[m], n);
        LeadsJoin(fs, s, t, p[m], n);
      } else {
        assert Chain(fs, after + more, p, x);
      }
    }
  }

  /** A load that succeeds adds exactly what the descriptions call for. */
  lemma LoadedGrows(fs: Files, base: set<Name>, st: State, name: Name)
    requires base <= st.services.Keys && SameAbsent(fs, base, st.services) && OptionalsResolve(fs, base, name)
    requires LoadService(fs, st, name).1.Loaded?
    ensures GrownBy(fs, st.services.Keys, name, LoadService(fs, st, name).0.services.Keys)
  {
    hide OptionalsResolve, LoadService, AddedAsDescribed, AddedClosed;
    var s, after := st.services.Keys, LoadService(fs, st, name).0.services;
    LoadAddsNeeded(fs, st, s, name);
    LoadedLinks(fs, base, st, name);
    forall n | fs(n).Found? && Leads(fs, s, name, n) ensures n in after {
      var p :| Chain(fs, s, p, name) && p[|p| - 1] == n;
      ChainLoads(fs, base, st.services, after, p);
    }
  }

  lemma {:induction false} ChainLoads(fs: Files, base: set<Name>, before: ServiceMap, after: ServiceMap, p: seq<Name>)
    requires AddedAsDescribed(fs, base, before, after) && AddedClosed(before, after)
    requires |p| > 0 && Chain(fs, before.Keys, p, p[0]) && p[0] in after && fs(p[|p| - 1]).Found?
    ensures p[|p| - 1] in after
    decreases |p|
  {
    if |p| > 1 {
      hide Kept;
      assert Descends(fs, p, 1);
      var it :| it in fs(p[0]).items && it.Link? && it.target == p[1];
      if |p| > 2 { assert Descends(fs, p, 2); }
      KeptMember(fs, base, fs(p[0]).items, it);
      ChainRest(fs, before.Keys, p, 1);
      hide AddedAsDescribed, AddedClosed, Descends;
      assert p[1] in after;
      ChainLoads(fs, base, before, after, p[1..]);
    }
  }

  // ----- the lines before the one that failed -----

  /** The targets of the lines lead to `n`. */
  ghost predicate AnyLeads(fs: Files, s: set<Name>, items: seq<Item>, n: Name) {
    fs(n).Found? && exists i :: 0 <= i < |items| && items[i].Link? && Leads(fs, s, items[i].target, n)
  }

  /** What is there after line `k` failed in turn along `rest`. */
  ghost predicate LeftThere(fs: Files, s: set<Name>, items: seq<Item>, k: nat, rest: seq<Fault>, after: set<Name>)
    requires k <= |items|
  {
    forall n :: n in after <==> n in s || (n !in Names(rest) && (AnyLeads(fs, s, items[..k], n) || CalledBefore(fs, s, rest, n)))
  }

  lemma CalledPastGrown(fs: Files, s: set<Name>, t: Name, after: set<Name>, rest: seq<Fault>, n: Name)
    requires GrownBy(fs, s, t, after) && n !in after
    ensures CalledBefore(fs, after, rest, n) <==> CalledBefore(fs, s, rest, n)
  {
    hide GrownBy, Leads;
    if fs(n).Found? {
      forall j: nat, i: nat | j < |rest| ensures CallsAt(fs, after, rest, j, i, n) <==> CallsAt(fs, s, rest, j, i, n) {
        if fs(rest[j].name).Found? && i < |fs(rest[j].name).items| && fs(rest[j].name).items[i].Link? {
          PastGrown(fs, s, t, after, Names(rest[..j + 1]), fs(rest[j].name).items[i].target, n);
        }
      }
    }
  }

  lemma AnyLeadsCons(fs: Files, s: set<Name>, items: seq<Item>, k: nat, n: Name)
    requires items != [] && k < |items|
    ensures AnyLeads(fs, s, items[..k + 1], n) <==>
            (fs(n).Found? && items[0].Link? && Leads(fs, s, items[0].target, n)) || AnyLeads(fs, s, items[1..][..k], n)
  {
    hide Leads;
    var a, b := items[..k + 1], items[1..][..k];
    if i :| 0 <= i < |a| && a[i].Link? && Leads(fs, s, a[i].target, n) && i > 0 { assert b[i - 1] == a[i]; }
    if i :| 0 <= i < |b| && b[i].Link? && Leads(fs, s, b[i].target, n) { assert a[i + 1] == b[i]; }
    assert a[0] == items[0];
  }

  lemma AnyPastGrown(fs: Files, s: set<Name>, t: Name, after: set<Name>, items: seq<Item>, n: Name)
    requires GrownBy(fs, s, t, after) && n !in after
    ensures AnyLeads(fs, after, items, n) <==> AnyLeads(fs, s, items, n)
  {
    hide GrownBy, Leads;
    if fs(n).Found? {
      assert after + {} == after && s + {} == s;
      forall i | 0 <= i < |items| && items[i].Link? ensures Leads(fs, after, items[i].target, n) <==> Leads(fs, s, items[i].target, n) {
        PastGrown(fs, s, t, after, {}, items[i].target, n);
      }
    }
  }

  /** One more line in front, whose target was loaded. */
  lemma LeftAfterLoaded(fs: Files, s: set<Name>, mid: set<Name>, items: seq<Item>, k: nat, rest: seq<Fault>, after: set<Name>)
    requires items != [] && items[0].Link? && GrownBy(fs, s, items[0].target, mid)
    requires k < |items| && LeftThere(fs, mid, items[1..], k, rest, after) && Names(rest) !! mid
    ensures LeftThere(fs, s, items, k + 1, rest, after)
  {
    forall n ensures n in after <==>
      n in s || (n !in Names(rest) && (AnyLeads(fs, s, items[..k + 1], n) || CalledBefore(fs, s, rest, n)))
    {
      AnyLeadsCons(fs, s, items, k, n);
      if n !in mid {
        AnyPastGrown(fs, s, items[0].target, mid, items[1..][..k], n);
        CalledPastGrown(fs, s, items[0].target, mid, rest, n);
      }
      hide AnyLeads, CalledBefore, Leads;
    }
  }

  /** One more line in front, whose target is absent. */
  lemma LeftAfterAbsent(fs: Files, s: set<Name>, items: seq<Item>, k: nat, rest: seq<Fault>, after: set<Name>)
    requires items != [] && items[0].Link? && fs(items[0].target).Missing?
    requires k < |items| && LeftThere(fs, s, items[1..], k, rest, after)
    ensures LeftThere(fs, s, items, k + 1, rest, after)
  {
    forall n ensures AnyLeads(fs, s, items[..k + 1], n) <==> AnyLeads(fs, s, items[1..][..k], n) {
      AnyLeadsCons(fs, s, items, k, n);
      if Leads(fs, s, items[0].target, n) { MissingLeads(fs, s, items[0].target, n); }
    }
    hide AnyLeads, CalledBefore;
  }

  lemma MissingLeads(fs: Files, s: set<Name>, t: Name, n: Name)
    requires fs(t).Missing? && Leads(fs, s, t, n)
    ensures n == t
  {
    var p :| Chain(fs, s, p, t) && p[|p| - 1] == n;
    assert |p| > 1 ==> Descends(fs, p, 1);
  }

  // ----- the theorem -----

  /** After a load that failed, whatever loops there are, the set holds what it held, and exactly those
      services besides that a line before one of the faults calls for. */
  lemma {:induction false} FailureLeaves(fs: Files, base: set<Name>, st: State, name: Name) returns (path: seq<Fault>)
    requires base <= st.services.Keys && SameAbsent(fs, base, st.services) && OptionalsResolve(fs, base, name)
    requires !LoadService(fs, st, name).1.Loaded?
    ensures Faults(fs, name, path) && Names(path) !! st.services.Keys
    ensures forall n :: n in LoadService(fs, st, name).0.services <==>
      n in st.services || (n !in Names(path) && CalledBefore(fs, st.services.Keys, path, n))
    decreases Budget(st), 0, 0
  {
    hide OptionalsResolve, CalcDepth, Forget, CalledBefore;
    path := [];
    if st.curDepth < MAX_DEP_DEPTH && name !in st.loading && fs(name).Found? {
      var items, entered := fs(name).items, Enter(st, name);
      EnterAbsent(fs, base, st, name);
      NameResolves(fs, base, name);
      var k, rest := LinesLeave(fs, base, entered, name, items);
      path := [Fault(name, k)] + rest;
      var left := LoadDependencies(fs, entered, name, items).0;
      assert path[1..] == rest;
      ForgetsName(st, left, name);
      assert entered.services.Keys == st.services.Keys + {name};
      FrontFault(fs, st.services.Keys, name, k, rest, left.services.Keys);
    } else {
      NothingCalled(fs, st.services.Keys);
    }
  }

  lemma NothingCalled(fs: Files, s: set<Name>)
    ensures forall n :: !CalledBefore(fs, s, [], n)
  {
  }

  lemma ForgetsName(was: State, left: State, name: Name)
    requires name in left.services
    ensures Forget(was, left, name).services.Keys == left.services.Keys - {name}
  {
  }

  /** The fault of the service itself, in front of those it was brought about by. */
  lemma FrontFault(fs: Files, s: set<Name>, name: Name, k: nat, rest: seq<Fault>, left: set<Name>)
    requires name !in s && fs(name).Found? && k < |fs(name).items| && LeftThere(fs, s + {name}, fs(name).items, k, rest, left)
    ensures
      var path := [Fault(name, k)] + rest;
      && Names(path) == Names(rest) + {name}
      && forall n :: n in left - {name} <==> n in s || (n !in Names(path) && CalledBefore(fs, s, path, n))
  {
    var path, s1 := [Fault(name, k)] + rest, s + {name};
    NamesCons(name, k, rest);
    forall n ensures CalledBefore(fs, s, path, n) <==> AnyLeads(fs, s1, fs(name).items[..k], n) || CalledBefore(fs, s1, rest, n) {
      FrontCalls(fs, s, name, k, rest, n);
    }
    hide AnyLeads, CalledBefore, Names;
  }

  lemma NamesCons(name: Name, k: nat, rest: seq<Fault>)
    ensures Names([Fault(name, k)] + rest) == {name} + Names(rest)
  {
    var path := [Fault(name, k)] + rest;
    forall x | x in Names(rest) ensures x in Names(path) {
      var i :| 0 <= i < |rest| && rest[i].name == x;
      assert path[i + 1].name == x;
    }
    assert path[0].name == name;
  }

  lemma FrontCalls(fs: Files, s: set<Name>, name: Name, k: nat, rest: seq<Fault>, n: Name)
    requires fs(name).Found? && k < |fs(name).items|
    ensures
      CalledBefore(fs, s, [Fault(name, k)] + rest, n) <==>
      AnyLeads(fs, s + {name}, fs(name).items[..k], n) || CalledBefore(fs, s + {name}, rest, n)
  {
    hide Leads, Names;
    var path, s1, items := [Fault(name, k)] + rest, s + {name}, fs(name).items;
    forall j | 0 <= j < |path| ensures s + Names(path[..j + 1]) == s1 + Names(rest[..j]) {
      assert path[..j + 1] == [Fault(name, k)] + rest[..j];
      NamesCons(name, k, rest[..j]);
    }
    NoNames();
    assert s + Names(path[..0 + 1]) == s1 by { assert rest[..0] == [] && s1 + {} == s1; }
    if j: nat, i: nat :| j < |path| && CallsAt(fs, s, path, j, i, n) {
      if j == 0 {
        assert items[..k][i] == items[i];
      } else {
        assert path[j] == rest[j - 1] && CallsAt(fs, s1, rest, j - 1, i, n);
      }
    }
    if AnyLeads(fs, s1, items[..k], n) {
      var i :| 0 <= i < k && items[..k][i].Link? && Leads(fs, s1, items[..k][i].target, n);
      assert CallsAt(fs, s, path, 0, i, n);
    }
    if j: nat, i: nat :| j < |rest| && CallsAt(fs, s1, rest, j, i, n) {
      assert path[j + 1] == rest[j] && CallsAt(fs, s, path, j + 1, i, n);
    }
  }

  lemma NoNames()
    ensures Names([]) == {}
  {
  }

  lemma {:induction false} LinesLeave(fs: Files, base: set<Name>, st: State, name: Name, items: seq<Item>) returns (k: nat, rest: seq<Fault>)
    requires base <= st.services.Keys && SameAbsent(fs, base, st.services) && name in st.services
    requires LinesResolve(fs, base, items) && forall it :: it in items && it.Link? ==> OptionalsResolve(fs, base, it.target)
    requires !LoadDependencies(fs, st, name, items).1.Loaded?
    ensures k < |items| && Names(rest) !! st.services.Keys
    ensures if items[k].Link? then Faults(fs, items[k].target, rest) else rest == []
    ensures LeftThere(fs, st.services.Keys, items, k, rest, LoadDependencies(fs, st, name, items).0.services.Keys)
    decreases Budget(st), 1, |items|
  {
    hide OptionalsResolve, LoadService, Incomplete, CalledBefore, LeftThere, GrownBy, Faults;
    var s := st.services.Keys;
    if items[0].UnreadableDir? {
      k, rest := 0, [];
      NothingCalled(fs, s);
      LeftAtOnce(fs, s, items, [], s);
    } else {
      var it := items[0];
      assert it in items;
      var (st', outcome) := LoadService(fs, st, it.target);
      if outcome.Loaded? {
        LoadedLinks(fs, base, st, it.target);
        LoadedGrows(fs, base, st, it.target);
        var linked := AddDep(st', name, Dep(it.target, it.kind));
        var k', rest' := LinesLeave(fs, base, linked, name, items[1..]);
        k, rest := k' + 1, rest';
        assert linked.services.Keys == st'.services.Keys;
        LeftAfterLoaded(fs, s, st'.services.Keys, items, k', rest, LoadDependencies(fs, linked, name, items[1..]).0.services.Keys);
      } else if it.optional && outcome.NotFound? {
        NotFoundIsIncomplete(fs, base, st, it.target);
        assert LineResolves(fs, base, it);
        AbsentIsSkipped(fs, base, st, it.target);
        var k', rest' := LinesLeave(fs, base, st, name, items[1..]);
        k, rest := k' + 1, rest';
        LeftAfterAbsent(fs, s, items, k', rest, LoadDependencies(fs, st, name, items[1..]).0.services.Keys);
      } else {
        rest := FailureLeaves(fs, base, st, it.target);
        k := 0;
        LeftAtOnce(fs, s, items, rest, st'.services.Keys);
      }
    }
  }

  lemma LeftAtOnce(fs: Files, s: set<Name>, items: seq<Item>, rest: seq<Fault>, after: set<Name>)
    requires forall n :: n in after <==> n in s || (n !in Names(rest) && CalledBefore(fs, s, rest, n))
    ensures LeftThere(fs, s, items, 0, rest, after)
  {
    if rest == [] { NothingCalled(fs, s); }
    hide CalledBefore;
    assert items[..0] == [];
  }

  /** So a failed load leaves a sound set exactly when no service that a line before one of the faults
      calls for is on a loop of descriptions. */
  lemma FailedSoundIff(fs: Files, st: State, name: Name) returns (path: seq<Fault>)
    requires Sound(st.services, {}) && PlainNames(st.services) && OptionalsResolve(fs, st.services.Keys, name)
    requires !LoadService(fs, st, name).1.Loaded?
    ensures Faults(fs, name, path)
    ensures Sound(LoadService(fs, st, name).0.services, {}) <==>
      forall n :: n !in st.services && n !in Names(path) && CalledBefore(fs, st.services.Keys, path, n) ==> !OnLoop(fs, st.services.Keys, n)
  {
    hide Sound, OptionalsResolve, LoadService, OnLoop, CalledBefore, Faults;
    path := FailureLeaves(fs, st.services.Keys, st, name);
    LoadSoundIff(fs, st, name);
  }
}

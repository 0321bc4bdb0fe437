/** What a reload guarantees: which links are back after a failure, when the fast path may be
    taken, and when the dependency graph stays free of cycles. */
module ReloadSafety {
  import opened Graph
  import opened Services
  import opened Loader
  import opened Reload
  import opened LinkLists
  import LoadSafety

  /** The links that loading the dependency lines puts in. */
  ghost function Added(fs: Files, st: State, name: Name, items: seq<Item>): seq<Dep>
    requires name in st.services
    decreases |items|
  {
    if items == [] || items[0].UnreadableDir? then []
    else
      var (st', outcome) := LoadService(fs, st, items[0].target);
      var d := Dep(items[0].target, items[0].kind);
      if outcome.Loaded? then [d] + Added(fs, AddDep(st', name, d), name, items[1..])
      else if items[0].optional && outcome.NotFound? then Added(fs, st', name, items[1..])
      else []
  }

  lemma {:induction false} DepsAppended(fs: Files, st: State, name: Name, items: seq<Item>)
    requires name in st.services
    ensures LoadDependencies(fs, st, name, items).0.services[name].deps == st.services[name].deps + Added(fs, st, name, items)
    decreases |items|
  {
    hide LoadService;
    if items != [] && items[0].Link? {
      var (st', outcome) := LoadService(fs, st, items[0].target);
      if outcome.Loaded? {
        var d := Dep(items[0].target, items[0].kind);
        DepsAppended(fs, AddDep(st', name, d), name, items[1..]);
        var rest := Added(fs, AddDep(st', name, d), name, items[1..]);
        assert st.services[name].deps + [d] + rest == st.services[name].deps + ([d] + rest);
      } else if items[0].optional && outcome.NotFound? {
        DepsAppended(fs, st', name, items[1..]);
      }
    }
  }

  ghost predicate FromItem(items: seq<Item>, d: Dep) {
    exists it :: it in items && it.Link? && d == Dep(it.target, it.kind)
  }

  /** Only described links are added; on success all of them are, but for optional ones whose
      target was not in the set. */
  lemma {:induction false} AddedDescribed(fs: Files, st: State, name: Name, items: seq<Item>)
    requires name in st.services
    ensures forall d :: d in Added(fs, st, name, items) ==> FromItem(items, d)
    ensures LoadDependencies(fs, st, name, items).1.Loaded? ==>
      forall it :: it in items ==>
        it.Link? && ((it.optional && it.target !in st.services) || Dep(it.target, it.kind) in Added(fs, st, name, items))
    decreases |items|
  {
    hide LoadService;
    if items != [] {
      var it := items[0];
      assert forall x :: x in items ==> x == it || x in items[1..];
      if it.Link? {
        var (st', outcome) := LoadService(fs, st, it.target);
        if outcome.Loaded? {
          AddedDescribed(fs, AddDep(st', name, Dep(it.target, it.kind)), name, items[1..]);
          assert FromItem(items, Dep(it.target, it.kind));
        } else if it.optional && outcome.NotFound? {
          AddedDescribed(fs, st', name, items[1..]);
        }
      }
      forall d | d in Added(fs, st, name, items) ensures FromItem(items, d) {
        if d != Dep(it.target, it.kind) || !it.Link? {
          assert FromItem(items[1..], d);
          var x :| x in items[1..] && x.Link? && d == Dep(x.target, x.kind);
          assert x in items;
        }
      }
    }
  }


  /** The links a reload of `d` puts in before it succeeds or fails. */
  ghost function Installed(fs: Files, st: State, name: Name, d: Description): seq<Dep>
    requires name in st.services
  {
    Added(fs, TakeOut(st, name), name, Items(d))
  }

  ghost function DepsAfter(fs: Files, st: State, name: Name, d: Description, overflow: bool): seq<Dep>
    requires name in st.services
  {
    UpdateDependencies(fs, st, name, d, overflow).0.services[name].deps
  }

  /** Whether all described dependencies could be loaded. */
  ghost predicate AllLoad(fs: Files, st: State, name: Name, d: Description)
    requires name in st.services
  {
    LoadDependencies(fs, TakeOut(st, name), name, Items(d)).1.Loaded?
  }

  /** The dependency list on each way out. */
  lemma ReloadOutcome(fs: Files, st: State, name: Name, d: Description, overflow: bool)
    requires name in st.services && !Matches(st.services[name].deps, d)
    ensures
      var was, added := st.services[name].deps, Installed(fs, st, name, d);
      && UpdateDependencies(fs, st, name, d, overflow).1 == (AllLoad(fs, st, name, d) && !overflow)
      && DepsAfter(fs, st, name, d, overflow) ==
           if !AllLoad(fs, st, name, d) then Befores(was) + added + NonBefores(was)
           else if overflow then Befores(was) + Befores(added) + NonBefores(was)
           else Befores(was) + added
  {
    hide LoadDependencies, Items, Added, Matches, Befores, NonBefores, TakeOutFrom, PutIn;
    var was, added := st.services[name].deps, Installed(fs, st, name, d);
    var st' := LoadDependencies(fs, TakeOut(st, name), name, Items(d)).0;
    TakeOutDeps(st, name);
    DepsAppended(fs, TakeOut(st, name), name, Items(d));
    PutInDeps(st', name, NonBefores(was));
    TakeOutDeps(st', name);
    PutInDeps(TakeOut(st', name), name, NonBefores(was));
    SplitConcat(Befores(was), added);
    SplitTwice(was);
  }

  /** The same for the ordering links and all others. */
  lemma ReloadHalves(fs: Files, st: State, name: Name, d: Description, overflow: bool)
    requires name in st.services && !Matches(st.services[name].deps, d)
    ensures
      var was, added, after := st.services[name].deps, Installed(fs, st, name, d), DepsAfter(fs, st, name, d, overflow);
      && Befores(after) == Befores(was) + Befores(added)
      && NonBefores(after) ==
           if !AllLoad(fs, st, name, d) then NonBefores(added) + NonBefores(was)
           else if overflow then NonBefores(was)
           else NonBefores(added)
  {
    hide UpdateDependencies, AllLoad, Installed, Matches, Befores, NonBefores;
    var was, added := st.services[name].deps, Installed(fs, st, name, d);
    ReloadOutcome(fs, st, name, d, overflow);
    SplitTwice(was);
    SplitTwice(added);
    SplitConcat(Befores(was), added);
    SplitConcat(Befores(was) + added, NonBefores(was));
    SplitConcat(Befores(was), Befores(added));
    SplitConcat(Befores(was) + Befores(added), NonBefores(was));
    Trimmed(Befores(was) + Befores(added));
    Trimmed(NonBefores(added));
    Trimmed(NonBefores(was));
  }

  lemma Trimmed(s: seq<Dep>)
    ensures [] + s == s && s + [] == s
  {
  }

  // ----- which lines put a link in -----

  /** Loading the lines gets as far as line `i`, and its target can be loaded: its link is put in. */
  ghost predicate PutsIn(fs: Files, st: State, name: Name, items: seq<Item>, i: nat)
    requires name in st.services && i < |items|
    decreases |items|
  {
    items[0].Link? &&
    var (st', outcome) := LoadService(fs, st, items[0].target);
    if outcome.Loaded? then
      i == 0 || PutsIn(fs, AddDep(st', name, Dep(items[0].target, items[0].kind)), name, items[1..], i - 1)
    else
      i > 0 && items[0].optional && outcome.NotFound? && PutsIn(fs, st', name, items[1..], i - 1)
  }

  /** A line whose target is in the set, like those of all lines before it, puts its link in. */
  lemma {:induction false} PresentPutsIn(fs: Files, st: State, name: Name, items: seq<Item>, i: nat)
    requires name in st.services && i < |items|
    requires forall j :: 0 <= j <= i ==> items[j].Link? && items[j].target in st.services
    ensures PutsIn(fs, st, name, items, i)
    decreases |items|
  {
    if i > 0 {
      var st' := AddDep(st, name, Dep(items[0].target, items[0].kind));
      assert items[0].target in st.services;
      PresentPutsIn(fs, st', name, items[1..], i - 1);
    }
  }

  ghost predicate LineOf(items: seq<Item>, i: nat, x: Dep)
    requires i < |items|
  {
    items[i].Link? && x == Dep(items[i].target, items[i].kind)
  }

  /** The links put in are those of the lines that put one in. */
  lemma {:induction false} AddedIffPutsIn(fs: Files, st: State, name: Name, items: seq<Item>, x: Dep)
    requires name in st.services
    ensures x in Added(fs, st, name, items) <==> exists i: nat :: i < |items| && PutsIn(fs, st, name, items, i) && LineOf(items, i, x)
    decreases |items|
  {
    hide LoadService;
    if items != [] && items[0].Link? {
      var (st', outcome) := LoadService(fs, st, items[0].target);
      var d := Dep(items[0].target, items[0].kind);
      var next := if outcome.Loaded? then AddDep(st', name, d) else st';
      if outcome.Loaded? || (items[0].optional && outcome.NotFound?) {
        AddedIffPutsIn(fs, next, name, items[1..], x);
        if i: nat :| i < |items| && PutsIn(fs, st, name, items, i) && LineOf(items, i, x) {
          if i > 0 { assert PutsIn(fs, next, name, items[1..], i - 1) && LineOf(items[1..], i - 1, x); }
        }
        if x in Added(fs, next, name, items[1..]) {
          var i: nat :| i < |items[1..]| && PutsIn(fs, next, name, items[1..], i) && LineOf(items[1..], i, x);
          assert PutsIn(fs, st, name, items, i + 1) && LineOf(items, i + 1, x);
        }
        if outcome.Loaded? && x == d {
          assert PutsIn(fs, st, name, items, 0) && LineOf(items, 0, x);
        }
      }
    }
  }

  // ----- what a failure leaves behind -----

  lemma {:induction false} SplitCounts(s: seq<Dep>)
    ensures multiset(Befores(s)) + multiset(NonBefores(s)) == multiset(s)
  {
    if s != [] {
      SplitCounts(s[1..]);
      assert s == [s[0]] + s[1..];
    }
  }

  /** Line `i` puts a link in that a failing reload does not take out again: any link if a
      dependency could not be loaded, an ordering one if the depth overflowed. */
  ghost predicate LeavesBehind(fs: Files, st: State, name: Name, d: Description, i: nat)
    requires name in st.services && i < |Items(d)|
  {
    && PutsIn(fs, TakeOut(st, name), name, Items(d), i)
    && (AllLoad(fs, st, name, d) ==> Items(d)[i].Link? && Items(d)[i].kind == Before)
  }

  /** After a failed reload every old link is back; and the list is the old one again, up to the
      order, exactly when no line of the description left a link behind. */
  lemma FailureRestores(fs: Files, st: State, name: Name, d: Description, overflow: bool)
    requires name in st.services && !UpdateDependencies(fs, st, name, d, overflow).1
    ensures
      var was, after := st.services[name].deps, DepsAfter(fs, st, name, d, overflow);
      && (forall x :: x in was ==> x in after)
      && (multiset(after) == multiset(was) <==>
          forall i: nat :: i < |Items(d)| ==> !LeavesBehind(fs, st, name, d, i))
  {
    hide UpdateDependencies, AllLoad, Items, Added, Befores, NonBefores, Matches, PutsIn, TakeOut;
    var was, added := st.services[name].deps, Installed(fs, st, name, d);
    ReloadFails(fs, st, name, d, overflow);
    ReloadOutcome(fs, st, name, d, overflow);
    SplitCounts(was);
    var left := if AllLoad(fs, st, name, d) then Befores(added) else added;
    var after := DepsAfter(fs, st, name, d, overflow);
    assert multiset(after) == multiset(was) + multiset(left);
    forall x | x in was ensures x in after { assert x in multiset(was); assert x in multiset(after); }
    LeftBehind(fs, st, name, d, left);
    NothingAdded(was, after, left);
  }

  lemma NothingAdded(was: seq<Dep>, after: seq<Dep>, left: seq<Dep>)
    requires multiset(after) == multiset(was) + multiset(left)
    ensures multiset(after) == multiset(was) <==> left == []
  {
    if left != [] {
      assert left[0] in multiset(left);
      assert multiset(after)[left[0]] > multiset(was)[left[0]];
    }
  }

  lemma ReloadFails(fs: Files, st: State, name: Name, d: Description, overflow: bool)
    requires name in st.services && !UpdateDependencies(fs, st, name, d, overflow).1
    ensures !Matches(st.services[name].deps, d) && (AllLoad(fs, st, name, d) ==> overflow)
  {
    hide LoadDependencies, Items, Matches, PutIn, TakeOut;
  }

  lemma LeftBehind(fs: Files, st: State, name: Name, d: Description, left: seq<Dep>)
    requires name in st.services
    requires left == if AllLoad(fs, st, name, d) then Befores(Installed(fs, st, name, d)) else Installed(fs, st, name, d)
    ensures left == [] <==> forall i: nat :: i < |Items(d)| ==> !LeavesBehind(fs, st, name, d, i)
  {
    hide AllLoad, Items, Added, Befores, PutsIn, TakeOut;
    var added, items, torn := Installed(fs, st, name, d), Items(d), TakeOut(st, name);
    if i: nat :| i < |items| && LeavesBehind(fs, st, name, d, i) {
      PutsInIsLink(fs, torn, name, items, i);
      var x := Dep(items[i].target, items[i].kind);
      AddedIffPutsIn(fs, torn, name, items, x);
      assert LineOf(items, i, x);
      SplitMember(added, x);
      assert x in left;
    }
    if left != [] {
      var x := left[0];
      SplitMember(added, x);
      AddedIffPutsIn(fs, torn, name, items, x);
      var i: nat :| i < |items| && PutsIn(fs, torn, name, items, i) && LineOf(items, i, x);
      assert LeavesBehind(fs, st, name, d, i);
    }
  }

  lemma {:induction false} PutsInIsLink(fs: Files, st: State, name: Name, items: seq<Item>, i: nat)
    requires name in st.services && i < |items| && PutsIn(fs, st, name, items, i)
    ensures items[i].Link?
    decreases |items|
  {
    hide LoadService;
    if i > 0 {
      var (st', outcome) := LoadService(fs, st, items[0].target);
      PutsInIsLink(fs, if outcome.Loaded? then AddDep(st', name, Dep(items[0].target, items[0].kind)) else st', name, items[1..], i - 1);
    }
  }

  // ----- the fast path -----

  lemma LinksMember(names: seq<Name>, k: DepType, optional: bool, it: Item)
    ensures it in Links(names, k, optional) <==> it.Link? && it.target in names && it.kind == k && it.optional == optional
  {
    if it.Link? && it.target in names && it.kind == k && it.optional == optional {
      var i :| 0 <= i < |names| && names[i] == it.target;
      assert Links(names, k, optional)[i] == it;
    }
  }

  ghost predicate Asks(d: Description, it: Item) {
    it.Link? &&
    match it.kind
    case Regular => it.target in d.dependsOn && !it.optional
    case Milestone => it.target in d.dependsMS && !it.optional
    case WaitsFor => it.target in d.waitsFor && !it.optional
    case PreparedBy => it.target in d.preparedBy && !it.optional
    case Before => it.target in if it.optional then d.beforeOptional else d.before
    case After => it.target in if it.optional then d.afterOptional else d.after
    case Soft => false
  }

  /** A directory of the description holds an entry for the line, or cannot be read. */
  ghost predicate AsksByDir(d: Description, it: Item) {
    match it
    case UnreadableDir => Unreadable in d.dependsOnD + d.dependsMSD + d.waitsForD + d.preparedByD
    case Link(target, kind, optional) =>
      !optional &&
      match kind
      case Regular => InDirs(d.dependsOnD, target)
      case Milestone => InDirs(d.dependsMSD, target)
      case WaitsFor => InDirs(d.waitsForD, target)
      case PreparedBy => InDirs(d.preparedByD, target)
      case _ => false
  }

  ghost predicate InDirs(dirs: seq<Dir>, n: Name) {
    exists dir :: dir in dirs && dir.Entries? && n in dir.names
  }

  lemma {:induction false} DirLinksMember(dirs: seq<Dir>, k: DepType, it: Item)
    ensures it in DirLinks(dirs, k) <==>
            if it.Link? then it.kind == k && !it.optional && InDirs(dirs, it.target) else Unreadable in dirs
  {
    if dirs != [] {
      hide Links;
      DirLinksMember(dirs[1..], k, it);
      if dirs[0].Entries? { LinksMember(dirs[0].names, k, false, it); }
      assert forall x :: x in dirs <==> x == dirs[0] || x in dirs[1..];
    }
  }

  lemma PlainMember(d: Description, it: Item)
    ensures it in PlainItems(d) <==> Asks(d, it)
  {
    hide Links;
    LinksMember(d.dependsOn, Regular, false, it);
    LinksMember(d.dependsMS, Milestone, false, it);
    LinksMember(d.waitsFor, WaitsFor, false, it);
    LinksMember(d.preparedBy, PreparedBy, false, it);
    LinksMember(d.before, Before, false, it);
    LinksMember(d.after, After, false, it);
    LinksMember(d.beforeOptional, Before, true, it);
    LinksMember(d.afterOptional, After, true, it);
  }

  /** The lines of a description are those its lists ask for, each with its kind, and the entries of
      its directories; a directory that cannot be read is a line too. */
  lemma ItemsMember(d: Description, it: Item)
    ensures it in Items(d) <==> Asks(d, it) || AsksByDir(d, it)
    ensures !HasDirs(d) ==> !AsksByDir(d, it)
  {
    hide DirLinks, PlainItems, Asks, InDirs;
    PlainMember(d, it);
    DirLinksMember(d.dependsOnD, Regular, it);
    DirLinksMember(d.dependsMSD, Milestone, it);
    DirLinksMember(d.waitsForD, WaitsFor, it);
    DirLinksMember(d.preparedByD, PreparedBy, it);
    if !HasDirs(d) { NothingInDirs(d, it); }
  }

  lemma NothingInDirs(d: Description, it: Item)
    requires !HasDirs(d)
    ensures !AsksByDir(d, it)
  {
  }

  // ----- the order of the lines -----

  /** When a line is loaded: hard dependencies first, optional lines last. */
  function Rank(it: Item): nat {
    if it.UnreadableDir? then 8
    else
      match it.kind
      case Regular => 0
      case Milestone => 1
      case WaitsFor => 2
      case PreparedBy => 3
      case Before => if it.optional then 6 else 4
      case After => if it.optional then 7 else 5
      case Soft => 8
  }

  ghost predicate Ranked(items: seq<Item>, top: nat) {
    && (forall i :: 0 <= i < |items| ==> Rank(items[i]) <= top)
    && forall i, j :: 0 <= i < j < |items| ==> Rank(items[i]) <= Rank(items[j])
  }

  lemma RankedAppend(items: seq<Item>, more: seq<Item>, top: nat, r: nat)
    requires Ranked(items, top) && top <= r && forall i :: 0 <= i < |more| ==> Rank(more[i]) == r
    ensures Ranked(items + more, r)
  {
  }

  /** The lists are loaded in this order, and the directories after all of them. */
  lemma ItemsInOrder(d: Description)
    ensures Ranked(PlainItems(d), 7) && PlainItems(d) <= Items(d)
  {
    hide Ranked;
    var a := Links(d.dependsOn, Regular, false);
    assert Ranked([], 0) by { EmptyRanked(); }
    assert [] + a == a;
    RankedAppend([], a, 0, 0);
    var b := a + Links(d.dependsMS, Milestone, false);
    RankedAppend(a, Links(d.dependsMS, Milestone, false), 0, 1);
    var c := b + Links(d.waitsFor, WaitsFor, false);
    RankedAppend(b, Links(d.waitsFor, WaitsFor, false), 1, 2);
    var e := c + Links(d.preparedBy, PreparedBy, false);
    RankedAppend(c, Links(d.preparedBy, PreparedBy, false), 2, 3);
    var f := e + Links(d.before, Before, false);
    RankedAppend(e, Links(d.before, Before, false), 3, 4);
    var g := f + Links(d.after, After, false);
    RankedAppend(f, Links(d.after, After, false), 4, 5);
    var h := g + Links(d.beforeOptional, Before, true);
    RankedAppend(g, Links(d.beforeOptional, Before, true), 5, 6);
    RankedAppend(h, Links(d.afterOptional, After, true), 6, 7);
  }

  lemma EmptyRanked()
    ensures Ranked([], 0)
  {
  }

  /** The links of a description without directories, leaving out the ordering ones, are the
      wanted ones. */
  lemma WantedIsDescribed(d: Description, x: Dep)
    requires !HasDirs(d)
    ensures x in Wanted(d) <==> x.kind != Before && FromItem(Items(d), x)
  {
    hide Items;
    if x in Wanted(d) {
      var it := Link(x.to, x.kind, x.kind == After && x.to !in d.after);
      ItemsMember(d, it);
      assert it in Items(d);
    }
    if x.kind != Before && FromItem(Items(d), x) {
      var it :| it in Items(d) && it.Link? && x == Dep(it.target, it.kind);
      ItemsMember(d, it);
    }
  }

  /** After a successful reload without directories, the list matches the description exactly
      when no optional `after` target had to be skipped. */
  lemma ReloadSettles(fs: Files, st: State, name: Name, d: Description)
    requires name in st.services && !Matches(st.services[name].deps, d) && !HasDirs(d)
    requires UpdateDependencies(fs, st, name, d, false).1
    ensures Matches(DepsAfter(fs, st, name, d, false), d) <==>
            forall n :: n in d.afterOptional ==> Dep(n, After) in Installed(fs, st, name, d)
  {
    hide LoadDependencies, Items, Added, Befores, NonBefores, Wanted, TakeOut;
    ReloadOutcome(fs, st, name, d, false);
    ReloadHalves(fs, st, name, d, false);
    var added := Installed(fs, st, name, d);
    AddedDescribed(fs, TakeOut(st, name), name, Items(d));
    forall x ensures x in NonBefores(added) <==> x in added && x.kind != Before { SplitMember(added, x); }
    forall x | x in NonBefores(added) ensures x in Wanted(d) { WantedIsDescribed(d, x); }
    if forall n :: n in d.afterOptional ==> Dep(n, After) in added {
      forall x | x in Wanted(d) ensures x in NonBefores(added) {
        WantedIsAdded(d, x, added);
      }
    } else {
      var n :| n in d.afterOptional && Dep(n, After) !in added;
      OptionalIsWanted(d, n);
    }
  }

  lemma OptionalIsWanted(d: Description, n: Name)
    requires n in d.afterOptional
    ensures Dep(n, After) in Wanted(d)
  {
  }

  lemma WantedIsAdded(d: Description, x: Dep, added: seq<Dep>)
    requires !HasDirs(d) && x in Wanted(d)
    requires forall it :: it in Items(d) ==> it.Link? && (it.optional || Dep(it.target, it.kind) in added)
    requires forall n :: n in d.afterOptional ==> Dep(n, After) in added
    ensures x in added && x.kind != Before
  {
    hide Items;
    WantedIsDescribed(d, x);
    var it :| it in Items(d) && it.Link? && x == Dep(it.target, it.kind);
    ItemsMember(d, it);
  }

  /** Reloading the same description again changes nothing once the list matches it. */
  lemma ReloadAgain(fs: Files, st: State, name: Name, d: Description, overflow: bool)
    requires name in st.services && !Matches(st.services[name].deps, d) && !HasDirs(d)
    requires UpdateDependencies(fs, st, name, d, false).1
    requires forall n :: n in d.afterOptional ==> Dep(n, After) in Installed(fs, st, name, d)
    ensures
      var once := UpdateDependencies(fs, st, name, d, false).0;
      UpdateDependencies(fs, once, name, d, overflow) == (once, true)
  {
    hide Matches, Installed, LoadDependencies;
    ReloadSettles(fs, st, name, d);
  }

  /** The list that tearing down and building again would give. */
  ghost function Rebuilt(fs: Files, st: State, name: Name, d: Description): seq<Dep>
    requires name in st.services
  {
    LoadDependencies(fs, TakeOut(st, name), name, Items(d)).0.services[name].deps
  }

  lemma RebuiltIs(fs: Files, st: State, name: Name, d: Description)
    requires name in st.services
    ensures Rebuilt(fs, st, name, d) == Befores(st.services[name].deps) + Installed(fs, st, name, d)
  {
    hide LoadDependencies, Items, Added, Befores, TakeOutFrom;
    TakeOutDeps(st, name);
    DepsAppended(fs, TakeOut(st, name), name, Items(d));
  }

  /** Line `i` puts in an ordering link that the service does not have. */
  ghost predicate NewBefore(fs: Files, st: State, name: Name, d: Description, i: nat)
    requires name in st.services && i < |Items(d)|
  {
    && PutsIn(fs, TakeOut(st, name), name, Items(d), i) && Items(d)[i].Link? && Items(d)[i].kind == Before
    && Dep(Items(d)[i].target, Before) !in st.services[name].deps
  }

  /** Where the fast path is taken, tearing the list down and building it again would give the same
      links other than `before` ones; and the same links altogether exactly when no line asks for a
      new `before` link. */
  lemma FastPathIsSafe(fs: Files, st: State, name: Name, d: Description)
    requires name in st.services && Matches(st.services[name].deps, d)
    requires forall x :: x in st.services[name].deps ==> x.to in st.services
    requires AllLoad(fs, st, name, d)
    ensures
      var was, rebuilt := st.services[name].deps, Rebuilt(fs, st, name, d);
      && Elements(NonBefores(rebuilt)) == Elements(NonBefores(was))
      && (Elements(rebuilt) == Elements(was) <==> forall i: nat :: i < |Items(d)| ==> !NewBefore(fs, st, name, d, i))
  {
    hide Matches, Items, Added, Befores, NonBefores, Wanted, TakeOut, PutsIn, Rebuilt, AllLoad;
    var was, added, rebuilt := st.services[name].deps, Installed(fs, st, name, d), Rebuilt(fs, st, name, d);
    RebuiltIs(fs, st, name, d);
    forall x ensures x in NonBefores(added) <==> x in NonBefores(was) { SameNonBefores(fs, st, name, d, x); }
    SplitConcat(Befores(was), added);
    SplitTwice(was);
    Trimmed(NonBefores(added));
    forall x ensures x in rebuilt <==> x in was || (x in added && x.kind == Before) {
      SplitMember(was, x);
      SplitMember(added, x);
    }
    NewBeforeIff(fs, st, name, d);
    if Elements(rebuilt) == Elements(was) {
      forall x | x in added && x.kind == Before ensures x in was { assert x in Elements(rebuilt); }
    }
  }

  lemma SameNonBefores(fs: Files, st: State, name: Name, d: Description, x: Dep)
    requires name in st.services && Matches(st.services[name].deps, d) && AllLoad(fs, st, name, d)
    requires forall y :: y in st.services[name].deps ==> y.to in st.services
    ensures x in NonBefores(Installed(fs, st, name, d)) <==> x in NonBefores(st.services[name].deps)
  {
    hide LoadDependencies, Items, Added, Befores, NonBefores, Wanted, TakeOutFrom;
    var was, added := st.services[name].deps, Installed(fs, st, name, d);
    TakeOutDeps(st, name);
    AddedDescribed(fs, TakeOut(st, name), name, Items(d));
    SplitMember(added, x);
    SplitMember(was, x);
    WantedIsDescribed(d, x);
    assert x in NonBefores(was) <==> x in Elements(NonBefores(was));
    if x in NonBefores(was) {
      var it :| it in Items(d) && it.Link? && x == Dep(it.target, it.kind);
    }
  }

  lemma NewBeforeIff(fs: Files, st: State, name: Name, d: Description)
    requires name in st.services
    ensures
      (forall x :: x in Installed(fs, st, name, d) && x.kind == Before ==> x in st.services[name].deps) <==>
      forall i: nat :: i < |Items(d)| ==> !NewBefore(fs, st, name, d, i)
  {
    hide Items, Added, TakeOut, PutsIn;
    var items, torn := Items(d), TakeOut(st, name);
    if i: nat :| i < |items| && NewBefore(fs, st, name, d, i) {
      PutsInIsLink(fs, torn, name, items, i);
      var x := Dep(items[i].target, Before);
      AddedIffPutsIn(fs, torn, name, items, x);
      assert LineOf(items, i, x);
    }
    if x :| x in Installed(fs, st, name, d) && x.kind == Before && x !in st.services[name].deps {
      AddedIffPutsIn(fs, torn, name, items, x);
      var i: nat :| i < |items| && PutsIn(fs, torn, name, items, i) && LineOf(items, i, x);
      assert NewBefore(fs, st, name, d, i);
    }
  }

  /** A reload that goes the slow way and succeeds keeps every old `before` link, described or not,
      and puts the described ones in once more. */
  lemma BeforesPileUp(fs: Files, st: State, name: Name, d: Description)
    requires name in st.services && !Matches(st.services[name].deps, d)
    requires UpdateDependencies(fs, st, name, d, false).1
    ensures
      var was, after := st.services[name].deps, DepsAfter(fs, st, name, d, false);
      && Befores(after) == Befores(was) + Befores(Installed(fs, st, name, d))
      && forall it :: it in Items(d) && it.Link? && it.kind == Before && !it.optional ==>
           multiset(after)[Dep(it.target, Before)] > multiset(was)[Dep(it.target, Before)]
  {
    hide LoadDependencies, Items, Added, Befores, NonBefores, TakeOut, Matches;
    ReloadOutcome(fs, st, name, d, false);
    ReloadHalves(fs, st, name, d, false);
    var was, after, added := st.services[name].deps, DepsAfter(fs, st, name, d, false), Installed(fs, st, name, d);
    AddedDescribed(fs, TakeOut(st, name), name, Items(d));
    forall it | it in Items(d) && it.Link? && it.kind == Before && !it.optional
      ensures multiset(after)[Dep(it.target, Before)] > multiset(was)[Dep(it.target, Before)]
    {
      var x := Dep(it.target, Before);
      BeforeCount(was, x);
      assert x in multiset(added);
    }
  }

  lemma BeforeCount(s: seq<Dep>, x: Dep)
    requires x.kind == Before
    ensures multiset(Befores(s))[x] == multiset(s)[x]
  {
    hide Befores, NonBefores;
    SplitCounts(s);
    SplitMember(s, x);
    assert x !in multiset(NonBefores(s));
  }

  // ----- the failing cases, at inputs -----

  function Bare(dependsOn: seq<Name>, before: seq<Name>): Description {
    Description(dependsOn, [], [], [], before, [], [], [], [], [], [], [])
  }

  lemma BareItems(dependsOn: seq<Name>, before: seq<Name>)
    ensures Items(Bare(dependsOn, before)) == Links(dependsOn, Regular, false) + Links(before, Before, false)
  {
    assert Links([], Milestone, false) == [] && Links([], WaitsFor, false) == [] && Links([], PreparedBy, false) == [];
    assert Links([], After, false) == [] && Links([], After, true) == [] && Links([], Before, true) == [];
  }

  lemma BareReload(fs: Files, st: State, s: Name, x: Name, y: Name)
    requires s in st.services && x in st.services && y in st.services
    ensures AllLoad(fs, st, s, Bare([y], [x])) && Installed(fs, st, s, Bare([y], [x])) == [Dep(y, Regular), Dep(x, Before)]
  {
    hide LoadDependencies, Befores, TakeOutFrom, PutIn, Items;
    var d, torn := Bare([y], [x]), TakeOut(st, s);
    BareItems([y], [x]);
    assert Items(d) == [Link(y, Regular, false), Link(x, Before, false)];
    TakeOutDeps(st, s);
    LoadedTargetsAppend(fs, torn, s, Items(d));
    PutInDeps(torn, s, AsDeps(Items(d)));
    DepsAppended(fs, torn, s, Items(d));
    TwoAsDeps(Items(d)[0], Items(d)[1]);
    Prefixed(torn.services[s].deps, AsDeps(Items(d)), Installed(fs, st, s, d));
  }

  lemma TwoAsDeps(a: Item, b: Item)
    requires a.Link? && b.Link?
    ensures AsDeps([a, b]) == [Dep(a.target, a.kind), Dep(b.target, b.kind)]
  {
    assert [a, b][1..] == [b] && [b][1..] == [];
    assert AsDeps([b]) == [Dep(b.target, b.kind)];
  }

  lemma Prefixed(a: seq<Dep>, b: seq<Dep>, c: seq<Dep>)
    requires a + b == a + c
    ensures b == c
  {
    assert (a + b)[|a|..] == b && (a + c)[|a|..] == c;
  }

  /** An overflow leaves the `before` link that the reload put in. */
  lemma OverflowLeavesBefore(fs: Files, st: State, s: Name, x: Name, y: Name)
    requires s in st.services && x in st.services && y in st.services && st.services[s].deps == []
    ensures !UpdateDependencies(fs, st, s, Bare([y], [x]), true).1
    ensures DepsAfter(fs, st, s, Bare([y], [x]), true) == [Dep(x, Before)]
  {
    hide UpdateDependencies, AllLoad, Installed, Matches;
    WantsMore([], Bare([y], [x]), y);
    BareReload(fs, st, s, x, y);
    ReloadOutcome(fs, st, s, Bare([y], [x]), true);
    var a := [Dep(y, Regular), Dep(x, Before)];
    assert a[1..] == [Dep(x, Before)] && a[1..][1..] == [];
    assert Befores(a[1..]) == [Dep(x, Before)] && Befores(a) == [] + Befores(a[1..]);
  }

  /** A `before` link that has not changed is there twice after a reload of something else. */
  lemma ReloadDoublesBefore(fs: Files, st: State, s: Name, x: Name, y: Name)
    requires s in st.services && x in st.services && y in st.services && st.services[s].deps == [Dep(x, Before)]
    ensures UpdateDependencies(fs, st, s, Bare([y], [x]), false).1
    ensures DepsAfter(fs, st, s, Bare([y], [x]), false) == [Dep(x, Before), Dep(y, Regular), Dep(x, Before)]
  {
    hide UpdateDependencies, AllLoad, Installed, Matches;
    var was := [Dep(x, Before)];
    assert was[1..] == [];
    assert Befores(was) == was && NonBefores(was) == [];
    WantsNew(was, Bare([y], [x]), y);
    BareReload(fs, st, s, x, y);
    ReloadOutcome(fs, st, s, Bare([y], [x]), false);
  }

  lemma WantsNew(deps: seq<Dep>, d: Description, y: Name)
    requires NonBefores(deps) == [] && y in d.dependsOn
    ensures !Matches(deps, d)
  {
    assert Dep(y, Regular) in Wanted(d);
  }

  /** The fast path is taken although the description asks for a new `before` link. */
  lemma FastPathSkipsBefore(fs: Files, st: State, s: Name, x: Name)
    requires s in st.services && x in st.services && st.services[s].deps == []
    ensures UpdateDependencies(fs, st, s, Bare([], [x]), false) == (st, true)
    ensures Rebuilt(fs, st, s, Bare([], [x])) == [Dep(x, Before)]
  {
    hide LoadDependencies, PutIn, Items;
    var d := Bare([], [x]);
    assert Elements(NonBefores([])) == {} && Wanted(d) == {};
    assert TakeOut(st, s) == st;
    BareItems([], [x]);
    assert Items(d) == [Link(x, Before, false)];
    LoadedTargetsAppend(fs, st, s, Items(d));
    assert Items(d)[1..] == [];
    assert AsDeps(Items(d)) == [Dep(x, Before)];
    PutInDeps(st, s, AsDeps(Items(d)));
  }

  /** A dependency that cannot be loaded leaves the links put in before it. */
  lemma LoadErrorLeavesLink(fs: Files, st: State, s: Name, y: Name, z: Name)
    requires s in st.services && y in st.services && st.services[s].deps == []
    requires z !in st.services && z !in st.loading && fs(z).Missing? && st.curDepth < MAX_DEP_DEPTH
    ensures !UpdateDependencies(fs, st, s, Bare([y, z], []), false).1
    ensures DepsAfter(fs, st, s, Bare([y, z], []), false) == [Dep(y, Regular)]
  {
    hide Matches, Extends, Items;
    var d := Bare([y, z], []);
    WantsMore([], d, y);
    assert TakeOut(st, s) == st;
    BareItems([y, z], []);
    var items := [Link(y, Regular, false), Link(z, Regular, false)];
    assert Items(d) == items;
    var linked := AddDep(st, s, Dep(y, Regular));
    assert items[1..] == [Link(z, Regular, false)];
    assert LoadService(fs, linked, z) == (linked, NotFound);
    assert LoadDependencies(fs, linked, s, items[1..]) == (linked, NotFound);
    assert LoadDependencies(fs, st, s, items) == (linked, NotFound);
    assert NonBefores([]) == [];
  }

  // ----- cycles -----

  function AsDeps(items: seq<Item>): seq<Dep> {
    if items == [] then []
    else (if items[0].Link? then [Dep(items[0].target, items[0].kind)] else []) + AsDeps(items[1..])
  }

  ghost predicate AllLoaded(services: ServiceMap, items: seq<Item>) {
    forall it :: it in items ==> it.Link? && it.target in services
  }

  /** When every described target is in the set, loading only puts the described links in. */
  lemma {:induction false} LoadedTargetsAppend(fs: Files, st: State, name: Name, items: seq<Item>)
    requires name in st.services && AllLoaded(st.services, items)
    ensures LoadDependencies(fs, st, name, items) == (PutIn(st, name, AsDeps(items)), Loaded)
    decreases |items|
  {
    hide Extends;
    if items != [] {
      var d := Dep(items[0].target, items[0].kind);
      assert items[0] in items;
      var linked := AddDep(st, name, d);
      assert AllLoaded(linked.services, items[1..]);
      LoadedTargetsAppend(fs, linked, name, items[1..]);
      assert ([d] + AsDeps(items[1..]))[1..] == AsDeps(items[1..]);
    }
  }

  lemma {:induction false} AsDepsMember(items: seq<Item>, x: Dep)
    ensures x in AsDeps(items) <==> FromItem(items, x)
  {
    if items != [] {
      AsDepsMember(items[1..], x);
      assert forall it :: it in items <==> it == items[0] || it in items[1..];
      if FromItem(items[1..], x) {
        var it :| it in items[1..] && it.Link? && x == Dep(it.target, it.kind);
        assert it in items;
      }
      if FromItem(items, x) && !(items[0].Link? && x == Dep(items[0].target, items[0].kind)) {
        var it :| it in items && it.Link? && x == Dep(it.target, it.kind);
        assert it in items[1..];
      }
    }
  }

  /** A described target from which the service being reloaded can be reached. */
  ghost predicate LeadsBack(g: Graph, items: seq<Item>, name: Name) {
    exists it :: it in items && it.Link? && Reaches(g, it.target, name)
  }

  lemma OldTargetsDoNotLeadBack(services: ServiceMap, name: Name, x: Dep)
    requires name in services && Acyclic(SetGraph(services)) && x in services[name].deps
    ensures !Reaches(SetGraph(services), x.to, name)
  {
    var g := SetGraph(services);
    var i :| 0 <= i < |services[name].deps| && services[name].deps[i] == x;
    assert TargetNames(services[name].deps)[i] == x.to;
    forall p | WalkFromTo(g, p, x.to, name) ensures false {
      assert Hop(g, [name, x.to], 1);
      WalkJoin(g, [name, x.to], p);
      assert IsCycle(g, [name, x.to] + p[1..]);
    }
  }

  /** With all described targets in the set, a reload only changes the links of the service. */
  lemma ReloadRelinks(fs: Files, st: State, name: Name, d: Description)
    requires name in st.services && !Matches(st.services[name].deps, d) && AllLoaded(st.services, Items(d))
    ensures AllLoad(fs, st, name, d) && UpdateDependencies(fs, st, name, d, false).1
    ensures UpdateDependencies(fs, st, name, d, false).0.services ==
            st.services[name := st.services[name].(deps := Befores(st.services[name].deps) + AsDeps(Items(d)))]
  {
    hide Items, Matches, LoadDependencies, Befores, AsDeps, TakeOutFrom, PutIn;
    var torn := TakeOut(st, name);
    TakeOutDeps(st, name);
    assert AllLoaded(torn.services, Items(d));
    LoadedTargetsAppend(fs, torn, name, Items(d));
    PutInDeps(torn, name, AsDeps(Items(d)));
  }

  /** With all described targets in the set, a successful reload keeps the graph free of cycles
      exactly when no described target leads back to the service. */
  lemma ReloadAcyclicIff(fs: Files, st: State, name: Name, d: Description)
    requires name in st.services && !Matches(st.services[name].deps, d) && AllLoaded(st.services, Items(d))
    requires Acyclic(SetGraph(st.services))
    ensures
      var (st', ok) := UpdateDependencies(fs, st, name, d, false);
      ok && (Acyclic(SetGraph(st'.services)) <==> !LeadsBack(SetGraph(st.services), Items(d), name))
  {
    hide Items, Matches, Befores, Acyclic, UpdateDependencies, AsDeps;
    var g := SetGraph(st.services);
    var deps := Befores(st.services[name].deps) + AsDeps(Items(d));
    ReloadRelinks(fs, st, name, d);
    var st' := UpdateDependencies(fs, st, name, d, false).0;
    assert SetGraph(st'.services) == g[name := TargetNames(deps)];
    ReplaceAcyclicIff(g, name, TargetNames(deps));
    NewTargetsLeadBack(st.services, name, Items(d), deps);
  }

  lemma NewTargetsLeadBack(services: ServiceMap, name: Name, items: seq<Item>, deps: seq<Dep>)
    requires name in services && Acyclic(SetGraph(services))
    requires deps == Befores(services[name].deps) + AsDeps(items)
    ensures SomeReaches(SetGraph(services), TargetNames(deps), name) <==> LeadsBack(SetGraph(services), items, name)
  {
    hide Befores, Reaches, Acyclic;
    var g := SetGraph(services);
    if LeadsBack(g, items, name) {
      var it :| it in items && it.Link? && Reaches(g, it.target, name);
      AsDepsMember(items, Dep(it.target, it.kind));
      assert FromItem(items, Dep(it.target, it.kind));
      assert Dep(it.target, it.kind) in deps;
      var i :| 0 <= i < |deps| && deps[i] == Dep(it.target, it.kind);
      assert TargetNames(deps)[i] == it.target;
    }
    if SomeReaches(g, TargetNames(deps), name) {
      var t :| t in TargetNames(deps) && Reaches(g, t, name);
      var i :| 0 <= i < |deps| && TargetNames(deps)[i] == t;
      if i < |Befores(services[name].deps)| {
        SplitMember(services[name].deps, deps[i]);
        OldTargetsDoNotLeadBack(services, name, deps[i]);
      } else {
        AsDepsMember(items, deps[i]);
      }
    }
  }

  /** The dependency lines that the cycle check does not look at. */
  ghost predicate Unchecked(d: Description, it: Item) {
    it in Items(d) && it.Link? && it.target !in Collected(d)
  }

  /** They are ordering lines of the `before` kind, optional ones, and those of directories. */
  lemma UncheckedAre(d: Description, it: Item)
    requires Unchecked(d, it)
    ensures it.kind == Before || it.optional || AsksByDir(d, it)
    ensures !Asks(d, Link(it.target, Regular, false)) && !Asks(d, Link(it.target, Milestone, false)) && !Asks(d, Link(it.target, WaitsFor, false))
    ensures !Asks(d, Link(it.target, PreparedBy, false)) && !Asks(d, Link(it.target, After, false))
  {
    hide Items;
    ItemsMember(d, it);
  }

  /** So a reload that passes the cycle check closes a cycle exactly when a target named only
      under `before`, an optional list or a directory leads back to the service. */
  lemma CheckedReloadAcyclicIff(fs: Files, st: State, name: Name, d: Description)
    requires name in st.services && !Matches(st.services[name].deps, d) && AllLoaded(st.services, Items(d))
    requires Acyclic(SetGraph(st.services)) && !SomeReaches(SetGraph(st.services), Collected(d), name)
    ensures Acyclic(SetGraph(UpdateDependencies(fs, st, name, d, false).0.services)) <==>
            !exists it :: Unchecked(d, it) && Reaches(SetGraph(st.services), it.target, name)
  {
    hide Items, Reaches, Acyclic, Matches, Collected, UpdateDependencies;
    ReloadAcyclicIff(fs, st, name, d);
    var g := SetGraph(st.services);
    if LeadsBack(g, Items(d), name) {
      var it :| it in Items(d) && it.Link? && Reaches(g, it.target, name);
      assert Unchecked(d, it);
    }
  }

  /** The targets must be in the set: one that is loaded by the reload may bring in the link
      that closes a cycle, after the cycle check has passed. */
  lemma UnloadedTargetClosesCycle(fs: Files, st: State, svc: Name, x: Name, d: Description)
    requires svc in st.services && st.services[svc].deps == [] && x !in st.services
    requires x !in st.loading && st.curDepth < MAX_DEP_DEPTH
    requires fs(x) == Found([Link(svc, Regular, false)])
    requires d == Description([x], [], [], [], [], [], [], [], [], [], [], [])
    ensures !SomeReaches(SetGraph(st.services), Collected(d), svc)
    ensures
      var (st', ok) := UpdateDependencies(fs, st, svc, d, false);
      ok && HasCycle(SetGraph(st'.services))
  {
    hide Matches, LoadService, LoadDependencies, HasCycle, SomeReaches;
    UnloadedLeadsNowhere(st.services, svc, x, d);
    assert TakeOut(st, svc) == st;
    assert Items(d) == [Link(x, Regular, false)];
    LoadSafety.LoopIsLookedUp(fs, st, svc, x);
    LoadSafety.LookedUpSet(st, svc, x);
    LinkOne(fs, st, svc, x);
    WantsMore(st.services[svc].deps, d, x);
    TwoCycle(UpdateDependencies(fs, st, svc, d, false).0.services, svc, x);
  }

  lemma UnloadedLeadsNowhere(services: ServiceMap, svc: Name, x: Name, d: Description)
    requires svc in services && x !in services && d == Description([x], [], [], [], [], [], [], [], [], [], [], [])
    ensures !SomeReaches(SetGraph(services), Collected(d), svc)
  {
    var g := SetGraph(services);
    assert Collected(d) == [x];
    forall p | |p| > 1 && p[0] == x ensures !IsWalk(g, p) {
      assert !Hop(g, p, 1);
    }
  }

  lemma WantsMore(deps: seq<Dep>, d: Description, x: Name)
    requires deps == [] && x in d.dependsOn
    ensures !Matches(deps, d)
  {
    assert Dep(x, Regular) in Wanted(d);
  }

  lemma {:induction false} LinkOne(fs: Files, st: State, svc: Name, x: Name)
    requires svc in st.services && LoadService(fs, st, x).1.Loaded? && svc in LoadService(fs, st, x).0.services
    ensures LoadDependencies(fs, st, svc, [Link(x, Regular, false)]) ==
            (AddDep(LoadService(fs, st, x).0, svc, Dep(x, Regular)), Loaded)
  {
    hide LoadService, Extends;
    var items := [Link(x, Regular, false)];
    var linked := AddDep(LoadService(fs, st, x).0, svc, Dep(x, Regular));
    assert items[1..] == [];
    assert LoadDependencies(fs, linked, svc, []) == (linked, Loaded);
    assert LoadDependencies(fs, st, svc, items) == LoadDependencies(fs, linked, svc, items[1..]);
  }

  lemma TwoCycle(services: ServiceMap, a: Name, b: Name)
    requires a in services && b in services && a != b
    requires services[a].deps == [Dep(b, Regular)] && services[b].deps == [Dep(a, Regular)]
    ensures HasCycle(SetGraph(services))
  {
    var g := SetGraph(services);
    assert TargetNames(services[a].deps)[0] == b && TargetNames(services[b].deps)[0] == a;
    var c := [a, b, a];
    assert Hop(g, c, 1) && Hop(g, c, 2);
    assert IsCycle(g, c);
  }
}

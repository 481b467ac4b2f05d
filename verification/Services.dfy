/**
  Compose service graphs of one app project: reachability over declared
  dependencies, removal of services, and the order of pending init services.
 */
module Services {
  import opened Sequences

  type Name = string

  /** `depends_on` is absent, a list of names, or a mapping from names to conditions. */
  datatype DependsOn = Absent | Listed(names: seq<Name>) | Conditioned(entries: seq<(Name, string)>)

  /** `definition` is everything in the service that the reconciler never rewrites. */
  datatype Service = Service(isInit: bool, optional: bool, dependsOn: DependsOn, definition: string)

  /** Services in their JSON order; `order` lists the keys of `defs` once each. */
  datatype Compose = Compose(order: seq<Name>, defs: map<Name, Service>) {
    ghost predicate Valid() {
      Distinct(order) && ToSet(order) == defs.Keys
    }
  }

  function EntryNames(entries: seq<(Name, string)>): (names: seq<Name>)
    ensures |names| == |entries|
    ensures forall i :: 0 <= i < |names| ==> names[i] == entries[i].0
  {
    seq(|entries|, i requires 0 <= i < |entries| => entries[i].0)
  }

  function Dependencies(s: Service): seq<Name> {
    match s.dependsOn
    case Absent => []
    case Listed(names) => names
    case Conditioned(entries) => EntryNames(entries)
  }

  // ---- Dependency closure -------------------------------------------------

  /** A chain of declared dependencies that stays inside `c` and outside `excluded`. */
  ghost predicate Chain(c: Compose, excluded: set<Name>, path: seq<Name>) {
    && path != []
    && (forall i :: 0 <= i < |path| ==> path[i] in c.defs && path[i] !in excluded)
    && (forall i :: 0 <= i < |path| - 1 ==> path[i + 1] in Dependencies(c.defs[path[i]]))
  }

  ghost predicate ChainBetween(c: Compose, excluded: set<Name>, roots: seq<Name>, goal: Name, path: seq<Name>) {
    Chain(c, excluded, path) && path[0] in roots && path[|path| - 1] == goal
  }

  ghost predicate Reachable(c: Compose, excluded: set<Name>, roots: seq<Name>, goal: Name) {
    exists path :: ChainBetween(c, excluded, roots, goal, path)
  }

  ghost function Closure(c: Compose, roots: seq<Name>, excluded: set<Name>): (r: set<Name>)
    ensures r <= c.defs.Keys
  {
    set n | n in c.defs.Keys && Reachable(c, excluded, roots, n)
  }

  /** A set that holds the admissible roots and is closed under dependencies holds every chain. */
  lemma {:induction false} ClosedSetHoldsChain(c: Compose, excluded: set<Name>, closed: set<Name>, path: seq<Name>)
    requires Chain(c, excluded, path) && path[0] in closed
    requires forall n, d :: n in closed && n in c.defs && d in Dependencies(c.defs[n]) && d in c.defs && d !in excluded
               ==> d in closed
    ensures path[|path| - 1] in closed
  {
    if |path| > 1 {
      assert path[1] in Dependencies(c.defs[path[0]]);
      ClosedSetHoldsChain(c, excluded, closed, path[1..]);
    }
  }

  lemma ExtendChain(c: Compose, excluded: set<Name>, roots: seq<Name>, n: Name, d: Name)
    requires Reachable(c, excluded, roots, n)
    requires n in c.defs && d in Dependencies(c.defs[n]) && d in c.defs && d !in excluded
    ensures Reachable(c, excluded, roots, d)
  {
    var path :| ChainBetween(c, excluded, roots, n, path);
    assert ChainBetween(c, excluded, roots, d, path + [d]);
  }

  method ServiceClosure(c: Compose, roots: seq<Name>, excluded: set<Name>) returns (result: set<Name>)
    ensures result == Closure(c, roots, excluded)
  {
    var pending := roots;
    result := {};
    ClosureHoldsRoots(c, roots, excluded);
    while pending != []
      invariant result <= c.defs.Keys && result !! excluded
      invariant forall n :: n in result ==> Reachable(c, excluded, roots, n)
      invariant forall n :: n in pending && n in c.defs && n !in excluded ==> Reachable(c, excluded, roots, n)
      invariant forall r :: r in roots && r in c.defs && r !in excluded ==> r in result || r in pending
      invariant forall n, d :: n in result && d in Dependencies(c.defs[n]) && d in c.defs && d !in excluded
                  ==> d in result || d in pending
      decreases c.defs.Keys - result, |pending|
    {
      var last := |pending| - 1;
      var name := pending[last];
      assert forall n :: n in pending ==> n == name || n in pending[..last];
      pending := pending[..last];
      if name in result || name in excluded || name !in c.defs {
        continue;
      }
      forall d | d in Dependencies(c.defs[name]) && d in c.defs && d !in excluded
        ensures Reachable(c, excluded, roots, d)
      {
        ExtendChain(c, excluded, roots, name, d);
      }
      result := result + {name};
      pending := pending + Dependencies(c.defs[name]);
    }
    forall n | n in c.defs && Reachable(c, excluded, roots, n)
      ensures n in result
    {
      var path :| ChainBetween(c, excluded, roots, n, path);
      ClosedSetHoldsChain(c, excluded, result, path);
    }
  }

  /** Admissible roots belong to their closure, and the closure never leaves the admissible services. */
  lemma ClosureHoldsRoots(c: Compose, roots: seq<Name>, excluded: set<Name>)
    ensures forall r :: r in roots && r in c.defs && r !in excluded ==> r in Closure(c, roots, excluded)
    ensures Closure(c, roots, excluded) !! excluded
    ensures forall n, d :: n in Closure(c, roots, excluded) && d in Dependencies(c.defs[n]) && d in c.defs && d !in excluded
              ==> d in Closure(c, roots, excluded)
  {
    forall r | r in roots && r in c.defs && r !in excluded
      ensures Reachable(c, excluded, roots, r)
    {
      assert ChainBetween(c, excluded, roots, r, [r]);
    }
    forall n, d | n in Closure(c, roots, excluded) && d in Dependencies(c.defs[n]) && d in c.defs && d !in excluded
      ensures Reachable(c, excluded, roots, d)
    {
      ExtendChain(c, excluded, roots, n, d);
    }
  }

  // ---- Removing services --------------------------------------------------

  /** A dependency declaration that loses its last entry is dropped altogether. */
  function StripDependencies(d: DependsOn, removed: set<Name>): DependsOn {
    match d
    case Absent => Absent
    case Listed(names) =>
      var kept := Select(names, n => n !in removed);
      if kept == [] then Absent else Listed(kept)
    case Conditioned(entries) =>
      var kept := Select(entries, (e: (Name, string)) => e.0 !in removed);
      if kept == [] then Absent else Conditioned(kept)
  }

  function Strip(s: Service, removed: set<Name>): Service {
    s.(dependsOn := StripDependencies(s.dependsOn, removed))
  }

  function Without(c: Compose, removed: set<Name>): Compose {
    Compose(
      Select(c.order, n => n !in removed),
      map n | n in c.defs && n !in removed :: Strip(c.defs[n], removed))
  }

  method ComposeWithoutServices(c: Compose, removed: set<Name>) returns (result: Compose)
    requires c.Valid()
    ensures result == Without(c, removed)
    ensures result.Valid()
  {
    var keep := n => n !in removed;
    var order := Select(c.order, keep);
    var services := c.defs - removed;
    SelectMembers(c.order, keep);
    SelectDistinct(c.order, keep);
    assert forall n :: n in c.defs <==> n in ToSet(c.order);
    for i := 0 to |order|
      invariant services.Keys == c.defs.Keys - removed == ToSet(order)
      invariant forall n :: n in services ==>
        services[n] == if n in order[..i] then Strip(c.defs[n], removed) else c.defs[n]
    {
      var name := order[i];
      assert name in ToSet(order);
      services := services[name := Strip(services[name], removed)];
      assert order[..i + 1] == order[..i] + [name];
    }
    assert order[..|order|] == order;
    result := Compose(order, services);
  }

  lemma StripTwice(d: DependsOn, a: set<Name>, b: set<Name>)
    ensures StripDependencies(StripDependencies(d, a), b) == StripDependencies(d, a + b)
  {
    match d
    case Absent =>
    case Listed(names) =>
      SelectTwice(names, n => n !in a, n => n !in b, n => n !in a + b);
    case Conditioned(entries) =>
      SelectTwice(entries, (e: (Name, string)) => e.0 !in a, (e: (Name, string)) => e.0 !in b,
                  (e: (Name, string)) => e.0 !in a + b);
  }

  /** Removing services in two steps is removing their union. */
  lemma WithoutComposes(c: Compose, a: set<Name>, b: set<Name>)
    ensures Without(Without(c, a), b) == Without(c, a + b)
  {
    SelectTwice(c.order, n => n !in a, n => n !in b, n => n !in a + b);
    var once, both := Without(Without(c, a), b), Without(c, a + b);
    forall n | n in both.defs
      ensures n in once.defs && once.defs[n] == both.defs[n]
    {
      StripTwice(c.defs[n].dependsOn, a, b);
    }
    assert once.defs == both.defs;
  }

  lemma {:induction false} SelectEntryNames(entries: seq<(Name, string)>, removed: set<Name>)
    ensures EntryNames(Select(entries, (e: (Name, string)) => e.0 !in removed))
         == Select(EntryNames(entries), n => n !in removed)
  {
    if entries != [] {
      SelectEntryNames(entries[1..], removed);
      assert EntryNames(entries)[1..] == EntryNames(entries[1..]);
      var rest := Select(entries[1..], (e: (Name, string)) => e.0 !in removed);
      assert EntryNames([entries[0]] + rest) == [entries[0].0] + EntryNames(rest);
    }
  }

  /** What a removal leaves: the other services, in order, each with exactly its other dependencies. */
  lemma WithoutMeaning(c: Compose, removed: set<Name>)
    ensures Without(c, removed).defs.Keys == c.defs.Keys - removed
    ensures forall n :: n in c.defs && n !in removed ==>
      && Dependencies(Without(c, removed).defs[n]) == Select(Dependencies(c.defs[n]), d => d !in removed)
      && Without(c, removed).defs[n].(dependsOn := Absent) == c.defs[n].(dependsOn := Absent)
      && SameForm(c.defs[n].dependsOn, Without(c, removed).defs[n].dependsOn, removed)
  {
    forall n | n in c.defs && n !in removed
      ensures Dependencies(Without(c, removed).defs[n]) == Select(Dependencies(c.defs[n]), d => d !in removed)
      ensures SameForm(c.defs[n].dependsOn, Without(c, removed).defs[n].dependsOn, removed)
    {
      match c.defs[n].dependsOn
      case Absent =>
      case Listed(names) =>
        var kept := Select(names, d => d !in removed);
        SelectMembers(names, d => d !in removed);
        assert kept != [] ==> kept[0] in kept;
      case Conditioned(entries) =>
        SelectEntryNames(entries, removed);
        var kept := Select(entries, (e: (Name, string)) => e.0 !in removed);
        SelectMembers(entries, (e: (Name, string)) => e.0 !in removed);
        assert kept != [] ==> kept[0] in kept;
    }
  }

  /** A list stays a list and conditions stay with their names, but without any name left the key is gone. */
  ghost predicate SameForm(was: DependsOn, now: DependsOn, removed: set<Name>) {
    match was
    case Absent => now.Absent?
    case Listed(names) =>
      if forall d :: d in names ==> d in removed then now.Absent? else now.Listed?
    case Conditioned(entries) =>
      if forall e :: e in entries ==> e.0 in removed then now.Absent?
      else now.Conditioned? && forall e :: e in now.entries <==> e in entries && e.0 !in removed
  }

  // ---- Order of pending init services ---------------------------------------

  ghost function PendingInit(c: Compose, completed: set<Name>, skipped: set<Name>): set<Name> {
    set n | n in c.defs.Keys && c.defs[n].isInit && n !in completed && n !in skipped
  }

  /** Dependency walks from `a` to `b` that stay inside `within`; a single node is such a walk. */
  ghost predicate Walk(c: Compose, within: set<Name>, a: Name, b: Name, path: seq<Name>) {
    && path != [] && path[0] == a && path[|path| - 1] == b
    && (forall i :: 0 <= i < |path| ==> path[i] in within && path[i] in c.defs)
    && (forall i :: 0 <= i < |path| - 1 ==> path[i + 1] in Dependencies(c.defs[path[i]]))
  }

  ghost predicate Leads(c: Compose, within: set<Name>, a: Name, b: Name) {
    exists path :: Walk(c, within, a, b, path)
  }

  /** No pending service leads back to one of its own dependents. */
  ghost predicate Acyclic(c: Compose, within: set<Name>) {
    forall s, d :: s in within && s in c.defs && d in within && d in Dependencies(c.defs[s]) ==> !Leads(c, within, d, s)
  }

  ghost predicate Before(xs: seq<Name>, d: Name, i: int) {
    0 <= i <= |xs| && d in xs[..i]
  }

  /** Each direct pending dependency comes first unless it is on a cycle with its dependent. */
  ghost predicate DependencyFirst(c: Compose, pending: set<Name>, xs: seq<Name>) {
    forall i, d :: 0 <= i < |xs| && xs[i] in c.defs && d in pending && d in Dependencies(c.defs[xs[i]])
      ==> Before(xs, d, i) || Leads(c, pending, d, xs[i])
  }

  ghost predicate IsInitOrder(c: Compose, pending: set<Name>, xs: seq<Name>) {
    Distinct(xs) && ToSet(xs) == pending && DependencyFirst(c, pending, xs)
  }

  /** Each entry of the search's call stack is a dependency of the one below it. */
  ghost predicate Descending(c: Compose, stack: seq<Name>) {
    && (forall i :: 0 <= i < |stack| ==> stack[i] in c.defs)
    && (forall i :: 0 <= i < |stack| - 1 ==> stack[i + 1] in Dependencies(c.defs[stack[i]]))
  }

  /** Everything on the call stack leads to its top. */
  lemma StackLeadsToTop(c: Compose, pending: set<Name>, stack: seq<Name>)
    requires Descending(c, stack) && ToSet(stack) <= pending
    ensures forall d :: d in stack ==> Leads(c, pending, d, stack[|stack| - 1])
  {
    forall d | d in stack
      ensures Leads(c, pending, d, stack[|stack| - 1])
    {
      var i :| 0 <= i < |stack| && stack[i] == d;
      assert forall k :: i <= k < |stack| ==> stack[k] in ToSet(stack);
      assert Walk(c, pending, d, stack[|stack| - 1], stack[i..]);
    }
  }

  /** The depth-first search with its three mutable collections. */
  class InitSearch {
    const c: Compose
    const pending: set<Name>
    var visiting: set<Name>
    var visited: set<Name>
    var ordered: seq<Name>
    ghost var stack: seq<Name>

    ghost predicate Valid()
      reads this
    {
      && pending <= c.defs.Keys
      && visited == ToSet(ordered) && Distinct(ordered)
      && visiting == ToSet(stack)
      && visited <= pending && visiting <= pending && visited !! visiting
      && Descending(c, stack)
      && DependencyFirst(c, pending, ordered)
    }

    constructor (c: Compose, pending: set<Name>)
      requires pending <= c.defs.Keys
      ensures Valid() && this.c == c && this.pending == pending
      ensures visiting == {} && visited == {} && stack == []
    {
      this.c, this.pending := c, pending;
      visiting, visited, ordered, stack := {}, {}, [], [];
    }

    method Visit(name: Name)
      requires Valid()
      requires stack != [] ==> name in Dependencies(c.defs[stack[|stack| - 1]])
      modifies this
      ensures Valid() && stack == old(stack) && visiting == old(visiting)
      ensures old(visited) <= visited && old(ordered) <= ordered
      ensures name in pending ==> name in visited || name in visiting
      decreases pending - visiting - visited
    {
      if name in visited || name !in pending {
        return;
      }
      if name in visiting {
        return;
      }
      visiting := visiting + {name};
      stack := stack + [name];
      var dependencies := Dependencies(c.defs[name]);
      for k := 0 to |dependencies|
        invariant Valid() && stack == old(stack) + [name] && visiting == old(visiting) + {name}
        invariant old(visited) <= visited && old(ordered) <= ordered
        invariant forall d :: d in dependencies[..k] && d in pending ==> d in visited || d in visiting
      {
        assert dependencies[..k + 1] == dependencies[..k] + [dependencies[k]];
        assert name in old(pending - visiting - visited) && name !in pending - visiting - visited;
        Visit(dependencies[k]);
      }
      assert dependencies[..|dependencies|] == dependencies;
      Leave(name);
      assert stack == old(stack) && visiting == old(visiting);
    }

    /** All dependencies have been seen: the service goes next in the order. */
    method Leave(name: Name)
      requires Valid() && stack != [] && stack[|stack| - 1] == name && name !in stack[..|stack| - 1]
      requires forall d :: d in Dependencies(c.defs[name]) && d in pending ==> d in visited || d in visiting
      modifies this
      ensures Valid() && stack == old(stack)[..|old(stack)| - 1] && visiting == old(visiting) - {name}
      ensures visited == old(visited) + {name} && ordered == old(ordered) + [name]
    {
      StackLeadsToTop(c, pending, stack);
      OrderedGrows(c, pending, ordered, name);
      StackWithoutTop(stack);
      visiting := visiting - {name};
      stack := stack[..|stack| - 1];
      visited := visited + {name};
      ordered := ordered + [name];
    }
  }

  lemma StackWithoutTop(stack: seq<Name>)
    requires stack != [] && stack[|stack| - 1] !in stack[..|stack| - 1]
    ensures ToSet(stack[..|stack| - 1]) == ToSet(stack) - {stack[|stack| - 1]}
  {
    var last := |stack| - 1;
    assert stack == stack[..last] + [stack[last]];
  }

  lemma OrderedGrows(c: Compose, pending: set<Name>, xs: seq<Name>, name: Name)
    requires DependencyFirst(c, pending, xs)
    requires name in c.defs
    requires forall d :: d in Dependencies(c.defs[name]) && d in pending ==> d in xs || Leads(c, pending, d, name)
    ensures DependencyFirst(c, pending, xs + [name])
  {
    var ys := xs + [name];
    forall i, d | 0 <= i < |ys| && ys[i] in c.defs && d in pending && d in Dependencies(c.defs[ys[i]])
      ensures Before(ys, d, i) || Leads(c, pending, d, ys[i])
    {
      if i < |xs| {
        assert ys[..i] == xs[..i] && ys[i] == xs[i];
        assert Before(xs, d, i) || Leads(c, pending, d, xs[i]);
      } else {
        assert ys[..i] == xs;
      }
    }
  }

  method OrderedPendingInitServices(c: Compose, completed: set<Name>, skipped: set<Name>) returns (ordered: seq<Name>)
    requires c.Valid()
    ensures IsInitOrder(c, PendingInit(c, completed, skipped), ordered)
  {
    var pending := set n | n in c.defs.Keys && c.defs[n].isInit && n !in completed && n !in skipped;
    var search := new InitSearch(c, pending);
    for i := 0 to |c.order|
      invariant search.Valid() && search.c == c && search.pending == pending
      invariant search.stack == [] && search.visiting == {}
      invariant forall n :: n in c.order[..i] && n in pending ==> n in search.visited
    {
      assert c.order[..i + 1] == c.order[..i] + [c.order[i]];
      search.Visit(c.order[i]);
    }
    assert c.order[..|c.order|] == c.order;
    assert forall n :: n in pending ==> n in ToSet(c.order);
    ordered := search.ordered;
  }

  /** On an acyclic pending graph every init order is a topological order. */
  lemma AcyclicOrderIsTopological(c: Compose, pending: set<Name>, xs: seq<Name>)
    requires c.Valid() && pending <= c.defs.Keys
    requires IsInitOrder(c, pending, xs) && Acyclic(c, pending)
    ensures forall i, d :: 0 <= i < |xs| && d in pending && d in Dependencies(c.defs[xs[i]]) ==> Before(xs, d, i)
  {
    forall i, d | 0 <= i < |xs| && d in pending && d in Dependencies(c.defs[xs[i]])
      ensures Before(xs, d, i)
    {
      assert xs[i] in ToSet(xs);
    }
  }

  /** Only a cycle defeats dependency-first placement: with one, no order can place everything first. */
  lemma CycleDefeatsEveryOrder(c: Compose, pending: set<Name>, xs: seq<Name>, s: Name, d: Name)
    requires pending <= c.defs.Keys && Distinct(xs) && ToSet(xs) == pending
    requires s in pending && d in pending && d in Dependencies(c.defs[s]) && Leads(c, pending, d, s)
    ensures exists i, e :: 0 <= i < |xs| && e in pending && e in Dependencies(c.defs[xs[i]]) && !Before(xs, e, i)
  {
    var path :| Walk(c, pending, d, s, path);
    assert s in ToSet(xs);
    var i :| 0 <= i < |xs| && xs[i] == s;
    if Before(xs, d, i) && forall k, e :: 0 <= k < |xs| && e in pending && e in Dependencies(c.defs[xs[k]]) ==> Before(xs, e, k) {
      var j :| 0 <= j < i && xs[j] == d;
      var at := WalkDescends(c, pending, xs, path);
      assert false;
    }
  }

  /** If dependencies always come first, a walk's end is placed no later than its start. */
  lemma {:induction false} WalkDescends(c: Compose, pending: set<Name>, xs: seq<Name>, path: seq<Name>) returns (at: (nat, nat))
    requires pending <= c.defs.Keys && Distinct(xs) && ToSet(xs) == pending
    requires path != [] && Walk(c, pending, path[0], path[|path| - 1], path)
    requires forall i, e :: 0 <= i < |xs| && e in pending && e in Dependencies(c.defs[xs[i]]) ==> Before(xs, e, i)
    ensures at.1 <= at.0 < |xs| && xs[at.0] == path[0] && xs[at.1] == path[|path| - 1]
  {
    assert path[0] in ToSet(xs);
    var start :| 0 <= start < |xs| && xs[start] == path[0];
    if |path| == 1 {
      at := (start, start);
    } else {
      var rest := path[1..];
      assert Walk(c, pending, rest[0], rest[|rest| - 1], rest);
      var tail := WalkDescends(c, pending, xs, rest);
      assert path[1] in Dependencies(c.defs[path[0]]);
      assert Before(xs, path[1], start);
      at := (start, tail.1);
    }
  }
}

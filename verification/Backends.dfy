/** Which Services routes and Ingresses point at (refs.go, gatewayapi.go:235-258, traefik.go:112-139). */
module Backends {
  import opened Common

  datatype BackendTarget = BackendTarget(namespace: string, name: string)

  /** An element of a route's backend list; an absent or non-string field reads as "", a non-integer as 0. */
  datatype Entry = NotAMap | Entry(group: string, kind: string, namespace: string, name: string, port: int, weight: int)

  datatype Rule = NotAMapRule | Rule(backendRefs: seq<Entry>)

  /** A Gateway API route, or a Traefik route whose `routes` and `services` are read the same way. */
  datatype Route = Route(namespace: string, rules: seq<Rule>)

  /** Ports and weights are 32 bits wide here. */
  datatype BackendRef = BackendRef(group: string, kind: string, namespace: string, name: string, port: int, weight: int)

  /** An Ingress backend is a service name, or None when it is not a service. */
  datatype Ingress = Ingress(namespace: string, defaultBackend: Option<Option<string>>,
                             rules: seq<Option<seq<Option<string>>>>)

  // ---- from objects to references -----------------------------------------------------------------

  /** Go's conversion of an int64 to int32. */
  function Int32(n: int): (r: int)
    ensures -0x8000_0000 <= r < 0x8000_0000 && (r - n) % 0x1_0000_0000 == 0
  {
    (n + 0x8000_0000) % 0x1_0000_0000 - 0x8000_0000
  }

  function RefOf(m: Entry): (r: BackendRef)
    requires m.Entry?
  {
    BackendRef(m.group, m.kind, m.namespace, m.name, Int32(m.port), Int32(m.weight))
  }

  function RefsOfEntries(entries: seq<Entry>): (refs: seq<BackendRef>) {
    if entries == [] then [] else
      var before, last := RefsOfEntries(entries[..|entries| - 1]), entries[|entries| - 1];
      if last.NotAMap? then before else before + [RefOf(last)]
  }

  function RefsOf(rules: seq<Rule>): (refs: seq<BackendRef>) {
    if rules == [] then [] else
      var before, last := RefsOf(rules[..|rules| - 1]), rules[|rules| - 1];
      if last.NotAMapRule? then before else before + RefsOfEntries(last.backendRefs)
  }

  /** The entries of a rule that are maps. */
  function EntryPositions(entries: seq<Entry>): (at: seq<int>) {
    if entries == [] then [] else
      EntryPositions(entries[..|entries| - 1]) + if entries[|entries| - 1].Entry? then [|entries| - 1] else []
  }

  /** Rule and entry numbers of a route's references. */
  function RefPositions(rules: seq<Rule>): (at: seq<(int, int)>) {
    if rules == [] then [] else
      var n, last := |rules| - 1, rules[|rules| - 1];
      RefPositions(rules[..n]) + if last.Rule? then Numbered(n, EntryPositions(last.backendRefs)) else []
  }

  function Numbered(n: int, at: seq<int>): (pairs: seq<(int, int)>) {
    seq(|at|, i requires 0 <= i < |at| => (n, at[i]))
  }

  predicate Before(a: (int, int), b: (int, int)) {
    a.0 < b.0 || (a.0 == b.0 && a.1 < b.1)
  }

  predicate IsEntryAt(rules: seq<Rule>, a: (int, int)) {
    && 0 <= a.0 < |rules| && rules[a.0].Rule?
    && 0 <= a.1 < |rules[a.0].backendRefs| && rules[a.0].backendRefs[a.1].Entry?
  }

  /** The reference repeats the entry's fields, numbers cut to 32 bits. */
  ghost predicate Repeats(r: BackendRef, m: Entry) {
    && m.Entry? && r.group == m.group && r.kind == m.kind && r.namespace == m.namespace && r.name == m.name
    && IsInt32Of(r.port, m.port) && IsInt32Of(r.weight, m.weight)
  }

  predicate IsInt32Of(r: int, n: int) {
    -0x8000_0000 <= r < 0x8000_0000 && (r - n) % 0x1_0000_0000 == 0
  }

  lemma {:induction false} RefsOfRule(entries: seq<Entry>)
    ensures var at, refs := EntryPositions(entries), RefsOfEntries(entries);
      && |at| == |refs|
      && (forall i :: 0 <= i < |at| ==> 0 <= at[i] < |entries| && Repeats(refs[i], entries[at[i]]))
      && (forall i, j :: 0 <= i < j < |at| ==> at[i] < at[j])
      && (forall k :: 0 <= k < |entries| && entries[k].Entry? ==> k in at)
  {
    if entries != [] {
      RefsOfRule(entries[..|entries| - 1]);
    }
  }

  lemma NumberedIn(n: int, at: seq<int>, a: (int, int))
    ensures a in Numbered(n, at) <==> a.0 == n && a.1 in at
  {
    if a.0 == n && a.1 in at {
      var i :| 0 <= i < |at| && at[i] == a.1;
      assert Numbered(n, at)[i] == a;
    }
  }

  ghost predicate AreRefsAt(refs: seq<BackendRef>, rules: seq<Rule>, at: seq<(int, int)>) {
    && |at| == |refs|
    && (forall i :: 0 <= i < |at| ==> IsEntryAt(rules, at[i]) && Repeats(refs[i], rules[at[i].0].backendRefs[at[i].1]))
    && (forall i, j :: 0 <= i < j < |at| ==> Before(at[i], at[j]))
  }

  lemma EarlierRefsStay(refs: seq<BackendRef>, rules: seq<Rule>, at: seq<(int, int)>, rule: Rule)
    requires AreRefsAt(refs, rules, at)
    ensures AreRefsAt(refs, rules + [rule], at)
  {
    assert forall i :: 0 <= i < |at| ==> IsEntryAt(rules, at[i]) && (rules + [rule])[at[i].0] == rules[at[i].0];
  }

  lemma RefsOfNewRule(rules: seq<Rule>, entries: seq<Entry>)
    ensures AreRefsAt(RefsOfEntries(entries), rules + [Rule(entries)], Numbered(|rules|, EntryPositions(entries)))
  {
    RefsOfRule(entries);
    assert (rules + [Rule(entries)])[|rules|] == Rule(entries);
  }

  lemma JoinRefs(a: seq<BackendRef>, b: seq<BackendRef>, rules: seq<Rule>, atA: seq<(int, int)>, atB: seq<(int, int)>)
    requires AreRefsAt(a, rules, atA) && AreRefsAt(b, rules, atB)
    requires forall i, j :: 0 <= i < |atA| && 0 <= j < |atB| ==> Before(atA[i], atB[j])
    ensures AreRefsAt(a + b, rules, atA + atB)
  {
  }

  lemma OneMoreRule(refs: seq<BackendRef>, rules: seq<Rule>, at: seq<(int, int)>, entries: seq<Entry>)
    requires AreRefsAt(refs, rules, at)
    ensures AreRefsAt(refs + RefsOfEntries(entries), rules + [Rule(entries)],
                      at + Numbered(|rules|, EntryPositions(entries)))
  {
    EarlierRefsStay(refs, rules, at, Rule(entries));
    RefsOfNewRule(rules, entries);
    assert forall i :: 0 <= i < |at| ==> IsEntryAt(rules, at[i]);
    JoinRefs(refs, RefsOfEntries(entries), rules + [Rule(entries)], at, Numbered(|rules|, EntryPositions(entries)));
  }

  lemma {:induction false} RefsAreInOrder(rules: seq<Rule>)
    ensures AreRefsAt(RefsOf(rules), rules, RefPositions(rules))
  {
    if rules != [] {
      var front, last := rules[..|rules| - 1], rules[|rules| - 1];
      RefsAreInOrder(front);
      assert rules == front + [last];
      if last.Rule? {
        OneMoreRule(RefsOf(front), front, RefPositions(front), last.backendRefs);
      } else {
        assert RefPositions(rules) == RefPositions(front);
      }
    }
  }

  lemma {:induction false} EntriesAreRefs(rules: seq<Rule>, a: (int, int))
    requires IsEntryAt(rules, a)
    ensures a in RefPositions(rules)
  {
    var n := |rules| - 1;
    if a.0 == n {
      LastEntries(rules, a);
    } else {
      EntriesAreRefs(rules[..n], a);
    }
  }

  lemma LastEntries(rules: seq<Rule>, a: (int, int))
    requires IsEntryAt(rules, a) && a.0 == |rules| - 1
    ensures a in RefPositions(rules)
  {
    var entries := rules[a.0].backendRefs;
    RefsOfRule(entries);
    NumberedIn(a.0, EntryPositions(entries), a);
    assert RefPositions(rules) == RefPositions(rules[..a.0]) + Numbered(a.0, EntryPositions(entries));
  }

  /** A route's references are its entries that are maps, all of them, rule by rule and in order. */
  lemma RefsAreEntries(rules: seq<Rule>)
    ensures AreRefsAt(RefsOf(rules), rules, RefPositions(rules))
    ensures forall a :: IsEntryAt(rules, a) ==> a in RefPositions(rules)
  {
    RefsAreInOrder(rules);
    forall a | IsEntryAt(rules, a) ensures a in RefPositions(rules) {
      EntriesAreRefs(rules, a);
    }
  }

  method CollectRouteBackends(u: Route) returns (out: seq<BackendRef>)
    ensures out == RefsOf(u.rules)
  {
    out := [];
    for i := 0 to |u.rules|
      invariant out == RefsOf(u.rules[..i])
    {
      assert u.rules[..i + 1][..i] == u.rules[..i];
      if u.rules[i].NotAMapRule? {
        continue;
      }
      var refs := u.rules[i].backendRefs;
      for j := 0 to |refs|
        invariant out == RefsOf(u.rules[..i]) + RefsOfEntries(refs[..j])
      {
        assert refs[..j + 1][..j] == refs[..j];
        if refs[j].NotAMap? {
          continue;
        }
        var m := refs[j];
        out := out + [BackendRef(m.group, m.kind, m.namespace, m.name, Int32(m.port), Int32(m.weight))];
      }
      assert refs[..|refs|] == refs;
    }
    assert u.rules[..|u.rules|] == u.rules;
  }

  // ---- from references to targets -----------------------------------------------------------------

  predicate IsService(r: BackendRef) {
    (r.kind == "" || r.kind == "Service") && r.name != ""
  }

  function TargetOf(namespace: string, r: BackendRef): (t: BackendTarget) {
    BackendTarget(if r.namespace == "" then namespace else r.namespace, r.name)
  }

  function Targets(namespace: string, refs: seq<BackendRef>): (ts: seq<BackendTarget>) {
    if refs == [] then [] else
      var before, last := Targets(namespace, refs[..|refs| - 1]), refs[|refs| - 1];
      if IsService(last) then before + [TargetOf(namespace, last)] else before
  }

  /** Where the named references are whose kind is Service or left out. */
  function ServicePositions(refs: seq<BackendRef>): (at: seq<int>) {
    if refs == [] then [] else
      var before, last := ServicePositions(refs[..|refs| - 1]), refs[|refs| - 1];
      if last.name != "" && last.kind in {"", "Service"} then before + [|refs| - 1] else before
  }

  /** The targets are the subsequence of exactly the named references whose kind is Service or left out; each
      has the reference's name and its namespace, or the object's own when that is left out. */
  lemma {:induction false} TargetsAreServiceRefs(namespace: string, refs: seq<BackendRef>)
    ensures var at, ts := ServicePositions(refs), Targets(namespace, refs);
      && |at| == |ts|
      && (forall i :: 0 <= i < |at| ==>
            && 0 <= at[i] < |refs| && refs[at[i]].name != "" && refs[at[i]].kind in {"", "Service"}
            && ts[i].name == refs[at[i]].name
            && ts[i].namespace == if refs[at[i]].namespace == "" then namespace else refs[at[i]].namespace)
      && (forall i, j :: 0 <= i < j < |at| ==> at[i] < at[j])
      && (forall k :: 0 <= k < |refs| && refs[k].name != "" && refs[k].kind in {"", "Service"} ==> k in at)
  {
    if refs != [] {
      TargetsAreServiceRefs(namespace, refs[..|refs| - 1]);
    }
  }

  lemma TargetsSnoc(namespace: string, refs: seq<BackendRef>, r: BackendRef)
    ensures Targets(namespace, refs + [r])
         == if IsService(r) then Targets(namespace, refs) + [TargetOf(namespace, r)] else Targets(namespace, refs)
  {
    assert (refs + [r])[..|refs|] == refs;
  }

  lemma EntryStep(namespace: string, before: seq<BackendRef>, entries: seq<Entry>, j: nat)
    requires j < |entries|
    ensures Targets(namespace, before + RefsOfEntries(entries[..j + 1]))
         == Targets(namespace, before + RefsOfEntries(entries[..j]))
            + if entries[j].Entry? && IsService(RefOf(entries[j])) then [TargetOf(namespace, RefOf(entries[j]))] else []
  {
    assert entries[..j + 1][..j] == entries[..j];
    var sofar := RefsOfEntries(entries[..j]);
    if entries[j].Entry? {
      TargetsSnoc(namespace, before + sofar, RefOf(entries[j]));
      assert before + (sofar + [RefOf(entries[j])]) == before + sofar + [RefOf(entries[j])];
    }
  }

  lemma RuleStep(rules: seq<Rule>, i: nat)
    requires i < |rules|
    ensures RefsOf(rules[..i + 1])
         == RefsOf(rules[..i]) + if rules[i].Rule? then RefsOfEntries(rules[i].backendRefs) else []
  {
    assert rules[..i + 1][..i] == rules[..i];
  }

  /** The inner loop. */
  method AddServices(namespace: string, out: seq<BackendTarget>, entries: seq<Entry>, ghost before: seq<BackendRef>)
      returns (out2: seq<BackendTarget>)
    requires out == Targets(namespace, before)
    ensures out2 == Targets(namespace, before + RefsOfEntries(entries))
  {
    out2 := out;
    assert before + [] == before;
    for j := 0 to |entries|
      invariant out2 == Targets(namespace, before + RefsOfEntries(entries[..j]))
    {
      EntryStep(namespace, before, entries, j);
      if entries[j].NotAMap? {
        continue;
      }
      var m := entries[j];
      if m.kind != "" && m.kind != "Service" {
        continue;
      }
      if m.name == "" {
        continue;
      }
      out2 := out2 + [BackendTarget(if m.namespace == "" then namespace else m.namespace, m.name)];
    }
    assert entries[..|entries|] == entries;
  }

  /** The second traversal of a route sees the same references as the first. */
  method RouteBackends(u: Route) returns (out: seq<BackendTarget>)
    ensures out == Targets(u.namespace, RefsOf(u.rules))
  {
    out := [];
    for i := 0 to |u.rules|
      invariant out == Targets(u.namespace, RefsOf(u.rules[..i]))
    {
      RuleStep(u.rules, i);
      if u.rules[i].NotAMapRule? {
        assert RefsOf(u.rules[..i]) + [] == RefsOf(u.rules[..i]);
        continue;
      }
      out := AddServices(u.namespace, out, u.rules[i].backendRefs, RefsOf(u.rules[..i]));
    }
    assert u.rules[..|u.rules|] == u.rules;
  }

  /** An Ingress's backends as references without a namespace. */
  function ServiceRef(svc: Option<string>): (r: BackendRef) {
    BackendRef("", "Service", "", if svc.Some? then svc.value else "", 0, 0)
  }

  function PathRefs(paths: seq<Option<string>>): (refs: seq<BackendRef>) {
    seq(|paths|, i requires 0 <= i < |paths| => ServiceRef(paths[i]))
  }

  function RuleRefs(rules: seq<Option<seq<Option<string>>>>): (refs: seq<BackendRef>) {
    if rules == [] then [] else
      var last := rules[|rules| - 1];
      RuleRefs(rules[..|rules| - 1]) + if last.Some? then PathRefs(last.value) else []
  }

  function IngressRefs(ing: Ingress): (refs: seq<BackendRef>) {
    (if ing.defaultBackend.Some? then [ServiceRef(ing.defaultBackend.value)] else []) + RuleRefs(ing.rules)
  }

  /** The closure `add`. */
  method Add(namespace: string, out: seq<BackendTarget>, svc: Option<string>, ghost refs: seq<BackendRef>)
      returns (out2: seq<BackendTarget>)
    requires out == Targets(namespace, refs)
    ensures out2 == Targets(namespace, refs + [ServiceRef(svc)])
  {
    TargetsSnoc(namespace, refs, ServiceRef(svc));
    out2 := out;
    if svc.Some? && svc.value != "" {
      out2 := out + [BackendTarget(namespace, svc.value)];
    }
  }

  lemma PathRefsSnoc(refs: seq<BackendRef>, paths: seq<Option<string>>, j: nat)
    requires j < |paths|
    ensures refs + PathRefs(paths[..j + 1]) == refs + PathRefs(paths[..j]) + [ServiceRef(paths[j])]
  {
    assert PathRefs(paths[..j + 1]) == PathRefs(paths[..j]) + [ServiceRef(paths[j])];
  }

  method AddPaths(namespace: string, out: seq<BackendTarget>, paths: seq<Option<string>>, ghost refs: seq<BackendRef>)
      returns (out2: seq<BackendTarget>)
    requires out == Targets(namespace, refs)
    ensures out2 == Targets(namespace, refs + PathRefs(paths))
  {
    out2 := out;
    assert refs + PathRefs(paths[..0]) == refs;
    for j := 0 to |paths|
      invariant out2 == Targets(namespace, refs + PathRefs(paths[..j]))
    {
      PathRefsSnoc(refs, paths, j);
      out2 := Add(namespace, out2, paths[j], refs + PathRefs(paths[..j]));
    }
    assert paths[..|paths|] == paths;
  }

  lemma RuleRefsSnoc(first: seq<BackendRef>, rules: seq<Option<seq<Option<string>>>>, i: nat)
    requires i < |rules|
    ensures first + RuleRefs(rules[..i + 1])
         == first + RuleRefs(rules[..i]) + if rules[i].Some? then PathRefs(rules[i].value) else []
  {
    assert rules[..i + 1][..i] == rules[..i];
  }

  method IngressBackends(ing: Ingress) returns (out: seq<BackendTarget>)
    ensures out == Targets(ing.namespace, IngressRefs(ing))
  {
    out := [];
    ghost var first: seq<BackendRef> := [];
    if ing.defaultBackend.Some? {
      out := Add(ing.namespace, out, ing.defaultBackend.value, []);
      first := [ServiceRef(ing.defaultBackend.value)];
      assert [] + first == first;
    }
    assert first + RuleRefs(ing.rules[..0]) == first;
    for i := 0 to |ing.rules|
      invariant out == Targets(ing.namespace, first + RuleRefs(ing.rules[..i]))
    {
      RuleRefsSnoc(first, ing.rules, i);
      if ing.rules[i] == None {
        assert first + RuleRefs(ing.rules[..i]) + [] == first + RuleRefs(ing.rules[..i]);
        continue;
      }
      out := AddPaths(ing.namespace, out, ing.rules[i].value, first + RuleRefs(ing.rules[..i]));
    }
    assert ing.rules[..|ing.rules|] == ing.rules;
  }

  // ---- what an Ingress points at ------------------------------------------------------------------

  /** Number (-1, 0) is the default backend, (i, j) is path j of rule i. */
  predicate IsBackendAt(ing: Ingress, a: (int, int)) {
    if a.0 == -1 then a.1 == 0 && ing.defaultBackend.Some? else IsPathAt(ing.rules, a)
  }

  function BackendAt(ing: Ingress, a: (int, int)): (svc: Option<string>)
    requires IsBackendAt(ing, a)
  {
    if a.0 == -1 then ing.defaultBackend.value else ing.rules[a.0].value[a.1]
  }

  function UpTo(n: nat): (s: seq<int>) {
    seq(n, i => i)
  }

  function PathPositions(rules: seq<Option<seq<Option<string>>>>): (at: seq<(int, int)>) {
    if rules == [] then [] else
      var n, last := |rules| - 1, rules[|rules| - 1];
      PathPositions(rules[..n]) + if last.Some? then Numbered(n, UpTo(|last.value|)) else []
  }

  function BackendPositions(ing: Ingress): (at: seq<(int, int)>) {
    (if ing.defaultBackend.Some? then [(-1, 0)] else []) + PathPositions(ing.rules)
  }

  predicate IsPathAt(rules: seq<Option<seq<Option<string>>>>, a: (int, int)) {
    0 <= a.0 < |rules| && rules[a.0].Some? && 0 <= a.1 < |rules[a.0].value|
  }

  /** A reference to a service of the Ingress's own namespace, or to nothing. */
  predicate RefersTo(r: BackendRef, svc: Option<string>) {
    r.kind == "Service" && r.namespace == "" && r.name == if svc.Some? then svc.value else ""
  }

  lemma {:induction false} PathRefsAreInOrder(rules: seq<Option<seq<Option<string>>>>)
    ensures var at, refs := PathPositions(rules), RuleRefs(rules);
      && |at| == |refs|
      && (forall i :: 0 <= i < |at| ==> IsPathAt(rules, at[i]) && RefersTo(refs[i], rules[at[i].0].value[at[i].1]))
      && (forall i, j :: 0 <= i < j < |at| ==> Before(at[i], at[j]))
      && (forall a :: IsPathAt(rules, a) ==> a in at)
  {
    if rules != [] {
      var n, last := |rules| - 1, rules[|rules| - 1];
      PathRefsAreInOrder(rules[..n]);
      forall a | IsPathAt(rules, a) ensures a in PathPositions(rules) {
        if a.0 == n {
          assert UpTo(|last.value|)[a.1] == a.1;
          NumberedIn(n, UpTo(|last.value|), a);
        } else {
          assert IsPathAt(rules[..n], a);
        }
      }
    }
  }

  /** An Ingress refers to its default backend, if it has one, and then to the backend of every path of every
      rule, in order and each within the Ingress's own namespace. */
  lemma IngressRefsAreBackends(ing: Ingress)
    ensures var at, refs := BackendPositions(ing), IngressRefs(ing);
      && |at| == |refs|
      && (forall i :: 0 <= i < |at| ==> IsBackendAt(ing, at[i]) && RefersTo(refs[i], BackendAt(ing, at[i])))
      && (forall i, j :: 0 <= i < j < |at| ==> Before(at[i], at[j]))
      && (forall a :: IsBackendAt(ing, a) ==> a in at)
  {
    PathRefsAreInOrder(ing.rules);
    var at, refs := BackendPositions(ing), IngressRefs(ing);
    var first := if ing.defaultBackend.Some? then 1 else 0;
    forall i | first <= i < |at|
      ensures at[i] == PathPositions(ing.rules)[i - first] && refs[i] == RuleRefs(ing.rules)[i - first]
    {
    }
    forall a | IsBackendAt(ing, a) ensures a in at {
      if a.0 == -1 {
        assert at[0] == a;
      } else {
        assert IsPathAt(ing.rules, a);
      }
    }
  }

  // ---- without duplicates -------------------------------------------------------------------------

  function Distinct<T(==)>(s: seq<T>): (d: seq<T>) {
    if s == [] then [] else
      var before, last := Distinct(s[..|s| - 1]), s[|s| - 1];
      if last in s[..|s| - 1] then before else before + [last]
  }

  function FirstAt<T(==)>(s: seq<T>, x: T): (i: nat) {
    if s == [] then 0
    else if x in s[..|s| - 1] then FirstAt(s[..|s| - 1], x) else |s| - 1
  }

  lemma {:induction false} FirstAtIsFirst<T>(s: seq<T>, x: T)
    requires x in s
    ensures FirstAt(s, x) < |s| && s[FirstAt(s, x)] == x && x !in s[..FirstAt(s, x)]
  {
    var front := s[..|s| - 1];
    if x in front {
      FirstAtIsFirst(front, x);
      assert front[..FirstAt(front, x)] == s[..FirstAt(front, x)];
    }
  }

  lemma {:induction false} DistinctKeepsElements<T>(s: seq<T>, x: T)
    ensures x in Distinct(s) <==> x in s
  {
    if s != [] {
      DistinctKeepsElements(s[..|s| - 1], x);
      assert s == s[..|s| - 1] + [s[|s| - 1]];
    }
  }

  /** Distinct lists every element once, in the order of first occurrences. */
  lemma {:induction false} DistinctKeepsFirstOccurrences<T>(s: seq<T>, i: nat, j: nat)
    requires i < j < |Distinct(s)|
    ensures Distinct(s)[i] != Distinct(s)[j] && FirstAt(s, Distinct(s)[i]) < FirstAt(s, Distinct(s)[j])
  {
    var front, d := s[..|s| - 1], Distinct(s[..|s| - 1]);
    DistinctKeepsElements(front, d[i]);
    FirstAtIsFirst(front, d[i]);
    if j < |d| {
      DistinctKeepsElements(front, d[j]);
      DistinctKeepsFirstOccurrences(front, i, j);
    }
  }

  lemma DistinctSnoc<T>(s: seq<T>, i: nat)
    requires i < |s|
    ensures Distinct(s[..i + 1]) == if s[i] in s[..i] then Distinct(s[..i]) else Distinct(s[..i]) + [s[i]]
  {
    assert s[..i + 1][..i] == s[..i];
  }

  function Key(t: BackendTarget): (k: string) {
    t.namespace + "/" + t.name
  }

  function KeysOf(targets: seq<BackendTarget>): (ks: seq<string>) {
    seq(|targets|, i requires 0 <= i < |targets| => Key(targets[i]))
  }

  method BackendTargetsToKeys(targets: seq<BackendTarget>) returns (out: seq<string>)
    ensures out == Distinct(KeysOf(targets))
  {
    if |targets| == 0 {
      return [];
    }
    var seen: set<string> := {};
    out := [];
    for i := 0 to |targets|
      invariant out == Distinct(KeysOf(targets)[..i])
      invariant forall k :: k in seen <==> k in KeysOf(targets)[..i]
    {
      var k := Key(targets[i]);
      DistinctSnoc(KeysOf(targets), i);
      assert KeysOf(targets)[..i + 1] == KeysOf(targets)[..i] + [k];
      if k in seen {
        continue;
      }
      seen := seen + {k};
      out := out + [k];
    }
    assert KeysOf(targets)[..|targets|] == KeysOf(targets);
  }

  // ---- re-emitting the services -------------------------------------------------------------------

  datatype Service = Service(id: BackendTarget, body: string)

  /** A lister finds a service under its own namespace and name. */
  ghost predicate IsLister(services: map<BackendTarget, Service>) {
    forall t :: t in services ==> services[t].id == t
  }

  function Found(services: map<BackendTarget, Service>, targets: seq<BackendTarget>): (found: seq<Service>) {
    if targets == [] then [] else
      var before, last := Found(services, targets[..|targets| - 1]), targets[|targets| - 1];
      if last in services then before + [services[last]] else before
  }

  lemma FoundSnoc(services: map<BackendTarget, Service>, targets: seq<BackendTarget>, t: BackendTarget)
    ensures Found(services, targets + [t])
         == if t in services then Found(services, targets) + [services[t]] else Found(services, targets)
  {
    assert (targets + [t])[..|targets|] == targets;
  }

  lemma RefreshStep(services: map<BackendTarget, Service>, targets: seq<BackendTarget>, i: nat)
    requires i < |targets|
    ensures Found(services, Distinct(targets[..i + 1]))
         == Found(services, Distinct(targets[..i]))
            + if targets[i] in targets[..i] || targets[i] !in services then [] else [services[targets[i]]]
  {
    DistinctSnoc(targets, i);
    FoundSnoc(services, Distinct(targets[..i]), targets[i]);
  }

  /** The duplicate check is skipped for a single target, which cannot repeat. None is the nil lister. */
  method RefreshBackendServices(services: Option<map<BackendTarget, Service>>, targets: seq<BackendTarget>)
      returns (emitted: seq<Service>)
    ensures emitted == if services == None then [] else Found(services.value, Distinct(targets))
  {
    emitted := [];
    if services == None || |targets| == 0 {
      return;
    }
    var seen: Option<set<BackendTarget>> := if |targets| > 1 then Some({}) else None;
    for i := 0 to |targets|
      invariant seen.Some? <==> |targets| > 1
      invariant seen.Some? ==> forall t :: t in seen.value <==> t in targets[..i]
      invariant emitted == Found(services.value, Distinct(targets[..i]))
    {
      var t := targets[i];
      RefreshStep(services.value, targets, i);
      assert targets[..i + 1] == targets[..i] + [t];
      if seen.Some? {
        if t in seen.value {
          continue;
        }
        seen := Some(seen.value + {t});
      }
      if t !in services.value {
        continue;
      }
      emitted := emitted + [services.value[t]];
    }
    assert targets[..|targets|] == targets;
  }

  lemma {:induction false} FoundOnce(services: map<BackendTarget, Service>, d: seq<BackendTarget>)
    requires IsLister(services) && forall i, j :: 0 <= i < j < |d| ==> d[i] != d[j]
    ensures var found := Found(services, d);
      && (forall s :: s in found <==> s.id in d && s.id in services && services[s.id] == s)
      && (forall i, j :: 0 <= i < j < |found| ==> found[i].id != found[j].id)
  {
    if d != [] {
      var front, last := d[..|d| - 1], d[|d| - 1];
      FoundOnce(services, front);
      assert d == front + [last];
      assert last !in front;
    }
  }

  /** The found services have the targets at the ascending positions `at`. */
  predicate FoundAt(found: seq<Service>, d: seq<BackendTarget>, at: seq<int>) {
    && |at| == |found| && (forall i, j :: 0 <= i < j < |at| ==> at[i] < at[j])
    && forall i :: 0 <= i < |at| ==> 0 <= at[i] < |d| && d[at[i]] == found[i].id
  }

  lemma FoundOneMore(found: seq<Service>, d: seq<BackendTarget>, at: seq<int>, t: BackendTarget, s: Service)
    requires FoundAt(found, d, at)
    ensures FoundAt(found, d + [t], at)
    ensures s.id == t ==> FoundAt(found + [s], d + [t], at + [|d|])
  {
  }

  lemma {:induction false} FoundPositions(services: map<BackendTarget, Service>, d: seq<BackendTarget>)
      returns (at: seq<int>)
    requires IsLister(services)
    ensures FoundAt(Found(services, d), d, at)
  {
    at := [];
    if d != [] {
      var front, t := d[..|d| - 1], d[|d| - 1];
      at := FoundPositions(services, front);
      assert d == front + [t];
      FoundOneMore(Found(services, front), front, at, t, if t in services then services[t] else Service(t, ""));
      if t in services {
        at := at + [|front|];
      }
    }
  }

  /** Every existing service among the targets is emitted exactly once, in the order of first mention, and
      nothing else is. */
  lemma {:induction false} RefreshesEachOnce(services: map<BackendTarget, Service>, targets: seq<BackendTarget>)
    requires IsLister(services)
    ensures var emitted := Found(services, Distinct(targets));
      && (forall s :: s in emitted <==> s.id in targets && s.id in services && services[s.id] == s)
      && (forall i, j :: 0 <= i < j < |emitted| ==>
            emitted[i].id != emitted[j].id && FirstAt(targets, emitted[i].id) < FirstAt(targets, emitted[j].id))
  {
    var d := Distinct(targets);
    forall i, j | 0 <= i < j < |d| ensures d[i] != d[j] && FirstAt(targets, d[i]) < FirstAt(targets, d[j]) {
      DistinctKeepsFirstOccurrences(targets, i, j);
    }
    forall t ensures t in d <==> t in targets {
      DistinctKeepsElements(targets, t);
    }
    FoundOnce(services, Distinct(targets));
    var at := FoundPositions(services, d);
  }
}

/** The index on backends and the question it answers (refs.go:10-36, 130-150). */
module BackendIndex {
  import opened Common
  import opened Backends

  datatype Object = FromIngress(ing: Ingress) | FromRoute(route: Route)

  function TargetsOf(o: Object): (ts: seq<BackendTarget>) {
    match o
    case FromIngress(ing) => Targets(ing.namespace, IngressRefs(ing))
    case FromRoute(u) => Targets(u.namespace, RefsOf(u.rules))
  }

  /** An entry of a route's rule that names t: of kind Service or none, in its own or the route's namespace. */
  predicate Names(u: Route, m: Entry, t: BackendTarget) {
    && m.Entry? && m.kind in {"", "Service"} && m.name != "" && m.name == t.name
    && t.namespace == if m.namespace == "" then u.namespace else m.namespace
  }

  /** The object mentions t: an Ingress as one of its backends, a route as one of its entries. */
  ghost predicate Mentions(o: Object, t: BackendTarget) {
    match o
    case FromIngress(ing) =>
      t.namespace == ing.namespace && t.name != "" && exists a :: IsBackendAt(ing, a) && BackendAt(ing, a) == Some(t.name)
    case FromRoute(u) =>
      exists a :: IsEntryAt(u.rules, a) && Names(u, u.rules[a.0].backendRefs[a.1], t)
  }

  /** Reference k contributes target t. */
  predicate Contributes(namespace: string, refs: seq<BackendRef>, k: int, t: BackendTarget) {
    0 <= k < |refs| && IsService(refs[k]) && TargetOf(namespace, refs[k]) == t
  }

  lemma TargetFrom(namespace: string, refs: seq<BackendRef>, t: BackendTarget) returns (k: int)
    requires t in Targets(namespace, refs)
    ensures Contributes(namespace, refs, k, t)
  {
    TargetsAreServiceRefs(namespace, refs);
    var i :| 0 <= i < |Targets(namespace, refs)| && Targets(namespace, refs)[i] == t;
    k := ServicePositions(refs)[i];
  }

  lemma TargetTo(namespace: string, refs: seq<BackendRef>, t: BackendTarget, k: int)
    requires Contributes(namespace, refs, k, t)
    ensures t in Targets(namespace, refs)
  {
    TargetsAreServiceRefs(namespace, refs);
    var i :| 0 <= i < |ServicePositions(refs)| && ServicePositions(refs)[i] == k;
    assert Targets(namespace, refs)[i] == t;
  }

  lemma EntryContributes(u: Route, k: int, t: BackendTarget)
    requires 0 <= k < |RefPositions(u.rules)|
    ensures var a := RefPositions(u.rules)[k];
      IsEntryAt(u.rules, a)
      && (Names(u, u.rules[a.0].backendRefs[a.1], t) <==> Contributes(u.namespace, RefsOf(u.rules), k, t))
  {
    RefsAreEntries(u.rules);
  }

  lemma RouteMentions(u: Route, t: BackendTarget)
    ensures t in Targets(u.namespace, RefsOf(u.rules)) <==> Mentions(FromRoute(u), t)
  {
    var at, refs := RefPositions(u.rules), RefsOf(u.rules);
    RefsAreEntries(u.rules);
    if t in Targets(u.namespace, refs) {
      var k := TargetFrom(u.namespace, refs, t);
      EntryContributes(u, k, t);
    }
    if a :| IsEntryAt(u.rules, a) && Names(u, u.rules[a.0].backendRefs[a.1], t) {
      var k :| 0 <= k < |at| && at[k] == a;
      EntryContributes(u, k, t);
      TargetTo(u.namespace, refs, t, k);
    }
  }

  predicate NamesBackend(ing: Ingress, a: (int, int), t: BackendTarget)
    requires IsBackendAt(ing, a)
  {
    t.namespace == ing.namespace && t.name != "" && BackendAt(ing, a) == Some(t.name)
  }

  lemma BackendContributes(ing: Ingress, k: int, t: BackendTarget)
    requires 0 <= k < |BackendPositions(ing)|
    ensures var a := BackendPositions(ing)[k];
      IsBackendAt(ing, a) && (NamesBackend(ing, a, t) <==> Contributes(ing.namespace, IngressRefs(ing), k, t))
  {
    IngressRefsAreBackends(ing);
    var a := BackendPositions(ing)[k];
    assert RefersTo(IngressRefs(ing)[k], BackendAt(ing, a));
  }

  lemma IngressMentions(ing: Ingress, t: BackendTarget)
    ensures t in Targets(ing.namespace, IngressRefs(ing)) <==> Mentions(FromIngress(ing), t)
  {
    var at, refs := BackendPositions(ing), IngressRefs(ing);
    IngressRefsAreBackends(ing);
    if t in Targets(ing.namespace, refs) {
      var k := TargetFrom(ing.namespace, refs, t);
      BackendContributes(ing, k, t);
    }
    if a :| IsBackendAt(ing, a) && NamesBackend(ing, a, t) {
      var k :| 0 <= k < |at| && at[k] == a;
      BackendContributes(ing, k, t);
      TargetTo(ing.namespace, refs, t, k);
    }
  }

  /** The targets that are indexed and refreshed for an object are exactly those its fields mention. */
  lemma TargetsAreMentions(o: Object, t: BackendTarget)
    ensures t in TargetsOf(o) <==> Mentions(o, t)
  {
    match o
    case FromIngress(ing) => IngressMentions(ing, t);
    case FromRoute(u) => RouteMentions(u, t);
  }

  /** The key functions registered with the informers. */
  method BackendKeys(o: Object) returns (keys: seq<string>)
    ensures keys == Distinct(KeysOf(TargetsOf(o)))
  {
    var targets;
    match o {
      case FromIngress(ing) => targets := IngressBackends(ing);
      case FromRoute(u) => targets := RouteBackends(u);
    }
    keys := BackendTargetsToKeys(targets);
  }

  function IndexKeys(o: Object): (keys: seq<string>) {
    Distinct(KeysOf(TargetsOf(o)))
  }

  /** An informer's store: objects by id, and under each key the ids of the objects that have it. */
  datatype Indexer = Indexer(objects: map<string, Object>, index: map<string, set<string>>)

  const EMPTY := Indexer(map[], map[])

  function ByIndex(ix: Indexer, key: string): (ids: set<string>) {
    if key in ix.index then ix.index[key] else {}
  }

  /** Removing an object takes its id out under its old keys only. */
  function Remove(ix: Indexer, id: string): (ix2: Indexer) {
    if id !in ix.objects then ix else
      Indexer(ix.objects - {id},
              map key | key in ix.index :: if key in IndexKeys(ix.objects[id]) then ix.index[key] - {id} else ix.index[key])
  }

  function Put(ix: Indexer, id: string, o: Object): (ix2: Indexer) {
    var without := Remove(ix, id);
    Indexer(without.objects[id := o],
            map key | key in without.index.Keys + (set k | k in IndexKeys(o)) ::
              ByIndex(without, key) + if key in IndexKeys(o) then {id} else {})
  }

  datatype Change = Store(id: string, o: Object) | Delete(id: string)

  function After(changes: seq<Change>): (ix: Indexer) {
    if changes == [] then EMPTY else
      match changes[|changes| - 1]
      case Store(id, o) => Put(After(changes[..|changes| - 1]), id, o)
      case Delete(id) => Remove(After(changes[..|changes| - 1]), id)
  }

  /** What is stored: the last object under each id that was not deleted since. */
  function Stored(changes: seq<Change>): (objects: map<string, Object>) {
    if changes == [] then map[] else
      match changes[|changes| - 1]
      case Store(id, o) => Stored(changes[..|changes| - 1])[id := o]
      case Delete(id) => Stored(changes[..|changes| - 1]) - {id}
  }

  ghost predicate IsIndexed(ix: Indexer) {
    forall key, id :: id in ByIndex(ix, key) <==> id in ix.objects && key in IndexKeys(ix.objects[id])
  }

  lemma RemovedEntry(ix: Indexer, id: string, key: string)
    ensures ByIndex(Remove(ix, id), key)
         == if id in ix.objects && key in IndexKeys(ix.objects[id]) then ByIndex(ix, key) - {id} else ByIndex(ix, key)
  {
  }

  lemma RemoveKeepsEntry(ix: Indexer, id: string, key: string, other: string)
    requires other in ByIndex(ix, key) <==> other in ix.objects && key in IndexKeys(ix.objects[other])
    ensures var after := Remove(ix, id);
      other in ByIndex(after, key) <==> other in after.objects && key in IndexKeys(after.objects[other])
  {
    RemovedEntry(ix, id, key);
  }

  lemma RemoveKeepsIndex(ix: Indexer, id: string)
    requires IsIndexed(ix)
    ensures IsIndexed(Remove(ix, id))
  {
    var after := Remove(ix, id);
    forall key, other
      ensures other in ByIndex(after, key) <==> other in after.objects && key in IndexKeys(after.objects[other])
    {
      RemoveKeepsEntry(ix, id, key, other);
    }
  }

  lemma PutKeepsIndex(ix: Indexer, id: string, o: Object)
    requires IsIndexed(ix)
    ensures IsIndexed(Put(ix, id, o))
  {
    RemoveKeepsIndex(ix, id);
    var without, after := Remove(ix, id), Put(ix, id, o);
    forall key, other
      ensures other in ByIndex(after, key) <==> other in after.objects && key in IndexKeys(after.objects[other])
    {
      assert other in ByIndex(without, key) <==> other in without.objects && key in IndexKeys(without.objects[other]);
    }
  }

  /** The incrementally kept index is, after any changes, what a scan of the stored objects gives. */
  lemma {:induction false} IndexIsKept(changes: seq<Change>)
    ensures IsIndexed(After(changes)) && After(changes).objects == Stored(changes)
  {
    if changes != [] {
      var before := changes[..|changes| - 1];
      IndexIsKept(before);
      match changes[|changes| - 1]
      case Store(id, o) => PutKeepsIndex(After(before), id, o);
      case Delete(id) => RemoveKeepsIndex(After(before), id);
    }
  }

  // ---- ServiceReferenced --------------------------------------------------------------------------

  /** The informers that carry the index, each by the changes it has seen. Others answer no key. */
  datatype Refs = Refs(ingresses: Option<seq<Change>>, gateways: seq<seq<Change>>, traefik: seq<seq<Change>>)

  function Informers(refs: Refs): (infs: seq<seq<Change>>) {
    (if refs.ingresses.Some? then [refs.ingresses.value] else []) + refs.gateways + refs.traefik
  }

  /** One of the informers, of whichever group. */
  predicate IsInformer(refs: Refs, inf: seq<Change>) {
    refs.ingresses == Some(inf) || inf in refs.gateways || inf in refs.traefik
  }

  /** A scan: some stored object of some informer mentions t. */
  ghost predicate PointsAt(refs: Refs, t: BackendTarget) {
    exists inf, id :: IsInformer(refs, inf) && id in Stored(inf) && Mentions(Stored(inf)[id], t)
  }

  lemma InformersAreAll(refs: Refs, inf: seq<Change>)
    ensures inf in Informers(refs) <==> IsInformer(refs, inf)
  {
  }

  ghost predicate HasKey(refs: Refs, key: string) {
    exists inf :: inf in Informers(refs) && ByIndex(After(inf), key) != {}
  }

  method ServiceReferenced(refs: Refs, namespace: string, name: string) returns (r: bool)
    ensures r <==> HasKey(refs, namespace + "/" + name)
  {
    var key := namespace + "/" + name;
    if refs.ingresses.Some? && ByIndex(After(refs.ingresses.value), key) != {} {
      assert refs.ingresses.value in Informers(refs);
      return true;
    }
    for i := 0 to |refs.gateways|
      invariant forall k :: 0 <= k < i ==> ByIndex(After(refs.gateways[k]), key) == {}
    {
      if ByIndex(After(refs.gateways[i]), key) != {} {
        assert refs.gateways[i] in Informers(refs);
        return true;
      }
    }
    for i := 0 to |refs.traefik|
      invariant forall k :: 0 <= k < i ==> ByIndex(After(refs.traefik[k]), key) == {}
    {
      if ByIndex(After(refs.traefik[i]), key) != {} {
        assert refs.traefik[i] in Informers(refs);
        return true;
      }
    }
    return false;
  }

  /** The answer is a scan for any target with the same key text. */
  lemma KeyIsScanned(refs: Refs, key: string)
    ensures HasKey(refs, key) <==> exists t :: Key(t) == key && PointsAt(refs, t)
  {
    if HasKey(refs, key) {
      var inf :| inf in Informers(refs) && ByIndex(After(inf), key) != {};
      var id :| id in ByIndex(After(inf), key);
      InformersAreAll(refs, inf);
      IndexIsKept(inf);
      var t := TargetWithKey(After(inf).objects[id], key);
      TargetsAreMentions(After(inf).objects[id], t);
      assert PointsAt(refs, t);
    }
    if exists t :: Key(t) == key && PointsAt(refs, t) {
      var t :| Key(t) == key && PointsAt(refs, t);
      var inf, id :| IsInformer(refs, inf) && id in Stored(inf) && Mentions(Stored(inf)[id], t);
      InformersAreAll(refs, inf);
      IndexIsKept(inf);
      TargetsAreMentions(After(inf).objects[id], t);
      KeyOfTarget(After(inf).objects[id], t);
      assert id in ByIndex(After(inf), key);
    }
  }

  lemma KeyOfTarget(o: Object, t: BackendTarget)
    requires t in TargetsOf(o)
    ensures Key(t) in IndexKeys(o)
  {
    DistinctKeepsElements(KeysOf(TargetsOf(o)), Key(t));
    var i :| 0 <= i < |TargetsOf(o)| && TargetsOf(o)[i] == t;
    assert KeysOf(TargetsOf(o))[i] == Key(t);
  }

  lemma TargetWithKey(o: Object, key: string) returns (t: BackendTarget)
    requires key in IndexKeys(o)
    ensures t in TargetsOf(o) && Key(t) == key
  {
    DistinctKeepsElements(KeysOf(TargetsOf(o)), key);
    var i :| 0 <= i < |TargetsOf(o)| && KeysOf(TargetsOf(o))[i] == key;
    t := TargetsOf(o)[i];
  }

  // ---- when the answer is right -------------------------------------------------------------------

  /** The text "namespace/name" cannot be read in another way: no slash but, at most, a last one in the name. */
  predicate HasOneReading(t: BackendTarget) {
    '/' !in t.namespace && forall i :: 0 <= i < |t.name| - 1 ==> t.name[i] != '/'
  }

  lemma SlashesOf(t: BackendTarget, at: nat)
    requires HasOneReading(t) && at < |Key(t)| && Key(t)[at] == '/'
    ensures at == |t.namespace| || at == |Key(t)| - 1
  {
    assert Key(t)[at] in t.namespace || |t.namespace| <= at;
  }

  lemma OneReading(t: BackendTarget, u: BackendTarget)
    requires HasOneReading(t) && u.name != "" && Key(t) == Key(u)
    ensures t == u
  {
    var text, at := Key(t), |u.namespace|;
    assert text == u.namespace + "/" + u.name;
    SlashesOf(t, at);
    assert t.namespace == text[..at] == u.namespace && t.name == text[at + 1..] == u.name;
  }

  lemma TwoReadings(t: BackendTarget) returns (u: BackendTarget)
    requires !HasOneReading(t)
    ensures u != t && u.name != "" && Key(u) == Key(t)
  {
    var text := Key(t);
    if '/' in t.namespace {
      var i :| 0 <= i < |t.namespace| && t.namespace[i] == '/';
      u := BackendTarget(text[..i], text[i + 1..]);
      assert text == text[..i] + "/" + text[i + 1..];
    } else {
      var i :| 0 <= i < |t.name| - 1 && t.name[i] == '/';
      var at := |t.namespace| + 1 + i;
      u := BackendTarget(text[..at], text[at + 1..]);
      assert text == text[..at] + "/" + text[at + 1..];
    }
  }

  /** Targets always have a name. */
  lemma {:induction false} TargetsAreNamed(namespace: string, refs: seq<BackendRef>, t: BackendTarget)
    requires t in Targets(namespace, refs)
    ensures t.name != ""
  {
    if refs != [] && t in Targets(namespace, refs[..|refs| - 1]) {
      TargetsAreNamed(namespace, refs[..|refs| - 1], t);
    }
  }

  lemma PointedAtIsNamed(refs: Refs, t: BackendTarget)
    requires PointsAt(refs, t)
    ensures t.name != ""
  {
    var inf, id :| IsInformer(refs, inf) && id in Stored(inf) && Mentions(Stored(inf)[id], t);
    TargetsAreMentions(Stored(inf)[id], t);
    match Stored(inf)[id]
    case FromIngress(ing) => TargetsAreNamed(ing.namespace, IngressRefs(ing), t);
    case FromRoute(u) => TargetsAreNamed(u.namespace, RefsOf(u.rules), t);
  }

  /** The informers after one route with the single backend t. */
  function OnlyRoute(t: BackendTarget): (refs: Refs) {
    var route := Route(t.namespace, [Rule([Entry("", "Service", t.namespace, t.name, 80, 1)])]);
    Refs(None, [[Store("r", FromRoute(route))]], [])
  }

  lemma OnlyBackend(namespace: string, e: Entry)
    requires e.Entry? && IsService(RefOf(e))
    ensures TargetsOf(FromRoute(Route(namespace, [Rule([e])]))) == [TargetOf(namespace, RefOf(e))]
  {
    assert [e][..0] == [] && [Rule([e])][..0] == [] && [RefOf(e)][..0] == [];
    assert RefsOfEntries([e]) == [RefOf(e)];
    assert RefsOf([Rule([e])]) == [RefOf(e)];
    TargetsSnoc(namespace, [], RefOf(e));
    assert [] + [RefOf(e)] == [RefOf(e)];
  }

  lemma OnlyObject(id: string, o: Object, u: BackendTarget)
    ensures PointsAt(Refs(None, [[Store(id, o)]], []), u) <==> u in TargetsOf(o)
  {
    var inf := [Store(id, o)];
    assert inf[..0] == [];
    assert Stored(inf) == map[id := o];
    TargetsAreMentions(o, u);
    assert IsInformer(Refs(None, [inf], []), inf) && id in Stored(inf);
  }

  lemma OnlyRoutePoints(t: BackendTarget, u: BackendTarget)
    requires t.name != ""
    ensures PointsAt(OnlyRoute(t), u) <==> u == t
  {
    var e := Entry("", "Service", t.namespace, t.name, 80, 1);
    OnlyBackend(t.namespace, e);
    OnlyObject("r", FromRoute(Route(t.namespace, [Rule([e])])), u);
  }

  /** The index answers like a scan of all stored objects, whatever is stored, for exactly the services whose
      key text has one reading; a real Service is one, its namespace and name being free of slashes. */
  lemma ReferencedIsScan(t: BackendTarget)
    ensures (forall refs :: HasKey(refs, Key(t)) <==> PointsAt(refs, t)) <==> HasOneReading(t)
  {
    forall refs | HasOneReading(t) ensures HasKey(refs, Key(t)) <==> PointsAt(refs, t) {
      KeyIsScanned(refs, Key(t));
      if HasKey(refs, Key(t)) {
        var u :| Key(u) == Key(t) && PointsAt(refs, u);
        PointedAtIsNamed(refs, u);
        OneReading(t, u);
      }
    }
    if !HasOneReading(t) {
      var u := TwoReadings(t);
      OnlyRoutePoints(u, u);
      OnlyRoutePoints(u, t);
      KeyIsScanned(OnlyRoute(u), Key(t));
    }
  }

  /** After an object is stored, every service its event re-emits is one ServiceReferenced finds. */
  lemma RefreshedAreReferenced(refs: Refs, inf: seq<Change>, id: string, o: Object,
                               services: map<BackendTarget, Service>, s: Service)
    requires IsLister(services) && IsInformer(refs, inf + [Store(id, o)])
    requires s in Found(services, Distinct(TargetsOf(o)))
    ensures HasKey(refs, Key(s.id))
  {
    RefreshesEachOnce(services, TargetsOf(o));
    var now := inf + [Store(id, o)];
    assert now[..|inf|] == inf;
    assert o == Stored(now)[id];
    TargetsAreMentions(o, s.id);
    assert PointsAt(refs, s.id);
    KeyIsScanned(refs, Key(s.id));
  }
}

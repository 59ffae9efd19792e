/** Which optional APIs the cluster serves (gatewayapi.go:13-67, 260-276, traefik.go:13-66, 152-162). */
module Discovery {
  import opened Common
  import opened Ordering

  datatype GVR = GVR(group: string, version: string, resource: string)

  /** What the server answers for a group and version; absent when it answers with an error or nothing. */
  type Served = map<(string, string), seq<string>>

  /** One group and version asked for, with its rank and the resources it serves. */
  datatype Candidate = Candidate(group: string, version: string, rank: nat, resources: seq<string>)

  const GATEWAY_GROUP := "gateway.networking.k8s.io"
  const GATEWAY_RESOURCES := ["gateways", "gatewayclasses", "httproutes", "grpcroutes", "tlsroutes", "tcproutes"]
  const TRAEFIK_GROUPS := ["traefik.io", "traefik.containo.us"]
  const TRAEFIK_RESOURCES := ["ingressroutes", "ingressroutetcps", "ingressrouteudps"]

  function GatewayRank(version: string): (rank: nat) {
    if version == "v1" then 3 else if version == "v1beta1" then 2 else if version == "v1alpha2" then 1 else 0
  }

  function TraefikRank(group: string): (rank: nat) {
    if group == "traefik.io" then 2 else if group == "traefik.containo.us" then 1 else 0
  }

  // ---- choosing -----------------------------------------------------------------------------------

  /** The candidate that wins resource r when candidates are asked in this order. */
  function Chosen(cands: seq<Candidate>, r: string): (c: Option<Candidate>) {
    if cands == [] then None else
      var before, last := Chosen(cands[..|cands| - 1], r), cands[|cands| - 1];
      if r in last.resources && last.rank > (if before.Some? then before.value.rank else 0)
      then Some(last) else before
  }

  /** The winner serves the resource and has the highest rank of all that do. */
  lemma {:induction false} ChosenIsHighest(cands: seq<Candidate>, r: string)
    ensures Chosen(cands, r).Some? ==>
      var c := Chosen(cands, r).value;
      c in cands && r in c.resources && c.rank > 0 && forall d :: d in cands && r in d.resources ==> d.rank <= c.rank
    ensures Chosen(cands, r) == None ==> forall d :: d in cands && r in d.resources ==> d.rank == 0
  {
    if cands != [] {
      ChosenIsHighest(cands[..|cands| - 1], r);
      assert cands == cands[..|cands| - 1] + [cands[|cands| - 1]];
    }
  }

  type Best = map<string, GVR>

  /** The maps `best` and `rank` after some candidates. */
  ghost predicate Reflects(best: Best, rank: map<string, nat>, cands: seq<Candidate>, wanted: seq<string>) {
    && rank.Keys == best.Keys
    && forall r :: (r in best <==> r in wanted && Chosen(cands, r).Some?)
        && (r in best ==> best[r] == GVR(Chosen(cands, r).value.group, Chosen(cands, r).value.version, r)
                          && rank[r] == Chosen(cands, r).value.rank)
  }

  function RankOf(c: Option<Candidate>): (rank: nat) {
    if c.Some? then c.value.rank else 0
  }

  predicate SameWinner(a: Option<Candidate>, b: Option<Candidate>) {
    && (a.Some? <==> b.Some?)
    && (a.Some? ==> a.value.group == b.value.group && a.value.version == b.value.version && a.value.rank == b.value.rank)
  }

  /** What one more resource in the newest answer changes. */
  lemma OneMoreResource(cands: seq<Candidate>, c: Candidate, served: string, r: string)
    ensures var before, after := Chosen(cands + [c], r), Chosen(cands + [c.(resources := c.resources + [served])], r);
      SameWinner(after, if r == served && c.rank > RankOf(before) then Some(c) else before)
  {
    var more := c.(resources := c.resources + [served]);
    assert (cands + [c])[..|cands|] == cands && (cands + [more])[..|cands|] == cands;
  }

  /** So much for one turn of the loop. */
  lemma ReflectsOneMore(best: Best, rank: map<string, nat>, cands: seq<Candidate>, c: Candidate, served: string,
                        wanted: seq<string>)
    requires Reflects(best, rank, cands + [c], wanted)
    ensures var more := cands + [c.(resources := c.resources + [served])];
      if served in wanted && c.rank > (if served in rank then rank[served] else 0)
      then Reflects(best[served := GVR(c.group, c.version, served)], rank[served := c.rank], more, wanted)
      else Reflects(best, rank, more, wanted)
  {
    forall r
      ensures var before, after := Chosen(cands + [c], r), Chosen(cands + [c.(resources := c.resources + [served])], r);
        SameWinner(after, if r == served && c.rank > RankOf(before) then Some(c) else before)
    {
      OneMoreResource(cands, c, served, r);
    }
  }

  /** The inner loop over one answer's resources. Subresources contain a '/'; none is wanted. */
  method Consider(best: Best, rank: map<string, nat>, c: Candidate, wanted: seq<string>,
                  ghost cands: seq<Candidate>) returns (best2: Best, rank2: map<string, nat>)
    requires Reflects(best, rank, cands, wanted)
    ensures Reflects(best2, rank2, cands + [c], wanted)
  {
    best2, rank2 := best, rank;
    MissingAnswer(best, rank, c.(resources := []), wanted, cands);
    assert c.resources[..0] == [];
    for i := 0 to |c.resources|
      invariant rank2.Keys == best2.Keys
      invariant Reflects(best2, rank2, cands + [c.(resources := c.resources[..i])], wanted)
    {
      var r := c.resources[i];
      ReflectsOneMore(best2, rank2, cands, c.(resources := c.resources[..i]), r, wanted);
      assert c.resources[..i + 1] == c.resources[..i] + [r];
      if r !in wanted {
        continue;
      }
      if c.rank > (if r in rank2 then rank2[r] else 0) {
        best2 := best2[r := GVR(c.group, c.version, r)];
        rank2 := rank2[r := c.rank];
      }
    }
    assert c.resources[..|c.resources|] == c.resources;
  }

  /** An answer that is missing changes nothing. */
  lemma MissingAnswer(best: Best, rank: map<string, nat>, c: Candidate, wanted: seq<string>, cands: seq<Candidate>)
    requires Reflects(best, rank, cands, wanted) && c.resources == []
    ensures Reflects(best, rank, cands + [c], wanted)
  {
    assert (cands + [c])[..|cands|] == cands;
  }

  predicate ResourceLess(a: GVR, b: GVR) {
    StrLess(a.resource, b.resource)
  }

  /** `out` lists exactly what `pick` gives, in strictly increasing order of resource. */
  ghost predicate Lists(out: seq<GVR>, pick: string -> Option<GVR>) {
    && (forall i, j :: 0 <= i < j < |out| ==> StrLess(out[i].resource, out[j].resource))
    && (forall g :: g in out <==> pick(g.resource) == Some(g))
  }

  /** The tail of both functions: the values of `best`, in any order, sorted by resource. */
  method SortedValues(best: Best) returns (out: seq<GVR>)
    requires forall r :: r in best ==> best[r].resource == r
    ensures forall i, j :: 0 <= i < j < |out| ==> ResourceLess(out[i], out[j])
    ensures forall g :: g in out <==> g.resource in best && best[g.resource] == g
  {
    var todo := best.Keys;
    var values: seq<GVR> := [];
    while todo != {}
      invariant todo <= best.Keys
      invariant forall i, j :: 0 <= i < j < |values| ==> values[i].resource != values[j].resource
      invariant forall g :: g in values <==> g.resource in best.Keys - todo && best[g.resource] == g
      decreases todo
    {
      var r :| r in todo;
      values := values + [best[r]];
      todo := todo - {r};
    }
    SortsStrictly(values);
    forall g ensures g in SortBy(values, ResourceLess) <==> g in values {
      SortPermutes(values, ResourceLess);
      MemberOfPermutation(SortBy(values, ResourceLess), values, g);
    }
    var s := new Slice(values);
    s.Sort(ResourceLess);
    out := s.elems;
  }

  lemma SortsStrictly(values: seq<GVR>)
    requires forall i, j :: 0 <= i < j < |values| ==> values[i].resource != values[j].resource
    ensures var s := SortBy(values, ResourceLess);
      forall i, j :: 0 <= i < j < |s| ==> ResourceLess(s[i], s[j])
  {
    var s := SortBy(values, ResourceLess);
    forall x: GVR, y: GVR
      ensures ResourceLess(x, y) ==> !ResourceLess(y, x)
      ensures x in values && y in values && x != y ==> ResourceLess(x, y) || ResourceLess(y, x)
    {
      StrLessIsStrict(x.resource, y.resource);
    }
    forall x: GVR, y: GVR, z: GVR | ResourceLess(x, y) && ResourceLess(y, z) ensures ResourceLess(x, z) {
      StrLessIsTransitive(x.resource, y.resource, z.resource);
    }
    SortPermutes(values, ResourceLess);
    SortSorts(values, ResourceLess);
    KeysStayDistinct(values, s, (g: GVR) => g.resource);
    forall i, j | 0 <= i < j < |s| ensures ResourceLess(s[i], s[j]) {
      MemberOfPermutation(s, values, s[i]);
      MemberOfPermutation(s, values, s[j]);
    }
  }

  // ---- Gateway API --------------------------------------------------------------------------------

  function Answer(served: Served, group: string, version: string): (rs: seq<string>) {
    if (group, version) in served then served[(group, version)] else []
  }

  predicate Serves(served: Served, group: string, version: string, r: string) {
    r in Answer(served, group, version)
  }

  /** The highest version that serves r: v1, else v1beta1, else v1alpha2. */
  function GatewayPick(served: Served): (pick: string -> Option<GVR>) {
    (r: string) =>
      if r !in GATEWAY_RESOURCES then None
      else if Serves(served, "gateway.networking.k8s.io", "v1", r) then Some(GVR("gateway.networking.k8s.io", "v1", r))
      else if Serves(served, "gateway.networking.k8s.io", "v1beta1", r) then Some(GVR("gateway.networking.k8s.io", "v1beta1", r))
      else if Serves(served, "gateway.networking.k8s.io", "v1alpha2", r) then Some(GVR("gateway.networking.k8s.io", "v1alpha2", r))
      else None
  }

  function GatewayCandidate(served: Served, version: string): (c: Candidate) {
    Candidate(GATEWAY_GROUP, version, GatewayRank(version), Answer(served, GATEWAY_GROUP, version))
  }

  function GatewayCandidates(order: seq<string>, served: Served): (cands: seq<Candidate>) {
    seq(|order|, i requires 0 <= i < |order| => GatewayCandidate(served, order[i]))
  }

  /** Some iteration order over the map of versions. */
  ghost predicate IsIterationOrder(order: seq<string>) {
    forall v :: v in order <==> v == "v1" || v == "v1beta1" || v == "v1alpha2"
  }

  lemma CandidatesAreVersions(order: seq<string>, served: Served, v: string, d: Candidate)
    ensures v in order ==> GatewayCandidate(served, v) in GatewayCandidates(order, served)
    ensures d in GatewayCandidates(order, served) ==> d.version in order && d == GatewayCandidate(served, d.version)
  {
    var cands := GatewayCandidates(order, served);
    if v in order {
      var i :| 0 <= i < |order| && order[i] == v;
      assert cands[i] == GatewayCandidate(served, v);
    }
    if d in cands {
      var i :| 0 <= i < |cands| && cands[i] == d;
      assert order[i] in order;
    }
  }

  lemma Ranks()
    ensures GatewayRank("v1") == 3 && GatewayRank("v1beta1") == 2 && GatewayRank("v1alpha2") == 1
  {
  }

  /** The order in which versions are asked does not matter: the ranks decide. */
  lemma {:induction false} OrderDoesNotMatter(order: seq<string>, served: Served, r: string)
    requires IsIterationOrder(order) && r in GATEWAY_RESOURCES
    ensures var c, pick := Chosen(GatewayCandidates(order, served), r), GatewayPick(served)(r);
      && (c.Some? <==> pick.Some?)
      && (c.Some? ==> pick.value == GVR(c.value.group, c.value.version, r))
  {
    var c := Chosen(GatewayCandidates(order, served), r);
    ChosenIsHighest(GatewayCandidates(order, served), r);
    Ranks();
    forall v | v in order ensures Serves(served, GATEWAY_GROUP, v, r) ==> c.Some? && GatewayRank(v) <= c.value.rank {
      CandidatesAreVersions(order, served, v, GatewayCandidate(served, v));
      assert GatewayRank(v) > 0;
    }
    if c.Some? {
      CandidatesAreVersions(order, served, "", c.value);
    }
  }

  /** Whatever the iteration order over versions, the result is the one list of the best served versions. */
  method DiscoverGatewayAPI(order: seq<string>, served: Served) returns (out: seq<GVR>)
    requires IsIterationOrder(order)
    ensures Lists(out, GatewayPick(served))
  {
    var best: Best := map[];
    var rank: map<string, nat> := map[];
    for i := 0 to |order|
      invariant Reflects(best, rank, GatewayCandidates(order, served)[..i], GATEWAY_RESOURCES)
    {
      var v := order[i];
      ghost var done := GatewayCandidates(order, served)[..i];
      ghost var c := GatewayCandidates(order, served)[i];
      assert GatewayCandidates(order, served)[..i + 1] == done + [c];
      if (GATEWAY_GROUP, v) !in served {
        MissingAnswer(best, rank, c, GATEWAY_RESOURCES, done);
        continue;
      }
      best, rank := Consider(best, rank, Candidate(GATEWAY_GROUP, v, GatewayRank(v), served[(GATEWAY_GROUP, v)]),
                             GATEWAY_RESOURCES, done);
    }
    assert GatewayCandidates(order, served)[..|order|] == GatewayCandidates(order, served);
    forall r | r in GATEWAY_RESOURCES
      ensures r in best <==> GatewayPick(served)(r).Some?
      ensures r in best ==> GatewayPick(served)(r) == Some(best[r])
    {
      OrderDoesNotMatter(order, served, r);
    }
    out := SortedValues(best);
  }

  /** There is only one such list. */
  lemma {:induction false} ListsIsUnique(a: seq<GVR>, b: seq<GVR>, pick: string -> Option<GVR>)
    requires Lists(a, pick) && Lists(b, pick)
    ensures a == b
  {
    SortedSetsAgree(a, b);
  }

  lemma SameEmptiness(a: seq<GVR>, b: seq<GVR>)
    requires (a == [] || b == []) && forall g :: g in a <==> g in b
    ensures a == b
  {
    HoldsItsFirst(a);
    HoldsItsFirst(b);
  }

  lemma HoldsItsFirst(s: seq<GVR>)
    ensures s == [] || s[0] in s
  {
  }

  lemma FirstIsLeast(s: seq<GVR>, x: GVR)
    requires forall i, j :: 0 <= i < j < |s| ==> ResourceLess(s[i], s[j])
    requires x in s
    ensures x == s[0] || ResourceLess(s[0], x)
  {
    var i :| 0 <= i < |s| && s[i] == x;
  }

  lemma {:induction false} SortedSetsAgree(a: seq<GVR>, b: seq<GVR>)
    requires forall i, j :: 0 <= i < j < |a| ==> ResourceLess(a[i], a[j])
    requires forall i, j :: 0 <= i < j < |b| ==> ResourceLess(b[i], b[j])
    requires forall g :: g in a <==> g in b
    ensures a == b
  {
    if a == [] || b == [] {
      SameEmptiness(a, b);
    } else {
      FirstIsLeast(a, b[0]);
      FirstIsLeast(b, a[0]);
      StrLessIsStrict(a[0].resource, b[0].resource);
      assert a[0] == b[0];
      forall g ensures g in a[1..] <==> g in b[1..] {
        StrLessIsStrict(g.resource, g.resource);
        assert g in a <==> g == a[0] || g in a[1..];
        assert g in b <==> g == b[0] || g in b[1..];
        assert a[0] !in a[1..] && b[0] !in b[1..];
      }
      SortedSetsAgree(a[1..], b[1..]);
    }
  }

  // ---- Traefik ------------------------------------------------------------------------------------

  /** The newer group wins; within a group v1 wins over v1alpha1. */
  function TraefikPick(served: Served): (pick: string -> Option<GVR>) {
    (r: string) =>
      if r !in TRAEFIK_RESOURCES then None
      else if Serves(served, "traefik.io", "v1", r) then Some(GVR("traefik.io", "v1", r))
      else if Serves(served, "traefik.io", "v1alpha1", r) then Some(GVR("traefik.io", "v1alpha1", r))
      else if Serves(served, "traefik.containo.us", "v1", r) then Some(GVR("traefik.containo.us", "v1", r))
      else if Serves(served, "traefik.containo.us", "v1alpha1", r) then Some(GVR("traefik.containo.us", "v1alpha1", r))
      else None
  }

  function TraefikCandidate(served: Served, group: string, version: string): (c: Candidate) {
    Candidate(group, version, TraefikRank(group), Answer(served, group, version))
  }

  function TraefikCandidates(served: Served): (cands: seq<Candidate>) {
    [TraefikCandidate(served, "traefik.io", "v1")] + [TraefikCandidate(served, "traefik.io", "v1alpha1")]
    + [TraefikCandidate(served, "traefik.containo.us", "v1")] + [TraefikCandidate(served, "traefik.containo.us", "v1alpha1")]
  }

  lemma ChosenSnoc(cands: seq<Candidate>, last: Candidate, r: string)
    ensures Chosen(cands + [last], r)
         == if r in last.resources && last.rank > (if Chosen(cands, r).Some? then Chosen(cands, r).value.rank else 0)
            then Some(last) else Chosen(cands, r)
  {
    assert (cands + [last])[..|cands|] == cands;
  }

  lemma TraefikChoice(served: Served, r: string)
    requires r in TRAEFIK_RESOURCES
    ensures var c, pick := Chosen(TraefikCandidates(served), r), TraefikPick(served)(r);
      && (c.Some? <==> pick.Some?)
      && (c.Some? ==> pick.value == GVR(c.value.group, c.value.version, r))
  {
    var a, b := TraefikCandidate(served, "traefik.io", "v1"), TraefikCandidate(served, "traefik.io", "v1alpha1");
    var c := TraefikCandidate(served, "traefik.containo.us", "v1");
    var d := TraefikCandidate(served, "traefik.containo.us", "v1alpha1");
    assert [] + [a] == [a];
    ChosenSnoc([], a, r);
    ChosenSnoc([a], b, r);
    ChosenSnoc([a] + [b], c, r);
    ChosenSnoc([a] + [b] + [c], d, r);
  }

  method DiscoverTraefik(served: Served) returns (out: seq<GVR>)
    ensures Lists(out, TraefikPick(served))
  {
    var best: Best := map[];
    var rank: map<string, nat> := map[];
    ghost var done: seq<Candidate> := [];
    var versions := ["v1", "v1alpha1"];
    for i := 0 to |TRAEFIK_GROUPS|
      invariant Reflects(best, rank, done, TRAEFIK_RESOURCES) && done == TraefikCandidates(served)[..2 * i]
    {
      for j := 0 to |versions|
        invariant Reflects(best, rank, done, TRAEFIK_RESOURCES) && done == TraefikCandidates(served)[..2 * i + j]
      {
        var group, version := TRAEFIK_GROUPS[i], versions[j];
        ghost var c := TraefikCandidate(served, group, version);
        assert c == TraefikCandidates(served)[2 * i + j];
        if (group, version) in served {
          best, rank := Consider(best, rank, Candidate(group, version, TraefikRank(group), served[(group, version)]),
                                 TRAEFIK_RESOURCES, done);
        } else {
          MissingAnswer(best, rank, c, TRAEFIK_RESOURCES, done);
        }
        done := done + [c];
      }
    }
    assert TraefikCandidates(served)[..4] == TraefikCandidates(served);
    forall r | r in TRAEFIK_RESOURCES
      ensures r in best <==> TraefikPick(served)(r).Some?
      ensures r in best ==> TraefikPick(served)(r) == Some(best[r])
    {
      TraefikChoice(served, r);
    }
    out := SortedValues(best);
  }

  // ---- record kinds -------------------------------------------------------------------------------

  function KindFromResource(r: string): (kind: string) {
    match r
    case "gateways" => "Gateway"
    case "gatewayclasses" => "GatewayClass"
    case "httproutes" => "HTTPRoute"
    case "grpcroutes" => "GRPCRoute"
    case "tlsroutes" => "TLSRoute"
    case "tcproutes" => "TCPRoute"
    case _ => r
  }

  function TraefikKindFromResource(r: string): (kind: string) {
    match r
    case "ingressroutes" => "IngressRoute"
    case "ingressroutetcps" => "IngressRouteTCP"
    case "ingressrouteudps" => "IngressRouteUDP"
    case _ => r
  }
}

/** The kinds of a snapshot's sections, given what discovery returned. */
module DiscoveredKinds {
  import opened Common
  import opened Snapshots
  import opened SnapshotRepair
  import opened Discovery

  /** A number for each kind but the containers'. */
  function Number(kind: string): (n: int) {
    match kind
    case "Service" => 0
    case "EndpointSlice" => 1
    case "Ingress" => 2
    case "IngressClass" => 3
    case "Gateway" => 4
    case "GatewayClass" => 5
    case "HTTPRoute" => 6
    case "GRPCRoute" => 7
    case "TLSRoute" => 8
    case "TCPRoute" => 9
    case "IngressRoute" => 10
    case "IngressRouteTCP" => 11
    case "IngressRouteUDP" => 12
    case _ => -1
  }

  lemma GatewayNumbers(i: nat)
    requires i < 6
    ensures Number(KindFromResource(GATEWAY_RESOURCES[i])) == 4 + i
  {
    match i
    case 0 =>
    case 1 =>
    case 2 =>
    case 3 =>
    case 4 =>
    case _ =>
  }

  lemma TraefikNumbers(i: nat)
    requires i < 3
    ensures Number(TraefikKindFromResource(TRAEFIK_RESOURCES[i])) == 10 + i
  {
    match i
    case 0 =>
    case 1 =>
    case _ =>
  }

  /** The sections' kinds are pairwise different, with numbers from lo up to hi. */
  ghost predicate NumberedWithin(sections: seq<Section>, lo: int, hi: int) {
    && (forall i, j :: 0 <= i < j < |sections| ==> Number(sections[i].kind) != Number(sections[j].kind))
    && (forall i :: 0 <= i < |sections| ==> lo <= Number(sections[i].kind) < hi)
  }

  lemma NumbersOfConcat(a: seq<Section>, b: seq<Section>, lo: int, mid: int, hi: int)
    requires NumberedWithin(a, lo, mid) && NumberedWithin(b, mid, hi) && lo <= mid <= hi
    ensures NumberedWithin(a + b, lo, hi)
  {
  }

  /** One informer per discovered resource, in discovery's order. */
  ghost predicate FollowsDiscovery(ds: seq<Dynamic>, found: seq<GVR>, kindOf: string -> string) {
    |ds| == |found| && forall i :: 0 <= i < |ds| ==> ds[i].kind == kindOf(found[i].resource)
  }

  lemma FoundDiffer(found: seq<GVR>, pick: string -> Option<GVR>, i: nat, j: nat)
    requires Lists(found, pick) && i < j < |found|
    ensures found[i].resource != found[j].resource
  {
    Ordering.StrLessIsStrict(found[i].resource, found[j].resource);
  }

  lemma PicksWanted(found: seq<GVR>, pick: string -> Option<GVR>, wanted: seq<string>, i: nat)
    requires Lists(found, pick) && i < |found| && forall r :: pick(r).Some? ==> r in wanted
    ensures found[i].resource in wanted
  {
    assert found[i] in found;
  }

  lemma FoundSections(ds: seq<Dynamic>, found: seq<GVR>, pick: string -> Option<GVR>, wanted: seq<string>,
                      kindOf: string -> string, lo: int)
    requires Lists(found, pick) && FollowsDiscovery(ds, found, kindOf)
    requires forall r :: pick(r).Some? ==> r in wanted
    requires forall i :: 0 <= i < |wanted| ==> Number(kindOf(wanted[i])) == lo + i
    ensures NumberedWithin(DynamicSections(ds), lo, lo + |wanted|)
  {
    forall i | 0 <= i < |ds|
      ensures var n := Number(ds[i].kind) - lo; 0 <= n < |wanted| && wanted[n] == found[i].resource
    {
      PicksWanted(found, pick, wanted, i);
      var n :| 0 <= n < |wanted| && wanted[n] == found[i].resource;
    }
    forall i, j | 0 <= i < j < |ds| ensures Number(ds[i].kind) != Number(ds[j].kind) {
      FoundDiffer(found, pick, i, j);
    }
  }

  lemma GatewayWants(served: Served, r: string)
    ensures GatewayPick(served)(r).Some? ==> r in GATEWAY_RESOURCES
  {
  }

  lemma TraefikWants(served: Served, r: string)
    ensures TraefikPick(served)(r).Some? ==> r in TRAEFIK_RESOURCES
  {
  }

  lemma {:induction false} GatewaySections(ds: seq<Dynamic>, found: seq<GVR>, served: Served)
    requires Lists(found, GatewayPick(served)) && FollowsDiscovery(ds, found, KindFromResource)
    ensures NumberedWithin(DynamicSections(ds), 4, 10)
  {
    forall r ensures GatewayPick(served)(r).Some? ==> r in GATEWAY_RESOURCES {
      GatewayWants(served, r);
    }
    forall i | 0 <= i < 6 ensures Number(KindFromResource(GATEWAY_RESOURCES[i])) == 4 + i {
      GatewayNumbers(i);
    }
    FoundSections(ds, found, GatewayPick(served), GATEWAY_RESOURCES, KindFromResource, 4);
  }

  lemma TraefikSections(ds: seq<Dynamic>, found: seq<GVR>, served: Served)
    requires Lists(found, TraefikPick(served)) && FollowsDiscovery(ds, found, TraefikKindFromResource)
    ensures NumberedWithin(DynamicSections(ds), 10, 13)
  {
    forall r ensures TraefikPick(served)(r).Some? ==> r in TRAEFIK_RESOURCES {
      TraefikWants(served, r);
    }
    forall i | 0 <= i < 3 ensures Number(TraefikKindFromResource(TRAEFIK_RESOURCES[i])) == 10 + i {
      TraefikNumbers(i);
    }
    FoundSections(ds, found, TraefikPick(served), TRAEFIK_RESOURCES, TraefikKindFromResource, 10);
  }

  lemma BuiltInNumbers(kind: string)
    requires IsBuiltIn(kind)
    ensures Number(kind) < 4
  {
  }

  /** Whatever a cluster serves, the kinds of a snapshot's sections are pairwise different, and none is the
      containers': no section's key list can prune what another section stored. */
  lemma {:induction false} DiscoveredResourcesAreGood(rs: Resources, gateways: seq<GVR>, routes: seq<GVR>, served: Served)
    requires Lists(gateways, GatewayPick(served)) && FollowsDiscovery(rs.gatewayAPI, gateways, KindFromResource)
    requires Lists(routes, TraefikPick(served)) && FollowsDiscovery(rs.traefik, routes, TraefikKindFromResource)
    requires HasDistinctUIDs(rs.services) && HasDistinctUIDs(rs.endpointSlices)
    requires HasDistinctUIDs(rs.ingresses) && HasDistinctUIDs(rs.ingressClasses)
    requires forall d :: d in rs.gatewayAPI + rs.traefik ==> DistinctUIDs(d.items)
    requires rs.pods.Some? && rs.pods.value.Listed? ==> GoodPods(rs.pods.value.items)
    ensures GoodResources(rs) && GoodSections(Sections(rs))
  {
    GatewaySections(rs.gatewayAPI, gateways, served);
    TraefikSections(rs.traefik, routes, served);
    NumberedAreGood(rs);
    SectionsAreSeparate(rs);
  }

  lemma NumberedAreGood(rs: Resources)
    requires NumberedWithin(DynamicSections(rs.gatewayAPI), 4, 10) && NumberedWithin(DynamicSections(rs.traefik), 10, 13)
    requires HasDistinctUIDs(rs.services) && HasDistinctUIDs(rs.endpointSlices)
    requires HasDistinctUIDs(rs.ingresses) && HasDistinctUIDs(rs.ingressClasses)
    requires forall d :: d in rs.gatewayAPI + rs.traefik ==> DistinctUIDs(d.items)
    requires rs.pods.Some? && rs.pods.value.Listed? ==> GoodPods(rs.pods.value.items)
    ensures GoodResources(rs)
  {
    var found := rs.gatewayAPI + rs.traefik;
    NumbersOfConcat(DynamicSections(rs.gatewayAPI), DynamicSections(rs.traefik), 4, 10, 13);
    assert DynamicSections(rs.gatewayAPI) + DynamicSections(rs.traefik) == DynamicSections(found);
    forall i | 0 <= i < |found| ensures !IsBuiltIn(found[i].kind) && DistinctUIDs(found[i].items) {
      assert DynamicSections(found)[i].kind == found[i].kind && found[i] in found;
      if IsBuiltIn(found[i].kind) {
        BuiltInNumbers(found[i].kind);
      }
    }
    forall i, j | 0 <= i < j < |found| ensures found[i].kind != found[j].kind {
      assert Number(DynamicSections(found)[i].kind) != Number(DynamicSections(found)[j].kind);
    }
  }
}

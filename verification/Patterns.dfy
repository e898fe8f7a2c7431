/** groupPatterns (problems.go): namespace rows that look like one cause become one pattern row. */
module Patterns {
  import opened Clock
  import opened Sequences
  import opened UnionFind
  import opened Problems

  const INFRA_REASONS: set<string> := {
    "FailedToRetrieveImagePullSecret", "FailedScheduling", "FailedMount", "FailedAttachVolume",
    "FailedCreatePodSandBox", "NetworkNotReady", "DNSConfigForming", "Evicted"
  }

  // ---- The link rules ------------------------------------------------------

  /** First seen within the window of each other, in 64-bit arithmetic. */
  predicate StartedTogether(a: Time, b: Time) {
    var d := Sub(a, b);
    (if d < 0 then Negate(d) else d) <= PATTERN_START_WINDOW
  }

  /** The rule for a row `a` and a row `b` listed after it. */
  predicate PairRule(a: Problem, b: Problem) {
    && Home(a) != Home(b)
    && a.tier == b.tier
    && (StartedTogether(a.firstSeen, b.firstSeen) || (a.title == b.title && Primary(a) == Primary(b)))
  }

  ghost predicate IsRow(ps: seq<Problem>, i: nat) {
    i < |ps| && ps[i].scope == Namespace
  }

  ghost predicate InBucket(ps: seq<Problem>, reason: string, tier: Tier, i: nat) {
    IsRow(ps, i) && Primary(ps[i]) == reason && ps[i].tier == tier
  }

  ghost function BucketHomes(ps: seq<Problem>, reason: string, tier: Tier): set<string> {
    set i: nat | i < |ps| && InBucket(ps, reason, tier, i) :: Home(ps[i])
  }

  /** Rows that share an infrastructure reason seen, in their tier, in three or more namespaces. */
  ghost predicate InfraRule(ps: seq<Problem>, i: nat, j: nat) {
    && IsRow(ps, i) && IsRow(ps, j)
    && InBucket(ps, Primary(ps[i]), ps[i].tier, j)
    && Primary(ps[i]) in INFRA_REASONS
    && |BucketHomes(ps, Primary(ps[i]), ps[i].tier)| >= 3
  }

  ghost predicate LinkRule(ps: seq<Problem>, i: nat, j: nat) {
    && IsRow(ps, i) && IsRow(ps, j)
    && ((i < j && PairRule(ps[i], ps[j])) || InfraRule(ps, i, j))
  }

  ghost function Links(ps: seq<Problem>): set<(nat, nat)> {
    set i: nat, j: nat | i < |ps| && j < |ps| && LinkRule(ps, i, j) :: (i, j)
  }

  // ---- What grouping promises ----------------------------------------------

  ghost predicate InRange(c: seq<nat>, n: nat) {
    forall k :: 0 <= k < |c| ==> c[k] < n
  }

  function Pick<T>(ps: seq<T>, c: seq<nat>): (r: seq<T>)
    requires InRange(c, |ps|)
    ensures |r| == |c|
    ensures forall k :: 0 <= k < |c| ==> r[k] == ps[c[k]]
  {
    seq(|c|, k requires 0 <= k < |c| => ps[c[k]])
  }

  /** Two rows that the closure of the link rules puts together. */
  ghost predicate SameCause(ps: seq<Problem>, i: nat, j: nat) {
    IsRow(ps, i) && IsRow(ps, j) && Connected(Links(ps), i, j)
  }

  /** A whole class of the equivalence closure of the link rules, in list order. */
  ghost predicate IsComponent(ps: seq<Problem>, c: seq<nat>) {
    && c != [] && Ascending(c)
    && (forall i: nat, j: nat {:trigger SameCause(ps, i, j)} :: i in c ==> (j in c <==> SameCause(ps, i, j)))
  }

  /** A row whose component reaches another namespace. */
  ghost predicate Merged(ps: seq<Problem>, i: nat) {
    exists j: nat :: SameCause(ps, i, j) && Home(ps[i]) != Home(ps[j])
  }

  lemma ComponentRow(ps: seq<Problem>, c: seq<nat>, i: nat)
    requires IsComponent(ps, c) && i in c
    ensures IsRow(ps, i)
  {
    assert i in c <==> SameCause(ps, i, i);
  }

  /** `p` is the pattern row of the component `c`. */
  ghost predicate IsGroup(ps: seq<Problem>, now: Time, c: seq<nat>, p: Problem) {
    IsComponent(ps, c) && InRange(c, |ps|) && IsPatternOf(Pick(ps, c), now, p)
  }

  /** The pattern rows made so far, one for each group. */
  ghost predicate Made(ps: seq<Problem>, now: Time, groups: seq<seq<nat>>, out: seq<Problem>) {
    && |out| == |groups|
    && forall k {:trigger IsGroup(ps, now, groups[k], out[k])} :: 0 <= k < |groups| ==>
        IsGroup(ps, now, groups[k], out[k])
  }

  ghost predicate InGroups(groups: seq<seq<nat>>, i: nat) {
    exists k :: 0 <= k < |groups| && i in groups[k]
  }

  /** Row i is in exactly one place: in a group when it is merged, in the rest when it is not. */
  ghost predicate Placed(ps: seq<Problem>, groups: seq<seq<nat>>, rest: seq<nat>, i: nat) {
    && (InGroups(groups, i) <==> Merged(ps, i))
    && (i in rest <==> i < |ps| && !Merged(ps, i))
  }

  /** `out` lists the pattern rows of `groups`, the components that reach two namespaces, each once,
      and then the rows `rest`, all the others, in their order. */
  ghost predicate GroupedBy(ps: seq<Problem>, now: Time, groups: seq<seq<nat>>, rest: seq<nat>, out: seq<Problem>) {
    && |out| == |groups| + |rest|
    && Distinct(groups)
    && Made(ps, now, groups, out[..|groups|])
    && Ascending(rest) && InRange(rest, |ps|)
    && (forall i: nat {:trigger Placed(ps, groups, rest, i)} :: Placed(ps, groups, rest, i))
    && out[|groups|..] == Pick(ps, rest)
  }

  /** `out` is a grouping of the rows into patterns and the rest. */
  ghost predicate Grouping(ps: seq<Problem>, now: Time, out: seq<Problem>) {
    exists groups, rest :: GroupedBy(ps, now, groups, rest, out)
  }

  // ---- Uniting -------------------------------------------------------------

  /** `idx` lists the namespace rows below n, in order. */
  ghost predicate ListsRows(ps: seq<Problem>, idx: seq<nat>, n: nat) {
    && Ascending(idx)
    && (forall k :: 0 <= k < |idx| ==> idx[k] < n && IsRow(ps, idx[k]))
    && (forall i: nat :: i < n && IsRow(ps, i) ==> i in idx)
  }

  method NamespaceRows(ps: seq<Problem>) returns (idx: seq<nat>)
    ensures ListsRows(ps, idx, |ps|)
  {
    idx := [];
    for i := 0 to |ps|
      invariant ListsRows(ps, idx, i)
    {
      if ps[i].scope == Namespace {
        idx := idx + [i];
      }
    }
  }

  ghost predicate OnlyRuled(links: set<(nat, nat)>, ps: seq<Problem>) {
    links <= Links(ps)
  }

  ghost predicate PairsUnited(links: set<(nat, nat)>, ps: seq<Problem>) {
    forall i: nat, j: nat :: i < j && IsRow(ps, i) && IsRow(ps, j) && PairRule(ps[i], ps[j]) ==> (i, j) in links
  }

  lemma RowsListed(ps: seq<Problem>, idx: seq<nat>)
    requires ListsRows(ps, idx, |ps|)
    ensures forall i: nat :: i in idx <==> IsRow(ps, i)
  {
  }

  ghost predicate UnitedWithLater(links: set<(nat, nat)>, ps: seq<Problem>, idx: seq<nat>, x: nat, end: nat)
    requires ListsRows(ps, idx, |ps|) && x < |idx| && end <= |idx|
  {
    forall y :: x < y < end && PairRule(ps[idx[x]], ps[idx[y]]) ==> (idx[x], idx[y]) in links
  }

  method UniteWithLater(ds: DisjointSets, ps: seq<Problem>, idx: seq<nat>, ai: nat)
    requires ds.Valid() && ds.parent.Length == |ps| && OnlyRuled(ds.links, ps)
    requires ListsRows(ps, idx, |ps|) && ai < |idx|
    modifies ds, ds.parent
    ensures ds.Valid() && OnlyRuled(ds.links, ps) && old(ds.links) <= ds.links
    ensures UnitedWithLater(ds.links, ps, idx, ai, |idx|)
  {
    var a := idx[ai];
    for bi := ai + 1 to |idx|
      invariant ds.Valid() && OnlyRuled(ds.links, ps) && old(ds.links) <= ds.links
      invariant UnitedWithLater(ds.links, ps, idx, ai, bi)
    {
      var b := idx[bi];
      if PairRule(ps[a], ps[b]) {
        ds.Union(a, b);
      }
    }
  }

  method UnitePairs(ds: DisjointSets, ps: seq<Problem>, idx: seq<nat>)
    requires ds.Valid() && ds.parent.Length == |ps| && ds.links == {}
    requires ListsRows(ps, idx, |ps|)
    modifies ds, ds.parent
    ensures ds.Valid() && OnlyRuled(ds.links, ps) && PairsUnited(ds.links, ps)
  {
    for ai := 0 to |idx|
      invariant ds.Valid() && OnlyRuled(ds.links, ps)
      invariant forall x :: 0 <= x < ai ==> UnitedWithLater(ds.links, ps, idx, x, |idx|)
    {
      ghost var before := ds.links;
      UniteWithLater(ds, ps, idx, ai);
      forall x | 0 <= x < ai ensures UnitedWithLater(ds.links, ps, idx, x, |idx|) {
        assert UnitedWithLater(before, ps, idx, x, |idx|);
      }
    }
    forall i: nat, j: nat | i < j && IsRow(ps, i) && IsRow(ps, j) && PairRule(ps[i], ps[j]) ensures (i, j) in ds.links {
      RowsListed(ps, idx);
      var x :| 0 <= x < |idx| && idx[x] == i;
      var y :| 0 <= y < |idx| && idx[y] == j;
      assert UnitedWithLater(ds.links, ps, idx, x, |idx|);
    }
  }

  /** `byReason` files the rows listed in `seen` under their infrastructure reason and tier. */
  ghost predicate Filed(ps: seq<Problem>, seen: seq<nat>, byReason: map<(string, Tier), seq<nat>>) {
    && (forall k :: k in byReason ==> k.0 in INFRA_REASONS && byReason[k] != [])
    && (forall k, i: nat :: k in byReason && i in byReason[k] ==> i in seen && InBucket(ps, k.0, k.1, i))
    && (forall i: nat :: i in seen && IsRow(ps, i) && Primary(ps[i]) in INFRA_REASONS ==>
          (Primary(ps[i]), ps[i].tier) in byReason && i in byReason[(Primary(ps[i]), ps[i].tier)])
  }

  lemma FileStep(ps: seq<Problem>, idx: seq<nat>, x: nat, byReason: map<(string, Tier), seq<nat>>)
    requires x < |idx| && IsRow(ps, idx[x]) && Filed(ps, idx[..x], byReason)
    ensures var i := idx[x];
            var k := (Primary(ps[i]), ps[i].tier);
            Filed(ps, idx[..x + 1],
                  if k.0 in INFRA_REASONS then byReason[k := (if k in byReason then byReason[k] else []) + [i]]
                      else byReason)
  {
    PrefixMembers(idx, x);
    var i := idx[x];
    var k := (Primary(ps[i]), ps[i].tier);
    var before := if k in byReason then byReason[k] else [];
    assert forall j: nat :: j in before + [i] <==> j in before || j == i;
    var after := if k.0 in INFRA_REASONS then byReason[k := before + [i]] else byReason;
    forall k', j: nat | k' in after && j in after[k'] ensures j in idx[..x + 1] && InBucket(ps, k'.0, k'.1, j) {
      if k' == k && j == i {
        assert InBucket(ps, k.0, k.1, i);
      } else {
        assert k' in byReason;
        assert j in byReason[k'];
        assert j in idx[..x];
        assert InBucket(ps, k'.0, k'.1, j);
      }
    }
  }

  method BucketRows(ps: seq<Problem>, idx: seq<nat>) returns (byReason: map<(string, Tier), seq<nat>>)
    requires ListsRows(ps, idx, |ps|)
    ensures Filed(ps, idx, byReason)
  {
    byReason := map[];
    for x := 0 to |idx|
      invariant Filed(ps, idx[..x], byReason)
    {
      var i := idx[x];
      FileStep(ps, idx, x, byReason);
      var r := Primary(ps[i]);
      if r in INFRA_REASONS {
        var k := (r, ps[i].tier);
        byReason := byReason[k := (if k in byReason then byReason[k] else []) + [i]];
      }
    }
    assert idx[..|idx|] == idx;
  }

  lemma FiledBucket(ps: seq<Problem>, idx: seq<nat>, byReason: map<(string, Tier), seq<nat>>, k: (string, Tier))
    requires ListsRows(ps, idx, |ps|) && Filed(ps, idx, byReason) && k in byReason
    ensures forall i: nat :: i in byReason[k] <==> InBucket(ps, k.0, k.1, i)
  {
    RowsListed(ps, idx);
    forall i: nat | InBucket(ps, k.0, k.1, i) ensures i in byReason[k] {
      assert (Primary(ps[i]), ps[i].tier) == k;
    }
  }

  method HomesAt(ps: seq<Problem>, members: seq<nat>) returns (nss: set<string>)
    requires InRange(members, |ps|)
    ensures forall h :: h in nss <==> exists i :: i in members && Home(ps[i]) == h
  {
    nss := {};
    for x := 0 to |members|
      invariant nss == set y | 0 <= y < x :: Home(ps[members[y]])
    {
      nss := nss + {Home(ps[members[x]])};
    }
  }

  /** `hub` is linked to every other row of the bucket. */
  ghost predicate IsHub(links: set<(nat, nat)>, ps: seq<Problem>, reason: string, tier: Tier, hub: nat) {
    InBucket(ps, reason, tier, hub) && forall i: nat :: InBucket(ps, reason, tier, i) && i != hub ==> (hub, i) in links
  }

  ghost predicate BucketUnited(links: set<(nat, nat)>, ps: seq<Problem>, reason: string, tier: Tier) {
    |BucketHomes(ps, reason, tier)| >= 3 ==> exists hub: nat :: IsHub(links, ps, reason, tier, hub)
  }

  lemma HomesAreBucketHomes(ps: seq<Problem>, k: (string, Tier), members: seq<nat>, nss: set<string>)
    requires InRange(members, |ps|)
    requires forall i: nat :: i in members <==> InBucket(ps, k.0, k.1, i)
    requires forall h :: h in nss <==> exists i :: i in members && Home(ps[i]) == h
    ensures nss == BucketHomes(ps, k.0, k.1)
  {
    forall h | h in nss ensures h in BucketHomes(ps, k.0, k.1) {
      var i :| i in members && Home(ps[i]) == h;
      assert InBucket(ps, k.0, k.1, i);
    }
    forall h | h in BucketHomes(ps, k.0, k.1) ensures h in nss {
      var i: nat :| i < |ps| && InBucket(ps, k.0, k.1, i) && Home(ps[i]) == h;
      assert i in members;
    }
  }

  /** The pairs that link `hub` to each of `c`. */
  ghost function Star(hub: nat, c: seq<nat>): set<(nat, nat)> {
    set i | i in c :: (hub, i)
  }

  lemma StarStep(hub: nat, c: seq<nat>, x: nat)
    requires x < |c|
    ensures Star(hub, c[..x + 1]) == Star(hub, c[..x]) + {(hub, c[x])}
  {
    PrefixMembers(c, x);
  }

  method UniteStar(ds: DisjointSets, hub: nat, others: seq<nat>)
    requires ds.Valid() && hub < ds.parent.Length && InRange(others, ds.parent.Length)
    modifies ds, ds.parent
    ensures ds.Valid() && ds.links == old(ds.links) + Star(hub, others)
  {
    for x := 0 to |others|
      invariant ds.Valid() && ds.links == old(ds.links) + Star(hub, others[..x])
    {
      StarStep(hub, others, x);
      ds.Union(hub, others[x]);
    }
    assert others[..|others|] == others;
  }

  /** Linking one row of a bucket to the others follows the rules and unites the bucket. */
  lemma StarUnites(links: set<(nat, nat)>, ps: seq<Problem>, k: (string, Tier), members: seq<nat>)
    requires OnlyRuled(links, ps)
    requires k.0 in INFRA_REASONS && |BucketHomes(ps, k.0, k.1)| >= 3 && members != []
    requires forall i: nat :: i in members <==> InBucket(ps, k.0, k.1, i)
    ensures var more := links + Star(members[0], members[1..]); OnlyRuled(more, ps) && BucketUnited(more, ps, k.0, k.1)
  {
    var hub, more := members[0], links + Star(members[0], members[1..]);
    assert hub in members;
    assert members == [hub] + members[1..];
    forall i: nat | i in members[1..] ensures (hub, i) in Links(ps) {
      assert i in members;
      assert InfraRule(ps, hub, i);
    }
    assert IsHub(more, ps, k.0, k.1, hub);
  }

  method UniteBucket(ds: DisjointSets, ps: seq<Problem>, k: (string, Tier), members: seq<nat>)
    requires ds.Valid() && ds.parent.Length == |ps| && OnlyRuled(ds.links, ps)
    requires k.0 in INFRA_REASONS && members != []
    requires forall i: nat :: i in members <==> InBucket(ps, k.0, k.1, i)
    modifies ds, ds.parent
    ensures ds.Valid() && OnlyRuled(ds.links, ps) && old(ds.links) <= ds.links
    ensures BucketUnited(ds.links, ps, k.0, k.1)
  {
    assert forall y :: 0 <= y < |members| ==> members[y] in members;
    var nss := HomesAt(ps, members);
    HomesAreBucketHomes(ps, k, members, nss);
    if |nss| >= 3 {
      StarUnites(ds.links, ps, k, members);
      UniteStar(ds, members[0], members[1..]);
    }
  }

  /** The first x buckets of the order are united. */
  ghost predicate UnitedUpTo(links: set<(nat, nat)>, ps: seq<Problem>, order: seq<(string, Tier)>, x: nat) {
    x <= |order| && forall y :: 0 <= y < x ==> BucketUnited(links, ps, order[y].0, order[y].1)
  }

  lemma BucketStaysUnited(before: set<(nat, nat)>, links: set<(nat, nat)>, ps: seq<Problem>, reason: string, tier: Tier)
    requires before <= links && BucketUnited(before, ps, reason, tier)
    ensures BucketUnited(links, ps, reason, tier)
  {
    if |BucketHomes(ps, reason, tier)| >= 3 {
      var hub: nat :| IsHub(before, ps, reason, tier, hub);
      assert IsHub(links, ps, reason, tier, hub);
    }
  }

  lemma UnitedUpToNext(before: set<(nat, nat)>, links: set<(nat, nat)>, ps: seq<Problem>, order: seq<(string, Tier)>,
                       x: nat)
    requires before <= links && UnitedUpTo(before, ps, order, x)
    requires x < |order| && BucketUnited(links, ps, order[x].0, order[x].1)
    ensures UnitedUpTo(links, ps, order, x + 1)
  {
    forall y | 0 <= y < x ensures BucketUnited(links, ps, order[y].0, order[y].1) {
      BucketStaysUnited(before, links, ps, order[y].0, order[y].1);
    }
  }

  lemma EveryBucketUnited(links: set<(nat, nat)>, ps: seq<Problem>, idx: seq<nat>,
                          byReason: map<(string, Tier), seq<nat>>,
                          order: seq<(string, Tier)>)
    requires ListsRows(ps, idx, |ps|) && Filed(ps, idx, byReason)
    requires (forall k :: k in order <==> k in byReason.Keys) && UnitedUpTo(links, ps, order, |order|)
    ensures forall r, t :: r in INFRA_REASONS ==> BucketUnited(links, ps, r, t)
  {
    RowsListed(ps, idx);
    forall r, t | r in INFRA_REASONS ensures BucketUnited(links, ps, r, t) {
      if |BucketHomes(ps, r, t)| >= 3 {
        var h :| h in BucketHomes(ps, r, t);
        var i: nat :| i < |ps| && InBucket(ps, r, t, i);
        assert (r, t) == (Primary(ps[i]), ps[i].tier);
        var y :| 0 <= y < |order| && order[y] == (r, t);
      }
    }
  }

  method UniteInfra(ds: DisjointSets, ps: seq<Problem>, idx: seq<nat>)
    requires ds.Valid() && ds.parent.Length == |ps| && OnlyRuled(ds.links, ps)
    requires ListsRows(ps, idx, |ps|)
    modifies ds, ds.parent
    ensures ds.Valid() && OnlyRuled(ds.links, ps) && old(ds.links) <= ds.links
    ensures forall r, t :: r in INFRA_REASONS ==> BucketUnited(ds.links, ps, r, t)
  {
    var byReason := BucketRows(ps, idx);
    var order := IterationOrder(byReason.Keys);
    for x := 0 to |order|
      invariant ds.Valid() && OnlyRuled(ds.links, ps) && old(ds.links) <= ds.links
      invariant UnitedUpTo(ds.links, ps, order, x)
    {
      assert order[x] in order;
      ghost var before := ds.links;
      FiledBucket(ps, idx, byReason, order[x]);
      UniteBucket(ds, ps, order[x], byReason[order[x]]);
      UnitedUpToNext(before, ds.links, ps, order, x);
    }
    EveryBucketUnited(ds.links, ps, idx, byReason, order);
  }

  /** The pairs united are enough: they connect exactly what the link rules connect. */
  lemma UnitedIsClosure(links: set<(nat, nat)>, ps: seq<Problem>, x: nat, y: nat)
    requires OnlyRuled(links, ps) && PairsUnited(links, ps)
    requires forall r, t :: r in INFRA_REASONS ==> BucketUnited(links, ps, r, t)
    ensures Connected(links, x, y) <==> Connected(Links(ps), x, y)
  {
    if Connected(links, x, y) {
      assert links <= Links(ps);
      ConnectedMono(links, Links(ps), x, y);
    }
    if Connected(Links(ps), x, y) {
      forall l | l in Links(ps) ensures Connected(links, l.0, l.1) {
        LinkIsUnited(links, ps, l.0, l.1);
      }
      ConnectedAbsorb(links, Links(ps), x, y);
    }
  }

  lemma LinkIsUnited(links: set<(nat, nat)>, ps: seq<Problem>, i: nat, j: nat)
    requires PairsUnited(links, ps) && LinkRule(ps, i, j)
    requires forall r, t :: r in INFRA_REASONS ==> BucketUnited(links, ps, r, t)
    ensures Connected(links, i, j)
  {
    if i < j && PairRule(ps[i], ps[j]) {
      ConnectedLink(links, i, j);
    } else {
      assert BucketUnited(links, ps, Primary(ps[i]), ps[i].tier);
      var hub: nat :| IsHub(links, ps, Primary(ps[i]), ps[i].tier, hub);
      HubConnects(links, ps, hub, i);
      HubConnects(links, ps, hub, j);
      ConnectedSym(links, hub, i);
      ConnectedTrans(links, i, hub, j);
    }
  }

  lemma HubConnects(links: set<(nat, nat)>, ps: seq<Problem>, hub: nat, i: nat)
    requires IsRow(ps, hub) && IsHub(links, ps, Primary(ps[hub]), ps[hub].tier, hub)
    requires InBucket(ps, Primary(ps[hub]), ps[hub].tier, i)
    ensures Connected(links, hub, i)
  {
    if i == hub {
      ConnectedRefl(links, i);
    } else {
      ConnectedLink(links, hub, i);
    }
  }

  // ---- Collecting components -----------------------------------------------

  /** `comps` files the points listed in `seen` under their representative. */
  ghost predicate AllRootedAt(root: seq<nat>, seen: seq<nat>, c: seq<nat>, r: nat) {
    forall i :: i in c ==> i in seen && i < |root| && root[i] == r
  }

  ghost predicate Collected(root: seq<nat>, seen: seq<nat>, comps: map<nat, seq<nat>>)
  {
    && (forall r :: r in comps ==> comps[r] != [] && Ascending(comps[r]))
    && (forall r :: r in comps ==> AllRootedAt(root, seen, comps[r], r))
    && (forall i: nat :: i in seen && i < |root| ==> root[i] in comps && i in comps[root[i]])
  }

  lemma CollectStep(root: seq<nat>, idx: seq<nat>, x: nat, comps: map<nat, seq<nat>>)
    requires x < |idx| && Ascending(idx) && InRange(idx, |root|)
    requires Collected(root, idx[..x], comps)
    ensures var r := root[idx[x]];
            Collected(root, idx[..x + 1], comps[r := (if r in comps then comps[r] else []) + [idx[x]]])
  {
    PrefixMembers(idx, x);
    var i := idx[x];
    var r := root[i];
    var before := if r in comps then comps[r] else [];
    forall y | 0 <= y < |before| ensures before[y] < i {
      assert before[y] in idx[..x];
    }
    assert forall j :: j in before ==> j in before + [i];
    assert (before + [i])[|before|] == i;
  }

  method CollectComponents(ds: DisjointSets, idx: seq<nat>) returns (comps: map<nat, seq<nat>>)
    requires ds.Valid() && InRange(idx, ds.parent.Length) && Ascending(idx)
    modifies ds.parent
    ensures ds.Valid() && Collected(ds.root, idx, comps)
  {
    comps := map[];
    for x := 0 to |idx|
      invariant ds.Valid() && Collected(ds.root, idx[..x], comps)
    {
      CollectStep(ds.root, idx, x, comps);
      var r := ds.Find(idx[x]);
      var r2 := ds.Find(idx[x]);
      comps := comps[r := (if r2 in comps then comps[r2] else []) + [idx[x]]];
    }
    assert idx[..|idx|] == idx;
  }

  /** What is filed under one representative is one whole component. */
  lemma CollectedIsComponent(ps: seq<Problem>, idx: seq<nat>, root: seq<nat>, links: set<(nat, nat)>, comps: map<nat,
                             seq<nat>>, r: nat)
    requires ListsRows(ps, idx, |ps|) && |root| == |ps| && Represents(root, links)
    requires forall x: nat, y: nat :: Connected(links, x, y) <==> Connected(Links(ps), x, y)
    requires Collected(root, idx, comps) && r in comps
    ensures IsComponent(ps, comps[r]) && InRange(comps[r], |ps|)
  {
    RowsListed(ps, idx);
    var c := comps[r];
    forall k | 0 <= k < |c| ensures c[k] < |ps| {
      assert c[k] in c;
    }
    forall i: nat, j: nat | i in c ensures j in c <==> SameCause(ps, i, j) {
      if j < |ps| {
        RepresentsDecides(root, links, i, j);
      }
    }
  }

  /** The components of the rows, each filed under some representative. */
  method FindComponents(problems: seq<Problem>) returns (comps: map<nat, seq<nat>>)
    ensures forall r :: r in comps ==> IsComponent(problems, comps[r]) && InRange(comps[r], |problems|)
    ensures forall r, s, i :: r in comps && s in comps && i in comps[r] && i in comps[s] ==> r == s
    ensures forall i: nat :: IsRow(problems, i) ==> exists r :: r in comps && i in comps[r]
  {
    var idx := NamespaceRows(problems);
    var ds := new DisjointSets(|problems|);
    UnitePairs(ds, problems, idx);
    ghost var pairs := ds.links;
    UniteInfra(ds, problems, idx);
    assert PairsUnited(ds.links, problems);
    comps := CollectComponents(ds, idx);
    RowsListed(problems, idx);
    forall x: nat, y: nat ensures Connected(ds.links, x, y) <==> Connected(Links(problems), x, y) {
      UnitedIsClosure(ds.links, problems, x, y);
    }
    forall r | r in comps ensures IsComponent(problems, comps[r]) && InRange(comps[r], |problems|) {
      CollectedIsComponent(problems, idx, ds.root, ds.links, comps, r);
    }
  }

  // ---- The rows ------------------------------------------------------------

  /** The namespaces of a component are two or more exactly when its rows are merged. */
  lemma WideGroupMerged(ps: seq<Problem>, c: seq<nat>, nss: set<string>, i: nat)
    requires IsComponent(ps, c) && InRange(c, |ps|) && i in c && |nss| >= 2
    requires forall h :: h in nss ==> exists i :: i in c && Home(ps[i]) == h
    ensures Merged(ps, i)
  {
    var other := nss - {Home(ps[i])};
    assert other != {} by {
      if other == {} {
        SubsetSize(nss, {Home(ps[i])});
      }
    }
    var h :| h in other;
    var j :| j in c && Home(ps[j]) == h;
    assert SameCause(ps, i, j);
  }

  lemma SpanDecides(ps: seq<Problem>, c: seq<nat>, nss: set<string>)
    requires IsComponent(ps, c) && InRange(c, |ps|)
    requires forall h :: h in nss <==> exists i :: i in c && Home(ps[i]) == h
    ensures forall i :: i in c ==> (|nss| >= 2 <==> Merged(ps, i))
  {
    forall i | i in c ensures |nss| >= 2 <==> Merged(ps, i) {
      if |nss| >= 2 {
        WideGroupMerged(ps, c, nss, i);
      }
      if Merged(ps, i) {
        var j: nat :| SameCause(ps, i, j) && Home(ps[i]) != Home(ps[j]);
        assert j in c;
        SubsetSize({Home(ps[i]), Home(ps[j])}, nss);
      }
    }
  }

  method PickRows(problems: seq<Problem>, c: seq<nat>) returns (ps: seq<Problem>)
    requires InRange(c, |problems|)
    ensures ps == Pick(problems, c)
  {
    ps := [];
    for x := 0 to |c|
      invariant |ps| == x && forall k :: 0 <= k < x ==> ps[k] == problems[c[k]]
    {
      ps := ps + [problems[c[x]]];
    }
  }

  /** Where the loop over the components stands: `groups` are the merged ones among those visited. */
  ghost predicate Visited(ps: seq<Problem>, seen: seq<seq<nat>>, groups: seq<seq<nat>>, merged: set<nat>) {
    && Distinct(groups)
    && (forall k :: 0 <= k < |groups| ==> groups[k] in seen)
    && (forall i: nat :: i in merged <==> InGroups(groups, i))
    && (forall y, i: nat :: 0 <= y < |seen| && i in seen[y] ==> (i in merged <==> Merged(ps, i)))
  }

  lemma VisitMerged(ps: seq<Problem>, seen: seq<seq<nat>>, groups: seq<seq<nat>>, merged: set<nat>, c: seq<nat>)
    requires Visited(ps, seen, groups, merged) && c != []
    requires forall i: nat :: i in c ==> Merged(ps, i)
    requires forall y, i: nat :: 0 <= y < |seen| && i in seen[y] ==> i !in c
    ensures Visited(ps, seen + [c], groups + [c], merged + set i | i in c)
  {
    forall i: nat ensures InGroups(groups + [c], i) <==> InGroups(groups, i) || i in c {
      InGroupsAppend(groups, c, i);
    }
    assert c[0] in c;
    assert forall k :: 0 <= k < |groups| ==> groups[k] in seen;
    assert c !in seen;
  }

  lemma InGroupsAppend(groups: seq<seq<nat>>, c: seq<nat>, i: nat)
    ensures InGroups(groups + [c], i) <==> InGroups(groups, i) || i in c
  {
    var more := groups + [c];
    if InGroups(groups, i) {
      var k :| 0 <= k < |groups| && i in groups[k];
      assert i in more[k];
    }
    if i in c {
      assert i in more[|groups|];
    }
  }

  lemma MergedWasSeen(ps: seq<Problem>, seen: seq<seq<nat>>, groups: seq<seq<nat>>, merged: set<nat>, i: nat)
    requires Visited(ps, seen, groups, merged) && i in merged
    ensures exists y :: 0 <= y < |seen| && i in seen[y]
  {
    var k :| 0 <= k < |groups| && i in groups[k];
    assert groups[k] in seen;
  }

  lemma VisitSingle(ps: seq<Problem>, seen: seq<seq<nat>>, groups: seq<seq<nat>>, merged: set<nat>, c: seq<nat>)
    requires Visited(ps, seen, groups, merged)
    requires forall i: nat :: i in c ==> !Merged(ps, i)
    requires forall y, i: nat :: 0 <= y < |seen| && i in seen[y] ==> i !in c
    ensures Visited(ps, seen + [c], groups, merged)
  {
    forall i: nat | i in c ensures i !in merged {
      if i in merged {
        MergedWasSeen(ps, seen, groups, merged, i);
      }
    }
  }

  ghost function InOrder(comps: map<nat, seq<nat>>, order: seq<nat>): (cs: seq<seq<nat>>)
    requires forall r :: r in order ==> r in comps
    ensures |cs| == |order|
    ensures forall x :: 0 <= x < |order| ==> order[x] in comps && cs[x] == comps[order[x]]
  {
    seq(|order|, x requires 0 <= x < |order| => assert order[x] in order; comps[order[x]])
  }

  lemma MadeStep(ps: seq<Problem>, now: Time, groups: seq<seq<nat>>, out: seq<Problem>, c: seq<nat>, p: Problem)
    requires Made(ps, now, groups, out) && IsGroup(ps, now, c, p)
    ensures Made(ps, now, groups + [c], out + [p])
  {
    var gs, ps' := groups + [c], out + [p];
    forall k | 0 <= k < |gs| ensures IsGroup(ps, now, gs[k], ps'[k]) {
      if k < |groups| {
        assert gs[k] == groups[k] && ps'[k] == out[k];
      } else {
        assert gs[k] == c && ps'[k] == p;
      }
    }
  }

  /** One step of the loop over the components: `c` is merged when it reaches two namespaces. */
  method VisitComponent(problems: seq<Problem>, now: Time, c: seq<nat>, out: seq<Problem>, merged: set<nat>,
                        ghost seen: seq<seq<nat>>, ghost groups: seq<seq<nat>>)
    returns (out': seq<Problem>, merged': set<nat>, ghost groups': seq<seq<nat>>)
    requires forall p :: p in problems && p.scope == Namespace ==> Complete(p)
    requires IsComponent(problems, c) && InRange(c, |problems|)
    requires forall y, i: nat :: 0 <= y < |seen| && i in seen[y] ==> i !in c
    requires Visited(problems, seen, groups, merged) && Made(problems, now, groups, out)
    ensures Visited(problems, seen + [c], groups', merged') && Made(problems, now, groups', out')
  {
    out', merged', groups' := out, merged, groups;
    var nss := HomesAt(problems, c);
    SpanDecides(problems, c, nss);
    if |nss| < 2 {
      VisitSingle(problems, seen, groups, merged, c);
    } else {
      var p := MergeRows(problems, c, now);
      VisitMerged(problems, seen, groups, merged, c);
      MadeStep(problems, now, groups, out, c, p);
      out', merged', groups' := out + [p], merged + (set i | i in c), groups + [c];
    }
  }

  /** Merges the components that reach two namespaces, visiting the components in any order. */
  method MakePatterns(problems: seq<Problem>, now: Time) returns (out: seq<Problem>, merged: set<nat>,
                      ghost groups: seq<seq<nat>>)
    requires forall p :: p in problems && p.scope == Namespace ==> Complete(p)
    ensures Made(problems, now, groups, out) && Distinct(groups)
    ensures forall i: nat :: i in merged <==> Merged(problems, i)
    ensures forall i: nat :: i in merged <==> InGroups(groups, i)
  {
    var comps := FindComponents(problems);
    var order := IterationOrder(comps.Keys);
    ghost var seen := InOrder(comps, order);
    out, merged, groups := [], {}, [];
    for x := 0 to |order|
      invariant Visited(problems, seen[..x], groups, merged)
      invariant Made(problems, now, groups, out)
    {
      assert order[x] in order;
      var c := comps[order[x]];
      FreshComponent(comps, order, seen, x);
      PrefixStep(seen, x);
      out, merged, groups := VisitComponent(problems, now, c, out, merged, seen[..x], groups);
    }
    assert seen[..|order|] == seen;
    forall i: nat ensures i in merged <==> Merged(problems, i) {
      AllVisited(problems, comps, order, seen, groups, merged, i);
    }
  }

  lemma FreshComponent(comps: map<nat, seq<nat>>, order: seq<nat>, seen: seq<seq<nat>>, x: nat)
    requires Distinct(order) && x < |order| && (forall r :: r in order ==> r in comps) && seen == InOrder(comps, order)
    requires forall r, s, i: nat :: r in comps && s in comps && i in comps[r] && i in comps[s] ==> r == s
    ensures forall y, i: nat :: 0 <= y < |seen[..x]| && i in seen[..x][y] ==> i !in seen[x]
  {
  }

  method MergeRows(problems: seq<Problem>, c: seq<nat>, now: Time) returns (p: Problem)
    requires IsComponent(problems, c) && InRange(c, |problems|)
    requires forall p :: p in problems && p.scope == Namespace ==> Complete(p)
    ensures IsGroup(problems, now, c, p)
  {
    var ps := PickRows(problems, c);
    ComponentComplete(problems, c);
    p := MakePattern(ps, now);
  }

  lemma ComponentComplete(ps: seq<Problem>, c: seq<nat>)
    requires IsComponent(ps, c) && InRange(c, |ps|)
    requires forall p :: p in ps && p.scope == Namespace ==> Complete(p)
    ensures Pick(ps, c) != [] && forall p :: p in Pick(ps, c) ==> p in ps && p.scope == Namespace && Complete(p)
  {
    forall k | 0 <= k < |c| ensures ps[c[k]].scope == Namespace {
      ComponentRow(ps, c, c[k]);
    }
  }

  lemma AllVisited(ps: seq<Problem>, comps: map<nat, seq<nat>>, order: seq<nat>, seen: seq<seq<nat>>,
                   groups: seq<seq<nat>>, merged: set<nat>, i: nat)
    requires forall r :: r in order <==> r in comps
    requires seen == InOrder(comps, order) && Visited(ps, seen, groups, merged)
    requires forall r :: r in comps ==> IsComponent(ps, comps[r])
    requires forall j: nat :: IsRow(ps, j) ==> exists r :: r in comps && j in comps[r]
    ensures i in merged <==> Merged(ps, i)
  {
    if IsRow(ps, i) {
      var r :| r in comps && i in comps[r];
      var y :| 0 <= y < |order| && order[y] == r;
      assert i in seen[y];
    } else if i in merged {
      MergedWasSeen(ps, seen, groups, merged, i);
    }
  }

  /** Merges the namespace rows that look like one cause; the other rows stay, in their order. */
  method GroupPatterns(problems: seq<Problem>, now: Time) returns (out: seq<Problem>)
    requires forall p :: p in problems && p.scope == Namespace ==> Complete(p)
    ensures Grouping(problems, now, out)
  {
    var merged: set<nat>;
    ghost var groups: seq<seq<nat>>;
    out, merged, groups := MakePatterns(problems, now);
    ghost var patterns := out;
    ghost var rest: seq<nat> := [];
    for i := 0 to |problems|
      invariant Ascending(rest) && InRange(rest, i)
      invariant forall j: nat :: j in rest <==> j < i && j !in merged
      invariant out == patterns + Pick(problems, rest)
    {
      if i !in merged {
        out := out + [problems[i]];
        rest := rest + [i];
      }
    }
    assert GroupedBy(problems, now, groups, rest, out);
  }
}

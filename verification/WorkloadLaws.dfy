/** The row of a workload, told by the events of its namespace (problems.go): which warnings are in it, its times, its
    cascade and the Pod it points at. */
module WorkloadLaws {
  import opened Clock
  import opened Sequences
  import opened Strings
  import opened Events
  import opened Problems
  import opened Groups
  import opened NamespaceRows
  import opened RowLaws

  /** An event about an object of a namespace whose chain of owners ends with r. */
  ghost predicate Belongs(src: Source, r: ObjRef, e: Event) {
    && e.kind != "" && e.objectName != "" && e.objectNamespace != ""
    && var c := src.chains(src.ns, ObjRef(e.kind, e.objectName)).objects;
    c != [] && c[|c| - 1] == r
  }

  /** The object has an event, or a warning, in r's workload. */
  ghost predicate SeenIn(src: Source, r: ObjRef, o: ObjRef) {
    exists e :: e in src.es && Belongs(src, r, e) && e.kind == o.kind && e.objectName == o.name
  }

  ghost predicate WarnsIn(src: Source, r: ObjRef, o: ObjRef) {
    exists e :: e in src.es && Belongs(src, r, e) && e.eventType == "Warning" && e.kind == o.kind
        && e.objectName == o.name
  }

  /** How far below the workload's root the object is. */
  ghost function Depth(src: Source, o: ObjRef): nat {
    |src.chains(src.ns, o).objects|
  }

  lemma BelongsExactly(src: Source, r: ObjRef, e: Event)
    requires ChainsOk(src.chains)
    ensures Belongs(src, r, e) <==> OfNamespace(e) && RootOf(src.chains, src.ns)(e) == r
    ensures Belongs(src, r, e) && e.eventType == "Warning" <==> MemberWarning(e) && RootOf(src.chains, src.ns)(e) == r
  {
    assert src.chains(src.ns, Obj(e)).objects != [];
  }

  /** A workload's warnings: all that belong to it, each as often as it was reported. */
  lemma UnderExactly(src: Source, r: ObjRef, e: Event)
    requires ChainsOk(src.chains)
    ensures multiset(WarningsUnder(src, r))[e] ==
            if Belongs(src, r, e) && e.eventType == "Warning" then multiset(src.es)[e] else 0
    ensures e in WarningsUnder(src, r) <==> e in src.es && Belongs(src, r, e) && e.eventType == "Warning"
  {
    BelongsExactly(src, r, e);
    FilterCount(src.es, MemberWarning, e);
    BucketCount(Filter(src.es, MemberWarning), RootOf(src.chains, src.ns), r, e);
  }

  lemma MembersAre(src: Source, r: ObjRef, g: Group, o: ObjRef)
    requires ChainsOk(src.chains) && GroupOf(src.es, src.ns, src.chains, r, g)
    ensures o in g.members <==> SeenIn(src, r, o)
    ensures o in g.members ==> (g.members[o].warn <==> WarnsIn(src, r, o)) && g.members[o].depth + 1 == Depth(src, o)
  {
    assert MemberOk(src.es, src.ns, src.chains, r, g.members, o);
    forall e | e in src.es && e.kind == o.kind && e.objectName == o.name
      ensures Belongs(src, r, e) <==> OfNamespace(e) && Root(src.chains(src.ns, o)) == r
    {
      BelongsExactly(src, r, e);
      assert Obj(e) == o;
    }
    if Seen(src.es, o) {
      var e :| e in src.es && OfNamespace(e) && Obj(e) == o;
    }
    if Warned(src.es, o) {
      var e :| e in src.es && MemberWarning(e) && Obj(e) == o;
    }
  }

  // ---- What the row tells --------------------------------------------------

  /** A workload's row tells its warnings; it starts with the first of them, or when its CronJob began to fail. */
  lemma WorkloadTells(src: Source, r: ObjRef, p: Problem)
    requires ChainsOk(src.chains) && RowFor(src, r, p)
    ensures var ws := WarningsUnder(src, r); ws != [] && Tells(p, ws, src.now)
    ensures exists t :: StartOf(WarningsUnder(src, r), t) && p.firstSeen ==
                        var cron := src.crons(src.ns, r.name);
                        if r.kind == "CronJob" && cron.Some? && cron.value < t then cron.value else t
    ensures p.scope == Namespace && p.key == "ns:" + src.ns + "/" + r.name && p.title == r.name
            && p.namespaces == [src.ns] && p.kind == if r.kind == "" then "Workload" else r.kind
  {
    var ws := WarningsUnder(src, r);
    var g :| GroupOf(src.es, src.ns, src.chains, r, g) && IsGroupRow(p, src.ns, g, src.crons(src.ns, r.name), src.now);
    assert g.warnings == ws;
    FilledTells(p, ws, src.now);
    AgeExactly(p, src.now);
    assert StartOf(ws, Earliest(Map(FirstTime, ws)));
    var k: nat :| Quoted(ws, k, Filled(p, ws, src.now).lastSeen, Filled(p, ws, src.now).message);
    assert Quoted(ws, k, p.lastSeen, p.message);
  }

  /** What is recorded of a workload's objects is what its events say. */
  ghost predicate Mirrors(src: Source, r: ObjRef, members: map<ObjRef, Member>, o: ObjRef) {
    && (o in members <==> SeenIn(src, r, o))
    && (o in members ==> (members[o].warn <==> WarnsIn(src, r, o)) && members[o].depth + 1 == Depth(src, o))
    && (WarnsIn(src, r, o) ==> SeenIn(src, r, o))
  }

  lemma TwoDepthsAre(src: Source, r: ObjRef, members: map<ObjRef, Member>)
    requires forall o {:trigger Mirrors(src, r, members, o)} :: Mirrors(src, r, members, o)
    ensures WarnsAtTwoDepths(members) <==>
            exists a, b :: WarnsIn(src, r, a) && WarnsIn(src, r, b) && Depth(src, a) != Depth(src, b)
  {
    if a, b :| WarnsIn(src, r, a) && WarnsIn(src, r, b) && Depth(src, a) != Depth(src, b) {
      assert Mirrors(src, r, members, a) && Mirrors(src, r, members, b);
    }
    if a, b :| a in members && b in members && members[a].warn && members[b].warn
               && members[a].depth != members[b].depth {
      assert Mirrors(src, r, members, a) && Mirrors(src, r, members, b);
    }
  }

  /** No object of the workload is further below its root. */
  ghost predicate Lowest(src: Source, r: ObjRef, o: ObjRef) {
    SeenIn(src, r, o) && forall a :: SeenIn(src, r, a) ==> Depth(src, a) <= Depth(src, o)
  }

  lemma LowestAre(src: Source, r: ObjRef, members: map<ObjRef, Member>, o: ObjRef)
    requires forall o {:trigger Mirrors(src, r, members, o)} :: Mirrors(src, r, members, o)
    ensures Deepest(members, o) <==> Lowest(src, r, o)
  {
    assert Mirrors(src, r, members, o);
    forall a ensures a in members <==> SeenIn(src, r, a) {
      assert Mirrors(src, r, members, a);
    }
    forall a | a in members ensures members[a].depth + 1 == Depth(src, a) {
      assert Mirrors(src, r, members, a);
    }
  }

  /** A cascade: warnings at two depths, and every object at the greatest depth seen has one. */
  lemma CascadeExactly(src: Source, r: ObjRef, p: Problem)
    requires ChainsOk(src.chains) && RowFor(src, r, p)
    ensures p.cascade <==>
            && (exists a, b :: WarnsIn(src, r, a) && WarnsIn(src, r, b) && Depth(src, a) != Depth(src, b))
            && (forall o :: Lowest(src, r, o) ==> WarnsIn(src, r, o))
  {
    var g :| GroupOf(src.es, src.ns, src.chains, r, g) && IsGroupRow(p, src.ns, g, src.crons(src.ns, r.name), src.now);
    forall o ensures Mirrors(src, r, g.members, o) {
      MembersAre(src, r, g, o);
    }
    TwoDepthsAre(src, r, g.members);
    forall o ensures Deepest(g.members, o) <==> Lowest(src, r, o) {
      LowestAre(src, r, g.members, o);
    }
    forall o | Lowest(src, r, o) ensures g.members[o].warn <==> WarnsIn(src, r, o) {
      assert Mirrors(src, r, g.members, o);
    }
  }

  /** A row is marked inferred when some of its objects have owners, but no such object's chain is confirmed. */
  lemma InferredExactly(src: Source, r: ObjRef, p: Problem)
    requires ChainsOk(src.chains) && RowFor(src, r, p)
    ensures p.inferred <==>
            && (exists o :: SeenIn(src, r, o) && Depth(src, o) > 1)
            && (forall o :: SeenIn(src, r, o) && Depth(src, o) > 1 ==> src.chains(src.ns, o).inferred)
  {
    var g :| GroupOf(src.es, src.ns, src.chains, r, g) && IsGroupRow(p, src.ns, g, src.crons(src.ns, r.name), src.now);
    forall o ensures o in g.members <==> SeenIn(src, r, o) {
      MembersAre(src, r, g, o);
    }
    assert forall o :: Depth(src, o) == |src.chains(src.ns, o).objects|;
  }

  // ---- The Pod it points at ------------------------------------------------

  /** A warning about a Pod of the workload. */
  ghost predicate PodWarning(src: Source, r: ObjRef, w: Event) {
    w in src.es && Belongs(src, r, w) && w.eventType == "Warning" && w.kind == "Pod"
  }

  /** The newest of them, of equals about the Pod of the least name. */
  ghost predicate NewestOfPods(src: Source, r: ObjRef, w: Event) {
    && PodWarning(src, r, w)
    && forall v :: PodWarning(src, r, v) ==>
         v.last < w.last || (v.last == w.last && !StringLess(v.objectName, w.objectName))
  }

  lemma LastOfPod(src: Source, r: ObjRef, g: Group, w: Event)
    requires ChainsOk(src.chains) && GroupOf(src.es, src.ns, src.chains, r, g) && PodWarning(src, r, w)
    ensures var o := ObjRef("Pod", w.objectName); o in g.members && g.members[o].warn && w.last <= g.members[o].last
  {
    var o := ObjRef("Pod", w.objectName);
    MembersAre(src, r, g, o);
    assert MemberOk(src.es, src.ns, src.chains, r, g.members, o);
    var ws := WarningsAbout(src.es, o);
    BelongsExactly(src, r, w);
    FilterMembers(src.es, e => MemberWarning(e) && Obj(e) == o, w);
    var ts := Map(LastTime, ws);
    LatestIsMax(ts);
    assert w in ws;
    var k :| 0 <= k < |ws| && ws[k] == w;
    assert ts[k] == w.last && ts[k] in ts;
  }

  lemma PodOfLast(src: Source, r: ObjRef, g: Group, o: ObjRef) returns (w: Event)
    requires ChainsOk(src.chains) && GroupOf(src.es, src.ns, src.chains, r, g)
    requires o in g.members && o.kind == "Pod" && g.members[o].last > ZERO_TIME
    ensures PodWarning(src, r, w) && w.objectName == o.name && w.last == g.members[o].last
  {
    assert MemberOk(src.es, src.ns, src.chains, r, g.members, o);
    var ws := WarningsAbout(src.es, o);
    LatestIsMax(Map(LastTime, ws));
    var k :| 0 <= k < |ws| && Map(LastTime, ws)[k] == g.members[o].last;
    w := ws[k];
    FilterMembers(src.es, e => MemberWarning(e) && Obj(e) == o, w);
    BelongsExactly(src, r, w);
  }

  /** A row points at the Pod with the newest warning, of equals the one of the least name; and at none only when no
      Pod's warning has a time. */
  lemma PodExactly(src: Source, r: ObjRef, p: Problem)
    requires ChainsOk(src.chains) && RowFor(src, r, p)
    ensures p.pod != "" ==> exists w :: NewestOfPods(src, r, w) && w.objectName == p.pod && w.last > ZERO_TIME
    ensures p.pod == "" ==> forall v :: PodWarning(src, r, v) ==> v.last <= ZERO_TIME
  {
    var g :| GroupOf(src.es, src.ns, src.chains, r, g) && IsGroupRow(p, src.ns, g, src.crons(src.ns, r.name), src.now);
    forall v | PodWarning(src, r, v)
      ensures var o := ObjRef("Pod", v.objectName); o in g.members && g.members[o].warn && v.last <= g.members[o].last
    {
      LastOfPod(src, r, g, v);
    }
    if p.pod != "" {
      var w := PodOfLast(src, r, g, ObjRef("Pod", p.pod));
      assert NewestOfPods(src, r, w);
    }
  }
}

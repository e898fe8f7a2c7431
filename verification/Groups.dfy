/** Filing a namespace's events under the workloads that own their objects, and the row of one workload
    (problems.go). */
module Groups {
  import opened Clock
  import opened Sequences
  import opened Events
  import opened Problems

  datatype Option<T> = None | Some(value: T)

  datatype ObjRef = ObjRef(kind: string, name: string)

  /** What owner resolution says of an object: its chain up to the root, and whether a link is a guess. */
  datatype Chain = Chain(objects: seq<ObjRef>, inferred: bool)

  type Chains = (string, ObjRef) -> Chain

  /** A chain starts with the object itself, so it is never empty. */
  ghost predicate ChainsOk(chains: Chains) {
    forall ns, o :: chains(ns, o).objects != []
  }

  function Obj(e: Event): ObjRef {
    ObjRef(e.kind, e.objectName)
  }

  function Root(c: Chain): ObjRef {
    if c.objects == [] then ObjRef("", "") else c.objects[|c.objects| - 1]
  }

  function RootOf(chains: Chains, ns: string): Event -> ObjRef {
    e => Root(chains(ns, Obj(e)))
  }

  predicate Named(e: Event) {
    e.kind != "" && e.objectName != ""
  }

  predicate OfNamespace(e: Event) {
    Named(e) && e.objectNamespace != ""
  }

  predicate MemberWarning(e: Event) {
    OfNamespace(e) && IsWarning(e)
  }

  predicate ClusterWarning(e: Event) {
    Named(e) && e.objectNamespace == "" && IsWarning(e)
  }

  // ---- Groups --------------------------------------------------------------

  datatype Member = Member(depth: nat, warn: bool, last: Time)

  datatype Group = Group(
    root: ObjRef, hasLinks: bool, confirmedLink: bool, members: map<ObjRef, Member>, warnings: seq<Event>)

  function EmptyGroup(r: ObjRef): Group {
    Group(r, false, false, map[], [])
  }

  function Touch(m: Member, e: Event): Member {
    if IsWarning(e) then Member(m.depth, true, if e.last > m.last then e.last else m.last) else m
  }

  function AddEvent(g: Group, e: Event, c: Chain): Group
    requires c.objects != []
  {
    var o := Obj(e);
    var m := if o in g.members then g.members[o] else Member(|c.objects| - 1, false, ZERO_TIME);
    g.(hasLinks := g.hasLinks || |c.objects| > 1,
       confirmedLink := g.confirmedLink || (|c.objects| > 1 && !c.inferred),
       members := g.members[o := Touch(m, e)],
       warnings := if IsWarning(e) then g.warnings + [e] else g.warnings)
  }

  ghost predicate Warned(es: seq<Event>, o: ObjRef) {
    exists e :: e in es && MemberWarning(e) && Obj(e) == o
  }

  ghost function WarningsAbout(es: seq<Event>, o: ObjRef): seq<Event> {
    Filter(es, e => MemberWarning(e) && Obj(e) == o)
  }

  ghost predicate Seen(es: seq<Event>, o: ObjRef) {
    exists e :: e in es && OfNamespace(e) && Obj(e) == o
  }

  /** What is recorded of object o: whether it had an event, its place in the chain, and its warnings. */
  ghost predicate MemberOk(es: seq<Event>, ns: string, chains: Chains, r: ObjRef, members: map<ObjRef, Member>,
                           o: ObjRef) {
    && (o in members <==> Seen(es, o) && Root(chains(ns, o)) == r)
    && (o in members ==>
          && members[o].depth + 1 == |chains(ns, o).objects|
          && (members[o].warn <==> Warned(es, o))
          && members[o].last == Latest(ZERO_TIME, Map(LastTime, WarningsAbout(es, o))))
  }

  ghost predicate MembersOf(es: seq<Event>, ns: string, chains: Chains, r: ObjRef, members: map<ObjRef, Member>) {
    forall o {:trigger MemberOk(es, ns, chains, r, members, o)} :: MemberOk(es, ns, chains, r, members, o)
  }

  ghost predicate GroupOf(es: seq<Event>, ns: string, chains: Chains, r: ObjRef, g: Group) {
    && g.root == r
    && g.warnings == Bucket(Filter(es, MemberWarning), RootOf(chains, ns), r)
    && MembersOf(es, ns, chains, r, g.members)
    && (g.hasLinks <==> exists o :: o in g.members && |chains(ns, o).objects| > 1)
    && (g.confirmedLink <==> exists o :: o in g.members && |chains(ns, o).objects| > 1 && !chains(ns, o).inferred)
  }

  lemma SeenStep(es: seq<Event>, e: Event, o: ObjRef)
    ensures Seen(es + [e], o) <==> Seen(es, o) || (OfNamespace(e) && Obj(e) == o)
    ensures Warned(es + [e], o) <==> Warned(es, o) || (MemberWarning(e) && Obj(e) == o)
  {
    assert forall f :: f in es + [e] <==> f in es || f == e;
  }

  lemma WarningsStep(es: seq<Event>, e: Event, key: Event -> ObjRef, r: ObjRef)
    ensures Bucket(Filter(es + [e], MemberWarning), key, r) ==
            if MemberWarning(e) && key(e) == r then Bucket(Filter(es, MemberWarning), key, r) + [e]
            else Bucket(Filter(es, MemberWarning), key, r)
  {
    FilterAppend(es, MemberWarning, e);
    BucketAppend(Filter(es, MemberWarning), key, r, e);
  }

  lemma LastStep(es: seq<Event>, e: Event, o: ObjRef)
    ensures Latest(ZERO_TIME, Map(LastTime, WarningsAbout(es + [e], o))) ==
            var before := Latest(ZERO_TIME, Map(LastTime, WarningsAbout(es, o)));
            if MemberWarning(e) && Obj(e) == o && e.last > before then e.last else before
  {
    FilterAppend(es, f => MemberWarning(f) && Obj(f) == o, e);
    var ws := WarningsAbout(es, o);
    if MemberWarning(e) && Obj(e) == o {
      assert Map(LastTime, ws + [e]) == Map(LastTime, ws) + [e.last];
      LatestStep(ZERO_TIME, Map(LastTime, ws), e.last);
    }
  }

  lemma NeverSeen(es: seq<Event>, o: ObjRef)
    requires !Seen(es, o)
    ensures !Warned(es, o) && WarningsAbout(es, o) == []
  {
    FilterEmpty(es, e => MemberWarning(e) && Obj(e) == o);
  }

  lemma MembersStep(es: seq<Event>, ns: string, chains: Chains, r: ObjRef, members: map<ObjRef, Member>, e: Event)
    requires MembersOf(es, ns, chains, r, members) && OfNamespace(e) && ChainsOk(chains)
    requires Root(chains(ns, Obj(e))) == r
    ensures var o := Obj(e);
            var m := if o in members then members[o] else Member(|chains(ns, o).objects| - 1, false, ZERO_TIME);
            MembersOf(es + [e], ns, chains, r, members[o := Touch(m, e)])
  {
    var k := Obj(e);
    var m := if k in members then members[k] else Member(|chains(ns, k).objects| - 1, false, ZERO_TIME);
    var members' := members[k := Touch(m, e)];
    forall o ensures MemberOk(es + [e], ns, chains, r, members', o) {
      assert MemberOk(es, ns, chains, r, members, o);
      SeenStep(es, e, o);
      LastStep(es, e, o);
      if o !in members {
        if o == k {
          NeverSeen(es, o);
        }
      }
    }
  }

  lemma AddEventOk(es: seq<Event>, ns: string, chains: Chains, r: ObjRef, g: Group, e: Event)
    requires GroupOf(es, ns, chains, r, g) && OfNamespace(e) && ChainsOk(chains)
    requires Root(chains(ns, Obj(e))) == r
    ensures GroupOf(es + [e], ns, chains, r, AddEvent(g, e, chains(ns, Obj(e))))
  {
    WarningsStep(es, e, RootOf(chains, ns), r);
    MembersStep(es, ns, chains, r, g.members, e);
  }

  lemma OtherEventOk(es: seq<Event>, ns: string, chains: Chains, r: ObjRef, g: Group, e: Event)
    requires GroupOf(es, ns, chains, r, g)
    requires OfNamespace(e) ==> Root(chains(ns, Obj(e))) != r
    ensures GroupOf(es + [e], ns, chains, r, g)
  {
    WarningsStep(es, e, RootOf(chains, ns), r);
    forall o ensures MemberOk(es + [e], ns, chains, r, g.members, o) {
      assert MemberOk(es, ns, chains, r, g.members, o);
      SeenStep(es, e, o);
      LastStep(es, e, o);
    }
  }

  ghost predicate HasRoot(es: seq<Event>, ns: string, chains: Chains, r: ObjRef) {
    exists e :: e in es && OfNamespace(e) && Root(chains(ns, Obj(e))) == r
  }

  lemma EmptyGroupOk(es: seq<Event>, ns: string, chains: Chains, r: ObjRef)
    requires !HasRoot(es, ns, chains, r)
    ensures GroupOf(es, ns, chains, r, EmptyGroup(r))
  {
    forall e | e in Filter(es, MemberWarning) ensures RootOf(chains, ns)(e) != r {
      FilterMembers(es, MemberWarning, e);
    }
    BucketEmpty(Filter(es, MemberWarning), RootOf(chains, ns), r);
    forall o ensures MemberOk(es, ns, chains, r, map[], o) {
      if Seen(es, o) {
        var e :| e in es && OfNamespace(e) && Obj(e) == o;
      }
    }
  }

  /** Group r of the namespace is there when it has an event, and holds what it should. */
  ghost predicate GroupOk(es: seq<Event>, ns: string, chains: Chains, groups: map<ObjRef, Group>, r: ObjRef) {
    && (r in groups <==> HasRoot(es, ns, chains, r))
    && (r in groups ==> GroupOf(es, ns, chains, r, groups[r]))
  }

  /** All the groups of a namespace, and the warnings about cluster-scoped objects recorded in it. */
  ghost predicate GroupsOf(es: seq<Event>, ns: string, chains: Chains, groups: map<ObjRef, Group>,
                           cluster: seq<Event>) {
    && cluster == Filter(es, ClusterWarning)
    && (forall r {:trigger GroupOk(es, ns, chains, groups, r)} :: GroupOk(es, ns, chains, groups, r))
  }

  lemma RootStep(es: seq<Event>, e: Event, ns: string, chains: Chains, r: ObjRef)
    ensures HasRoot(es + [e], ns, chains, r) <==>
        HasRoot(es, ns, chains, r) || (OfNamespace(e) && Root(chains(ns, Obj(e))) == r)
  {
    assert forall f :: f in es + [e] <==> f in es || f == e;
  }

  lemma GroupsStep(es: seq<Event>, ns: string, chains: Chains, groups: map<ObjRef, Group>, cluster: seq<Event>,
                   e: Event)
    requires GroupsOf(es, ns, chains, groups, cluster) && ChainsOk(chains) && OfNamespace(e)
    ensures var c := chains(ns, Obj(e));
            var r := Root(c);
            GroupsOf(es + [e], ns, chains,
                groups[r := AddEvent(if r in groups then groups[r] else EmptyGroup(r), e, c)], cluster)
  {
    var c := chains(ns, Obj(e));
    var k := Root(c);
    var g := if k in groups then groups[k] else EmptyGroup(k);
    var groups' := groups[k := AddEvent(g, e, c)];
    FilterAppend(es, ClusterWarning, e);
    forall r ensures GroupOk(es + [e], ns, chains, groups', r) {
      assert GroupOk(es, ns, chains, groups, r);
      RootStep(es, e, ns, chains, r);
      if r == k {
        if k !in groups {
          EmptyGroupOk(es, ns, chains, k);
        }
        AddEventOk(es, ns, chains, k, g, e);
      } else if r in groups {
        OtherEventOk(es, ns, chains, r, groups[r], e);
      }
    }
  }

  lemma ClusterEventStep(es: seq<Event>, ns: string, chains: Chains, groups: map<ObjRef, Group>, cluster: seq<Event>,
                         e: Event)
    requires GroupsOf(es, ns, chains, groups, cluster) && !OfNamespace(e)
    ensures GroupsOf(es + [e], ns, chains, groups, if ClusterWarning(e) then cluster + [e] else cluster)
  {
    FilterAppend(es, ClusterWarning, e);
    forall r ensures GroupOk(es + [e], ns, chains, groups, r) {
      assert GroupOk(es, ns, chains, groups, r);
      RootStep(es, e, ns, chains, r);
      if r in groups {
        OtherEventOk(es, ns, chains, r, groups[r], e);
      }
    }
  }

  method GroupEvents(ns: string, es: seq<Event>, chains: Chains)
    returns (groups: map<ObjRef, Group>, cluster: seq<Event>)
    requires ChainsOk(chains)
    ensures GroupsOf(es, ns, chains, groups, cluster)
  {
    groups, cluster := map[], [];
    for i := 0 to |es|
      invariant GroupsOf(es[..i], ns, chains, groups, cluster)
    {
      var e := es[i];
      PrefixStep(es, i);
      if e.kind == "" || e.objectName == "" {
        ClusterEventStep(es[..i], ns, chains, groups, cluster, e);
      } else if e.objectNamespace == "" {
        ClusterEventStep(es[..i], ns, chains, groups, cluster, e);
        if e.eventType == "Warning" {
          cluster := cluster + [e];
        }
      } else {
        GroupsStep(es[..i], ns, chains, groups, cluster, e);
        var chain := chains(ns, Obj(e));
        var root := Root(chain);
        var g := if root in groups then groups[root] else EmptyGroup(root);
        groups := groups[root := AddEvent(g, e, chain)];
      }
    }
    assert es[..|es|] == es;
  }
}

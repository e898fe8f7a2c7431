/** Names that Kubernetes generates, read back (owners.go, main.go): what a controller's name and a generated suffix
    lead to, and every name that leads nowhere. */
module NameLaws {
  import opened Clock
  import opened Groups
  import opened Names
  import opened Owners
  import opened OwnerChains

  // ---- Generated suffixes --------------------------------------------------

  ghost predicate Digits(s: string) {
    s != "" && forall i :: 0 <= i < |s| ==> 48 <= s[i] as int <= 57
  }

  /** Small letters that are no vowels (the y is none either), and the digits from 2 on but for 3. */
  ghost predicate SafeCode(c: char) {
    (97 <= c as int <= 122 && c !in "aeiouy") || c == '2' || 52 <= c as int <= 57
  }

  ghost predicate Safe(s: string) {
    forall i :: 0 <= i < |s| ==> SafeCode(s[i])
  }

  lemma SafeCharOnly(c: char)
    requires c in SAFE_ALPHABET
    ensures SafeCode(c)
  {
    var letters, digits := "bcdfghjklmnpqrstvwxz", "2456789";
    assert SAFE_ALPHABET == letters + digits;
    if c in digits {
      SafeDigit(c);
    } else {
      SafeLetter(c);
    }
  }

  lemma SafeDigit(c: char)
    requires c in "2456789"
    ensures c == '2' || 52 <= c as int <= 57
  {
  }

  lemma SafeLetter(c: char)
    requires c in "bcdfghjklmnpqrstvwxz"
    ensures 97 <= c as int <= 122 && c !in "aeiouy"
  {
  }

  lemma SafeCharAll(c: char)
    requires SafeCode(c)
    ensures c in SAFE_ALPHABET
  {
    assert SAFE_ALPHABET == "bcdfghjklmnpqrstvwxz" + "2456789";
    if c as int <= 57 {
      assert c in "2456789";
    } else {
      assert c in "bcdfghjklmnpqrstvwxz";
    }
  }

  lemma SafeExactly(s: string, least: int, most: int)
    ensures IsSafeEncoded(s, least, most) <==> least <= |s| <= most && Safe(s)
  {
    forall i | 0 <= i < |s| ensures s[i] in SAFE_ALPHABET <==> SafeCode(s[i]) {
      if s[i] in SAFE_ALPHABET {
        SafeCharOnly(s[i]);
      }
      if SafeCode(s[i]) {
        SafeCharAll(s[i]);
      }
    }
  }

  lemma DigitsExactly(s: string)
    ensures IsAllDigits(s) <==> Digits(s)
  {
  }

  lemma NoDash(s: string)
    requires Safe(s) || Digits(s)
    ensures '-' !in s
  {
  }

  /** A name is cut where it was put together. */
  lemma CutTogether(p: string, s: string)
    requires '-' !in s
    ensures StripLast(p + "-" + s) == Cut(p, s)
  {
    var name := p + "-" + s;
    assert name[|p|] == '-' && name[..|p|] == p && name[|p| + 1..] == s;
    var c := StripLast(name);
    assert name[|c.prefix|] == '-' && name[|c.prefix| + 1..] == c.suffix && name[..|c.prefix|] == c.prefix;
  }

  // ---- What a generated name leads to --------------------------------------

  /** The hash of a pod template, in a ReplicaSet's name. */
  ghost predicate TemplateHash(h: string) {
    6 <= |h| <= 10 && Safe(h)
  }

  /** The time of a CronJob's run, in a Job's name. */
  ghost predicate RunTime(t: string) {
    8 <= |t| <= 10 && Digits(t)
  }

  /** What a generated Pod name ends with. */
  ghost predicate PodSuffix(x: string) {
    |x| == 5 && Safe(x)
  }

  lemma PodOfReplicaSet(d: string, h: string, x: string)
    requires d != "" && TemplateHash(h) && !RunTime(h) && PodSuffix(x)
    ensures InferParent("Pod", d + "-" + h + "-" + x) == Some(ObjRef("ReplicaSet", d + "-" + h))
  {
    CutPod(d + "-" + h, x);
    NoDash(h);
    CutTogether(d, h);
    SafeExactly(h, 6, 10);
    DigitsExactly(h);
  }

  lemma CutPod(p: string, x: string)
    requires PodSuffix(x)
    ensures StripLast(p + "-" + x) == Cut(p, x) && IsSafeEncoded(x, 5, 5)
  {
    NoDash(x);
    CutTogether(p, x);
    SafeExactly(x, 5, 5);
  }

  lemma ReplicaSetOfDeployment(d: string, h: string)
    requires d != "" && TemplateHash(h)
    ensures InferParent("ReplicaSet", d + "-" + h) == Some(ObjRef("Deployment", d))
  {
    NoDash(h);
    CutTogether(d, h);
    SafeExactly(h, 6, 10);
  }

  lemma PodOfJob(c: string, t: string, x: string)
    requires RunTime(t) && PodSuffix(x)
    ensures InferParent("Pod", c + "-" + t + "-" + x) == Some(ObjRef("Job", c + "-" + t))
  {
    CutPod(c + "-" + t, x);
    NoDash(t);
    CutTogether(c, t);
    DigitsExactly(t);
  }

  lemma JobOfCronJob(c: string, t: string)
    requires c != "" && RunTime(t)
    ensures InferParent("Job", c + "-" + t) == Some(ObjRef("CronJob", c))
  {
    NoDash(t);
    CutTogether(c, t);
    DigitsExactly(t);
  }

  lemma PodOfStatefulSet(d: string, n: string)
    requires d != "" && Digits(n) && |n| <= 4
    ensures InferParent("Pod", d + "-" + n) == Some(ObjRef("StatefulSet", d))
  {
    NoDash(n);
    CutTogether(d, n);
    DigitsExactly(n);
  }

  /** A name that ends with a hash or a time. */
  ghost predicate EndsGenerated(p: string, d: string, h: string) {
    p == d + "-" + h && (TemplateHash(h) || RunTime(h))
  }

  lemma ControllerUnknown(p: string)
    requires forall d, h :: !EndsGenerated(p, d, h)
    ensures PodController(p) == ""
  {
    match StripLast(p)
    case Uncut =>
    case Cut(d, h) =>
      assert p == d + "-" + h && !EndsGenerated(p, d, h);
      SuffixExactly(h);
  }

  /** A Pod of a DaemonSet or of a plain Job: the controller's name ends with neither a hash nor a time. */
  lemma PodOfSomething(p: string, x: string)
    requires p != "" && PodSuffix(x)
    requires forall d, h :: !EndsGenerated(p, d, h)
    ensures InferParent("Pod", p + "-" + x) == Some(ObjRef("", p))
  {
    CutPod(p, x);
    ControllerUnknown(p);
  }

  // ---- Names that lead nowhere ---------------------------------------------

  /** What a kind's generated names are put together from. */
  ghost predicate Shape(kind: string, p: string, s: string) {
    && p != "" && '-' !in s
    && (|| (kind == "Pod" && ((Digits(s) && |s| <= 4) || PodSuffix(s)))
        || (kind == "Job" && RunTime(s))
        || (kind == "ReplicaSet" && TemplateHash(s)))
  }

  /** A name is taken as generated exactly when it is put together so. */
  lemma GuessedExactly(kind: string, name: string)
    ensures InferParent(kind, name).Some? <==> exists p, s :: Shape(kind, p, s) && name == p + "-" + s
    ensures InferParent(kind, name).Some? ==>
              exists s :: Shape(kind, InferParent(kind, name).value.name, s)
                  && name == InferParent(kind, name).value.name + "-" + s
  {
    if p, s :| Shape(kind, p, s) && name == p + "-" + s {
      CutTogether(p, s);
      SuffixExactly(s);
    }
    match StripLast(name)
    case Uncut =>
    case Cut(p, s) =>
      SuffixExactly(s);
      assert name == p + "-" + s;
      assert InferParent(kind, name).Some? ==> Shape(kind, p, s);
  }

  lemma SuffixExactly(s: string)
    ensures IsAllDigits(s) <==> Digits(s)
    ensures IsSafeEncoded(s, 5, 5) <==> PodSuffix(s)
    ensures IsSafeEncoded(s, 6, 10) <==> TemplateHash(s)
  {
    DigitsExactly(s);
    SafeExactly(s, 5, 5);
    SafeExactly(s, 6, 10);
  }

  // ---- The parent among the objects at hand --------------------------------

  ghost predicate SmallAlnum(s: string) {
    forall i :: 0 <= i < |s| ==> 97 <= s[i] as int <= 122 || 48 <= s[i] as int <= 57
  }

  /** The suffixes with which an owner of a kind names what it makes, read more widely than above. */
  ghost predicate Suffixed(owner: string, kind: string, s: string) {
    || (owner == "StatefulSet" && kind == "Pod" && Digits(s))
    || (owner in {"ReplicaSet", "Job", "DaemonSet"} && kind == "Pod" && |s| == 5 && SmallAlnum(s))
    || (owner == "Deployment" && kind == "ReplicaSet" && 6 <= |s| <= 12 && SmallAlnum(s))
    || (owner == "CronJob" && kind == "Job" && RunTime(s))
  }

  ghost predicate MayOwn(p: ObjRef, s: string, o: ObjRef) {
    o.name == p.name + "-" + s && '-' !in s && Suffixed(p.kind, o.kind, s)
  }

  /** Of several possible owners, a StatefulSet goes first, then a ReplicaSet, then a Job. */
  ghost predicate Preferred(owner: string, other: string) {
    || owner == other || owner == "StatefulSet"
    || (owner == "ReplicaSet" && other != "StatefulSet")
    || (owner == "Job" && other == "DaemonSet")
  }

  lemma CutSuffixes(s: string)
    ensures IsAllDigits(s) <==> Digits(s)
    ensures s != "" ==> (IsAlphanumLower(s) <==> SmallAlnum(s))
  {
    DigitsExactly(s);
  }

  lemma DetectedMayOwn(o: ObjRef, has: ObjRef -> bool)
    requires DetectParent(o, has).Some?
    ensures exists s :: MayOwn(DetectParent(o, has).value, s, o)
  {
    match StripLast(o.name)
    case Cut(p, s) =>
      CutSuffixes(s);
      assert o.name == p + "-" + s;
      assert MayOwn(DetectParent(o, has).value, s, o);
  }

  lemma DetectedIsPreferred(o: ObjRef, has: ObjRef -> bool, p: ObjRef, s: string)
    requires MayOwn(p, s, o) && has(p)
    ensures DetectParent(o, has).Some? && DetectParent(o, has).value.name == p.name
    ensures Preferred(DetectParent(o, has).value.kind, p.kind)
  {
    CutTogether(p.name, s);
    CutSuffixes(s);
    assert p == ObjRef(p.kind, p.name);
  }

  /** An object is put under an owner exactly when one at hand may own it, and then under the preferred one. */
  lemma DetectedExactly(o: ObjRef, has: ObjRef -> bool)
    ensures DetectParent(o, has).Some? <==> exists p, s :: MayOwn(p, s, o) && has(p)
    ensures var q := DetectParent(o, has);
            q.Some? ==> has(q.value) && (exists s :: MayOwn(q.value, s, o))
                        && forall p, s :: MayOwn(p, s, o) && has(p) ==> Preferred(q.value.kind, p.kind)
  {
    if DetectParent(o, has).Some? {
      DetectedMayOwn(o, has);
    }
    forall p, s | MayOwn(p, s, o) && has(p)
      ensures DetectParent(o, has).Some? && Preferred(DetectParent(o, has).value.kind, p.kind)
    {
      DetectedIsPreferred(o, has, p, s);
    }
  }

  // ---- Whole chains --------------------------------------------------------

  /** The cache has no good answer for any of the objects, and has seen none of their names. */
  ghost predicate Unknown(known: Known, kindOf: Kinds, ns: string, now: Time, os: seq<ObjRef>) {
    forall o :: o in os ==> !Settled(known, ns, o, now) && (ns, o.name) !in kindOf
  }

  lemma GuessLink(known: Known, kindOf: Kinds, ns: string, now: Time, o: ObjRef, p: ObjRef)
    requires !Settled(known, ns, o, now) && (ns, p.name) !in kindOf && InferParent(o.kind, o.name) == Some(p)
    ensures LinkAt(known, kindOf, ns, now)(o) == Guessed(p)
  {
  }

  lemma TopLink(known: Known, kindOf: Kinds, ns: string, now: Time, o: ObjRef)
    requires !Settled(known, ns, o, now) && InferParent(o.kind, o.name) == None
    ensures LinkAt(known, kindOf, ns, now)(o) == Top
  {
  }

  lemma ThreeClimb(link: ObjRef -> Link, a: ObjRef, b: ObjRef, c: ObjRef)
    requires link(a) == Guessed(b) && link(b) == Guessed(c) && link(c) == Top
    ensures Climb(link, a, OWNER_MAX_DEPTH) == [a, b, c]
  {
    assert Climb(link, c, 2) == [c];
    assert Climb(link, b, 3) == [b] + [c];
    assert Climb(link, a, 4) == [a] + ([b] + [c]);
  }

  lemma TwoClimb(link: ObjRef -> Link, a: ObjRef, b: ObjRef)
    requires link(a) == Guessed(b) && link(b) == Top
    ensures Climb(link, a, OWNER_MAX_DEPTH) == [a, b]
  {
    assert Climb(link, b, 3) == [b];
    assert Climb(link, a, 4) == [a] + [b];
  }

  /** A rollout's Pod belongs to its ReplicaSet and that to its Deployment, */
  lemma RolloutChain(known: Known, kindOf: Kinds, ns: string, now: Time, d: string, h: string, x: string)
    requires d != "" && TemplateHash(h) && !RunTime(h) && PodSuffix(x)
    requires Unknown(known, kindOf, ns, now, [ObjRef("Pod", d + "-" + h + "-" + x), ObjRef("ReplicaSet", d + "-" + h),
                                              ObjRef("Deployment", d)])
    ensures ChainOf(known, kindOf, ns, ObjRef("Pod", d + "-" + h + "-" + x), now) ==
            [ObjRef("Pod", d + "-" + h + "-" + x), ObjRef("ReplicaSet", d + "-" + h), ObjRef("Deployment", d)]
  {
    var a, b, c := ObjRef("Pod", d + "-" + h + "-" + x), ObjRef("ReplicaSet", d + "-" + h), ObjRef("Deployment", d);
    PodOfReplicaSet(d, h, x);
    ReplicaSetOfDeployment(d, h);
    ChainOfThree(known, kindOf, ns, now, a, b, c);
  }

  lemma ChainOfThree(known: Known, kindOf: Kinds, ns: string, now: Time, a: ObjRef, b: ObjRef, c: ObjRef)
    requires Unknown(known, kindOf, ns, now, [a, b, c]) && c.kind != "Pod" && c.kind != "Job" && c.kind != "ReplicaSet"
    requires InferParent(a.kind, a.name) == Some(b) && InferParent(b.kind, b.name) == Some(c)
    ensures ChainOf(known, kindOf, ns, a, now) == [a, b, c]
  {
    assert a in [a, b, c] && b in [a, b, c] && c in [a, b, c];
    GuessLink(known, kindOf, ns, now, a, b);
    GuessLink(known, kindOf, ns, now, b, c);
    TopLink(known, kindOf, ns, now, c);
    ThreeClimb(LinkAt(known, kindOf, ns, now), a, b, c);
  }

  lemma ChainOfTwo(known: Known, kindOf: Kinds, ns: string, now: Time, a: ObjRef, b: ObjRef)
    requires Unknown(known, kindOf, ns, now, [a, b]) && b.kind != "Pod" && b.kind != "Job" && b.kind != "ReplicaSet"
    requires InferParent(a.kind, a.name) == Some(b)
    ensures ChainOf(known, kindOf, ns, a, now) == [a, b]
  {
    assert a in [a, b] && b in [a, b];
    GuessLink(known, kindOf, ns, now, a, b);
    TopLink(known, kindOf, ns, now, b);
    TwoClimb(LinkAt(known, kindOf, ns, now), a, b);
  }

  /** a scheduled run's to its Job and that to its CronJob, */
  lemma CronChain(known: Known, kindOf: Kinds, ns: string, now: Time, c: string, t: string, x: string)
    requires c != "" && RunTime(t) && PodSuffix(x)
    requires Unknown(known, kindOf, ns, now, [ObjRef("Pod", c + "-" + t + "-" + x), ObjRef("Job", c + "-" + t),
                                              ObjRef("CronJob", c)])
    ensures ChainOf(known, kindOf, ns, ObjRef("Pod", c + "-" + t + "-" + x), now) ==
            [ObjRef("Pod", c + "-" + t + "-" + x), ObjRef("Job", c + "-" + t), ObjRef("CronJob", c)]
  {
    PodOfJob(c, t, x);
    JobOfCronJob(c, t);
    ChainOfThree(known, kindOf, ns, now, ObjRef("Pod", c + "-" + t + "-" + x), ObjRef("Job", c + "-" + t),
                 ObjRef("CronJob", c));
  }

  /** an ordinal's to its StatefulSet, */
  lemma OrdinalChain(known: Known, kindOf: Kinds, ns: string, now: Time, d: string, n: string)
    requires d != "" && Digits(n) && |n| <= 4
    requires Unknown(known, kindOf, ns, now, [ObjRef("Pod", d + "-" + n), ObjRef("StatefulSet", d)])
    ensures ChainOf(known, kindOf, ns, ObjRef("Pod", d + "-" + n), now) == [ObjRef("Pod", d + "-" + n),
        ObjRef("StatefulSet", d)]
  {
    PodOfStatefulSet(d, n);
    ChainOfTwo(known, kindOf, ns, now, ObjRef("Pod", d + "-" + n), ObjRef("StatefulSet", d));
  }

  /** and any other generated Pod to something of the name before its suffix. */
  lemma KindlessChain(known: Known, kindOf: Kinds, ns: string, now: Time, p: string, x: string)
    requires p != "" && PodSuffix(x) && forall d, h :: !EndsGenerated(p, d, h)
    requires Unknown(known, kindOf, ns, now, [ObjRef("Pod", p + "-" + x), ObjRef("", p)])
    ensures ChainOf(known, kindOf, ns, ObjRef("Pod", p + "-" + x), now) == [ObjRef("Pod", p + "-" + x), ObjRef("", p)]
  {
    PodOfSomething(p, x);
    ChainOfTwo(known, kindOf, ns, now, ObjRef("Pod", p + "-" + x), ObjRef("", p));
  }

  // ---- What the cache knows ------------------------------------------------

  /** An answer that found its object is good for less than half an hour. */
  ghost predicate GoodAnswer(known: Known, ns: string, o: ObjRef, now: Time) {
    var k := Key(ns, o.kind, o.name);
    k in known && !known[k].missing && now - known[k].at < 1_800_000_000_000
  }

  /** A good answer decides the owner; otherwise the name does, with the kind that an answer gave for the owner's
      name. */
  ghost predicate LinksTo(known: Known, kindOf: Kinds, ns: string, now: Time, o: ObjRef, p: ObjRef) {
    if GoodAnswer(known, ns, o, now) then p.name != "" && p == known[Key(ns, o.kind, o.name)].parent
    else
      var guess := InferParent(o.kind, o.name);
      && guess.Some? && p.name == guess.value.name
      && p.kind == if (ns, p.name) in kindOf then kindOf[(ns, p.name)] else guess.value.kind
  }

  ghost predicate LinksNowhere(known: Known, ns: string, now: Time, o: ObjRef) {
    if GoodAnswer(known, ns, o, now) then known[Key(ns, o.kind, o.name)].parent.name == ""
    else InferParent(o.kind, o.name).None?
  }

  lemma LinkExactly(known: Known, kindOf: Kinds, ns: string, now: Time, o: ObjRef, p: ObjRef)
    ensures LinkAt(known, kindOf, ns, now)(o) in {Answered(p), Guessed(p)} <==> LinksTo(known, kindOf, ns, now, o, p)
    ensures LinkAt(known, kindOf, ns, now)(o).Top? <==> LinksNowhere(known, ns, now, o)
  {
    assert GoodAnswer(known, ns, o, now) <==> Settled(known, ns, o, now);
  }

  lemma {:induction false} ClimbLinks(link: ObjRef -> Link, o: ObjRef, depth: nat)
    ensures var chain := Climb(link, o, depth);
            && (forall i :: 0 <= i < |chain| - 1 ==> link(chain[i]) in {Answered(chain[i + 1]), Guessed(chain[i + 1])})
            && (link(chain[|chain| - 1]).Top? || |chain| == depth + 1)
    decreases depth
  {
    if depth > 0 && !link(o).Top? {
      ClimbLinks(link, link(o).parent, depth - 1);
    }
  }

  /** A chain goes up link by link from its object, to one without an owner or to the fifth. */
  lemma ChainExactly(known: Known, kindOf: Kinds, ns: string, o: ObjRef, now: Time)
    ensures var chain := ChainOf(known, kindOf, ns, o, now);
            && 1 <= |chain| <= 5 && chain[0] == o
            && (forall i :: 0 <= i < |chain| - 1 ==> LinksTo(known, kindOf, ns, now, chain[i], chain[i + 1]))
            && (|chain| < 5 ==> LinksNowhere(known, ns, now, chain[|chain| - 1]))
  {
    var chain := ChainOf(known, kindOf, ns, o, now);
    ClimbLinks(LinkAt(known, kindOf, ns, now), o, 4);
    forall i | 0 <= i < |chain| - 1 ensures LinksTo(known, kindOf, ns, now, chain[i], chain[i + 1]) {
      LinkExactly(known, kindOf, ns, now, chain[i], chain[i + 1]);
    }
    LinkExactly(known, kindOf, ns, now, chain[|chain| - 1], o);
  }
}

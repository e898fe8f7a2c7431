/** What object names tell of their controllers (main.go, owners.go). */
module Names {
  import opened Groups

  datatype Cut = Uncut | Cut(prefix: string, suffix: string)

  /** A name cut at its last dash. */
  function StripLast(name: string): (c: Cut)
    ensures c.Uncut? <==> '-' !in name
    ensures c.Cut? ==> name == c.prefix + ['-'] + c.suffix && '-' !in c.suffix && |c.prefix| < |name|
  {
    if name == [] then Uncut
    else if name[|name| - 1] == '-' then Cut(name[..|name| - 1], "")
    else match StripLast(name[..|name| - 1])
         case Uncut => Uncut
         case Cut(p, s) => Cut(p, s + [name[|name| - 1]])
  }

  predicate IsAllDigits(s: string) {
    s != [] && forall i :: 0 <= i < |s| ==> '0' <= s[i] <= '9'
  }

  predicate IsAlphanumLower(s: string) {
    s != [] && forall i :: 0 <= i < |s| ==> 'a' <= s[i] <= 'z' || '0' <= s[i] <= '9'
  }

  /** Generated suffixes have no vowels and none of 0, 1 and 3. */
  const SAFE_ALPHABET := "bcdfghjklmnpqrstvwxz2456789"

  predicate IsSafeEncoded(s: string, least: int, most: int) {
    least <= |s| <= most && forall i :: 0 <= i < |s| ==> s[i] in SAFE_ALPHABET
  }

  /** The controller an object's name suggests; without a kind when the name fits several. */
  function InferParent(kind: string, name: string): (p: Option<ObjRef>)
    ensures p.Some? ==> 0 < |p.value.name| < |name|
  {
    match StripLast(name)
    case Uncut => None
    case Cut(prefix, suffix) =>
      if prefix == "" then None
      else if kind == "Pod" then
        if IsAllDigits(suffix) && |suffix| <= 4 then Some(ObjRef("StatefulSet", prefix))
        else if IsSafeEncoded(suffix, 5, 5) then Some(ObjRef(PodController(prefix), prefix))
        else None
      else if kind == "Job" then
        if IsAllDigits(suffix) && 8 <= |suffix| <= 10 then Some(ObjRef("CronJob", prefix)) else None
      else if kind == "ReplicaSet" then
        if IsSafeEncoded(suffix, 6, 10) then Some(ObjRef("Deployment", prefix)) else None
      else None
  }

  function PodController(prefix: string): string {
    match StripLast(prefix)
    case Uncut => ""
    case Cut(_, s) =>
      if 8 <= |s| <= 10 && IsAllDigits(s) then "Job"
      else if IsSafeEncoded(s, 6, 10) then "ReplicaSet"
      else ""
  }

  /** The parent among the objects at hand that a name points to. */
  function DetectParent(o: ObjRef, has: ObjRef -> bool): (p: Option<ObjRef>)
    ensures p.Some? ==> has(p.value) && p.value.kind != "" && |p.value.name| < |o.name|
  {
    match StripLast(o.name)
    case Uncut => None
    case Cut(prefix, suffix) =>
      if o.kind == "Pod" then
        if IsAllDigits(suffix) && has(ObjRef("StatefulSet", prefix)) then Some(ObjRef("StatefulSet", prefix))
        else if |suffix| == 5 && IsAlphanumLower(suffix) then
          if has(ObjRef("ReplicaSet", prefix)) then Some(ObjRef("ReplicaSet", prefix))
          else if has(ObjRef("Job", prefix)) then Some(ObjRef("Job", prefix))
          else if has(ObjRef("DaemonSet", prefix)) then Some(ObjRef("DaemonSet", prefix))
          else None
        else None
      else if o.kind == "ReplicaSet" then
        if 6 <= |suffix| <= 12 && IsAlphanumLower(suffix) && has(ObjRef("Deployment", prefix))
            then Some(ObjRef("Deployment", prefix)) else None
      else if o.kind == "Job" then
        if 8 <= |suffix| <= 10 && IsAllDigits(suffix) && has(ObjRef("CronJob", prefix))
            then Some(ObjRef("CronJob", prefix)) else None
      else None
  }
}

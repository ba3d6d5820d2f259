/** The hash that binds an approval to a plan: which fields it fixes, and when it survives storage. */
module PlanHash {
  import opened Records
  import opened Clocks
  import opened Json
  import opened Canonical

  datatype Plan = Plan(
    id: string, attention: string, actor: string, approver: string, intent: string,
    workflowName: Option<string>, workflowVersion: Option<int>, parameters: seq<Field>,
    sourceVersions: seq<Field>, policyVersion: string, hash: string, createdAt: Clock, expiresAt: Clock)

  // What the domain type guarantees: dict keys, and versions that are numbers.
  predicate PlanFits(p: Plan) {
    && WellFormed(Obj(p.parameters)) && WellFormed(Obj(p.sourceVersions)) && Valid(p.expiresAt)
    && forall i :: 0 <= i < |p.sourceVersions| ==> p.sourceVersions[i].1.Num?
  }

  const KEYS := ["attention_id", "actor_id", "approver_id", "intent", "workflow_name", "workflow_version",
                 "parameters", "source_versions", "policy_version", "expires_at"]

  function Values(p: Plan): seq<Value>
    requires IsOffset(p.expiresAt.offset)
  {
    [Str(p.attention), Str(p.actor), Str(p.approver), Str(p.intent),
     if p.workflowName.Some? then Str(p.workflowName.value) else Null,
     if p.workflowVersion.Some? then Num(p.workflowVersion.value) else Null,
     Obj(p.parameters), Obj(p.sourceVersions), Str(p.policyVersion), Str(Iso(p.expiresAt))]
  }

  function Zip(keys: seq<string>, values: seq<Value>): (r: seq<Field>)
    requires |keys| == |values|
    ensures |r| == |keys| && forall i :: 0 <= i < |keys| ==> r[i] == (keys[i], values[i])
  {
    seq(|keys|, i requires 0 <= i < |keys| => (keys[i], values[i]))
  }

  function Payload(p: Plan): Value
    requires IsOffset(p.expiresAt.offset)
  {
    Obj(Zip(KEYS, Values(p)))
  }

  // What is hashed, by name.
  lemma PayloadIs(p: Plan)
    requires IsOffset(p.expiresAt.offset)
    ensures Payload(p).fields ==
            [("attention_id", Str(p.attention)), ("actor_id", Str(p.actor)), ("approver_id", Str(p.approver)), ("intent", Str(p.intent)),
             ("workflow_name", match p.workflowName case Some(name) => Str(name) case None => Null),
             ("workflow_version", match p.workflowVersion case Some(version) => Num(version) case None => Null),
             ("parameters", Obj(p.parameters)), ("source_versions", Obj(p.sourceVersions)),
             ("policy_version", Str(p.policyVersion)), ("expires_at", Str(Iso(p.expiresAt)))]
  {
    hide Iso;
  }

  // recompute_plan_hash, for a digest function.
  function RecomputeHash(p: Plan, digest: string -> string): string
    requires IsOffset(p.expiresAt.offset)
  {
    "sha256:" + digest(Dumps(Payload(p)))
  }

  ghost predicate CollisionFree(digest: string -> string) { forall s, t :: digest(s) == digest(t) ==> s == t }

  // The fields an approval is bound to. The plan's id and creation time are not among them.
  ghost predicate SameBound(p: Plan, q: Plan) {
    && p.attention == q.attention && p.actor == q.actor && p.approver == q.approver && p.intent == q.intent
    && p.workflowName == q.workflowName && p.workflowVersion == q.workflowVersion
    && Same(Obj(p.parameters), Obj(q.parameters)) && Same(Obj(p.sourceVersions), Obj(q.sourceVersions))
    && p.policyVersion == q.policyVersion && p.expiresAt == q.expiresAt
  }

  predicate DistinctTexts(keys: seq<string>) { forall i, j :: 0 <= i < j < |keys| ==> keys[i] != keys[j] }

  lemma KeysAreDistinct()
    ensures |KEYS| == 10 && DistinctTexts(KEYS)
  {
    assert |KEYS[0]| == 12 && |KEYS[1]| == 8 && |KEYS[2]| == 11 && |KEYS[3]| == 6 && |KEYS[4]| == 13;
    assert |KEYS[5]| == 16 && |KEYS[6]| == 10 && |KEYS[7]| == 15 && |KEYS[8]| == 14 && |KEYS[9]| == 10;
    assert KEYS[6][0] == 'p' && KEYS[9][0] == 'e';
  }

  // Objects with the same distinct keys in the same places are the same value by value.
  lemma AlignedSame(keys: seq<string>, a: seq<Value>, b: seq<Value>)
    requires |a| == |keys| == |b| && DistinctTexts(keys)
    ensures Same(Obj(Zip(keys, a)), Obj(Zip(keys, b))) <==> forall i :: 0 <= i < |keys| ==> Same(a[i], b[i])
  {
    hide Same, SameField, MatchedIn, MatchedBy;
    var f, g := Zip(keys, a), Zip(keys, b);
    SameIs(Obj(f), Obj(g), ("", Null), ("", Null));
    forall i | 0 <= i < |keys| ensures (MatchedIn(f[i], g) <==> Same(a[i], b[i])) && (MatchedBy(f, g[i]) <==> Same(a[i], b[i])) {
      MatchesAreAligned(keys, a, b, i);
    }
    if forall i :: 0 <= i < |keys| ==> Same(a[i], b[i]) {
      assert SameFields(f, g);
    }
    if SameFields(f, g) {
      forall i | 0 <= i < |keys| ensures Same(a[i], b[i]) { assert MatchedIn(f[i], g); }
    }
  }

  lemma MatchesAreAligned(keys: seq<string>, a: seq<Value>, b: seq<Value>, i: nat)
    requires |a| == |keys| == |b| && DistinctTexts(keys) && i < |keys|
    ensures MatchedIn(Zip(keys, a)[i], Zip(keys, b)) <==> Same(a[i], b[i])
    ensures MatchedBy(Zip(keys, a), Zip(keys, b)[i]) <==> Same(a[i], b[i])
  {
    var f, g := Zip(keys, a), Zip(keys, b);
    hide Same, SameField;
    forall j, k | 0 <= j < |keys| && 0 <= k < |keys| ensures SameField(f[j], g[k]) <==> j == k && Same(a[j], b[k]) {
      SameIs(Null, Null, f[j], g[k]);
    }
    if Same(a[i], b[i]) { assert SameField(f[i], g[i]); }
  }

  lemma PayloadFits(p: Plan)
    requires PlanFits(p)
    ensures WellFormed(Payload(p))
  {
    KeysAreDistinct();
    var f, v := Zip(KEYS, Values(p)), Values(p);
    forall i | 0 <= i < 10 ensures WellFormed(f[i].1) { assert f[i].1 == v[i]; }
    forall i, j | 0 <= i < j < 10 ensures f[i].0 != f[j].0 {}
  }

  lemma PayloadSame(p: Plan, q: Plan)
    requires PlanFits(p) && PlanFits(q)
    ensures Same(Payload(p), Payload(q)) <==> SameBound(p, q)
  {
    hide Same, Iso, SameBound;
    KeysAreDistinct();
    AlignedSame(KEYS, Values(p), Values(q));
    IsoIdentifies(p.expiresAt, q.expiresAt);
    ValuesSame(p, q);
  }

  lemma ValuesSame(p: Plan, q: Plan)
    requires IsOffset(p.expiresAt.offset) && IsOffset(q.expiresAt.offset)
    requires Iso(p.expiresAt) == Iso(q.expiresAt) <==> p.expiresAt == q.expiresAt
    ensures (forall i :: 0 <= i < 10 ==> Same(Values(p)[i], Values(q)[i])) <==> SameBound(p, q)
  {
    hide Same, Iso;
    var v, w := Values(p), Values(q);
    var none := ("", Null);
    AllTen(v, w);
    SameIs(v[0], w[0], none, none);
    SameIs(v[1], w[1], none, none);
    SameIs(v[2], w[2], none, none);
    SameIs(v[3], w[3], none, none);
    SameIs(v[4], w[4], none, none);
    SameIs(v[5], w[5], none, none);
    SameIs(v[8], w[8], none, none);
    SameIs(v[9], w[9], none, none);
  }

  lemma AllTen(v: seq<Value>, w: seq<Value>)
    requires |v| == |w| == 10
    ensures (forall i :: 0 <= i < 10 ==> Same(v[i], w[i])) <==>
      Same(v[0], w[0]) && Same(v[1], w[1]) && Same(v[2], w[2]) && Same(v[3], w[3]) && Same(v[4], w[4])
      && Same(v[5], w[5]) && Same(v[6], w[6]) && Same(v[7], w[7]) && Same(v[8], w[8]) && Same(v[9], w[9])
  {
    hide Same;
  }

  // Equal hashes mean equal bound content, and equal bound content means equal hashes, whatever the
  // order in which the mappings were filled.
  lemma HashIdentifies(p: Plan, q: Plan, digest: string -> string)
    requires PlanFits(p) && PlanFits(q) && CollisionFree(digest)
    ensures RecomputeHash(p, digest) == RecomputeHash(q, digest) <==> SameBound(p, q)
  {
    PayloadFits(p);
    PayloadFits(q);
    PayloadSame(p, q);
    CanonicalIdentifies(Payload(p), Payload(q));
    hide PlanFits, Payload, SameBound, Same;
    var a, b := digest(Dumps(Payload(p))), digest(Dumps(Payload(q)));
    if "sha256:" + a == "sha256:" + b { SplitAt("sha256:", a, "sha256:", b); }
  }

  // ---- storage ----

  // What a later load returns: JSONB keeps objects as dictionaries in an order of its own, and
  // timestamptz keeps the instant, shown at the session's offset.
  ghost predicate ReloadedAs(p: Plan, q: Plan, session: int) {
    && q == p.(parameters := q.parameters, sourceVersions := q.sourceVersions, createdAt := q.createdAt, expiresAt := q.expiresAt)
    && Same(Obj(p.parameters), Obj(q.parameters)) && Same(Obj(p.sourceVersions), Obj(q.sourceVersions))
    && Valid(q.expiresAt) && Instant(q.expiresAt) == Instant(p.expiresAt) && q.expiresAt.offset == session
  }

  // A stored plan keeps its hash exactly when its expiry was written at the session's own offset;
  // otherwise every later approval of it is refused.
  lemma ReloadKeepsHashIff(p: Plan, q: Plan, session: int, digest: string -> string)
    requires PlanFits(p) && PlanFits(q) && CollisionFree(digest) && ReloadedAs(p, q, session)
    ensures RecomputeHash(q, digest) == RecomputeHash(p, digest) <==> p.expiresAt.offset == session
  {
    hide RecomputeHash, DayNumber, IsDate, Same, WellFormed, CollisionFree;
    HashIdentifies(p, q, digest);
    if p.expiresAt.offset == session { InstantIdentifies(p.expiresAt, q.expiresAt); }
  }

  // Such a plan: noon in UTC, read back by a session two hours ahead.
  lemma OtherOffsetLosesHash(p: Plan, digest: string -> string) returns (q: Plan)
    requires PlanFits(p) && CollisionFree(digest) && p.expiresAt == Clock(2026, 8, 25, 12, 0, 0, 0, 0)
    ensures PlanFits(q) && ReloadedAs(p, q, 7200) && RecomputeHash(q, digest) != RecomputeHash(p, digest)
  {
    q := p.(expiresAt := Clock(2026, 8, 25, 14, 0, 0, 0, 7200));
    SameItself(Obj(p.parameters));
    SameItself(Obj(p.sourceVersions));
    hide Same, DayNumber;
    ReloadKeepsHashIff(p, q, 7200, digest);
  }

  lemma SameItself(v: Value)
    requires WellFormed(v)
    ensures Same(v, v)
  {
    SameIsNormalEqual(v, v);
  }

  // The hypotheses can be met.
  lemma CollisionFreeExists()
    ensures CollisionFree((s: string) => s)
  {}
}

/**
  internal/omega/release.go: signed releases, when one is valid, when one may follow
  another, and how the online keys continue an approval. A digest is represented by the
  value it digests, so a reference to a file is a reference to its exact bytes; times are
  whole seconds.
 */
module Release {
  import opened Wrappers
  import opened RootMeta
  import opened Successor

  const MAX_RELEASES := 10000
  const MAX_ROOTS := 64
  const DAY := 86400
  const ZERO_TIME := -62135596800 // 1 January of year 1, the unset time

  datatype FileName = BootstrapJson | TargetsJson | SnapshotJson | OtherFile(n: nat)

  /** `canonical` tells the canonical rendering of a manifest from every other one. */
  datatype Manifest = Manifest(content: int, network: int, parses: bool, members: nat, canonical: bool)

  datatype TargetsSigned = TargetsSigned(version: int, expires: int, targets: map<FileName, Manifest>, policy: int)

  // `rendering` tells apart encodings of the same signed metadata.
  datatype TargetsFile = TargetsFile(signed: TargetsSigned, sigs: set<Key>, rendering: nat)
  datatype SnapshotFile = SnapshotFile(version: int, expires: int, meta: map<FileName, Ref<TargetsFile>>, sigs: set<Key>,
                                       rendering: nat)
  datatype TimestampFile = TimestampFile(version: int, expires: int, meta: map<FileName, Ref<SnapshotFile>>,
                                         sigs: set<Key>, rendering: nat)
  datatype Ref<D> = Ref(version: int, of: D)

  datatype Bundle = Bundle(network: int, fingerprint: int, root: Root)

  datatype Release = Release(
    schema: int,
    version: int,
    previous: Option<Release>,
    fingerprint: int,
    created: int,
    manifest: Manifest,
    targets: TargetsFile,
    snapshot: SnapshotFile,
    timestamp: TimestampFile,
    targetsVersion: int,
    approvedAt: int,
    roots: seq<Root>,
    timestampDays: int)
  {
    predicate IsRenewal() { schema == 2 || schema == 4 }

    /** The offline approval of an earlier release is still the one in force. */
    predicate Continues() { IsRenewal() || schema == 5 }

    function TargetsVer(): int { if IsRenewal() then targetsVersion else version }

    function ApprovalTime(): int { if Continues() then approvedAt else created }
  }

  function Min(a: int, b: int): int { if a < b then a else b }

  predicate ValidDays(days: int) { days == 0 || days == 7 }

  function Lifetime(days: int): int { (if days == 0 then 1 else days) * DAY }

  /** rotation_roots.go:29-37: one further root. */
  predicate NextRoot(previous: Root, next: Root) {
    UpdatesRoot(previous, next) && SuccessorGroup(previous.signed, next.signed).Some?
  }

  function CurrentRoot(b: Bundle, roots: seq<Root>): Root {
    if roots == [] then b.root else roots[|roots| - 1]
  }

  predicate RootChain(b: Bundle, roots: seq<Root>) {
    if roots == [] then Delegates(b.root.signed, RootRole, b.root.sigs)
    else
      var earlier := roots[..|roots| - 1];
      RootChain(b, earlier) && NextRoot(CurrentRoot(b, earlier), roots[|roots| - 1])
  }

  /** rotation_roots.go:20 */
  predicate TrustedRoots(b: Bundle, roots: seq<Root>) {
    |roots| < MAX_ROOTS && RootChain(b, roots)
  }

  /** rotation_roots.go:20 - the loop over an evolving trusted root. */
  method TrustRoots(b: Bundle, roots: seq<Root>) returns (r: Option<Root>)
    ensures r == if TrustedRoots(b, roots) then Some(CurrentRoot(b, roots)) else None
  {
    if |roots| >= MAX_ROOTS { return None; }
    if !Delegates(b.root.signed, RootRole, b.root.sigs) {
      UntrustedRoots(b, roots, 0);
      return None;
    }
    var trusted := b.root;
    for i := 0 to |roots|
      invariant RootChain(b, roots[..i]) && trusted == CurrentRoot(b, roots[..i])
    {
      OneMoreLink(b, roots, i);
      if !NextRoot(trusted, roots[i]) {
        UntrustedRoots(b, roots, i + 1);
        return None;
      }
      trusted := roots[i];
    }
    assert roots[..|roots|] == roots;
    r := Some(trusted);
  }

  lemma OneMoreLink(b: Bundle, roots: seq<Root>, i: nat)
    requires i < |roots|
    ensures RootChain(b, roots[..i + 1]) <==> RootChain(b, roots[..i]) && NextRoot(CurrentRoot(b, roots[..i]), roots[i])
    ensures CurrentRoot(b, roots[..i + 1]) == roots[i]
  {
    assert roots[..i + 1][..i] == roots[..i];
  }

  lemma {:induction false} UntrustedRoots(b: Bundle, roots: seq<Root>, i: nat)
    requires i <= |roots| && !RootChain(b, roots[..i])
    ensures !RootChain(b, roots)
    decreases |roots|
  {
    if i < |roots| {
      assert roots[..|roots| - 1][..i] == roots[..i];
      UntrustedRoots(b, roots[..|roots| - 1], i);
    } else {
      assert roots[..i] == roots;
    }
  }

  /** release.go:134-136 */
  predicate IdentityValid(b: Bundle, r: Release) {
    && ValidDays(r.timestampDays) && 1 <= r.schema <= 6 && ((r.schema > 2) <==> |r.roots| > 0)
    && 1 <= r.version <= MAX_RELEASES && r.fingerprint == b.fingerprint && r.created != ZERO_TIME
  }

  /** release.go:56 and 137-143 */
  predicate ApprovedManifest(m: Manifest, network: int) {
    m.parses && m.network == network && m.members == 3 && m.canonical
  }

  /** release.go:144-164 */
  predicate RootsValid(b: Bundle, r: Release) {
    && TrustedRoots(b, r.roots)
    && (r.schema == 5 && r.roots != [] ==>
          RoleSuccessor(CurrentRoot(b, r.roots[..|r.roots| - 1]).signed, CurrentRoot(b, r.roots).signed, [TargetsRole]))
    && (r.schema == 6 && r.roots != [] ==>
          RootSuccessor(CurrentRoot(b, r.roots[..|r.roots| - 1]).signed, CurrentRoot(b, r.roots).signed))
  }

  /** release.go:165-187: sections 5.4 to 5.6 of TUF at the creation time, and exact references. */
  predicate DocumentsValid(root: Root, r: Release) {
    && r.created <= root.signed.expires
    && Delegates(root.signed, TimestampRole, r.timestamp.sigs) && r.created <= r.timestamp.expires
    && Delegates(root.signed, SnapshotRole, r.snapshot.sigs) && r.created <= r.snapshot.expires
    && Delegates(root.signed, TargetsRole, r.targets.sigs) && r.created <= r.targets.signed.expires
    && r.timestamp.version == r.version && r.snapshot.version == r.version
    && r.targets.signed.version == r.TargetsVer()
    && r.targets.signed.targets == map[BootstrapJson := r.manifest]
    && r.snapshot.meta == map[TargetsJson := Ref(r.TargetsVer(), r.targets)]
    && r.timestamp.meta == map[SnapshotJson := Ref(r.version, r.snapshot)]
  }

  /** release.go:189-198 */
  predicate ApprovalValid(r: Release) {
    && (!r.Continues() ==> r.targetsVersion == 0 && r.approvedAt == ZERO_TIME)
    && (r.IsRenewal() ==> 1 <= r.targetsVersion < r.version && r.approvedAt != ZERO_TIME && r.created >= r.approvedAt)
    && (r.schema == 5 ==> r.targetsVersion == 0 && r.approvedAt != ZERO_TIME && r.created >= r.approvedAt)
  }

  /** release.go:199-210 */
  predicate ExpiryValid(rootExpires: int, r: Release) {
    var deadline := if r.Continues() then Min(rootExpires, r.targets.signed.expires) else rootExpires;
    && r.targets.signed.expires == Min(r.ApprovalTime() + 90 * DAY, rootExpires)
    && r.snapshot.expires == Min(r.created + 7 * DAY, deadline)
    && r.timestamp.expires == Min(r.created + Lifetime(r.timestampDays), deadline)
    && (!r.Continues() ==> rootExpires - r.created >= DAY)
  }

  /** release.go:131 */
  predicate ValidRelease(b: Bundle, r: Release) {
    && IdentityValid(b, r) && ApprovedManifest(r.manifest, b.network) && RootsValid(b, r)
    && DocumentsValid(CurrentRoot(b, r.roots), r) && ApprovalValid(r)
    && ExpiryValid(CurrentRoot(b, r.roots).signed.expires, r)
  }

  /** membership_rotation.go:307 */
  predicate SameTargetsApproval(previous: TargetsSigned, next: TargetsSigned, version: int) {
    next.version == version && next.(version := previous.version) == previous
  }

  /** release.go:365 */
  predicate RenewedTargetsApproval(previous: TargetsSigned, next: TargetsSigned, version: int, created: int, expires: int) {
    && next.expires == Min(created + 90 * DAY, expires)
    && SameTargetsApproval(previous, next.(expires := previous.expires), version)
  }

  /** release.go:385 */
  predicate ContinuedTargetsApproval(previous: TargetsSigned, next: TargetsSigned, version: int, created: int, root: Root) {
    || SameTargetsApproval(previous, next, version)
    || RenewedTargetsApproval(previous, next, version, created, root.signed.expires)
  }

  /** release.go:328 */
  predicate Follows(r: Release, previous: Release) {
    && r.created >= previous.created
    && |previous.roots| <= |r.roots| <= |previous.roots| + 1
    && (|r.roots| > |previous.roots| ==> r.IsRenewal() || r.schema == 5 || r.schema == 6)
    && previous.roots <= r.roots
    && (r.IsRenewal() ==>
          && r.targetsVersion == previous.TargetsVer() && r.approvedAt == previous.ApprovalTime()
          && r.targets == previous.targets && r.manifest == previous.manifest)
    && (r.schema == 5 ==>
          && |r.roots| == |previous.roots| + 1 && r.approvedAt == previous.ApprovalTime() && r.manifest == previous.manifest
          && SameTargetsApproval(previous.targets.signed, r.targets.signed, r.version))
    && (r.schema == 6 ==>
          && |r.roots| == |previous.roots| + 1 && r.manifest == previous.manifest
          && RenewedTargetsApproval(previous.targets.signed, r.targets.signed, r.version, r.created,
                                    r.roots[|r.roots| - 1].signed.expires))
  }

  function SignSnapshot(version: int, expires: int, targetsVersion: int, targets: TargetsFile, k: Key): SnapshotFile {
    SnapshotFile(version, expires, map[TargetsJson := Ref(targetsVersion, targets)], {k}, 0)
  }

  function SignTimestamp(version: int, expires: int, snapshot: SnapshotFile, k: Key): TimestampFile {
    TimestampFile(version, expires, map[SnapshotJson := Ref(version, snapshot)], {k}, 0)
  }

  /** release.go:86 - an offline approval. */
  method PrepareRelease(keys: map<Role, Key>, b: Bundle, version: int, previous: Option<Release>, manifest: Manifest,
                        now: int, roots: seq<Root>)
    returns (result: Option<Release>)
    ensures result.Some? ==> ValidRelease(b, result.value) && result.value.version == version &&
                             result.value.previous == previous && result.value.manifest == manifest &&
                             result.value.created == now && result.value.roots == roots && !result.value.Continues()
    ensures result.Some? <==>
      && TrustedRoots(b, roots) && CurrentRoot(b, roots).signed.expires - now >= DAY
      && now != ZERO_TIME && 1 <= version <= MAX_RELEASES && ApprovedManifest(manifest, b.network)
      && AcceptsSigner(CurrentRoot(b, roots).signed, keys, TargetsRole)
      && AcceptsSigner(CurrentRoot(b, roots).signed, keys, SnapshotRole)
      && AcceptsSigner(CurrentRoot(b, roots).signed, keys, TimestampRole)
  {
    var schema := if |roots| > 0 then 3 else 1;
    var trusted := TrustRoots(b, roots);
    if trusted.None? { return None; }
    var expires := trusted.value.signed.expires;
    if expires - now < DAY { return None; }
    if TargetsRole !in keys { return None; }
    var targets := TargetsFile(TargetsSigned(version, Min(now + 90 * DAY, expires), map[BootstrapJson := manifest], 0),
                               {keys[TargetsRole]}, 0);
    if SnapshotRole !in keys { return None; }
    var snapshot := SignSnapshot(version, Min(now + 7 * DAY, expires), version, targets, keys[SnapshotRole]);
    if TimestampRole !in keys { return None; }
    var timestamp := SignTimestamp(version, Min(now + Lifetime(7), expires), snapshot, keys[TimestampRole]);
    var r := Release(schema, version, previous, b.fingerprint, now, manifest, targets, snapshot, timestamp, 0, ZERO_TIME,
                     roots, 7);
    if !ValidRelease(b, r) { return None; }
    result := Some(r);
  }

  /** The root accepts this key's signature alone as enough for the role. */
  predicate AcceptsSigner(s: Signed, keys: map<Role, Key>, role: Role) {
    role in keys && Delegates(s, role, {keys[role]})
  }

  /** What `previous` hands on when nothing but the online metadata is signed again. */
  function Renewing(b: Bundle, previous: Release, now: int, roots: seq<Root>, days: int): Release {
    Release(if |roots| > 0 then 4 else 2, previous.version + 1, Some(previous), b.fingerprint, now, previous.manifest,
            previous.targets, previous.snapshot, previous.timestamp, previous.TargetsVer(), previous.ApprovalTime(), roots,
            days)
  }

  /** release.go:272-291 */
  method BeginContinued(b: Bundle, previous: Release, now: int, roots: seq<Root>, rotated: Option<TargetsFile>, days: int)
    returns (result: Option<Release>)
    ensures result.None? <==> rotated.Some? && !TrustedRoots(b, roots)
    ensures rotated.None? ==> result == Some(Renewing(b, previous, now, roots, days))
    ensures rotated.Some? && result.Some? ==>
      result.value == Rotating(b, previous, now, roots, rotated.value, days, result.value.schema)
    ensures rotated.Some? && result.Some? ==>
      result.value.schema == HandoffSchema(b, previous, roots)
  {
    var r := Renewing(b, previous, now, roots, days);
    if rotated.Some? {
      r := r.(schema := 5, targetsVersion := 0, targets := rotated.value);
      var trusted := TrustRoots(b, roots);
      if trusted.None? { return None; }
      if RootSuccessor(CurrentRoot(b, previous.roots).signed, trusted.value.signed) {
        r := r.(schema := 6, approvedAt := ZERO_TIME);
      }
    }
    result := Some(r);
  }

  /** release.go:310-323: sign the two online documents over an otherwise finished release. */
  method SignOnline(keys: map<Role, Key>, begun: Release, deadline: int) returns (result: Option<Release>)
    ensures result.Some? <==> SnapshotRole in keys && TimestampRole in keys
    ensures result.Some? ==> OnlineSigned(keys, begun, deadline, result.value)
  {
    if SnapshotRole !in keys { return None; }
    var r := begun.(snapshot := SignSnapshot(begun.version, Min(begun.created + 7 * DAY, deadline), begun.TargetsVer(),
                                             begun.targets, keys[SnapshotRole]));
    if TimestampRole !in keys { return None; }
    r := r.(timestamp := SignTimestamp(r.version, Min(r.created + Lifetime(r.timestampDays), deadline), r.snapshot,
                                       keys[TimestampRole]));
    result := Some(r);
  }

  predicate OnlineSigned(keys: map<Role, Key>, begun: Release, deadline: int, r: Release) {
    && SnapshotRole in keys && TimestampRole in keys
    && r == begun.(snapshot := r.snapshot, timestamp := r.timestamp)
    && r.snapshot == SignSnapshot(r.version, Min(r.created + 7 * DAY, deadline), r.TargetsVer(), r.targets,
                                  keys[SnapshotRole])
    && r.timestamp == SignTimestamp(r.version, Min(r.created + Lifetime(r.timestampDays), deadline), r.snapshot,
                                    keys[TimestampRole])
  }

  /** Everything a renewal under `roots` depends on: the clock, the keys and the approval it carries on. */
  predicate RenewalPossible(keys: map<Role, Key>, b: Bundle, previous: Release, now: int, roots: seq<Root>, days: int) {
    && RenewalTimely(previous, now, days)
    && TrustedRoots(b, roots) && ApprovalStands(CurrentRoot(b, roots).signed, previous)
    && AcceptsSigner(CurrentRoot(b, roots).signed, keys, SnapshotRole)
    && AcceptsSigner(CurrentRoot(b, roots).signed, keys, TimestampRole)
  }

  predicate RenewalTimely(previous: Release, now: int, days: int) {
    && previous.created <= now < previous.targets.signed.expires && now != ZERO_TIME
    && ValidDays(days) && previous.version < MAX_RELEASES
  }

  /** The root still accepts the targets signature and does not cut the approval short. */
  predicate ApprovalStands(s: Signed, previous: Release) {
    && Delegates(s, TargetsRole, previous.targets.sigs)
    && previous.targets.signed.expires == Min(previous.ApprovalTime() + 90 * DAY, s.expires)
  }

  ghost predicate SignedRenewal(keys: map<Role, Key>, b: Bundle, previous: Release, now: int, roots: seq<Root>, days: int,
                                deadline: int, r: Release) {
    && previous.created <= now < deadline
    && deadline == Min(CurrentRoot(b, previous.roots).signed.expires, previous.targets.signed.expires)
    && OnlineSigned(keys, Renewing(b, previous, now, roots, days), deadline, r)
  }

  lemma RenewalIdentity(keys: map<Role, Key>, b: Bundle, previous: Release, now: int, roots: seq<Root>, days: int,
                        deadline: int, r: Release)
    requires IdentityValid(b, previous) && ApprovalValid(previous)
    requires SignedRenewal(keys, b, previous, now, roots, days, deadline, r)
    ensures IdentityValid(b, r) <==> ValidDays(days) && previous.version < MAX_RELEASES && now != ZERO_TIME
    ensures ApprovalValid(r)
  {
  }

  lemma RenewalExpiry(keys: map<Role, Key>, b: Bundle, previous: Release, now: int, roots: seq<Root>, days: int,
                      deadline: int, r: Release, expires: int)
    requires SignedRenewal(keys, b, previous, now, roots, days, deadline, r)
    requires previous.targets.signed.expires <= CurrentRoot(b, previous.roots).signed.expires
    ensures deadline == previous.targets.signed.expires
    ensures ExpiryValid(expires, r) <==>
      previous.targets.signed.expires == Min(previous.ApprovalTime() + 90 * DAY, expires)
  {
  }

  lemma RenewalDocuments(keys: map<Role, Key>, b: Bundle, previous: Release, now: int, roots: seq<Root>, days: int,
                         deadline: int, r: Release, root: Root)
    requires SignedRenewal(keys, b, previous, now, roots, days, deadline, r) && ValidDays(days)
    requires deadline == previous.targets.signed.expires
    requires previous.targets.signed.version == previous.TargetsVer()
    requires previous.targets.signed.targets == map[BootstrapJson := previous.manifest]
    ensures DocumentsValid(root, r) <==>
      && now <= root.signed.expires && Delegates(root.signed, TargetsRole, previous.targets.sigs)
      && AcceptsSigner(root.signed, keys, SnapshotRole) && AcceptsSigner(root.signed, keys, TimestampRole)
  {
  }

  lemma RenewalSigned(keys: map<Role, Key>, b: Bundle, previous: Release, now: int, roots: seq<Root>, days: int,
                      deadline: int, r: Release)
    requires ValidRelease(b, previous) && SignedRenewal(keys, b, previous, now, roots, days, deadline, r)
    ensures ValidRelease(b, r) <==> RenewalPossible(keys, b, previous, now, roots, days)
  {
    RenewalIdentity(keys, b, previous, now, roots, days, deadline, r);
    RenewalExpiry(keys, b, previous, now, roots, days, deadline, r, CurrentRoot(b, roots).signed.expires);
    if ValidDays(days) {
      RenewalDocuments(keys, b, previous, now, roots, days, deadline, r, CurrentRoot(b, roots));
    }
  }

  /** `r` is what the online keys sign over rotated targets, if it gets that far; whether it is valid is another question. */
  ghost predicate SignsHandoff(keys: map<Role, Key>, b: Bundle, previous: Release, now: int, roots: seq<Root>,
                               rotated: TargetsFile, days: int, r: Release) {
    Signs(keys, b, previous, Rotating(b, previous, now, roots, rotated, days, HandoffSchema(b, previous, roots)), r)
  }

  predicate RootHandoff(b: Bundle, previous: Release, roots: seq<Root>) {
    RootSuccessor(CurrentRoot(b, previous.roots).signed, CurrentRoot(b, roots).signed)
  }

  function HandoffSchema(b: Bundle, previous: Release, roots: seq<Root>): int {
    if RootHandoff(b, previous, roots) then 6 else 5
  }

  /** Until when a continued release may be signed: only a new root quorum can go past the old approval. */
  function Deadline(b: Bundle, previous: Release, roots: seq<Root>, schema: int): int {
    if schema == 6 then CurrentRoot(b, roots).signed.expires
    else Min(CurrentRoot(b, previous.roots).signed.expires, previous.targets.signed.expires)
  }

  ghost predicate SignedHandoff(keys: map<Role, Key>, b: Bundle, previous: Release, now: int, roots: seq<Root>,
                                rotated: TargetsFile, days: int, schema: int, deadline: int, r: Release) {
    previous.created <= now < deadline &&
    OnlineSigned(keys, Rotating(b, previous, now, roots, rotated, days, schema), deadline, r)
  }

  /** What `previous` hands on when its targets are signed again as well. */
  function Rotating(b: Bundle, previous: Release, now: int, roots: seq<Root>, rotated: TargetsFile, days: int,
                    schema: int): Release {
    Renewing(b, previous, now, roots, days).(
      schema := schema, targetsVersion := 0, targets := rotated,
      approvedAt := if schema == 6 then ZERO_TIME else previous.ApprovalTime())
  }

  /**
    release.go:271 - the release that continues `previous`: a renewal, an online rotation
    when `roots` advances, or, with `rotated` targets, a membership-key or root handoff.
   */
  method PrepareContinued(keys: map<Role, Key>, b: Bundle, previous: Release, now: int, roots: seq<Root>,
                          rotated: Option<TargetsFile>, days: int)
    returns (result: Option<Release>)
    ensures rotated.None? ==>
      (result.Some? <==> ValidRelease(b, previous) && RenewalPossible(keys, b, previous, now, roots, days))
    ensures result.Some? ==> ValidRelease(b, previous) && ValidRelease(b, result.value) && now >= previous.created
    ensures result.Some? ==> Handoff(b, previous, now, roots, rotated, days, result.value)
    ensures rotated.Some? && result.Some? ==> SignsHandoff(keys, b, previous, now, roots, rotated.value, days, result.value)
    ensures rotated.Some? && result.None? && ValidRelease(b, previous) ==>
      forall r :: SignsHandoff(keys, b, previous, now, roots, rotated.value, days, r) ==> !ValidRelease(b, r)
  {
    var begun := BeginContinued(b, previous, now, roots, rotated, days);
    if begun.None? { return None; }
    result := SignContinued(keys, b, previous, begun.value);
    if rotated.None? {
      RenewalOutcome(keys, b, previous, now, roots, days, result);
    } else if result.Some? {
      RotatedHandoff(keys, b, previous, now, roots, rotated.value, days, result.value);
    }
  }

  /** release.go:292-325: sign the online documents of a release that is otherwise finished, and check the whole. */
  method SignContinued(keys: map<Role, Key>, b: Bundle, previous: Release, begun: Release) returns (result: Option<Release>)
    ensures result.Some? ==> ValidRelease(b, previous) && ValidRelease(b, result.value)
    ensures result.Some? ==> Signs(keys, b, previous, begun, result.value)
    ensures result.None? && ValidRelease(b, previous) ==>
      forall r :: Signs(keys, b, previous, begun, r) ==> !ValidRelease(b, r)
  {
    if !ValidRelease(b, previous) { return None; }
    var deadline := SignBy(b, previous, begun);
    if deadline.None? { return None; }
    var signed := SignOnline(keys, begun, deadline.value);
    if signed.None? { return None; }
    forall r | Signs(keys, b, previous, begun, r) ensures r == signed.value {
      SignsOne(keys, begun, deadline.value, r, signed.value);
    }
    if !ValidRelease(b, signed.value) { return None; }
    result := signed;
  }

  /** Signing is deterministic. */
  lemma SignsOne(keys: map<Role, Key>, begun: Release, deadline: int, r: Release, s: Release)
    requires OnlineSigned(keys, begun, deadline, r) && OnlineSigned(keys, begun, deadline, s)
    ensures r == s
  {
  }

  predicate InTime(b: Bundle, previous: Release, r: Release) {
    && (r.schema == 6 ==>
          ContinuedTargetsApproval(previous.targets.signed, r.targets.signed, r.version, r.created, CurrentRoot(b, r.roots)))
    && previous.created <= r.created < Deadline(b, previous, r.roots, r.schema)
  }

  /** `r` is `begun` with its online documents signed, in time. */
  predicate Signs(keys: map<Role, Key>, b: Bundle, previous: Release, begun: Release, r: Release) {
    InTime(b, previous, begun) && OnlineSigned(keys, begun, Deadline(b, previous, begun.roots, begun.schema), r)
  }

  lemma RenewalOutcome(keys: map<Role, Key>, b: Bundle, previous: Release, now: int, roots: seq<Root>, days: int,
                       result: Option<Release>)
    requires var begun := Renewing(b, previous, now, roots, days);
      && (result.Some? ==> ValidRelease(b, previous) && ValidRelease(b, result.value) &&
                           Signs(keys, b, previous, begun, result.value))
      && (result.None? && ValidRelease(b, previous) ==>
            forall r :: Signs(keys, b, previous, begun, r) ==> !ValidRelease(b, r))
    ensures result.Some? <==> ValidRelease(b, previous) && RenewalPossible(keys, b, previous, now, roots, days)
    ensures result.Some? ==> Handoff(b, previous, now, roots, None, days, result.value)
  {
    var begun, deadline := Renewing(b, previous, now, roots, days), Deadline(b, previous, roots, 2);
    if result.Some? {
      RenewalSigned(keys, b, previous, now, roots, days, deadline, result.value);
    } else if ValidRelease(b, previous) && RenewalPossible(keys, b, previous, now, roots, days) {
      assert previous.targets.signed.expires <= CurrentRoot(b, previous.roots).signed.expires;
      var r := SignBoth(keys, begun, deadline);
      assert Signs(keys, b, previous, begun, r);
      RenewalSigned(keys, b, previous, now, roots, days, deadline, r);
    }
  }

  lemma RotatedHandoff(keys: map<Role, Key>, b: Bundle, previous: Release, now: int, roots: seq<Root>, rotated: TargetsFile,
                       days: int, r: Release)
    requires SignsHandoff(keys, b, previous, now, roots, rotated, days, r)
    ensures Handoff(b, previous, now, roots, Some(rotated), days, r)
  {
  }

  /** release.go:296-309: the deadline for signing `r`, if it is not too late or too early for that. */
  method SignBy(b: Bundle, previous: Release, r: Release) returns (deadline: Option<int>)
    ensures deadline.Some? <==> InTime(b, previous, r)
    ensures deadline.Some? ==> deadline.value == Deadline(b, previous, r.roots, r.schema)
  {
    var d := Min(CurrentRoot(b, previous.roots).signed.expires, previous.targets.signed.expires);
    if r.schema == 6 {
      var root := CurrentRoot(b, r.roots);
      if !ContinuedTargetsApproval(previous.targets.signed, r.targets.signed, r.version, r.created, root) { return None; }
      d := root.signed.expires;
    }
    if r.created < previous.created || r.created >= d { return None; }
    deadline := Some(d);
  }

  /** What a continued release shares with the one before it. */
  predicate Handoff(b: Bundle, previous: Release, now: int, roots: seq<Root>, rotated: Option<TargetsFile>, days: int,
                    r: Release) {
    && r.version == previous.version + 1 && r.previous == Some(previous) && r.created == now && r.roots == roots
    && r.manifest == previous.manifest && r.timestampDays == days
    && (rotated.None? ==> r.IsRenewal() && r.targetsVersion == previous.TargetsVer() && r.targets == previous.targets)
    && (rotated.Some? ==> r.targets == rotated.value && (r.schema == 5 || r.schema == 6))
    && (r.schema != 6 ==> r.approvedAt == previous.ApprovalTime())
    && (r.schema == 6 ==>
          ContinuedTargetsApproval(previous.targets.signed, r.targets.signed, r.version, now, CurrentRoot(b, roots)))
  }

  /** A handoff over at most one further root may be appended to the journal. */
  lemma HandoffFollows(b: Bundle, previous: Release, now: int, roots: seq<Root>, rotated: Option<TargetsFile>, days: int,
                       r: Release)
    requires Handoff(b, previous, now, roots, rotated, days, r) && ValidRelease(b, r) && previous.created <= now
    requires previous.roots <= roots && |roots| <= |previous.roots| + 1
    requires rotated.Some? ==> |roots| == |previous.roots| + 1
    requires r.schema == 5 ==> SameTargetsApproval(previous.targets.signed, r.targets.signed, r.version)
    ensures Follows(r, previous)
  {
  }

  /** release.go:256 - succeeds exactly when the clock, the keys, and the version permit, and may then be appended. */
  method PrepareRenewal(keys: map<Role, Key>, b: Bundle, previous: Release, now: int, days: int)
    returns (result: Option<Release>)
    ensures result.Some? <==>
      && ValidRelease(b, previous) && RenewalTimely(previous, now, days)
      && AcceptsSigner(CurrentRoot(b, previous.roots).signed, keys, SnapshotRole)
      && AcceptsSigner(CurrentRoot(b, previous.roots).signed, keys, TimestampRole)
    ensures result.Some? ==> ValidRelease(b, result.value) && Follows(result.value, previous)
    ensures result.Some? ==> result.value.version == previous.version + 1 && result.value.previous == Some(previous)
    ensures result.Some? ==> result.value.created == now && result.value.IsRenewal()
  {
    result := PrepareContinued(keys, b, previous, now, previous.roots, None, days);
    if result.Some? {
      HandoffFollows(b, previous, now, previous.roots, None, days, result.value);
    }
  }

  // Handing the approval over to a new targets key or a new root quorum.

  /** What both handoffs need besides their own rules: the clock, the version limit and keys the new root accepts. */
  predicate HandoffReady(keys: map<Role, Key>, b: Bundle, previous: Release, now: int, next: Root, rotated: TargetsFile,
                         days: int) {
    && previous.created <= now && now != ZERO_TIME && ValidDays(days) && previous.version < MAX_RELEASES
    && TrustedRoots(b, previous.roots + [next])
    && Delegates(next.signed, TargetsRole, rotated.sigs)
    && AcceptsSigner(next.signed, keys, SnapshotRole) && AcceptsSigner(next.signed, keys, TimestampRole)
  }

  lemma SameExpiry(p: Signed, n: Signed)
    requires RoleSuccessor(p, n, [TargetsRole])
    ensures n.expires == p.expires && !RootSuccessor(p, n)
  {
    assert [TargetsRole][..0] == [];
    assert RestoreAll(n, p, n, []) == n;
  }

  lemma HandoffIdentity(keys: map<Role, Key>, b: Bundle, previous: Release, now: int, roots: seq<Root>, rotated: TargetsFile,
                        days: int, schema: int, deadline: int, r: Release)
    requires IdentityValid(b, previous) && ApprovalValid(previous) && roots != [] && (schema == 5 || schema == 6)
    requires SignedHandoff(keys, b, previous, now, roots, rotated, days, schema, deadline, r)
    ensures IdentityValid(b, r) <==> ValidDays(days) && previous.version < MAX_RELEASES && now != ZERO_TIME
    ensures ApprovalValid(r) && r.manifest == previous.manifest && r.roots == roots
  {
  }

  lemma HandoffDocuments(keys: map<Role, Key>, b: Bundle, previous: Release, now: int, roots: seq<Root>,
                         rotated: TargetsFile, days: int, schema: int, deadline: int, r: Release, root: Root)
    requires SignedHandoff(keys, b, previous, now, roots, rotated, days, schema, deadline, r) && ValidDays(days)
    requires (schema == 5 || schema == 6) && rotated.signed.version == previous.version + 1
    requires rotated.signed.targets == map[BootstrapJson := previous.manifest]
    requires now <= rotated.signed.expires && deadline <= root.signed.expires
    ensures DocumentsValid(root, r) <==>
      && Delegates(root.signed, TargetsRole, rotated.sigs)
      && AcceptsSigner(root.signed, keys, SnapshotRole) && AcceptsSigner(root.signed, keys, TimestampRole)
  {
  }

  lemma MembershipExpiry(keys: map<Role, Key>, b: Bundle, previous: Release, now: int, roots: seq<Root>,
                         rotated: TargetsFile, days: int, deadline: int, r: Release, expires: int)
    requires SignedHandoff(keys, b, previous, now, roots, rotated, days, 5, deadline, r)
    requires ExpiryValid(expires, previous) && rotated.signed.expires == previous.targets.signed.expires == deadline
    ensures ExpiryValid(expires, r)
  {
  }

  lemma RootExpiryValid(keys: map<Role, Key>, b: Bundle, previous: Release, now: int, roots: seq<Root>,
                        rotated: TargetsFile, days: int, r: Release, expires: int)
    requires SignedHandoff(keys, b, previous, now, roots, rotated, days, 6, expires, r)
    ensures ExpiryValid(expires, r) <==> rotated.signed.expires == Min(now + 90 * DAY, expires) && now + DAY <= expires
  {
  }

  lemma OneMoreRoot(b: Bundle, roots: seq<Root>, next: Root)
    ensures CurrentRoot(b, roots + [next]) == next && (roots + [next])[..|roots + [next]| - 1] == roots
  {
  }

  lemma MembershipSigned(keys: map<Role, Key>, b: Bundle, previous: Release, now: int, next: Root, rotated: TargetsFile,
                         days: int, r: Release)
    requires ValidRelease(b, previous)
    requires SignsHandoff(keys, b, previous, now, previous.roots + [next], rotated, days, r)
    requires SameTargetsApproval(previous.targets.signed, rotated.signed, previous.version + 1)
    requires RoleSuccessor(CurrentRoot(b, previous.roots).signed, next.signed, [TargetsRole])
    ensures ValidRelease(b, r) <==> HandoffReady(keys, b, previous, now, next, rotated, days)
  {
    var was, roots, deadline := CurrentRoot(b, previous.roots), previous.roots + [next], previous.targets.signed.expires;
    OneMoreRoot(b, previous.roots, next);
    SameExpiry(was.signed, next.signed);
    assert deadline <= was.signed.expires && SignedHandoff(keys, b, previous, now, roots, rotated, days, 5, deadline, r);
    assert rotated.signed.expires == deadline && rotated.signed.targets == previous.targets.signed.targets;
    HandoffIdentity(keys, b, previous, now, roots, rotated, days, 5, deadline, r);
    MembershipExpiry(keys, b, previous, now, roots, rotated, days, deadline, r, next.signed.expires);
    if ValidDays(days) {
      HandoffDocuments(keys, b, previous, now, roots, rotated, days, 5, deadline, r, next);
    }
  }

  lemma RootSigned(keys: map<Role, Key>, b: Bundle, previous: Release, now: int, next: Root, rotated: TargetsFile, days: int,
                   r: Release)
    requires ValidRelease(b, previous)
    requires SignsHandoff(keys, b, previous, now, previous.roots + [next], rotated, days, r)
    requires RootSuccessor(CurrentRoot(b, previous.roots).signed, next.signed)
    ensures ValidRelease(b, r) <==>
      && HandoffReady(keys, b, previous, now, next, rotated, days) && now + DAY <= next.signed.expires
      && RenewedTargetsApproval(previous.targets.signed, rotated.signed, previous.version + 1, now, next.signed.expires)
  {
    var roots, expires := previous.roots + [next], next.signed.expires;
    OneMoreRoot(b, previous.roots, next);
    HandoffIdentity(keys, b, previous, now, roots, rotated, days, 6, expires, r);
    RootExpiryValid(keys, b, previous, now, roots, rotated, days, r, expires);
    assert rotated.signed.targets == previous.targets.signed.targets && rotated.signed.version == previous.version + 1;
    if ValidDays(days) && ExpiryValid(expires, r) {
      HandoffDocuments(keys, b, previous, now, roots, rotated, days, 6, expires, r, next);
    }
  }

  function SignBoth(keys: map<Role, Key>, begun: Release, deadline: int): (r: Release)
    requires SnapshotRole in keys && TimestampRole in keys
    ensures OnlineSigned(keys, begun, deadline, r)
  {
    var snapshot := SignSnapshot(begun.version, Min(begun.created + 7 * DAY, deadline), begun.TargetsVer(), begun.targets,
                                 keys[SnapshotRole]);
    begun.(snapshot := snapshot,
           timestamp := SignTimestamp(begun.version, Min(begun.created + Lifetime(begun.timestampDays), deadline), snapshot,
                                      keys[TimestampRole]))
  }

  /**
    release.go:264 - when `next` replaces the targets key: succeeds exactly when the unchanged
    approval is signed by the new key in time and the online keys are in force, and may then
    be appended.
   */
  method PrepareMembership(keys: map<Role, Key>, b: Bundle, previous: Release, now: int, next: Root, targets: TargetsFile,
                           days: int)
    returns (result: Option<Release>)
    ensures result.Some? ==> ValidRelease(b, result.value) && Follows(result.value, previous)
    ensures result.Some? ==> result.value.version == previous.version + 1 && result.value.previous == Some(previous)
    ensures RoleSuccessor(CurrentRoot(b, previous.roots).signed, next.signed, [TargetsRole]) ==>
      (result.Some? <==>
         && ValidRelease(b, previous) && SameTargetsApproval(previous.targets.signed, targets.signed, previous.version + 1)
         && now < previous.targets.signed.expires && HandoffReady(keys, b, previous, now, next, targets, days))
  {
    var roots := previous.roots + [next];
    if !SameTargetsApproval(previous.targets.signed, targets.signed, previous.version + 1) { return None; }
    result := PrepareContinued(keys, b, previous, now, roots, Some(targets), days);
    if result.Some? {
      HandoffFollows(b, previous, now, roots, Some(targets), days, result.value);
    }
    if ValidRelease(b, previous) && RoleSuccessor(CurrentRoot(b, previous.roots).signed, next.signed, [TargetsRole]) {
      MembershipOutcome(keys, b, previous, now, next, targets, days, result);
    }
  }

  lemma MembershipOutcome(keys: map<Role, Key>, b: Bundle, previous: Release, now: int, next: Root, targets: TargetsFile,
                          days: int, result: Option<Release>)
    requires ValidRelease(b, previous)
    requires SameTargetsApproval(previous.targets.signed, targets.signed, previous.version + 1)
    requires RoleSuccessor(CurrentRoot(b, previous.roots).signed, next.signed, [TargetsRole])
    requires result.Some? ==> ValidRelease(b, result.value) &&
                              SignsHandoff(keys, b, previous, now, previous.roots + [next], targets, days, result.value)
    requires result.None? ==>
      forall r :: SignsHandoff(keys, b, previous, now, previous.roots + [next], targets, days, r) ==> !ValidRelease(b, r)
    ensures result.Some? <==>
      now < previous.targets.signed.expires && HandoffReady(keys, b, previous, now, next, targets, days)
  {
    var roots, deadline := previous.roots + [next], previous.targets.signed.expires;
    OneMoreRoot(b, previous.roots, next);
    SameExpiry(CurrentRoot(b, previous.roots).signed, next.signed);
    if result.Some? {
      MembershipSigned(keys, b, previous, now, next, targets, days, result.value);
    } else if now < deadline && HandoffReady(keys, b, previous, now, next, targets, days) {
      var r := SignBoth(keys, Rotating(b, previous, now, roots, targets, days, 5), deadline);
      assert deadline <= CurrentRoot(b, previous.roots).signed.expires;
      assert SignsHandoff(keys, b, previous, now, roots, targets, days, r);
      MembershipSigned(keys, b, previous, now, next, targets, days, r);
    }
  }

  /**
    rotation_store.go:354-356 - when `next` replaces the root quorum: succeeds exactly when the
    unchanged membership is approved anew under the new root, with a day or more to go, and
    may then be appended.
   */
  method PrepareRootHandoff(keys: map<Role, Key>, b: Bundle, previous: Release, now: int, next: Root, targets: TargetsFile,
                            days: int)
    returns (result: Option<Release>)
    requires RootSuccessor(CurrentRoot(b, previous.roots).signed, next.signed)
    ensures result.Some? ==> ValidRelease(b, result.value) && Follows(result.value, previous)
    ensures result.Some? ==> result.value.version == previous.version + 1 && result.value.previous == Some(previous)
    ensures result.Some? <==>
      && ValidRelease(b, previous) && HandoffReady(keys, b, previous, now, next, targets, days) && now + DAY <= next.signed.expires
      && RenewedTargetsApproval(previous.targets.signed, targets.signed, previous.version + 1, now, next.signed.expires)
  {
    var roots := previous.roots + [next];
    result := PrepareContinued(keys, b, previous, now, roots, Some(targets), days);
    OneMoreRoot(b, previous.roots, next);
    if result.Some? {
      HandoffFollows(b, previous, now, roots, Some(targets), days, result.value);
      RootSigned(keys, b, previous, now, next, targets, days, result.value);
    } else if ValidRelease(b, previous) {
      RootOutcome(keys, b, previous, now, next, targets, days);
    }
  }

  lemma RootOutcome(keys: map<Role, Key>, b: Bundle, previous: Release, now: int, next: Root, targets: TargetsFile,
                    days: int)
    requires ValidRelease(b, previous) && RootSuccessor(CurrentRoot(b, previous.roots).signed, next.signed)
    requires forall r :: SignsHandoff(keys, b, previous, now, previous.roots + [next], targets, days, r) ==> !ValidRelease(b, r)
    ensures !(HandoffReady(keys, b, previous, now, next, targets, days) && now + DAY <= next.signed.expires &&
              RenewedTargetsApproval(previous.targets.signed, targets.signed, previous.version + 1, now, next.signed.expires))
  {
    var roots, expires := previous.roots + [next], next.signed.expires;
    OneMoreRoot(b, previous.roots, next);
    if HandoffReady(keys, b, previous, now, next, targets, days) && now + DAY <= expires &&
       RenewedTargetsApproval(previous.targets.signed, targets.signed, previous.version + 1, now, expires) {
      var r := SignBoth(keys, Rotating(b, previous, now, roots, targets, days, 6), expires);
      assert SignsHandoff(keys, b, previous, now, roots, targets, days, r);
      RootSigned(keys, b, previous, now, next, targets, days, r);
    }
  }
}

/** Properties of the install-task guard chain, its action-ID table and its
    ordering, stated over the specification in InstallTasks. */
module InstallTaskProperties {
  import opened FwupdTypes
  import opened InstallTasks

  /** Every guard that runs before `g` lets the install through. */
  predicate Reaches(g: Guard, d: Device, c: Component, flags: set<InstallFlag>, env: Env)
  {
    forall h :: Rank(h) < Rank(g) ==> !Blocks(h, d, c, flags, env)
  }

  /** The four guards that FORCE switches off. */
  const Bypassable: set<Guard> := {ProtocolCheck, OfflineCheck, FormatCheck, FloorCheck}

  /** A guard that lets everything through lets the later guards be reached
      exactly when it is reached itself. */
  lemma ReachesNext(g: Guard, next: Guard, d: Device, c: Component, flags: set<InstallFlag>, env: Env)
    requires Rank(next) == Rank(g) + 1
    ensures Reaches(next, d, c, flags, env) <==> Reaches(g, d, c, flags, env) && !Blocks(g, d, c, flags, env)
  {
  }

  /** The pipeline stops at guard `g` exactly when `g` blocks and every earlier
      guard lets the install through. */
  lemma {:induction false} FirstBlockingGuard(d: Device, c: Component, flags: set<InstallFlag>, env: Env, g: Guard)
    ensures Evaluate(d, c, flags, env).outcome.Fail? && Evaluate(d, c, flags, env).outcome.guard == g
        <==> Blocks(g, d, c, flags, env) && Reaches(g, d, c, flags, env)
  {
    ReachesEarlyGuards(d, c, flags, env);
    ReachesMiddleGuards(d, c, flags, env);
    ReachesLateGuards(d, c, flags, env);
  }

  /** The pipeline passes exactly when no guard blocks. */
  lemma {:induction false} PassesWhenNoGuardBlocks(d: Device, c: Component, flags: set<InstallFlag>, env: Env)
    ensures Evaluate(d, c, flags, env).outcome.Pass?
        <==> Reaches(TrustCheck, d, c, flags, env) && !Blocks(TrustCheck, d, c, flags, env)
  {
    ReachesEarlyGuards(d, c, flags, env);
    ReachesMiddleGuards(d, c, flags, env);
    ReachesLateGuards(d, c, flags, env);
  }

  /** Reaching each guard, spelled out one step at a time. */
  lemma ReachesEarlyGuards(d: Device, c: Component, flags: set<InstallFlag>, env: Env)
    ensures Reaches(GuidCheck, d, c, flags, env)
    ensures Reaches(VersionCheckGuard, d, c, flags, env) <==> !Blocks(GuidCheck, d, c, flags, env)
    ensures Reaches(ProtocolCheck, d, c, flags, env) <==> Reaches(VersionCheckGuard, d, c, flags, env) && !Blocks(VersionCheckGuard, d, c, flags, env)
    ensures Reaches(LockCheck, d, c, flags, env) <==> Reaches(ProtocolCheck, d, c, flags, env) && !Blocks(ProtocolCheck, d, c, flags, env)
    ensures Reaches(BranchCheck, d, c, flags, env) <==> Reaches(LockCheck, d, c, flags, env) && !Blocks(LockCheck, d, c, flags, env)
    ensures Reaches(UpdatableCheck, d, c, flags, env) <==> Reaches(BranchCheck, d, c, flags, env) && !Blocks(BranchCheck, d, c, flags, env)
  {
    ReachesNext(GuidCheck, VersionCheckGuard, d, c, flags, env);
    ReachesNext(VersionCheckGuard, ProtocolCheck, d, c, flags, env);
    ReachesNext(ProtocolCheck, LockCheck, d, c, flags, env);
    ReachesNext(LockCheck, BranchCheck, d, c, flags, env);
    ReachesNext(BranchCheck, UpdatableCheck, d, c, flags, env);
  }

  lemma ReachesMiddleGuards(d: Device, c: Component, flags: set<InstallFlag>, env: Env)
    ensures Reaches(OfflineCheck, d, c, flags, env) <==> Reaches(UpdatableCheck, d, c, flags, env) && !Blocks(UpdatableCheck, d, c, flags, env)
    ensures Reaches(DeviceVersionCheck, d, c, flags, env) <==> Reaches(OfflineCheck, d, c, flags, env) && !Blocks(OfflineCheck, d, c, flags, env)
    ensures Reaches(ReleaseCheck, d, c, flags, env) <==> Reaches(DeviceVersionCheck, d, c, flags, env) && !Blocks(DeviceVersionCheck, d, c, flags, env)
    ensures Reaches(ReleaseVersionCheck, d, c, flags, env) <==> Reaches(ReleaseCheck, d, c, flags, env) && !Blocks(ReleaseCheck, d, c, flags, env)
    ensures Reaches(FormatCheck, d, c, flags, env) <==> Reaches(ReleaseVersionCheck, d, c, flags, env) && !Blocks(ReleaseVersionCheck, d, c, flags, env)
  {
    ReachesNext(UpdatableCheck, OfflineCheck, d, c, flags, env);
    ReachesNext(OfflineCheck, DeviceVersionCheck, d, c, flags, env);
    ReachesNext(DeviceVersionCheck, ReleaseCheck, d, c, flags, env);
    ReachesNext(ReleaseCheck, ReleaseVersionCheck, d, c, flags, env);
    ReachesNext(ReleaseVersionCheck, FormatCheck, d, c, flags, env);
  }

  lemma ReachesLateGuards(d: Device, c: Component, flags: set<InstallFlag>, env: Env)
    ensures Reaches(FloorCheck, d, c, flags, env) <==> Reaches(FormatCheck, d, c, flags, env) && !Blocks(FormatCheck, d, c, flags, env)
    ensures Reaches(UpgradeOnlyCheck, d, c, flags, env) <==> Reaches(FloorCheck, d, c, flags, env) && !Blocks(FloorCheck, d, c, flags, env)
    ensures Reaches(ReinstallCheck, d, c, flags, env) <==> Reaches(UpgradeOnlyCheck, d, c, flags, env) && !Blocks(UpgradeOnlyCheck, d, c, flags, env)
    ensures Reaches(DowngradeCheck, d, c, flags, env) <==> Reaches(ReinstallCheck, d, c, flags, env) && !Blocks(ReinstallCheck, d, c, flags, env)
    ensures Reaches(TrustCheck, d, c, flags, env) <==> Reaches(DowngradeCheck, d, c, flags, env) && !Blocks(DowngradeCheck, d, c, flags, env)
  {
    ReachesNext(FormatCheck, FloorCheck, d, c, flags, env);
    ReachesNext(FloorCheck, UpgradeOnlyCheck, d, c, flags, env);
    ReachesNext(UpgradeOnlyCheck, ReinstallCheck, d, c, flags, env);
    ReachesNext(ReinstallCheck, DowngradeCheck, d, c, flags, env);
    ReachesNext(DowngradeCheck, TrustCheck, d, c, flags, env);
  }

  /** FORCE switches off exactly four guards: under FORCE none of them blocks,
      so a forced run never stops at one of them. */
  lemma ForceLiftsFourGuards(d: Device, c: Component, flags: set<InstallFlag>, env: Env)
    requires Force in flags
    ensures forall g :: g in Bypassable ==> !Blocks(g, d, c, flags, env)
    ensures Evaluate(d, c, flags, env).outcome.Fail? ==> Evaluate(d, c, flags, env).outcome.guard !in Bypassable
  {
  }

  /** Every other guard decides the same with and without FORCE. */
  lemma ForceIgnoredElsewhere(g: Guard, d: Device, c: Component, flags: set<InstallFlag>, env: Env)
    requires g !in Bypassable
    ensures Blocks(g, d, c, flags + {Force}, env) == Blocks(g, d, c, flags - {Force}, env)
  {
  }

  /** Adding FORCE to a run that stopped at a guard other than the four leaves
      the run exactly as it was: same error, same fields written. */
  lemma ForceKeepsOtherFailures(d: Device, c: Component, flags: set<InstallFlag>, env: Env)
    requires Evaluate(d, c, flags, env).outcome.Fail?
    requires Evaluate(d, c, flags, env).outcome.guard !in Bypassable
    ensures Evaluate(d, c, flags + {Force}, env) == Evaluate(d, c, flags, env)
  {
  }

  /** Lock, not-updatable, a missing device version, a missing release and a
      missing release version stop the run whatever the install flags: at that
      guard or at an earlier one. */
  lemma UnbypassableGuards(d: Device, c: Component, flags: set<InstallFlag>, env: Env)
    ensures Locked in d.flags ==>
      Evaluate(d, c, flags, env).outcome.Fail? && Rank(Evaluate(d, c, flags, env).outcome.guard) <= Rank(LockCheck)
    ensures Updatable !in d.flags ==>
      Evaluate(d, c, flags, env).outcome.Fail? && Rank(Evaluate(d, c, flags, env).outcome.guard) <= Rank(UpdatableCheck)
    ensures d.version.None? ==>
      Evaluate(d, c, flags, env).outcome.Fail? && Rank(Evaluate(d, c, flags, env).outcome.guard) <= Rank(DeviceVersionCheck)
    ensures |c.releases| == 0 ==>
      Evaluate(d, c, flags, env).outcome.Fail? && Rank(Evaluate(d, c, flags, env).outcome.guard) <= Rank(ReleaseCheck)
    ensures |c.releases| > 0 && c.releases[0].version.None? ==>
      Evaluate(d, c, flags, env).outcome.Fail? && Rank(Evaluate(d, c, flags, env).outcome.guard) <= Rank(ReleaseVersionCheck)
  {
  }

  /** The branch guard compares the raw optional branches: once reached it
      fails with NOT_SUPPORTED exactly when ALLOW_BRANCH_SWITCH is absent and
      the branches differ, an absent branch equalling only an absent one. */
  lemma BranchGuard(d: Device, c: Component, flags: set<InstallFlag>, env: Env)
    requires Reaches(BranchCheck, d, c, flags, env)
    ensures Evaluate(d, c, flags, env).outcome == Fail(BranchCheck, NotSupported)
        <==> AllowBranchSwitch !in flags && d.branch != c.branch
  {
  }

  /** "default" is only a display name: a device without a branch refuses a
      component that names the branch "default". */
  lemma AbsentBranchIsNotDefault(d: Device, c: Component, flags: set<InstallFlag>, env: Env)
    requires Reaches(BranchCheck, d, c, flags, env)
    requires AllowBranchSwitch !in flags && d.branch == None && c.branch == Some("default")
    ensures Evaluate(d, c, flags, env).outcome == Fail(BranchCheck, NotSupported)
  {
  }

  /** The FORCE branches of fu_install_task_check_verfmt are dead: the helper
      never fails under FORCE, and the pipeline only calls it without FORCE. */
  lemma VerfmtForceBranchesDead(fmtDev: VersionFormat, verfmts: seq<string>, flags: set<InstallFlag>, env: Env)
    ensures Force in flags ==> VerfmtOutcome(fmtDev, verfmts, flags, env) == Pass
    ensures Force !in flags ==>
      (VerfmtOutcome(fmtDev, verfmts, flags, env).Pass? <==> fmtDev != Unknown && DeclaresFormat(verfmts, fmtDev, env))
  {
  }

  /** The version-format guard is skipped under FORCE, under
      ALLOW_BRANCH_SWITCH and when no format is declared; otherwise it blocks
      exactly when the device format is UNKNOWN or no declared format names it. */
  lemma FormatGuard(d: Device, c: Component, flags: set<InstallFlag>, env: Env)
    ensures Blocks(FormatCheck, d, c, flags, env)
        <==> Force !in flags && AllowBranchSwitch !in flags && |c.verfmts| != 0 &&
             (d.versionFormat == Unknown || !DeclaresFormat(c.verfmts, d.versionFormat, env))
  {
  }

  /** The minimum-version guard compares the device's lowest version with the
      device's own current version: the release plays no part in it. */
  lemma FloorIgnoresRelease(d: Device, c1: Component, c2: Component, flags: set<InstallFlag>, env: Env)
    ensures Blocks(FloorCheck, d, c1, flags, env) == Blocks(FloorCheck, d, c2, flags, env)
    ensures Blocks(FloorCheck, d, c1, flags, env)
        <==> Force !in flags && d.version.Some? && d.versionLowest.Some? &&
             env.vercmp(d.versionLowest.value, d.version.value, d.versionFormat) > 0
  {
  }

  /** ONLY_VERSION_UPGRADE with a release that is not newer is NOT_SUPPORTED,
      even with ALLOW_REINSTALL: the upgrade-only guard runs first. */
  lemma UpgradeOnlyPrecedesReinstall(d: Device, c: Component, flags: set<InstallFlag>, env: Env)
    requires Reaches(UpgradeOnlyCheck, d, c, flags, env) && Comparable(d, c)
    requires OnlyVersionUpgrade in d.flags && Vercmp(d, c, env) >= 0
    ensures Evaluate(d, c, flags, env).outcome == Fail(UpgradeOnlyCheck, NotSupported)
  {
  }

  /** Otherwise an equal version is VERSION_SAME unless ALLOW_REINSTALL is set. */
  lemma SameVersionGuard(d: Device, c: Component, flags: set<InstallFlag>, env: Env)
    requires Reaches(ReinstallCheck, d, c, flags, env) && Comparable(d, c)
    requires Vercmp(d, c, env) == 0
    ensures Evaluate(d, c, flags, env).outcome == Fail(ReinstallCheck, VersionSame) <==> AllowReinstall !in flags
  {
  }

  /** is_downgrade is written exactly when the run gets past the reinstall
      guard. */
  lemma DowngradeWritten(d: Device, c: Component, flags: set<InstallFlag>, env: Env)
    ensures Evaluate(d, c, flags, env).downgrade.Some? <==> Reaches(DowngradeCheck, d, c, flags, env)
  {
    ReachesEarlyGuards(d, c, flags, env);
    ReachesMiddleGuards(d, c, flags, env);
    ReachesLateGuards(d, c, flags, env);
  }

  /** The value written to is_downgrade is vercmp > 0, and only the downgrade
      and keyring guards can fail after it is written. */
  lemma DowngradeValue(d: Device, c: Component, flags: set<InstallFlag>, env: Env)
    ensures Evaluate(d, c, flags, env).downgrade.Some? ==>
      Comparable(d, c) && Evaluate(d, c, flags, env).downgrade.value == (Vercmp(d, c, env) > 0)
    ensures Evaluate(d, c, flags, env).outcome.Fail? && Evaluate(d, c, flags, env).downgrade.Some? ==>
      Evaluate(d, c, flags, env).outcome.guard in {DowngradeCheck, TrustCheck}
  {
  }

  /** No failure writes trust_flags. */
  lemma FailureLeavesTrustUnset(d: Device, c: Component, flags: set<InstallFlag>, env: Env)
    ensures Evaluate(d, c, flags, env).outcome.Fail? ==> Evaluate(d, c, flags, env).trust.None?
  {
  }

  /** A downgrade without ALLOW_OLDER or ALLOW_BRANCH_SWITCH is VERSION_NEWER,
      and is_downgrade has already been set to TRUE. */
  lemma DowngradeGate(d: Device, c: Component, flags: set<InstallFlag>, env: Env)
    requires Reaches(DowngradeCheck, d, c, flags, env) && Comparable(d, c)
    requires Vercmp(d, c, env) > 0 && AllowOlder !in flags && AllowBranchSwitch !in flags
    ensures Evaluate(d, c, flags, env) == Verdict(Fail(DowngradeCheck, VersionNewer), Some(true), None)
  {
  }

  /** Once every version guard has passed, the keyring decides: its flags are
      adopted, a NOT_SUPPORTED error is ignored and the run succeeds without
      writing trust_flags, any other error is returned unchanged. */
  lemma KeyringDecides(d: Device, c: Component, flags: set<InstallFlag>, env: Env)
    requires Reaches(TrustCheck, d, c, flags, env) && Comparable(d, c)
    ensures env.keyring(c.releases[0]).Success? ==>
      Evaluate(d, c, flags, env).outcome == Pass && Evaluate(d, c, flags, env).trust == Some(env.keyring(c.releases[0]).value)
    ensures env.keyring(c.releases[0]) == Failure(NotSupported) ==>
      Evaluate(d, c, flags, env).outcome == Pass && Evaluate(d, c, flags, env).trust == None
    ensures env.keyring(c.releases[0]).Failure? && env.keyring(c.releases[0]).error != NotSupported ==>
      Evaluate(d, c, flags, env).outcome == Fail(TrustCheck, env.keyring(c.releases[0]).error)
    ensures Evaluate(d, c, flags, env).downgrade == Some(Vercmp(d, c, env) > 0)
  {
  }

  /** A downgrade always needs a downgrade action, trusted or not. */
  lemma DowngradeTakesPrecedence(internal: bool, trusted: bool)
    ensures ComposedActionId(internal, true, trusted) == ComposedActionId(internal, true, false)
  {
  }

  /** The action ID tells apart the locality, the downgrade and, for an
      update, the payload trust: the six IDs are distinct. */
  lemma ActionIdDeterminesFacts(i1: bool, d1: bool, t1: bool, i2: bool, d2: bool, t2: bool)
    requires ComposedActionId(i1, d1, t1) == ComposedActionId(i2, d2, t2)
    ensures i1 == i2 && d1 == d2 && (!d1 ==> t1 == t2)
  {
    ComposedHotplugIds();
    ComposedInternalIds();
  }

  /** The action ID of a task depends only on the INTERNAL flag, is_downgrade
      and the PAYLOAD trust bit. */
  lemma ActionIdDependsOnThreeFacts(task1: InstallTask, task2: InstallTask)
    requires (Internal in task1.device.flags) == (Internal in task2.device.flags)
    requires task1.isDowngrade == task2.isDowngrade
    requires (Payload in task1.trustFlags) == (Payload in task2.trustFlags)
    ensures task1.ActionId() == task2.ActionId()
  {
  }

  lemma CompareAntisymmetric(task1: InstallTask, task2: InstallTask)
    ensures Compare(task1, task2) == -Compare(task2, task1)
  {
  }

  lemma CompareReflexive(task: InstallTask)
    ensures Compare(task, task) == 0
  {
  }

  lemma CompareTransitive(task1: InstallTask, task2: InstallTask, task3: InstallTask)
    requires Compare(task1, task2) <= 0 && Compare(task2, task3) <= 0
    ensures Compare(task1, task3) <= 0
  {
  }

  /** A device that shares no GUID with the component is NOT_FOUND, whatever
      else holds. */
  lemma NoSharedGuidIsNotFound(d: Device, c: Component, flags: set<InstallFlag>, env: Env)
    requires forall i :: 0 <= i < |c.provided| ==> c.provided[i] !in d.guids
    ensures Evaluate(d, c, flags, env) == Verdict(Fail(GuidCheck, NotFound), None, None)
  {
  }

  /** Running the check twice on the same task, flags and collaborators gives
      the same outcome twice and leaves the fields as one run does. */
  method RerunIsIdempotent(task: InstallTask, flags: set<InstallFlag>, env: Env) returns (r1: Outcome, r2: Outcome)
    modifies task
    ensures var v := Evaluate(task.device, task.component, flags, env);
      && r1 == v.outcome && r2 == v.outcome
      && task.isDowngrade == (if v.downgrade.Some? then v.downgrade.value else old(task.isDowngrade))
      && task.trustFlags == (if v.trust.Some? then v.trust.value else old(task.trustFlags))
  {
    r1 := task.CheckRequirements(flags, env);
    r2 := task.CheckRequirements(flags, env);
  }

  /** An updatable PLAIN-format device with one GUID and the given version. */
  function SampleDevice(version: string, extra: set<DeviceFlag>): Device
  {
    Device(extra + {Updatable}, {"guid"}, [], None, Some(version), None, Plain, 0, "sample", "sample-id")
  }

  /** A component providing that GUID, with one release of the given version. */
  function SampleComponent(version: string): Component
  {
    Component(["guid"], [], None, [], None, [Release(Some(version), map[])])
  }

  predicate KeyringAccepts(env: Env, version: string)
  {
    var k := env.keyring(Release(Some(version), map[]));
    k.Success? || k == Failure(NotSupported)
  }

  /** Installing the version the device already has is VERSION_SAME. */
  lemma SampleSameVersion(env: Env)
    requires env.vercmp("1.0.0", "1.0.0", Plain) == 0
    ensures Evaluate(SampleDevice("1.0.0", {}), SampleComponent("1.0.0"), {}, env).outcome
         == Fail(ReinstallCheck, VersionSame)
  {
    assert SampleComponent("1.0.0").provided[0] in SampleDevice("1.0.0", {}).guids;
  }

  /** A newer release is accepted, and is not a downgrade. */
  lemma SampleUpgrade(env: Env)
    requires env.vercmp("1.0.0", "2.0.0", Plain) < 0 && KeyringAccepts(env, "2.0.0")
    ensures Evaluate(SampleDevice("1.0.0", {}), SampleComponent("2.0.0"), {}, env).outcome == Pass
    ensures Evaluate(SampleDevice("1.0.0", {}), SampleComponent("2.0.0"), {}, env).downgrade == Some(false)
  {
    assert SampleComponent("2.0.0").provided[0] in SampleDevice("1.0.0", {}).guids;
  }

  /** An older release is VERSION_NEWER. */
  lemma SampleDowngrade(env: Env)
    requires env.vercmp("2.0.0", "1.0.0", Plain) > 0
    ensures Evaluate(SampleDevice("2.0.0", {}), SampleComponent("1.0.0"), {}, env).outcome
         == Fail(DowngradeCheck, VersionNewer)
  {
    assert SampleComponent("1.0.0").provided[0] in SampleDevice("2.0.0", {}).guids;
  }

  /** With ALLOW_OLDER the same older release is accepted as a downgrade. */
  lemma SampleAllowOlder(env: Env)
    requires env.vercmp("2.0.0", "1.0.0", Plain) > 0 && KeyringAccepts(env, "1.0.0")
    ensures Evaluate(SampleDevice("2.0.0", {}), SampleComponent("1.0.0"), {AllowOlder}, env).outcome == Pass
    ensures Evaluate(SampleDevice("2.0.0", {}), SampleComponent("1.0.0"), {AllowOlder}, env).downgrade == Some(true)
  {
    assert SampleComponent("1.0.0").provided[0] in SampleDevice("2.0.0", {}).guids;
  }

  /** An ONLY_OFFLINE device refuses an online install, and lets an offline one
      past that guard. */
  lemma SampleOfflineOnly(env: Env)
    ensures Evaluate(SampleDevice("1.0.0", {OnlyOffline}), SampleComponent("2.0.0"), {}, env).outcome
         == Fail(OfflineCheck, NotSupported)
    ensures !Blocks(OfflineCheck, SampleDevice("1.0.0", {OnlyOffline}), SampleComponent("2.0.0"), {Offline}, env)
  {
    assert SampleComponent("2.0.0").provided[0] in SampleDevice("1.0.0", {OnlyOffline}).guids;
  }
}

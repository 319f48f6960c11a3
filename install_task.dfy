/** FuInstallTask: one device paired with one metadata component, the ordered
    chain of guards that decides whether the component's first release may be
    installed on the device, the PolicyKit action the install then needs, and
    the ordering of tasks by device. */
module InstallTasks {
  import opened FwupdTypes

  /** The guards of fu_install_task_check_requirements, in the order they run.
      A failed run names the guard that stopped it, in place of the message. */
  datatype Guard =
    | GuidCheck
    | VersionCheckGuard
    | ProtocolCheck
    | LockCheck
    | BranchCheck
    | UpdatableCheck
    | OfflineCheck
    | DeviceVersionCheck
    | ReleaseCheck
    | ReleaseVersionCheck
    | FormatCheck
    | FloorCheck
    | UpgradeOnlyCheck
    | ReinstallCheck
    | DowngradeCheck
    | TrustCheck

  /** TRUE, or FALSE with the error the GError carries. */
  datatype Outcome = Pass | Fail(guard: Guard, kind: ErrorKind)

  /** Everything a run of the pipeline decides: its outcome, the value written
      to is_downgrade (None when the run stopped before writing it) and the
      flags written to trust_flags (None when the keyring did not supply any). */
  datatype Verdict = Verdict(outcome: Outcome, downgrade: Option<bool>, trust: Option<set<TrustFlag>>)

  /** Position of each guard in the pipeline. */
  function Rank(g: Guard): nat
  {
    match g
    case GuidCheck => 0
    case VersionCheckGuard => 1
    case ProtocolCheck => 2
    case LockCheck => 3
    case BranchCheck => 4
    case UpdatableCheck => 5
    case OfflineCheck => 6
    case DeviceVersionCheck => 7
    case ReleaseCheck => 8
    case ReleaseVersionCheck => 9
    case FormatCheck => 10
    case FloorCheck => 11
    case UpgradeOnlyCheck => 12
    case ReinstallCheck => 13
    case DowngradeCheck => 14
    case TrustCheck => 15
  }

  /** The error kind each guard sets, except the keyring guard, which forwards
      the keyring's own error. */
  function GuardKind(g: Guard): ErrorKind
  {
    match g
    case GuidCheck => NotFound
    case DeviceVersionCheck => InternalError
    case ReleaseCheck => InvalidFile
    case ReleaseVersionCheck => InvalidFile
    case FloorCheck => VersionNewer
    case ReinstallCheck => VersionSame
    case DowngradeCheck => VersionNewer
    case _ => NotSupported
  }

  /** Some flashed-firmware GUID of the component is one of the device's. */
  predicate MatchesGuid(provided: seq<string>, guids: set<string>)
  {
    exists i :: 0 <= i < |provided| && provided[i] in guids
  }

  /** The component requires `firmware` with no text, i.e. with no version predicate. */
  predicate HasFirmwareRequirement(reqs: seq<Requirement>)
  {
    exists i :: 0 <= i < |reqs| && reqs[i].element == "firmware" && reqs[i].text.None?
  }

  /** Some declared version-format string names the given format. */
  predicate DeclaresFormat(verfmts: seq<string>, fmt: VersionFormat, env: Env)
  {
    exists i :: 0 <= i < |verfmts| && env.formatFromString(verfmts[i]) == fmt
  }

  /** fu_install_task_check_verfmt, including the FORCE branches it holds. */
  function VerfmtOutcome(fmtDev: VersionFormat, verfmts: seq<string>, flags: set<InstallFlag>, env: Env): Outcome
  {
    if fmtDev == Unknown && Force !in flags then Fail(FormatCheck, NotSupported)
    else if DeclaresFormat(verfmts, fmtDev, env) then Pass
    else if Force !in flags then Fail(FormatCheck, NotSupported)
    else Pass
  }

  /** The device has a version and the component a first release with a version. */
  predicate Comparable(d: Device, c: Component)
  {
    d.version.Some? && |c.releases| > 0 && c.releases[0].version.Some?
  }

  /** The release version in the device's format: the raw attribute for PLAIN,
      otherwise the attribute reinterpreted by fu_common_version_parse_from_format. */
  function ReleaseVersion(d: Device, c: Component, env: Env): string
    requires Comparable(d, c)
  {
    var raw := c.releases[0].version.value;
    if d.versionFormat == Plain then raw else env.parseFromFormat(raw, d.versionFormat)
  }

  /** vercmp of the device version against the release version: positive when
      the device is newer (a downgrade), zero when they are the same. */
  function Vercmp(d: Device, c: Component, env: Env): int
    requires Comparable(d, c)
  {
    env.vercmp(d.version.value, ReleaseVersion(d, c, env), d.versionFormat)
  }

  /** Whether guard `g`, when reached, rejects the install. */
  predicate Blocks(g: Guard, d: Device, c: Component, flags: set<InstallFlag>, env: Env)
  {
    match g
    case GuidCheck => !MatchesGuid(c.provided, d.guids)
    case VersionCheckGuard => VersionCheckRequired in d.flags && !HasFirmwareRequirement(c.requirements)
    case ProtocolCheck =>
      |d.protocols| != 0 && c.protocol.Some? && c.protocol.value !in d.protocols && Force !in flags
    case LockCheck => Locked in d.flags
    case BranchCheck => AllowBranchSwitch !in flags && d.branch != c.branch
    case UpdatableCheck => Updatable !in d.flags
    case OfflineCheck => Offline !in flags && Force !in flags && OnlyOffline in d.flags
    case DeviceVersionCheck => d.version.None?
    case ReleaseCheck => |c.releases| == 0
    case ReleaseVersionCheck => |c.releases| > 0 && c.releases[0].version.None?
    case FormatCheck =>
      Force !in flags && AllowBranchSwitch !in flags && |c.verfmts| != 0 &&
      VerfmtOutcome(d.versionFormat, c.verfmts, flags, env).Fail?
    case FloorCheck =>
      d.version.Some? && d.versionLowest.Some? &&
      env.vercmp(d.versionLowest.value, d.version.value, d.versionFormat) > 0 && Force !in flags
    case UpgradeOnlyCheck => Comparable(d, c) && OnlyVersionUpgrade in d.flags && Vercmp(d, c, env) >= 0
    case ReinstallCheck => Comparable(d, c) && Vercmp(d, c, env) == 0 && AllowReinstall !in flags
    case DowngradeCheck =>
      Comparable(d, c) && Vercmp(d, c, env) > 0 && AllowOlder !in flags && AllowBranchSwitch !in flags
    case TrustCheck =>
      |c.releases| > 0 && env.keyring(c.releases[0]).Failure? && env.keyring(c.releases[0]).error != NotSupported
  }

  function Rejected(g: Guard): Verdict
  {
    Verdict(Fail(g, GuardKind(g)), None, None)
  }

  /** The specification of fu_install_task_check_requirements: the first guard
      that blocks decides the error; is_downgrade is written once the version
      comparison has passed the reinstall guard, before the downgrade guard
      runs; trust_flags is written only when the keyring returns flags, and a
      NOT_SUPPORTED keyring error is ignored. */
  function Evaluate(d: Device, c: Component, flags: set<InstallFlag>, env: Env): (v: Verdict)
    ensures v.outcome.Fail? && v.outcome.guard != TrustCheck ==> v.outcome.kind == GuardKind(v.outcome.guard)
    ensures v.outcome.Fail? ==> Blocks(v.outcome.guard, d, c, flags, env)
    ensures v.outcome.Pass? ==> v.downgrade.Some? && !Blocks(TrustCheck, d, c, flags, env)
  {
    if Blocks(GuidCheck, d, c, flags, env) then Rejected(GuidCheck)
    else if Blocks(VersionCheckGuard, d, c, flags, env) then Rejected(VersionCheckGuard)
    else if Blocks(ProtocolCheck, d, c, flags, env) then Rejected(ProtocolCheck)
    else if Blocks(LockCheck, d, c, flags, env) then Rejected(LockCheck)
    else if Blocks(BranchCheck, d, c, flags, env) then Rejected(BranchCheck)
    else if Blocks(UpdatableCheck, d, c, flags, env) then Rejected(UpdatableCheck)
    else if Blocks(OfflineCheck, d, c, flags, env) then Rejected(OfflineCheck)
    else if Blocks(DeviceVersionCheck, d, c, flags, env) then Rejected(DeviceVersionCheck)
    else if Blocks(ReleaseCheck, d, c, flags, env) then Rejected(ReleaseCheck)
    else if Blocks(ReleaseVersionCheck, d, c, flags, env) then Rejected(ReleaseVersionCheck)
    else CompareRelease(d, c, flags, env)
  }

  /** The guards from the version-format check on, which run once the device
      version and the first release's version are known. */
  function CompareRelease(d: Device, c: Component, flags: set<InstallFlag>, env: Env): (v: Verdict)
    requires Comparable(d, c)
  {
    if Blocks(FormatCheck, d, c, flags, env) then Rejected(FormatCheck)
    else if Blocks(FloorCheck, d, c, flags, env) then Rejected(FloorCheck)
    else if Blocks(UpgradeOnlyCheck, d, c, flags, env) then Rejected(UpgradeOnlyCheck)
    else if Blocks(ReinstallCheck, d, c, flags, env) then Rejected(ReinstallCheck)
    else
      var isDowngrade := Vercmp(d, c, env) > 0;
      if Blocks(DowngradeCheck, d, c, flags, env) then
        Verdict(Fail(DowngradeCheck, VersionNewer), Some(isDowngrade), None)
      else
        match env.keyring(c.releases[0])
        case Success(trust) => Verdict(Pass, Some(isDowngrade), Some(trust))
        case Failure(kind) =>
          if kind == NotSupported then Verdict(Pass, Some(isDowngrade), None)
          else Verdict(Fail(TrustCheck, kind), Some(isDowngrade), None)
  }

  /** The six PolicyKit action IDs, built from their parts: the verb, the
      device locality, and `-trusted` for an update whose payload is trusted. */
  function ComposedActionId(internal: bool, downgrade: bool, trusted: bool): string
  {
    "org.freedesktop.fwupd."
      + (if downgrade then "downgrade" else "update")
      + (if internal then "-internal" else "-hotplug")
      + (if !downgrade && trusted then "-trusted" else "")
  }

  /** The composition spells out each of the three hotplug identifiers. */
  lemma ComposedHotplugIds()
    ensures ComposedActionId(false, true, false) == "org.freedesktop.fwupd.downgrade-hotplug"
    ensures ComposedActionId(false, true, true) == "org.freedesktop.fwupd.downgrade-hotplug"
    ensures ComposedActionId(false, false, true) == "org.freedesktop.fwupd.update-hotplug-trusted"
    ensures ComposedActionId(false, false, false) == "org.freedesktop.fwupd.update-hotplug"
  {
  }

  /** The composition spells out each of the three internal identifiers. */
  lemma ComposedInternalIds()
    ensures ComposedActionId(true, true, false) == "org.freedesktop.fwupd.downgrade-internal"
    ensures ComposedActionId(true, true, true) == "org.freedesktop.fwupd.downgrade-internal"
    ensures ComposedActionId(true, false, true) == "org.freedesktop.fwupd.update-internal-trusted"
    ensures ComposedActionId(true, false, false) == "org.freedesktop.fwupd.update-internal"
  {
  }

  const ActionIds: set<string> := {
    "org.freedesktop.fwupd.downgrade-hotplug",
    "org.freedesktop.fwupd.update-hotplug-trusted",
    "org.freedesktop.fwupd.update-hotplug",
    "org.freedesktop.fwupd.downgrade-internal",
    "org.freedesktop.fwupd.update-internal-trusted",
    "org.freedesktop.fwupd.update-internal"
  }

  class InstallTask {
    const device: Device
    const component: Component
    var trustFlags: set<TrustFlag>
    var isDowngrade: bool

    /** fu_install_task_new with fu_install_task_init: the two references are
        stored, trust_flags starts as NONE and is_downgrade as FALSE. */
    constructor (device: Device, component: Component)
      ensures this.device == device && this.component == component
      ensures trustFlags == {} && !isDowngrade
    {
      this.device := device;
      this.component := component;
      trustFlags := {};
      isDowngrade := false;
    }

    function GetDevice(): Device
    {
      device
    }

    function GetComponent(): Component
    {
      component
    }

    function GetTrustFlags(): set<TrustFlag>
      reads this
    {
      trustFlags
    }

    function GetIsDowngrade(): bool
      reads this
    {
      isDowngrade
    }

    /** The scan of `provides/firmware[@type='flashed']` that stops at the
        first GUID the device has. */
    method ProvidesDeviceGuid() returns (matchesGuid: bool)
      ensures matchesGuid <==> MatchesGuid(component.provided, device.guids)
    {
      var provided := component.provided;
      matchesGuid := false;
      var i := 0;
      while i < |provided|
        invariant 0 <= i <= |provided|
        invariant matchesGuid ==> MatchesGuid(provided, device.guids)
        invariant !matchesGuid ==> forall k :: 0 <= k < i ==> provided[k] !in device.guids
      {
        if provided[i] in device.guids {
          matchesGuid := true;
          break;
        }
        i := i + 1;
      }
    }

    /** fu_install_task_check_requirements_version_check: scan the children of `requires`
        for a `firmware` element without text. */
    method CheckVersionRequirement() returns (ok: bool)
      ensures ok <==> HasFirmwareRequirement(component.requirements)
    {
      var reqs := component.requirements;
      for i := 0 to |reqs|
        invariant forall k :: 0 <= k < i ==> !(reqs[k].element == "firmware" && reqs[k].text.None?)
      {
        if reqs[i].element == "firmware" && reqs[i].text.None? {
          return true;
        }
      }
      return false;
    }

    /** fu_install_task_check_verfmt: an UNKNOWN device format fails unless
        forced; otherwise pass at the first declared format naming the device
        format, and fail at the end unless forced. */
    method CheckVerfmt(verfmts: seq<string>, flags: set<InstallFlag>, env: Env) returns (r: Outcome)
      ensures r == VerfmtOutcome(device.versionFormat, verfmts, flags, env)
      ensures r.Pass? <==> Force in flags || (device.versionFormat != Unknown && DeclaresFormat(verfmts, device.versionFormat, env))
    {
      var fmtDev := device.versionFormat;
      if fmtDev == Unknown && Force !in flags {
        return Fail(FormatCheck, NotSupported);
      }
      for i := 0 to |verfmts|
        invariant forall k :: 0 <= k < i ==> env.formatFromString(verfmts[k]) != fmtDev
      {
        var fmtRel := env.formatFromString(verfmts[i]);
        if fmtDev == fmtRel {
          return Pass;
        }
      }
      if Force !in flags {
        return Fail(FormatCheck, NotSupported);
      }
      return Pass;
    }

    /** fu_install_task_check_requirements. The outcome is Evaluate's; the
        fields change exactly where Evaluate says they are written. */
    method CheckRequirements(flags: set<InstallFlag>, env: Env) returns (r: Outcome)
      modifies this
      ensures var v := Evaluate(device, component, flags, env);
        && r == v.outcome
        && isDowngrade == (if v.downgrade.Some? then v.downgrade.value else old(isDowngrade))
        && trustFlags == (if v.trust.Some? then v.trust.value else old(trustFlags))
    {
      // does this component provide a GUID the device has
      var matchesGuid := ProvidesDeviceGuid();
      if !matchesGuid {
        return Fail(GuidCheck, NotFound);
      }

      // device requires a version check
      if VersionCheckRequired in device.flags {
        var ok := CheckVersionRequirement();
        if !ok {
          return Fail(VersionCheckGuard, NotSupported);
        }
      }

      // does the protocol match
      var protocol := component.protocol;
      if |device.protocols| != 0 && protocol.Some? && protocol.value !in device.protocols && Force !in flags {
        return Fail(ProtocolCheck, NotSupported);
      }

      // the device is not locked
      if Locked in device.flags {
        return Fail(LockCheck, NotSupported);
      }

      // the branch is not switching
      var branchNew := component.branch;
      var branchOld := device.branch;
      if AllowBranchSwitch !in flags && branchOld != branchNew {
        return Fail(BranchCheck, NotSupported);
      }

      // no update abilities
      if Updatable !in device.flags {
        return Fail(UpdatableCheck, NotSupported);
      }

      // online update of a device that only allows offline updates
      if Offline !in flags && Force !in flags && OnlyOffline in device.flags {
        return Fail(OfflineCheck, NotSupported);
      }

      if device.version.None? {
        return Fail(DeviceVersionCheck, InternalError);
      }
      var version := device.version.value;

      // the first release in document order
      if |component.releases| == 0 {
        return Fail(ReleaseCheck, InvalidFile);
      }
      var release := component.releases[0];
      if release.version.None? {
        return Fail(ReleaseVersionCheck, InvalidFile);
      }
      assert Comparable(device, component) && Evaluate(device, component, flags, env) == CompareRelease(device, component, flags, env);
      r := CheckRelease(flags, env);
    }

    /** Lines 370-444 of fu_install_task_check_requirements: the guards that
        compare the first release with the device, then the keyring. */
    method CheckRelease(flags: set<InstallFlag>, env: Env) returns (r: Outcome)
      requires Comparable(device, component)
      modifies this
      ensures var v := CompareRelease(device, component, flags, env);
        && r == v.outcome
        && isDowngrade == (if v.downgrade.Some? then v.downgrade.value else old(isDowngrade))
        && trustFlags == (if v.trust.Some? then v.trust.value else old(trustFlags))
    {
      var version := device.version.value;
      var release := component.releases[0];
      var versionReleaseRaw := release.version.value;

      // the version formats match, if the component declares any
      if Force !in flags && AllowBranchSwitch !in flags {
        var verfmts := component.verfmts;
        if |verfmts| != 0 {
          var fmtOk := CheckVerfmt(verfmts, flags, env);
          if fmtOk.Fail? {
            return fmtOk;
          }
        }
      }

      // the lowest supported version, if it exists
      var fmt := device.versionFormat;
      var versionLowest := device.versionLowest;
      if versionLowest.Some? && env.vercmp(versionLowest.value, version, fmt) > 0 && Force !in flags {
        return Fail(FloorCheck, VersionNewer);
      }

      var versionRelease: string;
      if fmt == Plain {
        versionRelease := versionReleaseRaw;
      } else {
        versionRelease := env.parseFromFormat(versionReleaseRaw, fmt);
      }
      var vercmp := env.vercmp(version, versionRelease, fmt);
      assert versionRelease == ReleaseVersion(device, component, env);
      assert vercmp == Vercmp(device, component, env);
      if OnlyVersionUpgrade in device.flags && vercmp >= 0 {
        return Fail(UpgradeOnlyCheck, NotSupported);
      }
      if vercmp == 0 && AllowReinstall !in flags {
        return Fail(ReinstallCheck, VersionSame);
      }
      isDowngrade := vercmp > 0;
      if isDowngrade && AllowOlder !in flags && AllowBranchSwitch !in flags {
        return Fail(DowngradeCheck, VersionNewer);
      }

      // verify
      var trust := env.keyring(release);
      match trust {
        case Success(t) =>
          trustFlags := t;
        case Failure(kind) =>
          if kind != NotSupported {
            return Fail(TrustCheck, kind);
          }
      }
      return Pass;
    }

    /** fu_install_task_get_action_id: hotplug devices get the relaxed family,
        a downgrade wins over a trusted payload. */
    function ActionId(): (id: string)
      reads this
      ensures id == ComposedActionId(Internal in device.flags, isDowngrade, Payload in trustFlags)
      ensures id in ActionIds
    {
      ComposedHotplugIds();
      ComposedInternalIds();
      if Internal !in device.flags then
        if isDowngrade then "org.freedesktop.fwupd.downgrade-hotplug"
        else if Payload in trustFlags then "org.freedesktop.fwupd.update-hotplug-trusted"
        else "org.freedesktop.fwupd.update-hotplug"
      else
        if isDowngrade then "org.freedesktop.fwupd.downgrade-internal"
        else if Payload in trustFlags then "org.freedesktop.fwupd.update-internal-trusted"
        else "org.freedesktop.fwupd.update-internal"
    }
  }

  /** fu_install_task_compare: 1, 0 or -1 as the first task's device order is
      greater than, equal to or less than the second's. */
  function Compare(task1: InstallTask, task2: InstallTask): (r: int)
    ensures r == -1 || r == 0 || r == 1
    ensures r < 0 <==> task1.device.order < task2.device.order
    ensures r > 0 <==> task1.device.order > task2.device.order
  {
    if task1.device.order < task2.device.order then -1
    else if task1.device.order > task2.device.order then 1
    else 0
  }
}

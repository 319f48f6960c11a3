# fwupd install task, in Dafny

This project models `FuInstallTask`, the gate the fwupd daemon applies before it flashes firmware. A task pairs one device with one metadata component. `fu_install_task_check_requirements` runs an ordered chain of guards over the device's flags, GUIDs, protocols, branch and versions and over the component's provides, requires, custom values, branch and first release. The first guard that fails returns its error kind. A run that passes every guard records two facts on the task: whether the install is a downgrade, and the trust flags the keyring reported. `fu_install_task_get_action_id` maps those facts and the device's INTERNAL flag to one of six PolicyKit action IDs. `fu_install_task_compare` orders tasks by device order.

Layout:

- `fwupd_types.dfy` (module `FwupdTypes`): the read-only views of the device and the component, the device, install and trust flags, the version formats and the error kinds. It also holds `Env`, which carries the four collaborators whose code is not part of this model: `fu_common_vercmp_full`, `fu_common_version_parse_from_format`, `fwupd_version_format_from_string` and `fu_keyring_get_release_flags`. Each one is a function-valued parameter, and every property holds for all of them. Only the sign of vercmp is used.
- `format_list.dfy` (module `FormatList`): `fu_install_task_verfmts_to_string` as a loop, proved equal to a `;`-join that splitting inverts.
- `install_task.dfy` (module `InstallTasks`):
  - `Blocks` gives each guard's condition.
  - `Evaluate` (with `CompareRelease`, covering lines 370 onwards) is the pure specification of the whole check.
  - The class `InstallTask` holds value snapshots of the device and the component as constants and the mutable `trustFlags` and `isDowngrade`.
  - Its methods are the imperative check (`CheckRequirements`, which continues in `CheckRelease` from line 370) and the two scanning helpers. `ProvidesDeviceGuid` is the inline provides loop.
  - `ActionId` is the decision table and `Compare` is the ordering.
- `install_task_properties.dfy` (module `InstallTaskProperties`): the first-failing-guard characterisation, the FORCE properties, the guard-by-guard properties, the action-ID and ordering properties, a run-twice client, and the sample scenarios.

A run's outcome is `Pass` or `Fail(guard, kind)`. The guard tag takes the place of the error message. The method's postcondition ties the returned outcome to `Evaluate`. It also ties each field to `Evaluate`'s record of what was written: `is_downgrade` is written at line 421, and `trust_flags` only when the keyring returns flags.

Three behaviours of the code are kept as written:

- The getters' notes (src/fu-install-task.c:66-67, 84-85) say the fields matter only after a successful check. The code still writes `is_downgrade` at line 421, before the downgrade guard can fail at 422-431. `DowngradeWritten`, `DowngradeValue` and `DowngradeGate` state this.
- The branch test at line 290 is `g_strcmp0` on the raw optional strings. `"default"` is only what the message prints for an absent branch (lines 297-298). `AbsentBranchIsNotDefault` shows that an absent device branch refuses a component whose branch is `"default"`.
- The minimum-version guard compares the device's lowest version with the device's own current version, not with the release. This is kept as written (`FloorIgnoresRelease`).

## Model

| member | source | states |
|---|---|---|
| FormatList.VerfmtsToString | src/fu-install-task.c:96-108 | the appended-then-truncated string is the `;`-join of the texts (empty for no texts); for at least one text, none containing `;`, splitting it gives the texts back |
| FormatList.SplitJoin | src/fu-install-task.c:99-107 | round trip: splitting the `;`-join at `;` returns the original non-empty list of separator-free texts |
| FormatList.JoinSnoc | src/fu-install-task.c:100-104 | appending a text to a non-empty list adds exactly one `;` and the text, which is what each loop iteration's `"%s;"` contributes |
| InstallTasks.Evaluate | src/fu-install-task.c:197-445 | a failed run's kind is the failing guard's fixed kind (the keyring's own kind for the trust guard), the failing guard blocks, and a passing run has written is_downgrade and got no hard keyring error |
| InstallTasks.InstallTask.constructor | src/fu-install-task.c:475-479 | the task stores the device and the component; trust_flags starts empty (NONE) and is_downgrade FALSE |
| InstallTasks.InstallTask.ProvidesDeviceGuid | src/fu-install-task.c:222-240 | the scan with early break reports TRUE exactly when some flashed-firmware GUID is one of the device's GUIDs |
| InstallTasks.InstallTask.CheckVersionRequirement | src/fu-install-task.c:156-183 | TRUE exactly when some requirement is a `firmware` element with no text (an empty list fails, as a NULL query does) |
| InstallTasks.InstallTask.CheckVerfmt | src/fu-install-task.c:110-154 | passes exactly under FORCE, or when the device format is known and some declared format string maps to it |
| InstallTasks.InstallTask.CheckRequirements | src/fu-install-task.c:197-445 | returns the outcome of the first blocking guard, or success; is_downgrade and trust_flags take the values the run writes and keep their old values otherwise |
| InstallTasks.InstallTask.CheckRelease | src/fu-install-task.c:370-444 | the same, for the guards from the version-format check to the keyring, given a device version and a first release with a version |
| InstallTasks.InstallTask.ActionId | src/fu-install-task.c:455-473 | the ID is one of the six and equals the ID composed independently from verb (downgrade wins over trust), locality (INTERNAL flag) and the `-trusted` suffix (PAYLOAD bit, updates only) |
| InstallTasks.ComposedHotplugIds | src/fu-install-task.c:459-465 | the composition yields the three hotplug IDs the code returns, the trust bit being irrelevant for a downgrade |
| InstallTasks.ComposedInternalIds | src/fu-install-task.c:467-472 | the composition yields the three internal IDs the code returns |
| InstallTasks.Compare | src/fu-install-task.c:510-520 | returns -1, 0 or 1, negative exactly when the first device's order is lower and positive exactly when it is higher |
| InstallTaskProperties.FirstBlockingGuard | src/fu-install-task.c:197-445 | the run stops at guard g iff g blocks and every earlier guard lets it through |
| InstallTaskProperties.PassesWhenNoGuardBlocks | src/fu-install-task.c:197-445 | the run passes iff every guard lets it through |
| InstallTaskProperties.ReachesNext | src/fu-install-task.c:197-445 | the guard after g is reached iff g is reached and does not block (the guards run strictly in order) |
| InstallTaskProperties.ForceLiftsFourGuards | src/fu-install-task.c:261-394 | under FORCE the protocol, offline-only, version-format and minimum-version guards never block, so a forced run never stops at them |
| InstallTaskProperties.ForceIgnoredElsewhere | src/fu-install-task.c:223-444 | every other guard decides identically with and without FORCE |
| InstallTaskProperties.ForceKeepsOtherFailures | src/fu-install-task.c:223-444 | adding FORCE to a run that failed at any other guard gives the identical verdict, including the fields written |
| InstallTaskProperties.UnbypassableGuards | src/fu-install-task.c:275-368 | a locked or non-updatable device, a missing device version, no release or a release without version fail for every flag set, at that guard or earlier |
| InstallTaskProperties.NoSharedGuidIsNotFound | src/fu-install-task.c:222-247 | no shared GUID gives NOT_FOUND with no field written |
| InstallTaskProperties.BranchGuard | src/fu-install-task.c:286-300 | once reached, the branch guard fails with NOT_SUPPORTED iff ALLOW_BRANCH_SWITCH is absent and the raw optional branches differ |
| InstallTaskProperties.AbsentBranchIsNotDefault | src/fu-install-task.c:287-298 | an absent device branch and a component branch `"default"` differ: the install is refused |
| InstallTaskProperties.VerfmtForceBranchesDead | src/fu-install-task.c:110-154 | the helper never fails under FORCE; without FORCE it passes iff the device format is known and declared, so its FORCE branches are unreachable from line 371 |
| InstallTaskProperties.FormatGuard | src/fu-install-task.c:370-380 | the version-format guard blocks iff neither FORCE nor ALLOW_BRANCH_SWITCH, formats are declared, and the device format is UNKNOWN or not declared |
| InstallTaskProperties.FloorIgnoresRelease | src/fu-install-task.c:382-394 | the minimum-version guard does not depend on the component, and blocks iff not FORCE and vercmp(version_lowest, device version) > 0 |
| InstallTaskProperties.UpgradeOnlyPrecedesReinstall | src/fu-install-task.c:405-412 | ONLY_VERSION_UPGRADE with vercmp >= 0 is NOT_SUPPORTED whatever the flags, ALLOW_REINSTALL included |
| InstallTaskProperties.SameVersionGuard | src/fu-install-task.c:413-420 | once reached, an equal version is VERSION_SAME iff ALLOW_REINSTALL is absent |
| InstallTaskProperties.DowngradeWritten | src/fu-install-task.c:403-421 | is_downgrade is written iff the run gets past every guard before line 421 |
| InstallTaskProperties.DowngradeValue | src/fu-install-task.c:421-444 | the value written to is_downgrade is vercmp > 0; once it is written, only the downgrade and keyring guards can fail |
| InstallTaskProperties.FailureLeavesTrustUnset | src/fu-install-task.c:433-444 | no failing run writes trust_flags |
| InstallTaskProperties.DowngradeGate | src/fu-install-task.c:421-431 | a downgrade without ALLOW_OLDER or ALLOW_BRANCH_SWITCH is VERSION_NEWER with is_downgrade already TRUE |
| InstallTaskProperties.KeyringDecides | src/fu-install-task.c:433-444 | keyring flags are adopted on success; a NOT_SUPPORTED keyring error is swallowed and the run passes without writing trust_flags; any other keyring error is returned unchanged |
| InstallTaskProperties.DowngradeTakesPrecedence | src/fu-install-task.c:459-470 | a downgrade's action ID does not depend on the PAYLOAD trust bit |
| InstallTaskProperties.ActionIdDeterminesFacts | src/fu-install-task.c:456-473 | the six IDs are distinct: an ID determines locality, downgrade and (for updates) trust |
| InstallTaskProperties.ActionIdDependsOnThreeFacts | src/fu-install-task.c:456-473 | two tasks that agree on INTERNAL, is_downgrade and the PAYLOAD bit get the same action ID |
| InstallTaskProperties.CompareAntisymmetric | src/fu-install-task.c:510-520 | compare(a, b) = -compare(b, a) |
| InstallTaskProperties.CompareReflexive | src/fu-install-task.c:510-520 | a task compares equal to itself |
| InstallTaskProperties.CompareTransitive | src/fu-install-task.c:510-520 | "compares at most" is transitive |
| InstallTaskProperties.RerunIsIdempotent | src/fu-install-task.c:197-445 | two runs with the same flags and collaborators give the same outcome and leave the fields as one run does |
| InstallTaskProperties.SampleSameVersion | src/fu-install-task.c:413-420 | an updatable PLAIN device at 1.0.0 offered 1.0.0 gets VERSION_SAME |
| InstallTaskProperties.SampleUpgrade | src/fu-install-task.c:403-444 | the same device offered 2.0.0 passes, and the install is not a downgrade |
| InstallTaskProperties.SampleDowngrade | src/fu-install-task.c:421-431 | a device at 2.0.0 offered 1.0.0 gets VERSION_NEWER |
| InstallTaskProperties.SampleAllowOlder | src/fu-install-task.c:421-444 | with ALLOW_OLDER the same offer passes and is recorded as a downgrade |
| InstallTaskProperties.SampleOfflineOnly | src/fu-install-task.c:313-324 | an ONLY_OFFLINE device refuses an online install with NOT_SUPPORTED and passes that guard when OFFLINE is set |

## Left out

- GObject plumbing is not modelled: type registration, reference counting in `finalize`/`class_init`, and the `g_return_val_if_fail` checks. `fu_install_task_new` with a NULL device or component is not modelled either, because the references are non-null by type.
- The getters `fu_install_task_get_device`, `_get_component`, `_get_trust_flags` and `_get_is_downgrade` are plain functions without contracts. They only return a field.
- The xmlb query engine and its XPath strings are replaced by the fields of `Component`. A query that finds nothing is an empty sequence or `None`. A NULL result from `xb_node_query` (lines 226-232, 164-169) therefore gives the same error kind as an empty match. A node text that is NULL is not modelled: the texts of provides and of version-format values are plain strings.
- The `LIBXMLB_CHECK_VERSION` branch that builds a query object and can fail (lines 339-349) is not modelled. The first release is simply the first element of the release sequence.
- Error messages are not modelled: the message text, the `g_prefix_error` prefix, the `|`-joined protocol list and the `g_warning` logging at lines 150 and 436. An outcome carries the failing guard instead of the message.
- The bodies of `fu_common_vercmp_full`, `fu_common_version_parse_from_format`, `fwupd_version_format_from_string`, `fwupd_version_format_to_string` and `fu_keyring_get_release_flags` are not part of this model. They are parameters. Nothing is assumed about vercmp, version parsing or format lookup. The keyring carries the assumptions listed under `InstallTasks.InstallTask.CheckRelease` below.
- `fu_device_has_guid` and `fu_device_has_protocol` are modelled as membership in the device's GUID set and protocol list. Any GUID normalisation inside `fu_device_has_guid` is not part of this model.
- InstallTasks.InstallTask.CheckRelease: the keyring is modelled as returning either flags or an error. The model assumes the keyring leaves `trust_flags` unwritten when it fails, and that its errors belong to the FWUPD_ERROR domain (`g_error_matches` also tests the domain). Line 434 passes `&self->trust_flags` as an in/out pointer, so the C keyring could read the flags already on the task or OR new bits into them. The model's keyring sees only the release. On success its result replaces `trust_flags` and does not depend on the old value, and `KeyringDecides` and `RerunIsIdempotent` rely on this.
- The task holds references to a shared `FuDevice` and `XbNode` (lines 537-539). The model holds value snapshots taken when the task is built, so it does not see changes other code later makes to the device (its flags, version or branch).
- Trust flags other than PAYLOAD and METADATA, device flags other than the six the task reads, and error codes other than those listed in `ErrorKind` are not modelled.
- The single C function `fu_install_task_check_requirements` is split in two at line 370 (`CheckRequirements` calls `CheckRelease`). The split is only in how the proof is organised; the order of the guards is unchanged.

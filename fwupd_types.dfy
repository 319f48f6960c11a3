/** The read-only views of the device and of the metadata component that an
    install task consumes, the install / trust flag sets, the error kinds,
    and the external collaborators (version comparison and parsing, version
    format lookup, keyring) whose bodies are not part of this model. */
module FwupdTypes {

  datatype Option<+T> = None | Some(value: T)

  datatype Result<+R, +E> = Success(value: R) | Failure(error: E)

  /** The device flags the install task inspects (FWUPD_DEVICE_FLAG_*). */
  datatype DeviceFlag =
    | VersionCheckRequired
    | Locked
    | Updatable
    | OnlyOffline
    | Internal
    | OnlyVersionUpgrade

  /** The install flags the caller passes (FWUPD_INSTALL_FLAG_*). */
  datatype InstallFlag =
    | Force
    | Offline
    | AllowOlder
    | AllowReinstall
    | AllowBranchSwitch

  /** The release trust bits (FWUPD_TRUST_FLAG_*); an empty set is FWUPD_TRUST_FLAG_NONE. */
  datatype TrustFlag = Payload | Metadata

  /** The version numbering schemes (FWUPD_VERSION_FORMAT_*). */
  datatype VersionFormat =
    | Unknown
    | Plain
    | Number
    | Pair
    | Triplet
    | Quad
    | Bcd
    | IntelMe
    | IntelMe2
    | SurfaceLegacy
    | Surface
    | DellBios
    | Hex

  /** The FWUPD_ERROR codes the task produces or forwards from the keyring. */
  datatype ErrorKind =
    | NotFound
    | NotSupported
    | InternalError
    | InvalidFile
    | VersionNewer
    | VersionSame
    | SignatureInvalid
    | AuthFailed
    | Read

  /** What the task reads from a FuDevice. */
  datatype Device = Device(
    flags: set<DeviceFlag>,
    guids: set<string>,
    protocols: seq<string>,
    branch: Option<string>,
    version: Option<string>,
    versionLowest: Option<string>,
    versionFormat: VersionFormat,
    order: int,
    name: string,
    id: string)

  /** One child of the component's `requires` element: its element name and its
      text, absent when the element has no text. */
  datatype Requirement = Requirement(element: string, text: Option<string>)

  /** One `releases/release` node: its `version` attribute and the remaining
      metadata, which only the keyring inspects. */
  datatype Release = Release(version: Option<string>, metadata: map<string, string>)

  /** What the task reads from the component node. A query that matches nothing
      is an empty sequence (for lists) or None (for a single text). */
  datatype Component = Component(
    provided: seq<string>,        // texts of provides/firmware[@type='flashed']
    requirements: seq<Requirement>, // requires/*
    protocol: Option<string>,     // custom/value[@key='LVFS::UpdateProtocol']
    verfmts: seq<string>,         // texts of custom/value[@key='LVFS::VersionFormat']
    branch: Option<string>,       // branch
    releases: seq<Release>)       // releases/release, in document order

  /** The functions the task calls but whose definitions lie outside it:
      fu_common_vercmp_full (only the sign of its result is used),
      fu_common_version_parse_from_format, fwupd_version_format_from_string
      and fu_keyring_get_release_flags. */
  datatype Env = Env(
    vercmp: (string, string, VersionFormat) -> int,
    parseFromFormat: (string, VersionFormat) -> string,
    formatFromString: string -> VersionFormat,
    keyring: Release -> Result<set<TrustFlag>, ErrorKind>)
}

/** The objects the controllers share: ByoHost, ByoMachine, K8sInstallerConfig and Secret,
    reduced to the fields that some controller reads or writes. Label and annotation keys
    are a datatype, so that two different keys are different by construction. */
module Objects {

  datatype Option<+T> = None | Some(value: T)

  /** A namespaced name. */
  datatype Key = Key(ns: string, name: string)

  datatype Label = ClusterName | AttachedMachine | Pf9Cluster | Pf9ClusterCP | OtherLabel(text: string)

  datatype Note = Cleanup | EndpointIP | K8sVersion | BundleRegistry | Paused | OtherNote(text: string)

  /** A reference to a Secret: the bootstrap provider's data secret, or one of the two secrets
      that are stored under the name of a K8sInstallerConfig. */
  datatype SecretId =
    | BootstrapData(ns: string, name: string)
    | InstallOf(config: Key)
    | UninstallOf(config: Key)

  datatype Payload = Value(text: string) | Install(text: string) | Uninstall(text: string)

  /** `owner` is the owner reference that garbage collection follows. */
  datatype Secret = Secret(owner: Option<Key>, payload: Payload)

  datatype HostReason =
    | WaitingForMachineRef | BootstrapDataSecretUnavailable | InstallationSecretUnavailable
    | CleanDirectoriesFailed | CloudInitExecutionFailed | NodeAbsent | InstallationFailed

  datatype Condition = Unset | IsTrue | IsFalse(reason: HostReason)

  /** ByoHost. `node` is K8sNodeBootstrapSucceeded, `components` is
      K8sComponentsInstallationSucceeded, `details` is Status.HostDetails. */
  datatype Host = Host(
    deleting: bool,
    labels: map<Label, string>,
    notes: map<Note, string>,
    bootstrapSecret: Option<SecretId>,
    installSecret: Option<SecretId>,
    uninstallSecret: Option<SecretId>,
    machineRef: Option<Key>,
    node: Condition,
    components: Condition,
    details: string)

  /** The host that registration creates. */
  function FreshHost(labels: map<Label, string>, details: string): Host {
    Host(false, labels, map[], None, None, None, None, Unset, Unset, details)
  }

  datatype MachineReason =
    | ResourcePaused | WaitingForClusterInfrastructure | WaitingForBootstrapData
    | HostsUnavailable | InstallationSecretNotAvailable

  /** The BYOHostReady condition of a ByoMachine. */
  datatype MachineStatus = NoStatus | HostReady | NotReady(reason: MachineReason)

  /** ByoMachine. `foreign` says that some finalizer of another component is present;
      `hostInfo` is "" for the zero value. */
  datatype Machine = Machine(
    cluster: string,
    installer: bool,
    finalizer: bool,
    foreign: bool,
    deleting: bool,
    status: MachineStatus,
    ready: bool,
    providerID: string,
    hostInfo: string)

  function NewMachine(cluster: string, installer: bool, foreign: bool): Machine {
    Machine(cluster, installer, false, foreign, false, NoStatus, false, "", "")
  }

  /** K8sInstallerConfig; it is stored under the name of the ByoMachine that owns it. */
  datatype InstallerConfig = InstallerConfig(
    finalizer: bool,
    deleting: bool,
    ready: bool,
    install: Option<SecretId>,
    uninstall: Option<SecretId>)

  const NEW_CONFIG := InstallerConfig(false, false, false, None, None)
}

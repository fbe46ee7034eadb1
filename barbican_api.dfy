/**
 The custom resource the builder reads: a BarbicanWorker with the spec fields
 the Deployment depends on, and the Topology reference that may govern
 placement.
 */
module BarbicanApi {
  import opened Wrappers
  import Kube

  /** A secret-store backend name, as listed in EnabledSecretStores. */
  type SecretStore = string

  /** The name of the PKCS#11 (hardware security module) secret store. */
  const SecretStorePKCS11: SecretStore := "pkcs11"

  /** The TLS section of the spec: the CA bundle secret, "" when unset. */
  datatype CaSpec = CaSpec(caBundleSecretName: string)

  /** The HSM configuration; its fields only matter to the HSM volume helper. */
  datatype PKCS11Config = PKCS11Config(settings: map<string, string>)

  /** BarbicanWorkerSpec, restricted to what the Deployment reads. */
  datatype BarbicanWorkerSpec = BarbicanWorkerSpec(
    containerImage: string,
    replicas: Option<int>,
    resources: Kube.ResourceRequirements,
    serviceAccount: string,
    nodeSelector: Option<map<string, string>>,
    enabledSecretStores: seq<SecretStore>,
    pkcs11: Option<PKCS11Config>,
    tls: CaSpec,
    customServiceConfigSecrets: seq<string>)

  /** A BarbicanWorker instance: its object name, namespace and spec. */
  datatype BarbicanWorker = BarbicanWorker(name: string, namespace: string, spec: BarbicanWorkerSpec)

  /** A Topology resource; its spec (affinity and spread constraints)
      matters only to its ApplyTo and is carried opaquely. */
  datatype Topology = Topology(name: string, namespace: string, spec: map<string, string>)
}

/**
 The helpers the builder calls but whose code lies outside the model: the
 barbican package's constants and volume, mount and affinity helpers, the
 CA section's CreateVolume and CreateVolumeMounts, and Topology.ApplyTo.
 They are fields of one value, so every fact proved about the builder holds
 whatever these helpers return.
 */
module BarbicanLib {
  import Kube
  import opened BarbicanApi

  datatype Collaborators = Collaborators(
    /** barbican.ServiceName */
    serviceName: string,
    /** barbican.BarbicanLogPath, the directory prefix of the log file */
    logPath: string,
    /** barbican.ComponentWorker, the component key of the anti-affinity rule */
    componentWorker: string,
    /** barbican.GetLogVolume() */
    logVolume: Kube.Volume,
    /** barbican.GetLogVolumeMount() */
    logVolumeMount: Kube.VolumeMount,
    /** barbican.GetKollaConfigVolumeMount(instance name) */
    kollaConfigVolumeMount: string -> Kube.VolumeMount,
    /** barbican.GetVolumes(instance name, custom config secrets) */
    customVolumes: (string, seq<string>) -> seq<Kube.Volume>,
    /** barbican.GetVolumeMounts(custom config secrets) */
    customVolumeMounts: seq<string> -> seq<Kube.VolumeMount>,
    /** barbican.GetHSMVolumes(pkcs11 config) */
    hsmVolumes: PKCS11Config -> seq<Kube.Volume>,
    /** barbican.GetHSMVolumeMounts() */
    hsmVolumeMounts: seq<Kube.VolumeMount>,
    /** barbican.GetPodAffinity(component) */
    podAffinity: string -> Kube.Affinity,
    /** Spec.TLS.CreateVolume() */
    caVolume: CaSpec -> Kube.Volume,
    /** Spec.TLS.CreateVolumeMounts(nil) */
    caVolumeMounts: CaSpec -> seq<Kube.VolumeMount>,
    /** topology.ApplyTo(&template), as a transformer of the template */
    applyTo: (Topology, Kube.PodTemplateSpec) -> Kube.PodTemplateSpec)
}

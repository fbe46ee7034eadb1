/** The optional-value datatype used for Go's nil pointers and absent fields. */
module Wrappers {
  datatype Option<+T> = None | Some(value: T)
}

/**
 The slice of the Kubernetes API (core/v1, apps/v1, meta/v1) that a worker
 Deployment is built from. Only the fields the builder writes are kept; the
 values produced by helpers outside the model are carried as opaque data.
 */
module Kube {
  import opened Wrappers

  /** metav1.ObjectMeta: name, namespace, labels and annotations. */
  datatype ObjectMeta = ObjectMeta(
    name: string,
    namespace: string,
    labels: map<string, string>,
    annotations: map<string, string>)

  /** The empty metadata a Go composite literal leaves behind. */
  const EmptyMeta := ObjectMeta("", "", map[], map[])

  /** corev1.VolumeSource: either a secret (with its default file mode) or a
      source built by a helper outside the model. */
  datatype VolumeSource =
    | SecretVolume(secretName: string, defaultMode: Option<int>)
    | OtherSource(description: string)

  /** corev1.Volume */
  datatype Volume = Volume(name: string, source: VolumeSource)

  /** corev1.VolumeMount */
  datatype VolumeMount = VolumeMount(name: string, mountPath: string, subPath: string, readOnly: bool)

  /** corev1.ResourceRequirements, as resource name to quantity. */
  datatype ResourceRequirements = ResourceRequirements(
    limits: map<string, string>,
    requests: map<string, string>)

  /** corev1.SecurityContext: only RunAsUser is set by the builder. */
  datatype SecurityContext = SecurityContext(runAsUser: Option<int>)

  /** corev1.Container. The environment is the resolved map from variable
      name to value; the order of the EnvVar list is not modelled. */
  datatype Container = Container(
    name: string,
    command: seq<string>,
    args: seq<string>,
    image: string,
    securityContext: Option<SecurityContext>,
    env: map<string, string>,
    volumeMounts: seq<VolumeMount>,
    resources: ResourceRequirements)

  /** corev1.Affinity, as the opaque list of terms a helper produced. */
  datatype Affinity = Affinity(terms: seq<string>)

  /** corev1.PodSpec. An unset node selector or affinity is None. */
  datatype PodSpec = PodSpec(
    serviceAccountName: string,
    containers: seq<Container>,
    volumes: seq<Volume>,
    nodeSelector: Option<map<string, string>>,
    affinity: Option<Affinity>)

  /** corev1.PodTemplateSpec */
  datatype PodTemplateSpec = PodTemplateSpec(meta: ObjectMeta, spec: PodSpec)

  /** metav1.LabelSelector */
  datatype LabelSelector = LabelSelector(matchLabels: map<string, string>)

  /** appsv1.DeploymentSpec. Replicas is a pointer in Go, hence optional. */
  datatype DeploymentSpec = DeploymentSpec(
    selector: LabelSelector,
    replicas: Option<int>,
    template: PodTemplateSpec)

  /** appsv1.Deployment */
  datatype Deployment = Deployment(meta: ObjectMeta, spec: DeploymentSpec)
}

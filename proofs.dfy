/**
 What the worker Deployment promises, proved about the reference definition
 `Build` (and so, through `Deployment`'s postcondition, about the builder).

 Topology.ApplyTo may rewrite the whole template, so facts about volumes,
 containers and template metadata are stated on the template before
 placement (`PodTemplate`, the template ApplyTo receives) and, where no
 topology is given, on the final template as well.
 */
module BarbicanWorkerProofs {
  import opened Wrappers
  import Kube
  import opened BarbicanApi
  import opened BarbicanLib
  import opened Builder = BarbicanWorker

  /** A template whose containers all get the environment `env`. */
  function WithEnv(t: Kube.PodTemplateSpec, env: map<string, string>): Kube.PodTemplateSpec {
    var cs := t.spec.containers;
    t.(spec := t.spec.(containers := seq(|cs|, i requires 0 <= i < |cs| => cs[i].(env := env))))
  }

  /** The instance with its HSM configuration removed. */
  function WithoutHsm(instance: BarbicanWorker): BarbicanWorker {
    instance.(spec := instance.spec.(pkcs11 := None))
  }

  /** The instance with no secret store enabled. */
  function WithoutStores(instance: BarbicanWorker): BarbicanWorker {
    instance.(spec := instance.spec.(enabledSecretStores := []))
  }

  // ---------------------------------------------------------------------
  // Volumes and mounts
  // ---------------------------------------------------------------------

  /** The pod's volumes: custom config secret volumes first, then the custom
      config data secret (mode 0644) and the log volume, then the CA bundle
      volume when its secret is named, then the HSM volumes when PKCS11 is
      enabled and configured. The worker's mounts follow the same order
      under the same conditions. */
  lemma VolumeAndMountOrder(
    h: Collaborators, instance: BarbicanWorker, configHash: string,
    labels: map<string, string>, annotations: map<string, string>)
    ensures PodTemplate(h, instance, configHash, labels, annotations).spec.volumes
      == h.customVolumes(instance.name, instance.spec.customServiceConfigSecrets)
         + [Kube.Volume("config-data-custom",
                        Kube.SecretVolume(instance.name + "-config-data", Some(0x1A4))),
            h.logVolume]
         + (if instance.spec.tls.caBundleSecretName != "" then [h.caVolume(instance.spec.tls)] else [])
         + (if SecretStorePKCS11 in instance.spec.enabledSecretStores && instance.spec.pkcs11.Some?
            then h.hsmVolumes(instance.spec.pkcs11.value) else [])
    ensures |PodTemplate(h, instance, configHash, labels, annotations).spec.containers| == 2
    ensures PodTemplate(h, instance, configHash, labels, annotations).spec.containers[1].volumeMounts
      == h.customVolumeMounts(instance.spec.customServiceConfigSecrets)
         + [h.kollaConfigVolumeMount(instance.name), h.logVolumeMount]
         + (if instance.spec.tls.caBundleSecretName != "" then h.caVolumeMounts(instance.spec.tls) else [])
         + (if SecretStorePKCS11 in instance.spec.enabledSecretStores && instance.spec.pkcs11.Some?
            then h.hsmVolumeMounts else [])
  {
    WorkerBindingsUnfolded(h, instance);
  }

  /** Only one of the two HSM conditions: nothing HSM-related is added, and
      the result is as if neither held. */
  lemma HsmNeedsBoth(
    h: Collaborators, instance: BarbicanWorker, configHash: string,
    labels: map<string, string>, annotations: map<string, string>, topology: Option<Topology>)
    requires SecretStorePKCS11 !in instance.spec.enabledSecretStores || instance.spec.pkcs11.None?
    ensures Build(h, instance, configHash, labels, annotations, topology)
         == Build(h, WithoutHsm(instance), configHash, labels, annotations, topology)
    ensures Build(h, instance, configHash, labels, annotations, topology)
         == Build(h, WithoutStores(instance), configHash, labels, annotations, topology)
  {
    WorkerBindingsUnfolded(h, instance);
    WorkerBindingsUnfolded(h, WithoutHsm(instance));
    WorkerBindingsUnfolded(h, WithoutStores(instance));
  }

  /** Both HSM conditions: exactly the HSM volumes and the HSM mounts are
      appended at the end of the pod's volumes and the worker's mounts;
      the log container is unchanged. */
  lemma HsmAddsExactly(
    h: Collaborators, instance: BarbicanWorker, cfg: PKCS11Config, configHash: string,
    labels: map<string, string>, annotations: map<string, string>)
    requires SecretStorePKCS11 in instance.spec.enabledSecretStores
    requires instance.spec.pkcs11 == Some(cfg)
    ensures PodTemplate(h, instance, configHash, labels, annotations).spec.volumes
         == PodTemplate(h, WithoutHsm(instance), configHash, labels, annotations).spec.volumes + h.hsmVolumes(cfg)
    ensures PodTemplate(h, instance, configHash, labels, annotations).spec.containers[1].volumeMounts
         == PodTemplate(h, WithoutHsm(instance), configHash, labels, annotations).spec.containers[1].volumeMounts
            + h.hsmVolumeMounts
    ensures PodTemplate(h, instance, configHash, labels, annotations).spec.containers[0]
         == PodTemplate(h, WithoutHsm(instance), configHash, labels, annotations).spec.containers[0]
  {
    VolumeAndMountOrder(h, instance, configHash, labels, annotations);
    VolumeAndMountOrder(h, WithoutHsm(instance), configHash, labels, annotations);
  }

  // ---------------------------------------------------------------------
  // Containers
  // ---------------------------------------------------------------------

  /** Exactly two containers: the log follower and the worker, with their
      fixed names, commands and arguments; the log follower mounts only the
      log volume. */
  lemma ContainerShapes(
    h: Collaborators, instance: BarbicanWorker, configHash: string,
    labels: map<string, string>, annotations: map<string, string>)
    ensures var cs := PodTemplate(h, instance, configHash, labels, annotations).spec.containers;
      && |cs| == 2
      && cs[0].name == instance.name + "-log"
      && cs[0].command == ["/usr/bin/dumb-init"]
      && cs[0].args == ["--single-child", "--", "/usr/bin/tail", "-n+1", "-F", h.logPath + instance.name + ".log"]
      && cs[0].volumeMounts == [h.logVolumeMount]
      && cs[1].name == h.serviceName + "-worker"
      && cs[1].command == ["/bin/bash"]
      && cs[1].args == ["-c", "/usr/local/bin/kolla_start"]
  {
  }

  /** Both containers run the instance's image with its resources as user 0,
      and see the same environment: the config strategy and the hash. */
  lemma SharedContainerSettings(
    h: Collaborators, instance: BarbicanWorker, configHash: string,
    labels: map<string, string>, annotations: map<string, string>)
    ensures forall c <- PodTemplate(h, instance, configHash, labels, annotations).spec.containers ::
      && c.image == instance.spec.containerImage
      && c.resources == instance.spec.resources
      && c.securityContext == Some(Kube.SecurityContext(Some(0)))
      && c.env == map["KOLLA_CONFIG_STRATEGY" := "COPY_ALWAYS", "CONFIG_HASH" := configHash]
  {
  }

  /** Changing the config hash changes the environment of both containers,
      and nothing else: the hash alone drives a rollout. */
  lemma ConfigHashOnlyChangesEnv(
    h: Collaborators, instance: BarbicanWorker, hash1: string, hash2: string,
    labels: map<string, string>, annotations: map<string, string>, topology: Option<Topology>)
    ensures PodTemplate(h, instance, hash2, labels, annotations)
         == WithEnv(PodTemplate(h, instance, hash1, labels, annotations), EnvVars(hash2))
    ensures Build(h, instance, hash2, labels, annotations, topology)
         == Build(h, instance, hash1, labels, annotations, topology).(spec :=
              Build(h, instance, hash1, labels, annotations, topology).spec.(template :=
                Place(h, topology, WithEnv(PodTemplate(h, instance, hash1, labels, annotations), EnvVars(hash2)))))
    ensures topology.None? ==>
         Build(h, instance, hash2, labels, annotations, topology).spec.template
         == WithEnv(Build(h, instance, hash1, labels, annotations, topology).spec.template, EnvVars(hash2))
    ensures forall i :: 0 <= i < 2 ==>
           PodTemplate(h, instance, hash1, labels, annotations).spec.containers[i].env["CONFIG_HASH"] == hash1
           && PodTemplate(h, instance, hash2, labels, annotations).spec.containers[i].env["CONFIG_HASH"] == hash2
  {
  }

  // ---------------------------------------------------------------------
  // Metadata, node selector and placement
  // ---------------------------------------------------------------------

  /** Name and namespace come from the instance; the selector, the
      Deployment and the template all carry `labels`; the template carries
      `annotations`; replicas and service account come from the spec. */
  lemma DeploymentMetadata(
    h: Collaborators, instance: BarbicanWorker, configHash: string,
    labels: map<string, string>, annotations: map<string, string>, topology: Option<Topology>)
    ensures var d := Build(h, instance, configHash, labels, annotations, topology);
      && d.meta.name == instance.name
      && d.meta.namespace == instance.namespace
      && d.meta.labels == labels
      && d.spec.selector.matchLabels == labels
      && d.spec.replicas == instance.spec.replicas
    ensures var t := PodTemplate(h, instance, configHash, labels, annotations);
      && t.meta.labels == labels
      && t.meta.annotations == annotations
      && t.spec.serviceAccountName == instance.spec.serviceAccount
  {
  }

  /** The node selector is copied when the spec has one and left unset
      otherwise. */
  lemma NodeSelectorCopied(
    h: Collaborators, instance: BarbicanWorker, configHash: string,
    labels: map<string, string>, annotations: map<string, string>)
    ensures var t := PodTemplate(h, instance, configHash, labels, annotations);
      && (instance.spec.nodeSelector.Some? ==> t.spec.nodeSelector == Some(instance.spec.nodeSelector.value))
      && (instance.spec.nodeSelector.None? ==> t.spec.nodeSelector.None?)
  {
  }

  /** Exactly one placement branch runs: with a topology, ApplyTo alone is
      applied, once, to a template carrying no default affinity; without
      one, the default anti-affinity of the worker component is set and
      nothing else changes. */
  lemma PlacementExclusive(
    h: Collaborators, instance: BarbicanWorker, configHash: string,
    labels: map<string, string>, annotations: map<string, string>, topology: Option<Topology>)
    ensures var t := PodTemplate(h, instance, configHash, labels, annotations);
      && t.spec.affinity.None?
      && (topology.Some? ==>
            Build(h, instance, configHash, labels, annotations, topology).spec.template
            == h.applyTo(topology.value, t))
      && (topology.None? ==>
            Build(h, instance, configHash, labels, annotations, topology).spec.template
            == t.(spec := t.spec.(affinity := Some(h.podAffinity(h.componentWorker)))))
  {
  }
}

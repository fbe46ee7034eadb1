/**
 The BarbicanWorker Deployment builder (pkg/barbicanworker/deployment.go).

 `Deployment` follows the source step by step: the worker volume and mount
 lists grow by guarded appends, the Deployment is written as one literal, and
 its volumes, node selector and placement are then filled in. `Build` is an
 independent reference definition of the same result, written as a pipeline
 of volume contributors folded left to right; `Deployment` is proved equal to
 it, and the properties of the result are lemmas about `Build` (see the
 module BarbicanWorkerProofs).
 */
module BarbicanWorker {
  import opened Wrappers
  import Kube
  import opened BarbicanApi
  import opened BarbicanLib

  /** The start command the worker container's shell runs. */
  const ServiceCommand := "/usr/local/bin/kolla_start"

  /** The file mode of the custom config secret volume: octal 0644. */
  const Config0644AccessMode := 0x1A4

  /** The user both containers run as. */
  const RunAsUser := 0

  const LogContainerCommand := "/usr/bin/dumb-init"
  const WorkerContainerCommand := "/bin/bash"

  // ---------------------------------------------------------------------
  // Pieces shared by the method and the reference definition
  // ---------------------------------------------------------------------

  /** The environment both containers receive. */
  function EnvVars(configHash: string): map<string, string> {
    map["KOLLA_CONFIG_STRATEGY" := "COPY_ALWAYS", "CONFIG_HASH" := configHash]
  }

  /** The secret volume carrying the instance's rendered configuration. */
  function ConfigDataCustomVolume(instanceName: string): Kube.Volume {
    Kube.Volume("config-data-custom", Kube.SecretVolume(instanceName + "-config-data", Some(Config0644AccessMode)))
  }

  /** The CA bundle is mounted exactly when its secret name is set. */
  predicate CaBundleEnabled(instance: BarbicanWorker) {
    instance.spec.tls.caBundleSecretName != ""
  }

  /** The HSM volumes are added only when the PKCS11 store is enabled AND an
      HSM configuration is present; either alone adds nothing. */
  predicate HsmEnabled(instance: BarbicanWorker) {
    SecretStorePKCS11 in instance.spec.enabledSecretStores && instance.spec.pkcs11.Some?
  }

  /** The arguments of the log container: tail the instance's log file. */
  function LogArgs(h: Collaborators, instanceName: string): seq<string> {
    ["--single-child", "--", "/usr/bin/tail", "-n+1", "-F", h.logPath + instanceName + ".log"]
  }

  // ---------------------------------------------------------------------
  // Reference definition
  // ---------------------------------------------------------------------

  /** A pair of volume and mount lists that grow together. */
  datatype Bindings = Bindings(volumes: seq<Kube.Volume>, mounts: seq<Kube.VolumeMount>)

  /** One step of the volume pipeline: what it contributes, and whether. */
  datatype Contributor = Contributor(enabled: bool, volumes: seq<Kube.Volume>, mounts: seq<Kube.VolumeMount>)

  /** The worker-specific contributors, in order: the base pair (custom
      config and log), the CA bundle, the HSM set. */
  function Contributors(h: Collaborators, instance: BarbicanWorker): seq<Contributor> {
    var hsmVolumes := if instance.spec.pkcs11.Some? then h.hsmVolumes(instance.spec.pkcs11.value) else [];
    [ Contributor(true,
                  [ConfigDataCustomVolume(instance.name), h.logVolume],
                  [h.kollaConfigVolumeMount(instance.name), h.logVolumeMount]),
      Contributor(CaBundleEnabled(instance),
                  [h.caVolume(instance.spec.tls)],
                  h.caVolumeMounts(instance.spec.tls)),
      Contributor(HsmEnabled(instance), hsmVolumes, h.hsmVolumeMounts) ]
  }

  /** Folds the contributors left to right, appending the enabled ones. */
  function Assemble(cs: seq<Contributor>): Bindings {
    if cs == [] then Bindings([], [])
    else
      var acc := Assemble(cs[..|cs| - 1]);
      var c := cs[|cs| - 1];
      if c.enabled then Bindings(acc.volumes + c.volumes, acc.mounts + c.mounts) else acc
  }

  /** Unfolds one step of the fold. */
  lemma AssembleStep(xs: seq<Contributor>, c: Contributor)
    ensures Assemble(xs + [c]).volumes == Assemble(xs).volumes + (if c.enabled then c.volumes else [])
    ensures Assemble(xs + [c]).mounts == Assemble(xs).mounts + (if c.enabled then c.mounts else [])
  {
  }

  /** Folding two runs of steps one after the other appends the second
      run's volumes and mounts after the first's: a later step never
      reorders or drops what an earlier one appended. */
  lemma {:induction false} AssembleAppend(xs: seq<Contributor>, ys: seq<Contributor>)
    ensures Assemble(xs + ys).volumes == Assemble(xs).volumes + Assemble(ys).volumes
    ensures Assemble(xs + ys).mounts == Assemble(xs).mounts + Assemble(ys).mounts
    decreases |ys|
  {
    if ys == [] {
      assert xs + ys == xs;
    } else {
      var init, last := ys[..|ys| - 1], ys[|ys| - 1];
      assert ys == init + [last];
      assert xs + ys == (xs + init) + [last];
      AssembleAppend(xs, init);
      AssembleStep(xs + init, last);
      AssembleStep(init, last);
    }
  }

  /** A three-step pipeline whose first step always runs. */
  lemma {:induction false} AssembleThree(c0: Contributor, c1: Contributor, c2: Contributor)
    requires c0.enabled
    ensures Assemble([c0, c1, c2]).volumes
      == c0.volumes + (if c1.enabled then c1.volumes else []) + (if c2.enabled then c2.volumes else [])
    ensures Assemble([c0, c1, c2]).mounts
      == c0.mounts + (if c1.enabled then c1.mounts else []) + (if c2.enabled then c2.mounts else [])
  {
    AssembleStep([], c0);
    assert [] + [c0] == [c0];
    AssembleStep([c0], c1);
    assert [c0] + [c1] == [c0, c1];
    AssembleStep([c0, c1], c2);
    assert [c0, c1] + [c2] == [c0, c1, c2];
  }

  /** The worker-specific volumes and mounts of an instance. */
  function WorkerBindings(h: Collaborators, instance: BarbicanWorker): Bindings {
    Assemble(Contributors(h, instance))
  }

  /** The sidecar that follows the log file; it mounts the log volume only. */
  function LogContainer(h: Collaborators, instance: BarbicanWorker, configHash: string): Kube.Container {
    Kube.Container(
      instance.name + "-log",
      [LogContainerCommand],
      LogArgs(h, instance.name),
      instance.spec.containerImage,
      Some(Kube.SecurityContext(Some(RunAsUser))),
      EnvVars(configHash),
      [h.logVolumeMount],
      instance.spec.resources)
  }

  /** The worker itself; custom config mounts come before its own. */
  function WorkerContainer(h: Collaborators, instance: BarbicanWorker, configHash: string): Kube.Container {
    Kube.Container(
      h.serviceName + "-worker",
      [WorkerContainerCommand],
      ["-c", ServiceCommand],
      instance.spec.containerImage,
      Some(Kube.SecurityContext(Some(RunAsUser))),
      EnvVars(configHash),
      h.customVolumeMounts(instance.spec.customServiceConfigSecrets) + WorkerBindings(h, instance).mounts,
      instance.spec.resources)
  }

  /** The pod template before placement: no affinity set yet. */
  function PodTemplate(
    h: Collaborators, instance: BarbicanWorker, configHash: string,
    labels: map<string, string>, annotations: map<string, string>): Kube.PodTemplateSpec
  {
    Kube.PodTemplateSpec(
      Kube.ObjectMeta("", "", labels, annotations),
      Kube.PodSpec(
        instance.spec.serviceAccount,
        [LogContainer(h, instance, configHash), WorkerContainer(h, instance, configHash)],
        h.customVolumes(instance.name, instance.spec.customServiceConfigSecrets)
          + WorkerBindings(h, instance).volumes,
        instance.spec.nodeSelector,
        None))
  }

  /** Placement: the topology, when given, owns the template; otherwise the
      default anti-affinity of the worker component is set. */
  function Place(h: Collaborators, topology: Option<Topology>, t: Kube.PodTemplateSpec): Kube.PodTemplateSpec {
    match topology
    case Some(topo) => h.applyTo(topo, t)
    case None => t.(spec := t.spec.(affinity := Some(h.podAffinity(h.componentWorker))))
  }

  /** The Deployment of an instance, as the reference definition. */
  function Build(
    h: Collaborators, instance: BarbicanWorker, configHash: string,
    labels: map<string, string>, annotations: map<string, string>,
    topology: Option<Topology>): Kube.Deployment
  {
    Kube.Deployment(
      Kube.ObjectMeta(instance.name, instance.namespace, labels, map[]),
      Kube.DeploymentSpec(
        Kube.LabelSelector(labels),
        instance.spec.replicas,
        Place(h, topology, PodTemplate(h, instance, configHash, labels, annotations))))
  }

  // ---------------------------------------------------------------------
  // The builder, step by step
  // ---------------------------------------------------------------------

  /** Unfolds the three-step pipeline into its guarded appends. */
  lemma {:induction false} WorkerBindingsUnfolded(h: Collaborators, instance: BarbicanWorker)
    ensures WorkerBindings(h, instance).volumes
      == [ConfigDataCustomVolume(instance.name), h.logVolume]
         + (if CaBundleEnabled(instance) then [h.caVolume(instance.spec.tls)] else [])
         + (if HsmEnabled(instance) then h.hsmVolumes(instance.spec.pkcs11.value) else [])
    ensures WorkerBindings(h, instance).mounts
      == [h.kollaConfigVolumeMount(instance.name), h.logVolumeMount]
         + (if CaBundleEnabled(instance) then h.caVolumeMounts(instance.spec.tls) else [])
         + (if HsmEnabled(instance) then h.hsmVolumeMounts else [])
  {
    var cs := Contributors(h, instance);
    AssembleThree(cs[0], cs[1], cs[2]);
    assert cs == [cs[0], cs[1], cs[2]];
  }

  method Deployment(
    h: Collaborators, instance: BarbicanWorker, configHash: string,
    labels: map<string, string>, annotations: map<string, string>,
    topology: Option<Topology>) returns (deployment: Kube.Deployment)
    ensures deployment == Build(h, instance, configHash, labels, annotations, topology)
  {
    var runAsUser := RunAsUser;
    var config0644AccessMode := Config0644AccessMode;
    var envVars: map<string, string> := map[];
    envVars := envVars["KOLLA_CONFIG_STRATEGY" := "COPY_ALWAYS"];
    envVars := envVars["CONFIG_HASH" := configHash];
    var args := ["-c", ServiceCommand];

    var workerVolumes := [
      Kube.Volume("config-data-custom",
                  Kube.SecretVolume(instance.name + "-config-data", Some(config0644AccessMode))),
      h.logVolume];
    var workerVolumeMounts := [h.kollaConfigVolumeMount(instance.name), h.logVolumeMount];

    // the CA bundle
    if instance.spec.tls.caBundleSecretName != "" {
      workerVolumes := workerVolumes + [h.caVolume(instance.spec.tls)];
      workerVolumeMounts := workerVolumeMounts + h.caVolumeMounts(instance.spec.tls);
    }

    // the PKCS11 (HSM) volumes
    if SecretStorePKCS11 in instance.spec.enabledSecretStores && instance.spec.pkcs11 != None {
      workerVolumes := workerVolumes + h.hsmVolumes(instance.spec.pkcs11.value);
      workerVolumeMounts := workerVolumeMounts + h.hsmVolumeMounts;
    }
    WorkerBindingsUnfolded(h, instance);
    assert workerVolumes == WorkerBindings(h, instance).volumes;
    assert workerVolumeMounts == WorkerBindings(h, instance).mounts;

    var securityContext := Some(Kube.SecurityContext(Some(runAsUser)));
    var logContainer := Kube.Container(
      instance.name + "-log",
      ["/usr/bin/dumb-init"],
      ["--single-child", "--", "/usr/bin/tail", "-n+1", "-F", h.logPath + instance.name + ".log"],
      instance.spec.containerImage,
      securityContext,
      envVars,
      [h.logVolumeMount],
      instance.spec.resources);
    var workerContainer := Kube.Container(
      h.serviceName + "-worker",
      ["/bin/bash"],
      args,
      instance.spec.containerImage,
      securityContext,
      envVars,
      h.customVolumeMounts(instance.spec.customServiceConfigSecrets) + workerVolumeMounts,
      instance.spec.resources);
    assert envVars == EnvVars(configHash);
    assert logContainer == LogContainer(h, instance, configHash);
    assert workerContainer == WorkerContainer(h, instance, configHash);

    deployment := Kube.Deployment(
      Kube.ObjectMeta(instance.name, instance.namespace, labels, map[]),
      Kube.DeploymentSpec(
        Kube.LabelSelector(labels),
        instance.spec.replicas,
        Kube.PodTemplateSpec(
          Kube.ObjectMeta("", "", labels, annotations),
          Kube.PodSpec(instance.spec.serviceAccount, [logContainer, workerContainer], [], None, None))));

    // the pod template's volumes, node selector and placement are set in place
    var template := deployment.spec.template;
    template := template.(spec := template.spec.(
      volumes := h.customVolumes(instance.name, instance.spec.customServiceConfigSecrets) + workerVolumes));
    if instance.spec.nodeSelector.Some? {
      template := template.(spec := template.spec.(nodeSelector := Some(instance.spec.nodeSelector.value)));
    }
    assert template == PodTemplate(h, instance, configHash, labels, annotations);

    if topology.Some? {
      template := h.applyTo(topology.value, template);
    } else {
      // spread the workers over nodes where possible
      template := template.(spec := template.spec.(affinity := Some(h.podAffinity(h.componentWorker))));
    }
    deployment := deployment.(spec := deployment.spec.(template := template));
  }
}

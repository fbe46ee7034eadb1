# BarbicanWorker Deployment builder

A Dafny model of the function that turns a BarbicanWorker custom resource into
the Kubernetes Deployment running the Barbican worker
(`pkg/barbicanworker/deployment.go`). Given the instance, the hash of its
rendered configuration, the label and annotation maps and an optional
Topology, the builder produces:

- the worker volume list: a fixed base pair (the `config-data-custom` secret
  `<name>-config-data` with mode 0644, and the log volume), then the CA bundle
  volume when `Spec.TLS.CaBundleSecretName` is set, then the HSM volumes when
  the `pkcs11` secret store is enabled and a PKCS11 configuration is present;
  the custom service config secret volumes come before all of them;
- the worker container's mount list, built alongside in the same order under
  the same conditions;
- exactly two containers: a log follower (`dumb-init` tailing
  `<log path><name>.log`, mounting only the log volume) and the worker
  (`/bin/bash -c /usr/local/bin/kolla_start`), both with the instance's image
  and resources, user 0, and the environment `KOLLA_CONFIG_STRATEGY=COPY_ALWAYS`,
  `CONFIG_HASH=<configHash>`;
- the node selector, copied when the spec has one;
- placement: the Topology's `ApplyTo` when a topology is given, the default
  pod anti-affinity of the worker component otherwise.

Files:

- `kube.dfy`: `Wrappers.Option` and module `Kube`, the Kubernetes values the
  builder writes (Deployment, pod template, containers, volumes, mounts).
- `barbican_api.dfy`: module `BarbicanApi` (the BarbicanWorker resource, the
  CA section, the PKCS11 configuration, the Topology reference) and module
  `BarbicanLib`, whose `Collaborators` value carries the helpers the builder
  calls from other packages (`barbican.GetLogVolume`, `GetVolumes`,
  `GetHSMVolumes`, `GetPodAffinity`, `TLS.CreateVolume`, `Topology.ApplyTo`,
  the `ServiceName` and `BarbicanLogPath` constants, …). Their code is not
  part of this model; every property below holds for whatever they return.
- `deployment.dfy`: module `BarbicanWorker`. `Deployment` is the builder as
  the source writes it: guarded appends to the local volume and mount lists,
  the Deployment literal, then the volumes, node selector and placement set
  on the template. `Build` is an independent reference definition: the worker
  lists come from a pipeline of contributors (base, CA bundle, HSM), each
  enabled or not, folded left to right by `Assemble`, and placement is a
  separate `Place` step. `Deployment` is proved equal to `Build`.
- `proofs.dfy`: module `BarbicanWorkerProofs`, the properties of `Build`.

Because `ApplyTo` may rewrite the whole template, facts about volumes,
containers and template metadata are stated on `PodTemplate`, the template
before placement (which is what `ApplyTo` receives), and on the final
template when no topology is given.

## Model

| member | source | states |
|---|---|---|
| BarbicanWorker.Deployment | pkg/barbicanworker/deployment.go:24-175 | The step-by-step builder (guarded appends, the Deployment literal, the in-place writes of volumes, node selector and affinity or ApplyTo) returns exactly the reference Deployment `Build` of the same inputs, so every lemma below holds of what it returns. |
| BarbicanWorker.AssembleAppend | pkg/barbicanworker/deployment.go:79-88 | Running one sequence of guarded append steps after another yields the first sequence's volumes followed by the second's, and likewise for mounts: later steps only append and never reorder or drop what earlier steps appended. |
| BarbicanWorker.WorkerBindingsUnfolded | pkg/barbicanworker/deployment.go:60-88 | The worker-specific volumes are the config-data-custom secret and the log volume, then the CA volume iff the CA secret name is non-empty, then the HSM volumes iff PKCS11 is enabled and configured; the worker-specific mounts are the Kolla config and log mounts followed by the CA and HSM mounts under the same two conditions. |
| BarbicanWorkerProofs.VolumeAndMountOrder | pkg/barbicanworker/deployment.go:60-159 | The volumes of the template handed to placement (and, without a topology, of the final template) are exactly GetVolumes(name, custom secrets), then `config-data-custom` (secret `<name>-config-data`, mode 0644) and the log volume, then the CA volume if the CA secret is named, then the HSM volumes if PKCS11 is enabled and configured, in that order; the worker container's mounts are GetVolumeMounts(custom secrets), the Kolla config and log mounts, then the CA mounts and HSM mounts under the same conditions. |
| BarbicanWorkerProofs.HsmNeedsBoth | pkg/barbicanworker/deployment.go:84-88 | When PKCS11 is not enabled or no PKCS11 configuration is given, the Deployment is the same as for the instance with no PKCS11 configuration and the same as for the instance with no secret store enabled: one condition alone adds nothing and raises nothing. |
| BarbicanWorkerProofs.HsmAddsExactly | pkg/barbicanworker/deployment.go:84-88 | When PKCS11 is enabled and configured, the volumes of the template handed to placement (and, without a topology, of the final template) are those of the unconfigured instance followed by GetHSMVolumes(config), the worker's mounts are followed by GetHSMVolumeMounts(), and the log container is unchanged. |
| BarbicanWorkerProofs.ContainerShapes | pkg/barbicanworker/deployment.go:108-150 | Exactly two containers: `<name>-log` running `/usr/bin/dumb-init` with arguments ending in `<log path><name>.log` and mounting only the log mount, and `<service name>-worker` running `/bin/bash` with `-c /usr/local/bin/kolla_start`. |
| BarbicanWorkerProofs.SharedContainerSettings | pkg/barbicanworker/deployment.go:31-147 | Every container uses the spec's image and resources, runs as user 0, and has exactly the environment KOLLA_CONFIG_STRATEGY=COPY_ALWAYS and CONFIG_HASH=configHash. |
| BarbicanWorkerProofs.ConfigHashOnlyChangesEnv | pkg/barbicanworker/deployment.go:33-35 | Building with another config hash yields the same template with only the containers' environment replaced, the same Deployment apart from the template handed to placement, and (without a topology) the same final template up to the environment; each container's CONFIG_HASH is the hash it was built with. |
| BarbicanWorkerProofs.DeploymentMetadata | pkg/barbicanworker/deployment.go:90-107 | The Deployment's name and namespace are the instance's, its labels and selector match labels are `labels`, its replicas are the spec's; the template carries `labels` and `annotations` and the spec's service account. |
| BarbicanWorkerProofs.NodeSelectorCopied | pkg/barbicanworker/deployment.go:161-163 | The node selector of the template handed to placement (and, without a topology, of the final template) is the spec's when the spec has one and is unset otherwise. |
| BarbicanWorkerProofs.PlacementExclusive | pkg/barbicanworker/deployment.go:165-172 | The template before placement carries no affinity; with a topology the final template is ApplyTo applied once to it, without one it is that template with the default affinity GetPodAffinity(ComponentWorker) set and nothing else changed. |

## Left out

- The code of the helpers from other packages (`barbican.GetLogVolume`, `GetKollaConfigVolumeMount`, `GetLogVolumeMount`, `GetVolumes`, `GetVolumeMounts`, `GetHSMVolumes`, `GetHSMVolumeMounts`, `GetPodAffinity`, the CA section's `CreateVolume` and `CreateVolumeMounts`, `Topology.ApplyTo`) is not part of this model; they are arbitrary functions in `Collaborators`, so nothing is claimed about what they return.
- The value of `SecretStorePKCS11` (`"pkcs11"`) comes from the API types, which are not part of this model; only membership in `EnabledSecretStores` matters to the builder.
- No claim that every mount names a volume of the pod, nor that the CA-only scenario yields exactly three volumes: both depend on what the helpers return, which the builder's code does not show.
- `env.MergeEnvs` with an empty base list is modelled as the resolved map from variable name to value; the order of the resulting EnvVar list is not modelled.
- What `Topology.ApplyTo` does to the template is not modelled: it is an arbitrary transformer applied once.
- The commented-out liveness and readiness probes are dead code and are not modelled.
- Go's nil versus empty maps, the pointer sharing of `labels` and `annotations` with the output, and the 32- and 64-bit widths of replicas, the file mode and the user id are not modelled; they play no role in the assembly rules.
- Determinism is not stated as a lemma: every member of the model is a function of its inputs, so it holds by construction.
- The reconciliation loop, the computation of the config hash, applying and diffing against the cluster, and scheduling are outside the builder.

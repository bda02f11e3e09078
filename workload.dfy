/**
  The Deployment the reconciler synthesizes for a ProgramA custom resource
  (the `appsv1.Deployment` literal built in `createDeploymentForProgramA`).
  Only the fields the reconciler sets are modelled; every other field of the
  Kubernetes object keeps its zero value and is left out.
*/
module Workload {
  import opened Wrappers

  /** Go's `int32`. */
  newtype int32 = x: int | -0x8000_0000 <= x < 0x8000_0000

  /** `corev1.PullPolicy` */
  datatype PullPolicy = PullAlways | PullNever | PullIfNotPresent

  /** `corev1.EnvVar` (name and literal value only). */
  datatype EnvVar = EnvVar(name: string, value: string)

  /** `corev1.Container` (the four fields the reconciler sets). */
  datatype Container = Container(name: string, image: string, imagePullPolicy: PullPolicy, env: seq<EnvVar>)

  /**
    `appsv1.Deployment`: object name and namespace, `spec.replicas` (a pointer,
    nil when unset), `spec.selector.matchLabels`, the pod template's labels and
    the pod template's containers.
  */
  datatype Deployment = Deployment(
    name: string,
    namespace: string,
    replicas: Option<int32>,
    matchLabels: map<string, string>,
    templateLabels: map<string, string>,
    containers: seq<Container>)

  /** The (name, namespace, spec.envVarValue) of a custom resource, all a Deployment is derived from. */
  datatype InstanceView = InstanceView(name: string, namespace: string, envVarValue: string)

  const NameSuffix := "-deployment"
  const AppLabel := "app"
  const ContainerName := "programa"
  const Image := "programa:latest"
  const EnvVarName := "MY_ENV_VAR"

  /** `int32Ptr`: a non-nil pointer to its argument. */
  function Int32Ptr(i: int32): (p: Option<int32>)
    ensures p.Some? && p.value == i
  {
    Some(i)
  }

  predicate HasSuffix(s: string, suffix: string)
  {
    |suffix| <= |s| && s[|s| - |suffix|..] == suffix
  }

  /** The instance name a Deployment name was derived from: the name without its suffix. */
  function InstanceName(deploymentName: string): string
    requires HasSuffix(deploymentName, NameSuffix)
  {
    deploymentName[..|deploymentName| - |NameSuffix|]
  }

  /** A label selector matches a label set when each of its pairs is among the labels. */
  predicate Selects(selector: map<string, string>, labels: map<string, string>)
  {
    forall k :: k in selector ==> k in labels && labels[k] == selector[k]
  }

  /**
    The fixed shape of every synthesized Deployment: a suffixed name, one
    replica, selector and template labels both `{app: <instance name>}`, and a
    single `programa` container from the local `programa:latest` image with one
    `MY_ENV_VAR` variable.
  */
  predicate WellShaped(d: Deployment)
  {
    && HasSuffix(d.name, NameSuffix)
    && d.replicas == Some(1)
    && d.matchLabels == map[AppLabel := InstanceName(d.name)]
    && d.templateLabels == d.matchLabels
    && |d.containers| == 1
    && d.containers[0].name == ContainerName
    && d.containers[0].image == Image
    && d.containers[0].imagePullPolicy == PullNever
    && |d.containers[0].env| == 1
    && d.containers[0].env[0].name == EnvVarName
  }

  /** Reads back the instance a well-shaped Deployment was derived from. */
  function InstanceOf(d: Deployment): InstanceView
    requires WellShaped(d)
  {
    InstanceView(InstanceName(d.name), d.namespace, d.containers[0].env[0].value)
  }

  /**
    The Deployment synthesized for an instance. It has the fixed shape, its
    selector matches its pod template, and the instance's name, namespace and
    envVarValue can be read back from it unchanged.
  */
  function DeploymentFor(name: string, namespace: string, envVarValue: string): (d: Deployment)
    ensures WellShaped(d)
    ensures InstanceOf(d) == InstanceView(name, namespace, envVarValue)
    ensures Selects(d.matchLabels, d.templateLabels)
  {
    Deployment(
      name + NameSuffix,
      namespace,
      Int32Ptr(1),
      map[AppLabel := name],
      map[AppLabel := name],
      [Container(ContainerName, Image, PullNever, [EnvVar(EnvVarName, envVarValue)])])
  }

  /** Every well-shaped Deployment is the one synthesized for the instance read back from it. */
  lemma SynthesisRoundTrip(d: Deployment)
    requires WellShaped(d)
    ensures DeploymentFor(InstanceOf(d).name, InstanceOf(d).namespace, InstanceOf(d).envVarValue) == d
  {
    var v := InstanceOf(d);
    assert v.name + NameSuffix == d.name;
    assert d.containers[0].env == [EnvVar(EnvVarName, v.envVarValue)];
    assert d.containers == [Container(ContainerName, Image, PullNever, [EnvVar(EnvVarName, v.envVarValue)])];
  }

  /** Synthesis loses nothing: different instances give different Deployments. */
  lemma DeploymentForInjective(a: InstanceView, b: InstanceView)
    requires DeploymentFor(a.name, a.namespace, a.envVarValue) == DeploymentFor(b.name, b.namespace, b.envVarValue)
    ensures a == b
  {
  }

  /** Two synthesized Deployments share a name exactly when their instances share a name. */
  lemma DeploymentNameInjective(a: InstanceView, b: InstanceView)
    ensures DeploymentFor(a.name, a.namespace, a.envVarValue).name == DeploymentFor(b.name, b.namespace, b.envVarValue).name
            <==> a.name == b.name
  {
    var da := DeploymentFor(a.name, a.namespace, a.envVarValue);
    var db := DeploymentFor(b.name, b.namespace, b.envVarValue);
    if da.name == db.name {
      assert InstanceName(da.name) == InstanceName(db.name);
    }
  }
}

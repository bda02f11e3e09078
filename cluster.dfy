/**
  The API server's Deployment store as the reconciler sees it through
  `clientset.AppsV1().Deployments(namespace).Create`. It is not code of the
  repository: it is the assumed behaviour of the server, namely that a
  create is accepted exactly when no Deployment of that namespace and name
  exists, and that a rejected create changes nothing.
*/
module Cluster {
  import opened Wrappers
  import opened Workload

  /** Deployments are identified by namespace and name. */
  datatype Key = Key(namespace: string, name: string)

  type Store = map<Key, Deployment>

  /** The server's "already exists" conflict. */
  datatype CreateError = AlreadyExists(key: Key)

  function KeyOf(d: Deployment): Key
  {
    Key(d.namespace, d.name)
  }

  /** The server's answer to a create request: the created object, or a conflict. */
  function CreateResponse(s: Store, d: Deployment): (r: Result<Deployment, CreateError>)
    ensures r.Success? <==> KeyOf(d) !in s
    ensures r.Success? ==> r.value == d
    ensures r.Failure? ==> r.error == AlreadyExists(KeyOf(d))
  {
    if KeyOf(d) in s then Failure(AlreadyExists(KeyOf(d))) else Success(d)
  }

  /** The store after a create request: one new entry on success, and no entry ever overwritten. */
  function StoreAfterCreate(s: Store, d: Deployment): (s': Store)
    ensures s'.Keys == s.Keys + {KeyOf(d)}
    ensures forall k :: k in s ==> s'[k] == s[k]
    ensures KeyOf(d) !in s ==> s'[KeyOf(d)] == d
  {
    if KeyOf(d) in s then s else s[KeyOf(d) := d]
  }

  /** The API server: its Deployments and, as a ghost log, every create request it has received. */
  class ApiServer {
    var deployments: Store
    ghost var requests: seq<Deployment>

    constructor (existing: Store)
      ensures deployments == existing && requests == []
    {
      deployments := existing;
      requests := [];
    }

    /** `Create(ctx, deployment, CreateOptions{})` */
    method Create(d: Deployment) returns (r: Result<Deployment, CreateError>)
      modifies this
      ensures requests == old(requests) + [d]
      ensures r == CreateResponse(old(deployments), d)
      ensures deployments == StoreAfterCreate(old(deployments), d)
    {
      requests := requests + [d];
      if KeyOf(d) in deployments {
        r := Failure(AlreadyExists(KeyOf(d)));
      } else {
        deployments := deployments[KeyOf(d) := d];
        r := Success(d);
      }
    }
  }

  /** Two synthesized Deployments compete for one store entry exactly when their instances share name and namespace. */
  lemma KeyOfDeploymentFor(a: InstanceView, b: InstanceView)
    ensures KeyOf(DeploymentFor(a.name, a.namespace, a.envVarValue)) == KeyOf(DeploymentFor(b.name, b.namespace, b.envVarValue))
            <==> a.name == b.name && a.namespace == b.namespace
  {
    DeploymentNameInjective(a, b);
  }
}

/**
 * Value types shared by the cloud cluster layer: the Python values a
 * configuration document holds, the exceptions the layer raises, the
 * connection record handed to callers, and the description of a cluster
 * that the factory passes on to a spawner.
 */
module Cloud {

  datatype Option<+T> = None | Some(value: T)

  /** A Python value as it appears in a YAML configuration document or a
      connection record. `Null` stands for Python's `None`. */
  datatype Value =
    | Null
    | Str(s: string)
    | Int(i: int)
    | Dict(entries: map<string, Value>)

  /** An optional string as a Python value: `None` or a `str`. */
  function OptStr(o: Option<string>): (v: Value)
    ensures v == Null <==> o.None?
    ensures o.Some? ==> v == Str(o.value)
  {
    match o
    case None => Null
    case Some(s) => Str(s)
  }

  /** Which class of the `ClusterError` family an error belongs to:
      `Generic` is `ClusterError` itself, the other two its subclasses. */
  datatype ClusterErrorKind = Generic | CannotSpawn | CannotDestroy

  /** The exceptions the model raises or carries. `Foreign` is any exception
      raised by code outside the model (the autoscaler, file access, an
      interruption); the model only passes it along as a cause. */
  datatype Exception =
    | ValueError(message: string)
    | KeyError(key: string)
    | TypeError(message: string)
    | RuntimeError(message: string)
    | AssertionError(message: string)
    | ClusterError(kind: ClusterErrorKind, message: string, cause: Option<Exception> := None)
    | Foreign(name: string, message: string)

  datatype Result<+T> = Ok(value: T) | Err(error: Exception)

  /** `isinstance(e, cls)` for the three classes of the cluster error family. */
  predicate IsInstance(e: Exception, cls: ClusterErrorKind)
  {
    e.ClusterError? && (cls == Generic || e.kind == cls)
  }

  /** `CannotSpawnCluster(message, cause=cause)`. */
  function CannotSpawnCluster(message: string, cause: Option<Exception> := None): (e: Exception)
    ensures IsInstance(e, CannotSpawn) && !IsInstance(e, CannotDestroy)
    ensures e.message == message && e.cause == cause
  {
    ClusterError(CannotSpawn, message, cause)
  }

  /** `CannotDestroyCluster(message, cause=cause)`. */
  function CannotDestroyCluster(message: string, cause: Option<Exception> := None): (e: Exception)
    ensures IsInstance(e, CannotDestroy) && !IsInstance(e, CannotSpawn)
    ensures e.message == message && e.cause == cause
  {
    ClusterError(CannotDestroy, message, cause)
  }

  /** Both subclasses are kinds of `ClusterError`, and a cluster error
      records exactly the cause it was built with, `None` when none was given. */
  lemma ClusterErrorFamily(message: string, cause: Option<Exception>)
    ensures IsInstance(CannotSpawnCluster(message, cause), Generic)
    ensures IsInstance(CannotDestroyCluster(message, cause), Generic)
    ensures forall e :: IsInstance(e, CannotSpawn) ==> IsInstance(e, Generic)
    ensures forall e :: IsInstance(e, CannotDestroy) ==> IsInstance(e, Generic)
    ensures ClusterError(Generic, message).cause == None
    ensures CannotSpawnCluster(message).cause == None && CannotDestroyCluster(message).cause == None
  {
  }

  /** How to reach the cluster's head node. Every field has a default. */
  datatype ConnectionDetails = ConnectionDetails(
    userName: Value := Str("modin"),
    keyFile: Value := Null,
    address: Value := Null,
    port: int := 22)

  lemma ConnectionDetailsDefaults()
    ensures ConnectionDetails() == ConnectionDetails(Str("modin"), Null, Null, 22)
  {
  }

  /** A cloud provider as the cluster sees it: its name and the optional
      region, zone and credentials file. */
  datatype Provider = Provider(
    name: string,
    region: Option<string> := None,
    zone: Option<string> := None,
    credentialsFile: Option<string> := None)

  /** The positional arguments a spawner is constructed with, in order. */
  datatype ClusterSpec = ClusterSpec(
    provider: Provider,
    projectName: Option<string>,
    clusterName: string,
    workerCount: int,
    headNodeType: Option<string>,
    workerNodeType: Option<string>)

  /** The autoscaler configuration document. The entries the builder writes
      have fields of their own: the top-level `cluster_name`,
      `min_workers`, `max_workers` and `initial_workers`, and the
      `provider`, `auth`, `head_node` and `worker_nodes` sections. Every
      other top-level entry is in `others`. */
  datatype Document = Document(
    clusterName: Value,
    minWorkers: Value,
    maxWorkers: Value,
    initialWorkers: Value,
    provider: map<string, Value>,
    auth: map<string, Value>,
    headNode: map<string, Value>,
    workerNodes: map<string, Value>,
    others: map<string, Value>)

  /** What a cluster object reads from and writes to its process and
      filesystem: the packaged configuration template, the environment
      variables, the directory generated configurations are saved in, and
      the paths that already exist. */
  datatype Host = Host(
    template: Document,
    env: map<string, string>,
    configDir: string,
    files: set<string>)
}

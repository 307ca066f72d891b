/**
 * The public entry point: `cluster(...)` selects a spawner by name and
 * constructs it from the cluster description.
 */
module CloudFactory {
  import opened Cloud
  import RayScale

  /** The spawner names the factory accepts. */
  const RayScaleSpawner: string := "rayscale"

  /** The arguments the factory passes to the selected spawner, or the
      error for a spawner name it does not know. */
  function SpawnerArguments(
    provider: Provider,
    projectName: Option<string> := None,
    clusterName: string := "modin-cluster",
    workerCount: int := 4,
    headNodeType: Option<string> := None,
    workerNodeType: Option<string> := None,
    spawner: string := RayScaleSpawner): (r: Result<ClusterSpec>)
    ensures r.Ok? <==> spawner == "rayscale"
    ensures r.Err? ==> r.error == ValueError("Unknown spawner: " + spawner)
    ensures r.Ok? ==> && r.value.provider == provider && r.value.projectName == projectName
                      && r.value.clusterName == clusterName && r.value.workerCount == workerCount
                      && r.value.headNodeType == headNodeType && r.value.workerNodeType == workerNodeType
  {
    if spawner == RayScaleSpawner
    then Ok(ClusterSpec(provider, projectName, clusterName, workerCount, headNodeType, workerNodeType))
    else Err(ValueError("Unknown spawner: " + spawner))
  }

  /** Called with only a provider, the factory asks for a four-worker
      cluster named "modin-cluster" with no project and no node types. */
  lemma SpawnerArgumentDefaults(provider: Provider)
    ensures SpawnerArguments(provider) == Ok(ClusterSpec(provider, None, "modin-cluster", 4, None, None))
  {
  }

  /** `cluster(...)`: an unknown spawner name fails before anything is
      constructed or any environment variable or file is touched. */
  method Cluster(
    host: Host,
    digest: Document -> string,
    provider: Provider,
    projectName: Option<string> := None,
    clusterName: string := "modin-cluster",
    workerCount: int := 4,
    headNodeType: Option<string> := None,
    workerNodeType: Option<string> := None,
    spawner: string := RayScaleSpawner)
    returns (r: Result<RayScale.RayCluster>, host': Host)
    ensures spawner != "rayscale" ==> r == Err(ValueError("Unknown spawner: " + spawner)) && host' == host
    ensures r.Ok? ==> spawner == "rayscale" && fresh(r.value) && r.value.Valid() && !r.value.ready
    ensures r.Ok? ==> r.value.spec == ClusterSpec(provider, projectName, clusterName, workerCount, headNodeType, workerNodeType)
    ensures spawner == "rayscale" ==>
      (r.Err? <==> (provider.credentialsFile.Some? && provider.name !in RayScale.CredentialsEnv)
                   || provider.name !in RayScale.InstanceKey)
    ensures spawner == "rayscale" ==>
      && host'.env == RayScale.ExportCredentials(host.env, provider)
      && host'.template == host.template && host'.configDir == host.configDir
    ensures spawner == "rayscale" && r.Err? ==>
      r.error == RayScale.UnsupportedProvider(provider.name) && host'.files == host.files
    ensures r.Ok? ==>
      var c := r.value;
      var doc := RayScale.Configured(host.template, c.spec, RayScale.ProxySetting(host'.env),
                                     RayScale.InstanceKey[provider.name]);
      && fresh(c.spawner) && fresh(c.destroyer)
      && c.config == Some(doc)
      && c.configFile == RayScale.ConfigEntry(host.configDir, digest(doc), host.files)
      && host'.files == host.files + {c.configFile}
      && c.spawnExc == None && c.destroyExc == None && c.diagnostics == []
      && c.spawner.thread == None && c.spawner.exc == None && !c.spawner.silent
      && c.destroyer.thread == None && c.destroyer.exc == None && !c.destroyer.silent
  {
    var args := SpawnerArguments(provider, projectName, clusterName, workerCount, headNodeType, workerNodeType, spawner);
    if args.Err? {
      return Err(args.error), host;
    }
    var c;
    c, host' := RayScale.RayCluster.Create(args.value, host, digest);
    r := c;
  }
}

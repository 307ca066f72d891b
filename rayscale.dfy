/**
 * The Ray-autoscaler backed cluster: building and saving its configuration
 * document, and the bookkeeping of its spawn and destroy tasks.
 *
 * The autoscaler calls, YAML parsing and the filesystem are not modelled:
 * their outcomes are parameters (see `Cloud.Host` and the `outcome`
 * parameters of `SpawnBody` and `DestroyBody`).
 */
module RayScale {
  import opened Cloud

  /** `Provider.AWS`, the one provider the lookup tables know. */
  const AWS: string := "aws"

  /** Per-provider key of the instance type inside a node section. */
  const InstanceKey: map<string, string> := map[AWS := "InstanceType"]

  /** Per-provider environment variable naming the credentials file. */
  const CredentialsEnv: map<string, string> := map[AWS := "AWS_CONFIG_FILE"]

  /** Environment variable holding an optional SOCKS proxy address. */
  const SocksProxyVar: string := "MODIN_SOCKS_PROXY"

  const JoinUnstarted: string := "cannot join thread before it is started"

  const NotReady: string := "Cluster is not ready, cannot get connection details"

  function UnsupportedProvider(name: string): Exception
  {
    ValueError("Unsupported provider: " + name)
  }

  /** Python truthiness of an optional string: present and non-empty. */
  predicate Truthy(o: Option<string>)
  {
    o.Some? && o.value != ""
  }

  // ---------------------------------------------------------------------
  // Configuration documents

  /** `section[k]`, or `None` when the key is missing. */
  function Lookup(section: map<string, Value>, k: string): Option<Value>
  {
    if k in section then Some(section[k]) else None
  }

  /** The proxy setting read from the environment. */
  function ProxySetting(env: map<string, string>): Option<string>
  {
    if SocksProxyVar in env then Some(env[SocksProxyVar]) else None
  }

  predicate SafeShellChar(c: char)
  {
    ('a' <= c <= 'z') || ('A' <= c <= 'Z') || ('0' <= c <= '9') || c in "_@%+=:,./-"
  }

  function EscapeSingleQuotes(s: string): string
  {
    if s == [] then []
    else (if s[0] == '\'' then "'\"'\"'" else [s[0]]) + EscapeSingleQuotes(s[1..])
  }

  /** Python's `shlex.quote`: the empty string becomes `''`, a string of
      safe characters is kept, anything else is single-quoted with every
      single quote spelled `'"'"'`. */
  function ShellQuote(s: string): string
  {
    if s == "" then "''"
    else if forall i | 0 <= i < |s| :: SafeShellChar(s[i]) then s
    else "'" + EscapeSingleQuotes(s) + "'"
  }

  function ProxyCommand(proxy: string): string
  {
    "nc -x " + ShellQuote(proxy) + " %h %p"
  }

  /** The entries written into the `provider` section: the type always,
      region and zone only when set. */
  function ProviderWrites(p: Provider): (w: map<string, Value>)
    ensures Lookup(w, "type") == Some(Str(p.name))
    ensures Lookup(w, "region") == if Truthy(p.region) then Some(Str(p.region.value)) else None
    ensures Lookup(w, "zone") == if Truthy(p.zone) then Some(Str(p.zone.value)) else None
    ensures forall k | k in w :: k == "type" || k == "region" || k == "zone"
  {
    map["type" := Str(p.name)]
    + (if Truthy(p.region) then map["region" := Str(p.region.value)] else map[])
    + (if Truthy(p.zone) then map["zone" := Str(p.zone.value)] else map[])
  }

  /** The entries written into the `auth` section: the fixed user always,
      the proxy command only when a proxy is set. */
  function AuthWrites(proxy: Option<string>): (w: map<string, Value>)
    ensures Lookup(w, "ssh_user") == Some(Str("modin"))
    ensures Lookup(w, "ssh_proxy_command")
            == if Truthy(proxy) then Some(Str(ProxyCommand(proxy.value))) else None
    ensures forall k | k in w :: k == "ssh_user" || k == "ssh_proxy_command"
  {
    map["ssh_user" := Str("modin")]
    + (if Truthy(proxy) then map["ssh_proxy_command" := Str(ProxyCommand(proxy.value))] else map[])
  }

  /** The configured document, declaratively: the template with the
      cluster's name and fixed size, and its provider, auth and node
      sections overlaid with the entries the builder writes; every other
      entry is kept. */
  function Configured(template: Document, spec: ClusterSpec, proxy: Option<string>, key: string): Document
  {
    var n := Int(spec.workerCount);
    template.(
      clusterName := Str(spec.clusterName),
      minWorkers := n,
      maxWorkers := n,
      initialWorkers := n,
      provider := template.provider + ProviderWrites(spec.provider),
      auth := template.auth + AuthWrites(proxy),
      headNode := template.headNode + map[key := OptStr(spec.headNodeType)],
      workerNodes := template.workerNodes + map[key := OptStr(spec.workerNodeType)])
  }

  /** Looking a key up in an overlaid section finds the overlay's entry,
      else the base's. */
  lemma LookupOverlay(base: map<string, Value>, over: map<string, Value>, k: string)
    ensures Lookup(base + over, k) == if k in over then Some(over[k]) else Lookup(base, k)
  {
  }

  /** The cluster entries: the name, and a fixed size with autoscaling
      disabled (minimum, maximum and initial workers all equal). Top-level
      entries the builder does not know are kept. */
  lemma ConfiguredSize(template: Document, spec: ClusterSpec, proxy: Option<string>, key: string)
    ensures var doc := Configured(template, spec, proxy, key);
      && doc.clusterName == Str(spec.clusterName)
      && doc.minWorkers == Int(spec.workerCount)
      && doc.maxWorkers == Int(spec.workerCount)
      && doc.initialWorkers == Int(spec.workerCount)
      && doc.others == template.others
  {
  }

  /** The provider entries: the type is the provider's name; region and
      zone are written when set and otherwise keep their template value
      (or stay absent); no other entry changes. */
  lemma ConfiguredProvider(template: Document, spec: ClusterSpec, proxy: Option<string>, key: string)
    ensures var section := Configured(template, spec, proxy, key).provider;
      var p := spec.provider;
      && Lookup(section, "type") == Some(Str(p.name))
      && Lookup(section, "region")
         == (if Truthy(p.region) then Some(Str(p.region.value)) else Lookup(template.provider, "region"))
      && Lookup(section, "zone")
         == (if Truthy(p.zone) then Some(Str(p.zone.value)) else Lookup(template.provider, "zone"))
      && forall k :: k != "type" && k != "region" && k != "zone" ==>
           Lookup(section, k) == Lookup(template.provider, k)
  {
    var w := ProviderWrites(spec.provider);
    LookupOverlay(template.provider, w, "type");
    LookupOverlay(template.provider, w, "region");
    LookupOverlay(template.provider, w, "zone");
    forall k | k != "type" && k != "region" && k != "zone"
      ensures Lookup(template.provider + w, k) == Lookup(template.provider, k)
    {
      LookupOverlay(template.provider, w, k);
    }
  }

  /** The auth entries: the user is always "modin"; the proxy command is
      written only for a non-empty proxy and otherwise keeps its template
      value (or stays absent); no other entry changes. */
  lemma ConfiguredAuth(template: Document, spec: ClusterSpec, proxy: Option<string>, key: string)
    ensures var section := Configured(template, spec, proxy, key).auth;
      && Lookup(section, "ssh_user") == Some(Str("modin"))
      && Lookup(section, "ssh_proxy_command")
         == (if Truthy(proxy) then Some(Str(ProxyCommand(proxy.value)))
             else Lookup(template.auth, "ssh_proxy_command"))
      && forall k :: k != "ssh_user" && k != "ssh_proxy_command" ==>
           Lookup(section, k) == Lookup(template.auth, k)
  {
    var w := AuthWrites(proxy);
    LookupOverlay(template.auth, w, "ssh_user");
    LookupOverlay(template.auth, w, "ssh_proxy_command");
    forall k | k != "ssh_user" && k != "ssh_proxy_command"
      ensures Lookup(template.auth + w, k) == Lookup(template.auth, k)
    {
      LookupOverlay(template.auth, w, k);
    }
  }

  /** The instance types of the head and worker nodes are written under the
      provider's instance key, and nothing else in those sections changes. */
  lemma ConfiguredNodes(template: Document, spec: ClusterSpec, proxy: Option<string>, key: string)
    ensures var doc := Configured(template, spec, proxy, key);
      && Lookup(doc.headNode, key) == Some(OptStr(spec.headNodeType))
      && Lookup(doc.workerNodes, key) == Some(OptStr(spec.workerNodeType))
      && (forall k :: k != key ==> Lookup(doc.headNode, k) == Lookup(template.headNode, k))
      && (forall k :: k != key ==> Lookup(doc.workerNodes, k) == Lookup(template.workerNodes, k))
  {
    var head, worker := map[key := OptStr(spec.headNodeType)], map[key := OptStr(spec.workerNodeType)];
    forall k
      ensures Lookup(template.headNode + head, k) == if k == key then Some(head[key]) else Lookup(template.headNode, k)
      ensures Lookup(template.workerNodes + worker, k) == if k == key then Some(worker[key]) else Lookup(template.workerNodes, k)
    {
      LookupOverlay(template.headNode, head, k);
      LookupOverlay(template.workerNodes, worker, k);
    }
  }

  /** Writing the provider entries one by one overlays the section with
      `ProviderWrites`. */
  lemma ProviderUpdates(section: map<string, Value>, p: Provider)
    ensures var typed := section["type" := Str(p.name)];
      var located := if Truthy(p.region) then typed["region" := Str(p.region.value)] else typed;
      var zoned := if Truthy(p.zone) then located["zone" := Str(p.zone.value)] else located;
      zoned == section + ProviderWrites(p)
  {
  }

  /** Writing the auth entries one by one overlays the section with
      `AuthWrites`. */
  lemma AuthUpdates(section: map<string, Value>, proxy: Option<string>)
    ensures var withUser := section["ssh_user" := Str("modin")];
      var proxied := if Truthy(proxy) then withUser["ssh_proxy_command" := Str(ProxyCommand(proxy.value))] else withUser;
      proxied == section + AuthWrites(proxy)
  {
  }

  lemma UpdateAsOverlay(m: map<string, Value>, k: string, v: Value)
    ensures m[k := v] == m + map[k := v]
  {
  }

  // ---------------------------------------------------------------------
  // Content-addressed configuration file names

  function EntryPath(dir: string, stem: string): string
  {
    dir + "/config-" + stem + ".yml"
  }

  /** The name `SaveConfig` picks once every prefix of `hash` shorter than
      `stop` is taken: the next free prefix, or the full hash. */
  function Probe(dir: string, hash: string, existing: set<string>, stop: nat): string
    decreases |hash| - stop
  {
    if |hash| <= stop then EntryPath(dir, hash)
    else if EntryPath(dir, hash[..stop]) !in existing then EntryPath(dir, hash[..stop])
    else Probe(dir, hash, existing, stop + 1)
  }

  function ConfigEntry(dir: string, hash: string, existing: set<string>): string
  {
    Probe(dir, hash, existing, 4)
  }

  /** Prefix length `k` is in the probed range, its path is free, and every
      shorter probed prefix is taken. */
  ghost predicate FirstFree(dir: string, hash: string, existing: set<string>, k: int)
  {
    && 4 <= k < |hash|
    && EntryPath(dir, hash[..k]) !in existing
    && forall j :: 4 <= j < k ==> EntryPath(dir, hash[..j]) in existing
  }

  /** Every probed prefix is taken (vacuously so when `hash` has at most
      four characters). */
  ghost predicate AllTaken(dir: string, hash: string, existing: set<string>)
  {
    forall j :: 4 <= j < |hash| ==> EntryPath(dir, hash[..j]) in existing
  }

  lemma {:induction false} ProbeFirstFree(dir: string, hash: string, existing: set<string>, stop: nat)
    requires 4 <= stop
    requires forall j :: 4 <= j < stop && j < |hash| ==> EntryPath(dir, hash[..j]) in existing
    ensures AllTaken(dir, hash, existing) ==> Probe(dir, hash, existing, stop) == EntryPath(dir, hash)
    ensures forall k :: FirstFree(dir, hash, existing, k) ==> Probe(dir, hash, existing, stop) == EntryPath(dir, hash[..k])
    decreases |hash| - stop
  {
    if |hash| <= stop {
    } else if EntryPath(dir, hash[..stop]) !in existing {
      forall k | FirstFree(dir, hash, existing, k)
        ensures k == stop
      {
      }
    } else {
      ProbeFirstFree(dir, hash, existing, stop + 1);
    }
  }

  /** Either some probed prefix is free, or all of them are taken. */
  lemma FreeOrAllTaken(dir: string, hash: string, existing: set<string>)
    ensures AllTaken(dir, hash, existing) || exists k :: FirstFree(dir, hash, existing, k)
  {
    if !AllTaken(dir, hash, existing) {
      var j :| 4 <= j < |hash| && EntryPath(dir, hash[..j]) !in existing;
      var k := 4;
      while EntryPath(dir, hash[..k]) in existing
        invariant 4 <= k <= j
        invariant forall i :: 4 <= i < k ==> EntryPath(dir, hash[..i]) in existing
        decreases j - k
      {
        k := k + 1;
      }
      assert FirstFree(dir, hash, existing, k);
    }
  }

  /** The chosen name is the first free probed prefix, or the full hash
      when every probed prefix is taken. */
  lemma ConfigEntryFirstFree(dir: string, hash: string, existing: set<string>)
    ensures AllTaken(dir, hash, existing) ==> ConfigEntry(dir, hash, existing) == EntryPath(dir, hash)
    ensures forall k :: FirstFree(dir, hash, existing, k) ==> ConfigEntry(dir, hash, existing) == EntryPath(dir, hash[..k])
    ensures AllTaken(dir, hash, existing) || exists k :: FirstFree(dir, hash, existing, k)
    ensures !AllTaken(dir, hash, existing) ==> ConfigEntry(dir, hash, existing) !in existing
  {
    ProbeFirstFree(dir, hash, existing, 4);
    FreeOrAllTaken(dir, hash, existing);
  }

  lemma EntryPathLength(dir: string, stem: string)
    ensures |EntryPath(dir, stem)| == |dir| + |stem| + 12
  {
  }

  /** Saving the same document again, once the first file exists, lands on
      the same path only when every probed prefix was already taken: a
      repeated save does not reuse the earlier file. */
  lemma {:induction false} ResaveMovesOn(dir: string, hash: string, existing: set<string>)
    ensures var e := ConfigEntry(dir, hash, existing);
      ConfigEntry(dir, hash, existing + {e}) == e <==> AllTaken(dir, hash, existing)
  {
    var e := ConfigEntry(dir, hash, existing);
    var more := existing + {e};
    var again := ConfigEntry(dir, hash, more);
    ConfigEntryFirstFree(dir, hash, existing);
    ConfigEntryFirstFree(dir, hash, more);
    if AllTaken(dir, hash, existing) {
      assert AllTaken(dir, hash, more);
      assert again == e;
    } else {
      var k :| FirstFree(dir, hash, existing, k);
      assert e == EntryPath(dir, hash[..k]);
      if AllTaken(dir, hash, more) {
        EntryPathLength(dir, hash[..k]);
        EntryPathLength(dir, hash);
        assert |again| != |e|;
      } else {
        var k' :| FirstFree(dir, hash, more, k');
        assert again == EntryPath(dir, hash[..k']) && again !in more;
      }
      assert again != e;
    }
  }

  // ---------------------------------------------------------------------
  // Tasks and the cluster

  /** Which background body a task runs. */
  datatype Target = SpawnTarget | DestroyTarget

  /** A thread handle, reduced to what the model needs: its target and
      whether `start()` was ever called on it. */
  datatype Thread = Thread(target: Target, started: bool)

  /** One background operation: its target, the thread handle (created
      lazily), the captured error and the flag that keeps the body from
      writing a trace to the error stream. */
  class ThreadTask {
    const target: Target
    var thread: Option<Thread>
    var exc: Option<Exception>
    var silent: bool

    constructor (target: Target)
      ensures this.target == target
      ensures thread == None && exc == None && !silent
    {
      this.target := target;
      thread := None;
      exc := None;
      silent := false;
    }
  }

  class RayCluster {
    const spec: ClusterSpec
    const spawner: ThreadTask
    const destroyer: ThreadTask
    const configFile: string
    var ready: bool
    var config: Option<Document>
    var spawnExc: Option<Exception>
    var destroyExc: Option<Exception>
    /** One entry per trace written to the error stream, naming its body. */
    ghost var diagnostics: seq<Target>

    ghost predicate Valid()
      reads this
    {
      && spawner != destroyer
      && spawner.target == SpawnTarget
      && destroyer.target == DestroyTarget
      && (ready ==> config.Some?)
    }

    constructor (spec: ClusterSpec, config: Document, configFile: string)
      ensures Valid() && fresh(spawner) && fresh(destroyer)
      ensures this.spec == spec && this.config == Some(config) && this.configFile == configFile
      ensures !ready && spawnExc == None && destroyExc == None && diagnostics == []
      ensures spawner.thread == None && spawner.exc == None && !spawner.silent
      ensures destroyer.thread == None && destroyer.exc == None && !destroyer.silent
    {
      this.spec := spec;
      spawner := new ThreadTask(SpawnTarget);
      destroyer := new ThreadTask(DestroyTarget);
      ready := false;
      this.config := Some(config);
      this.configFile := configFile;
      spawnExc := None;
      destroyExc := None;
      diagnostics := [];
    }

    /** Builds the configuration document from the template by updating it
        in place; fails for a provider the instance-type table lacks. */
    static method MakeConfig(template: Document, spec: ClusterSpec, env: map<string, string>)
      returns (r: Result<Document>)
      ensures r.Ok? <==> spec.provider.name in InstanceKey
      ensures r.Err? ==> r.error == UnsupportedProvider(spec.provider.name)
      ensures r.Ok? ==> r.value == Configured(template, spec, ProxySetting(env), InstanceKey[spec.provider.name])
    {
      var p := spec.provider;
      var config := template;
      // the cluster's name and size, then the provider section
      config := config.(clusterName := Str(spec.clusterName));
      config := config.(minWorkers := Int(spec.workerCount));
      config := config.(maxWorkers := Int(spec.workerCount));
      config := config.(initialWorkers := Int(spec.workerCount));
      config := config.(provider := config.provider["type" := Str(p.name)]);
      if Truthy(p.region) {
        config := config.(provider := config.provider["region" := Str(p.region.value)]);
      }
      if Truthy(p.zone) {
        config := config.(provider := config.provider["zone" := Str(p.zone.value)]);
      }
      ProviderUpdates(template.provider, p);
      // the ssh user and optional proxy command
      var socksProxy := ProxySetting(env);
      config := config.(auth := config.auth["ssh_user" := Str("modin")]);
      if Truthy(socksProxy) {
        config := config.(auth := config.auth["ssh_proxy_command" := Str(ProxyCommand(socksProxy.value))]);
      }
      AuthUpdates(template.auth, socksProxy);
      // node instance types, under the provider's key
      if p.name !in InstanceKey {
        return Err(UnsupportedProvider(p.name));
      }
      var key := InstanceKey[p.name];
      config := config.(headNode := config.headNode[key := OptStr(spec.headNodeType)]);
      config := config.(workerNodes := config.workerNodes[key := OptStr(spec.workerNodeType)]);
      UpdateAsOverlay(template.headNode, key, OptStr(spec.headNodeType));
      UpdateAsOverlay(template.workerNodes, key, OptStr(spec.workerNodeType));
      r := Ok(config);
    }

    /** Picks the path the document is saved under: the shortest free
        prefix of its digest, from four characters on, else the full digest. */
    static method SaveConfig(config: Document, dir: string, digest: Document -> string, existing: set<string>)
      returns (entry: string)
      ensures entry == ConfigEntry(dir, digest(config), existing)
      ensures AllTaken(dir, digest(config), existing) ==> entry == EntryPath(dir, digest(config))
      ensures forall k :: FirstFree(dir, digest(config), existing, k) ==> entry == EntryPath(dir, digest(config)[..k])
    {
      var namehash := digest(config);
      ConfigEntryFirstFree(dir, namehash, existing);
      var stop := 4;
      while stop < |namehash|
        invariant 4 <= stop
        invariant Probe(dir, namehash, existing, stop) == ConfigEntry(dir, namehash, existing)
        decreases |namehash| - stop
      {
        entry := EntryPath(dir, namehash[..stop]);
        if entry !in existing {
          return;
        }
        stop := stop + 1;
      }
      entry := EntryPath(dir, namehash);
    }

    /** Constructs a cluster: checks the credentials table when a
        credentials file is given and exports its path, builds the
        configuration and saves it. Any failure constructs nothing. */
    static method Create(spec: ClusterSpec, host: Host, digest: Document -> string)
      returns (r: Result<RayCluster>, host': Host)
      ensures var p := spec.provider;
        r.Err? <==> (p.credentialsFile.Some? && p.name !in CredentialsEnv) || p.name !in InstanceKey
      ensures r.Err? ==> r.error == UnsupportedProvider(spec.provider.name) && host'.files == host.files
      ensures host'.template == host.template && host'.configDir == host.configDir
      ensures host'.env == ExportCredentials(host.env, spec.provider)
      ensures r.Ok? ==>
        var c := r.value;
        var doc := Configured(host.template, spec, ProxySetting(host'.env), InstanceKey[spec.provider.name]);
        && fresh(c) && fresh(c.spawner) && fresh(c.destroyer) && c.Valid()
        && c.spec == spec && !c.ready && c.config == Some(doc)
        && c.configFile == ConfigEntry(host.configDir, digest(doc), host.files)
        && host'.files == host.files + {c.configFile}
        && c.spawnExc == None && c.destroyExc == None && c.diagnostics == []
        && c.spawner.thread == None && c.spawner.exc == None && !c.spawner.silent
        && c.destroyer.thread == None && c.destroyer.exc == None && !c.destroyer.silent
    {
      var p := spec.provider;
      host' := host;
      if p.credentialsFile.Some? {
        if p.name !in CredentialsEnv {
          return Err(UnsupportedProvider(p.name)), host;
        }
        host' := host'.(env := host'.env[CredentialsEnv[p.name] := p.credentialsFile.value]);
      }
      var made := MakeConfig(host.template, spec, host'.env);
      if made.Err? {
        return Err(made.error), host';
      }
      var entry := SaveConfig(made.value, host.configDir, digest, host.files);
      var c := new RayCluster(spec, made.value, entry);
      r := Ok(c);
      host' := host'.(files := host.files + {entry});
    }

    /** `spawn(wait)`: runs the spawn task through `RunThread`. The body is
        never started, so the cluster itself does not change. */
    method Spawn(wait: bool := true) returns (raised: Option<Exception>)
      requires Valid()
      modifies spawner
      ensures Valid() && unchanged(this) && unchanged(destroyer)
      ensures spawner.thread == if old(spawner.thread).None? then Some(Thread(SpawnTarget, false)) else old(spawner.thread)
      ensures !wait ==> spawner.silent == old(spawner.silent) && spawner.exc == old(spawner.exc) && raised == None
      ensures wait ==> spawner.silent
      ensures wait && !spawner.thread.value.started ==>
        spawner.exc == old(spawner.exc) && raised == Some(RuntimeError(JoinUnstarted))
      ensures wait && spawner.thread.value.started ==> spawner.exc == None && raised == old(spawner.exc)
    {
      raised := RunThread(wait, spawner);
    }

    /** `destroy(wait)`: runs the destroy task through `RunThread`. */
    method Destroy(wait: bool := true) returns (raised: Option<Exception>)
      requires Valid()
      modifies destroyer
      ensures Valid() && unchanged(this) && unchanged(spawner)
      ensures destroyer.thread == if old(destroyer.thread).None? then Some(Thread(DestroyTarget, false)) else old(destroyer.thread)
      ensures !wait ==> destroyer.silent == old(destroyer.silent) && destroyer.exc == old(destroyer.exc) && raised == None
      ensures wait ==> destroyer.silent
      ensures wait && !destroyer.thread.value.started ==>
        destroyer.exc == old(destroyer.exc) && raised == Some(RuntimeError(JoinUnstarted))
      ensures wait && destroyer.thread.value.started ==> destroyer.exc == None && raised == old(destroyer.exc)
    {
      raised := RunThread(wait, destroyer);
    }

    /** Creates the task's thread handle when it has none (without starting
        it) and, when waiting, marks the task silent and joins the handle.
        Joining a handle that was never started raises `RuntimeError`; a
        started one is taken to have finished, and its captured error is
        taken out of the task and raised. */
    method RunThread(wait: bool, task: ThreadTask) returns (raised: Option<Exception>)
      modifies task
      ensures task.thread == if old(task.thread).None? then Some(Thread(task.target, false)) else old(task.thread)
      ensures !wait ==> task.silent == old(task.silent) && task.exc == old(task.exc) && raised == None
      ensures wait ==> task.silent
      ensures wait && !task.thread.value.started ==>
        task.exc == old(task.exc) && raised == Some(RuntimeError(JoinUnstarted))
      ensures wait && task.thread.value.started ==> task.exc == None && raised == old(task.exc)
    {
      if task.thread.None? {
        task.thread := Some(Thread(task.target, false));
      }
      raised := None;
      if wait {
        task.silent := true;
        if !task.thread.value.started {
          raised := Some(RuntimeError(JoinUnstarted));
          return;
        }
        var exc := task.exc;
        task.exc := None;
        if exc.Some? {
          raised := exc;
        }
      }
    }

    /** The background spawn body. `outcome` is the result of asking the
        autoscaler to create or update the cluster and then re-reading the
        configuration file: the reloaded document, or the exception raised. */
    method SpawnBody(outcome: Result<Document>)
      requires Valid()
      modifies this`ready, this`config, this`spawnExc, this`diagnostics
      ensures Valid() && destroyExc == old(destroyExc)
      ensures outcome.Ok? ==>
        ready && config == Some(outcome.value) && spawnExc == old(spawnExc) && diagnostics == old(diagnostics)
      ensures outcome.Err? ==>
        && ready == old(ready) && config == old(config)
        && spawnExc == Some(CannotSpawnCluster("Cannot spawn cluster", Some(outcome.error)))
        && diagnostics == old(diagnostics) + (if spawner.silent then [] else [SpawnTarget])
    {
      match outcome
      case Ok(reloaded) =>
        config := Some(reloaded);
        ready := true;
      case Err(ex) =>
        spawnExc := Some(CannotSpawnCluster("Cannot spawn cluster", Some(ex)));
        if !spawner.silent {
          diagnostics := diagnostics + [SpawnTarget];
        }
    }

    /** The background destroy body. `failure` is the exception the
        autoscaler's teardown raised, if any. */
    method DestroyBody(failure: Option<Exception>)
      requires Valid()
      modifies this`ready, this`config, this`destroyExc, this`diagnostics
      ensures Valid() && spawnExc == old(spawnExc)
      ensures failure.None? ==>
        !ready && config == None && destroyExc == old(destroyExc) && diagnostics == old(diagnostics)
      ensures failure.Some? ==>
        && ready == old(ready) && config == old(config)
        && destroyExc == Some(CannotDestroyCluster("Cannot destroy cluster", failure))
        && diagnostics == old(diagnostics) + (if destroyer.silent then [] else [DestroyTarget])
    {
      if failure.None? {
        ready := false;
        config := None;
      } else {
        destroyExc := Some(CannotDestroyCluster("Cannot destroy cluster", failure));
        if !destroyer.silent {
          diagnostics := diagnostics + [DestroyTarget];
        }
      }
    }

    /** How to connect to the head node. A cluster that is not ready fails
        the source's assertion. `headNodeIp` is what the autoscaler answers
        when asked for the head node address. Lookups happen in the
        source's order: user name, key file, address. */
    function GetConnectionDetails(headNodeIp: Result<string>): (r: Result<ConnectionDetails>)
      reads this
      requires Valid()
      ensures !ready ==> r == Err(AssertionError(NotReady))
      ensures r.Ok? <==>
        ready && "ssh_user" in config.value.auth && "ssh_private_key" in config.value.auth && headNodeIp.Ok?
      ensures r.Ok? ==>
        && r.value.userName == config.value.auth["ssh_user"]
        && r.value.keyFile == config.value.auth["ssh_private_key"]
        && r.value.address == Str(headNodeIp.value)
        && r.value.port == 22
      ensures ready && "ssh_user" !in config.value.auth ==> r == Err(KeyError("ssh_user"))
      ensures ready && "ssh_user" in config.value.auth && "ssh_private_key" !in config.value.auth ==>
        r == Err(KeyError("ssh_private_key"))
      ensures ready && "ssh_user" in config.value.auth && "ssh_private_key" in config.value.auth && headNodeIp.Err? ==>
        r == Err(headNodeIp.error)
    {
      if !ready then Err(AssertionError(NotReady))
      else
        var auth := config.value.auth;
        if "ssh_user" !in auth then Err(KeyError("ssh_user"))
        else if "ssh_private_key" !in auth then Err(KeyError("ssh_private_key"))
        else if headNodeIp.Err? then Err(headNodeIp.error)
        else Ok(ConnectionDetails(
          userName := auth["ssh_user"],
          keyFile := auth["ssh_private_key"],
          address := Str(headNodeIp.value)))
    }

    /** The interpreter of the environment every remote job runs in: a fixed
        path, read from no state of the cluster. */
    function MainPython(): string
    {
      "~/miniconda/envs/modin/bin/python"
    }
  }

  /** The environment after construction: the credentials file is exported
      under the provider's variable when a file is given and the provider
      is known; otherwise the environment is unchanged. */
  function ExportCredentials(env: map<string, string>, p: Provider): (env': map<string, string>)
    ensures p.credentialsFile.None? || p.name !in CredentialsEnv ==> env' == env
    ensures p.credentialsFile.Some? && p.name in CredentialsEnv ==>
      env'.Keys == env.Keys + {CredentialsEnv[p.name]} && env'[CredentialsEnv[p.name]] == p.credentialsFile.value
    ensures p.credentialsFile.Some? && p.name in CredentialsEnv ==>
      forall k | k in env && k != CredentialsEnv[p.name] :: env'[k] == env[k]
  {
    if p.credentialsFile.Some? && p.name in CredentialsEnv
    then env[CredentialsEnv[p.name] := p.credentialsFile.value]
    else env
  }

  /** A ready cluster whose document is still the one the builder wrote
      connects as the "modin" user, with the template's private key, on
      port 22. */
  lemma ConnectsAsModin(c: RayCluster, template: Document, proxy: Option<string>, key: string, ip: string)
    requires c.Valid() && c.ready
    requires c.config == Some(Configured(template, c.spec, proxy, key))
    requires "ssh_private_key" in template.auth
    ensures c.GetConnectionDetails(Ok(ip))
            == Ok(ConnectionDetails(Str("modin"), template.auth["ssh_private_key"], Str(ip), 22))
  {
    ConfiguredAuth(template, c.spec, proxy, key);
    assert Lookup(c.config.value.auth, "ssh_user") == Some(Str("modin"));
    assert Lookup(c.config.value.auth, "ssh_private_key") == Lookup(template.auth, "ssh_private_key");
  }
}

# Modin cloud clusters: the Ray-autoscaler spawner

This project models the cloud-cluster layer of Modin's experimental
`modin.experimental.cloud` package in Dafny:

- the exception family (`ClusterError`, `CannotSpawnCluster`,
  `CannotDestroyCluster`) and the `ConnectionDetails` record;
- the `cluster(...)` factory, which picks a spawner by name;
- `RayCluster`, the spawner built on the Ray autoscaler. It exports the
  provider's credentials file into the environment. It builds the
  autoscaler configuration from the packaged template. It saves that
  configuration under the shortest free prefix of its digest. It runs its
  spawn and destroy tasks through a small thread-task record. It answers
  connection queries.

Files:

- `cloud.dfy` (module `Cloud`): values, exceptions, the configuration
  `Document`, the cluster description and the `Host`. The `Host` bundles
  what a cluster reads from and writes to its process: the template, the
  environment, the configuration directory and the files that exist.
- `rayscale.dfy` (module `RayScale`): the provider tables, configuration
  building, the file-name search, `ThreadTask` and the `RayCluster` class.
- `factory.dfy` (module `CloudFactory`): the `cluster(...)` factory.

Behaviour worth knowing, as the code does it:

- No task thread is ever started: `__run_thread` creates a
  `threading.Thread` but never calls `start()`.
  - With `wait=False`, spawning or destroying only creates the handle.
  - With `wait=True`, Python's `join()` raises `RuntimeError` ("cannot join
    thread before it is started") before the captured error is read.
  - So neither call changes `ready` or the configuration.
  - `RunThread` still models the read-and-clear of the captured error, for
    a handle that was started.
- Saving the same configuration twice does not reuse the first path. Once
  the first file exists, the search moves on to a longer prefix of the same
  digest. The two paths are equal only when every prefix was already taken
  the first time (`ResaveMovesOn`). So the digest-based naming does not
  map the same content to the same file twice.
- The main interpreter of a cluster (`_get_main_python`) is the fixed path
  `~/miniconda/envs/modin/bin/python`; `RayCluster.MainPython` returns it
  and reads no cluster state.

## Model

| member | source | states |
|---|---|---|
| Cloud.CannotSpawnCluster | modin/experimental/cloud/__init__.py:21-29 | the error is a `CannotSpawnCluster`, not a `CannotDestroyCluster`, and keeps the message and cause it was given |
| Cloud.CannotDestroyCluster | modin/experimental/cloud/__init__.py:21-35 | the error is a `CannotDestroyCluster`, not a `CannotSpawnCluster`, and keeps the message and cause it was given |
| Cloud.ClusterErrorFamily | modin/experimental/cloud/__init__.py:16-35 | both subclasses are instances of `ClusterError`; the cause defaults to `None` |
| Cloud.ConnectionDetailsDefaults | modin/experimental/cloud/__init__.py:38-42 | the defaults are user "modin", no key file, no address, port 22 |
| Cloud.OptStr | modin/experimental/cloud/rayscale.py:116-117 | an optional node type becomes Python `None` exactly when absent, else the string |
| CloudFactory.SpawnerArguments | modin/experimental/cloud/__init__.py:45-56 | succeeds exactly for the "rayscale" spawner and then passes the arguments on in order; otherwise `ValueError("Unknown spawner: …")` |
| CloudFactory.SpawnerArgumentDefaults | modin/experimental/cloud/__init__.py:45-51 | with only a provider, the cluster is "modin-cluster" with four workers, no project and no node types |
| CloudFactory.Cluster | modin/experimental/cloud/__init__.py:45-56 | an unknown spawner fails and leaves the host untouched; for "rayscale" it is the constructor: the credentials variable is exported, it fails with `ValueError("Unsupported provider: …")` exactly when a table lookup fails and then writes no file, and otherwise returns a new, not-ready cluster built from the arguments, holding the built configuration saved under the chosen path, with empty tasks |
| RayScale.ProviderWrites | modin/experimental/cloud/rayscale.py:99-103 | the provider entries written: the type always; the region and zone exactly when set and non-empty; nothing else |
| RayScale.AuthWrites | modin/experimental/cloud/rayscale.py:106-109 | the auth entries written: user "modin" always; the proxy command exactly when a non-empty proxy is set; nothing else |
| RayScale.LookupOverlay | modin/experimental/cloud/rayscale.py:99-117 | a key in an updated section reads the written value, else the template's |
| RayScale.ConfiguredSize | modin/experimental/cloud/rayscale.py:95-98 | the cluster name is set; minimum, maximum and initial workers all equal the worker count; unknown top-level entries are kept |
| RayScale.ConfiguredProvider | modin/experimental/cloud/rayscale.py:99-103 | the provider type is the provider's name; region and zone are written only when set and otherwise keep the template's value; other entries are kept |
| RayScale.ConfiguredAuth | modin/experimental/cloud/rayscale.py:105-109 | the user is "modin"; the proxy command `nc -x <quoted proxy> %h %p` is written only for a non-empty proxy; other entries are kept |
| RayScale.ConfiguredNodes | modin/experimental/cloud/rayscale.py:111-117 | the head and worker node types are written under the provider's instance key; nothing else in those sections changes |
| RayScale.RayCluster.MakeConfig | modin/experimental/cloud/rayscale.py:90-119 | updating the template in place yields the declarative configuration; fails with `ValueError("Unsupported provider: …")` exactly when the provider has no instance key |
| RayScale.ConfigEntryFirstFree | modin/experimental/cloud/rayscale.py:126-131 | the chosen path uses the first prefix of length 4 or more that is free; if none is free it uses the full digest; if any prefix is free the path is new |
| RayScale.ResaveMovesOn | modin/experimental/cloud/rayscale.py:121-135 | once its file exists, saving the same digest again yields the same path only when every prefix was already taken |
| RayScale.RayCluster.SaveConfig | modin/experimental/cloud/rayscale.py:121-135 | the loop returns the path of the first free prefix, or the full digest when all are taken |
| RayScale.ExportCredentials | modin/experimental/cloud/rayscale.py:55-60 | with a credentials file and a known provider, the provider's variable is set to the file and no other variable changes; otherwise the environment is unchanged |
| RayScale.RayCluster.Create | modin/experimental/cloud/rayscale.py:48-63 | fails with `ValueError` exactly when the credentials lookup or the instance-key lookup fails, and no file is then written; otherwise a new, not-ready cluster holds the built configuration, saved under the chosen path, and its tasks start empty |
| RayScale.ThreadTask.constructor | modin/experimental/cloud/rayscale.py:33-38 | a task starts with no thread, no captured error and not silent |
| RayScale.RayCluster.constructor | modin/experimental/cloud/rayscale.py:48-53 | two distinct fresh tasks for the spawn and destroy bodies; the cluster is not ready |
| RayScale.RayCluster.RunThread | modin/experimental/cloud/rayscale.py:79-88 | the handle is created once and never started; waiting marks the task silent, and joining an unstarted handle raises `RuntimeError` and leaves the captured error; a started handle hands over and clears its error |
| RayScale.RayCluster.Spawn | modin/experimental/cloud/rayscale.py:65-71 | runs the spawn task as above, waiting by default; the cluster and the destroy task do not change |
| RayScale.RayCluster.Destroy | modin/experimental/cloud/rayscale.py:73-77 | runs the destroy task as above, waiting by default; the cluster and the spawn task do not change |
| RayScale.RayCluster.SpawnBody | modin/experimental/cloud/rayscale.py:137-155 | on success the reloaded configuration is kept and the cluster is ready; on failure a `CannotSpawnCluster` with the failure as cause is recorded, a trace is written only when the task is not silent, and nothing else changes |
| RayScale.RayCluster.DestroyBody | modin/experimental/cloud/rayscale.py:157-171 | on success the cluster is not ready and has no configuration; on failure a `CannotDestroyCluster` with the failure as cause is recorded, a trace is written only when the task is not silent, and nothing else changes |
| RayScale.RayCluster.GetConnectionDetails | modin/experimental/cloud/rayscale.py:173-182 | fails the assertion when the cluster is not ready; otherwise succeeds exactly when the user and private-key entries exist and the head node address is known, returning them with port 22; a missing entry raises `KeyError`, checked in source order |
| RayScale.ConnectsAsModin | modin/experimental/cloud/rayscale.py:105-109 | a ready cluster whose configuration is the built one connects as "modin" with the template's private key |

## Left out

- Threads: the model keeps only a handle token (target, started). `start()` is never called in this code, so no thread runs. Concurrency between the bodies and callers is not modelled.
- RayScale.RayCluster.RunThread: for a started handle, the wait for the thread to finish is not modelled. The error is read as it stands.
- RayScale.RayCluster.Spawn: weaker than "a failed spawn clears its captured error", because `join()` raises first on the handle the code creates. The same holds for `Destroy`.
- The Ray autoscaler calls (`create_or_update_cluster`, `teardown_cluster`, `get_head_node_ip`) are not modelled. Their outcomes are parameters of `SpawnBody`, `DestroyBody` and `GetConnectionDetails`.
- Reading the template, YAML parsing and dumping, writing the configuration file, and reloading it after a spawn are not modelled. The template is part of the `Host`, a reloaded document is a parameter, and a saved file only adds its path to `Host.files`.
- `os.makedirs`, `expanduser` and `abspath` of the configuration directory are not modelled. The directory is given as a `Host` field.
- `sha1(repr(config))` is not modelled. The digest is a parameter, a function from documents to strings.
- `os.environ` is the `Host.env` map, passed in and returned. It is not shared process state.
- Tracebacks written to the error stream are reduced to the ghost `diagnostics` sequence, which records which body wrote one.
- Document layout: the configuration has fields for the entries the builder writes and the sections it updates. Every other top-level entry is in `others`. A template or reloaded document lacking one of those sections (a `KeyError`/`TypeError` in the code) is not represented.
- `Provider.AWS` is taken to be the name "aws". `modin/experimental/cloud/cluster.py` is not part of this model, and neither is the `Cluster` base class's constructor (including the extra `self` that `RayCluster.__init__` passes to it).
- `shlex.quote` is modelled after Python's definition on `str`. Its ASCII-only safe set is written out.
- Python `BaseException` causes (interruptions included) are all the `Foreign` exception kind.

# Zero-downtime docker deployment, modelled in Dafny

This project models `docker_deploy.py`, a script that swaps the application
container on one docker host behind an nginx reverse proxy (the
jwilder/nginx-proxy pattern). In order, the script:

1. lists the running containers, and exits with code 2 when the daemon cannot be reached;
2. takes a snapshot of the old application containers' ids, joined by `", "`;
3. ensures the proxy container is running;
4. pulls, creates and starts the new application container;
5. counts down;
6. sends one HTTP GET to the new container and exits with code 1 on a non-200 status;
7. only then stops the old containers.

The docker daemon, the HTTP endpoint and the clock are an environment of
answers (`DockerDeploy.Env`):

- `listings(k)` answers the k-th `containers()` query of the run. Each query is a fresh one, as in the script.
- `assignedIds(k)` is the id of the k-th created container.
- `addresses` gives the IP address of a container.
- `dockerEnv` holds the lines of `/etc/docker_env`.
- `response` is the health-check response: a status code, or an exception.
- `failingStops` is the set of ids whose stop call raises.

Every call the script makes becomes an `Action` in a trace: listing, pull,
create, start, inspect, a countdown tick, the GET, and stop.

Files:

- `wrappers.dfy`: the `Option` type. It models the function that returns `None`.
- `text.dfy` (module `Text`): the Python string operations the script uses.
  These are `in`, `endswith`, `join`, and `split` with an explicit separator.
  `Find`, the leftmost-occurrence search, is the helper `Split` is defined by.
  The module also proves the split/join round trip.
- `deploy.dfy` (module `DockerDeploy`): the pure side of the script.
  - the configuration, the constants and the environment;
  - the image references and the health-check URL;
  - the old-id filter and snapshot;
  - the stop-loop plan and the countdown ticks;
  - `Run`, the reference definition of the whole `__main__` sequence on a fresh client.
- `properties.dfy` (module `DeployProperties`): what a run promises, proved about `Run`.
  This covers the exit codes, the health gate and the proxy decision. It also proves that every stop call names a captured old application id, or is the single call on `""` made for an empty snapshot.
- `workflow.dfy` (module `Workflow`): the script as it runs.
  - The module-level docker client `c` becomes a `Host` object. It answers from the environment and appends every call to its `log`.
  - Each function of the script is a method over `Host`.
  - `Deploy` is the `__main__` block. It is proved to extend the log by exactly `Run`'s trace and to end as `Run` says.

## Model

| member | source | states |
|---|---|---|
| `Text.Split` | docker_deploy.py:136 | `str.split(", ")` always returns at least one piece. Joining the pieces with the separator gives the string back. No piece contains the separator. |
| `Text.SplitJoin` | docker_deploy.py:136 | Split/join round trip. Take a non-empty list whose items do not contain a two-character separator of distinct characters such as `", "`. Splitting its join gives back exactly that list. |
| `Text.SplitEmpty` | docker_deploy.py:136 | The empty snapshot splits to `[""]`, not to `[]`. |
| `DockerDeploy.AppIds` | docker_deploy.py:47-48 | Every id returned belongs to a listed container whose `Command` ends with `my_init`. Every such container's id is returned. There are no more ids than containers. |
| `DeployProperties.AppIdsConcat` | docker_deploy.py:48 | The filter keeps listing order: filtering `a + b` is filtering `a` followed by filtering `b`. |
| `DockerDeploy.OldAppContainerId` | docker_deploy.py:44-53 | The snapshot is `None` exactly when the query raises. The error is swallowed and the script does not exit. With no application container, the snapshot is `""`. |
| `DeployProperties.SnapshotRoundTrip` | docker_deploy.py:47-48 | Assume no id contains `", "`. Splitting the snapshot at stop time gives exactly the captured ids, in listing order. With no captured id, it gives `[""]`. |
| `DeployProperties.LaunchedContainersClassified` | docker_deploy.py:96-98 | The new app container runs `/sbin/my_init`, so a later run's filter classifies it as an application container. The proxy's `forego start -r` is never classified that way, and it carries the proxy marker. |
| `DockerDeploy.StopAttempts` | docker_deploy.py:135-139 | The ids `stop` is called on form a prefix of the pieces. Every attempt before the last one succeeded. If the attempts end early, the last one failed. |
| `DockerDeploy.Stopped` | docker_deploy.py:135-139 | The containers actually stopped are the longest prefix of the pieces in which no stop fails. |
| `DeployProperties.AttemptsAreStoppedThenFailure` | docker_deploy.py:135-139 | The calls issued are the stopped prefix, followed by the first failing piece if there is one. |
| `DockerDeploy.StopLog` | docker_deploy.py:133-139 | A `None` snapshot issues no stop at all, because the failed split is swallowed. A string snapshot issues between one call and one call per piece. |
| `Workflow.StopOldContainer` | docker_deploy.py:133-139 | The loop issues exactly the stop calls of `StopLog`, with a 10-second timeout each, in order. It stops at the first failure without raising. |
| `DockerDeploy.CountdownLog` | docker_deploy.py:142-146 | `countdown(n)` emits `n + 1` ticks with values `n, n-1, ..., 0`. For a negative `n` it emits none. |
| `Workflow.Countdown` | docker_deploy.py:142-146 | The while loop appends exactly `CountdownLog(n)` to the log. It ends with the counter at -1, or at `n` when `n` is negative. |
| `DockerDeploy.HealthUrl` | docker_deploy.py:117-120 | The URL always starts with `http://{ip}`. For `shop_backend` it continues with exactly `//admin/` (a double slash). For any other application it is exactly `http://{ip}`. |
| `Workflow.PostDeployCheck` | docker_deploy.py:115-130 | The check makes one GET on `HealthUrl`. The run continues exactly on status 200. Any other status gives `sys.exit(1)`, and a raising request gives an uncaught exception. |
| `DeployProperties.ImagesDistinct` | docker_deploy.py:61-97 | The app image is `{REGISTRY}/{APP_NAME}:{GIT_COMMIT_ID}` and the proxy image is `{REGISTRY}/nginx-{APP_NAME}:{GIT_COMMIT_ID}`. The two are never equal. |
| `Workflow.RunningContainers` | docker_deploy.py:33-41 | Makes one listing. It reports "unreachable", which leads to exit code 2, exactly when the query raises. |
| `Workflow.QueryOldAppContainerId` | docker_deploy.py:44-53 | Makes one listing and returns the `OldAppContainerId` of its answer. |
| `Workflow.StartNginxContainer` | docker_deploy.py:56-83 | Makes one listing. If the listing raises, the exception propagates. If the marker shows, nothing more happens. Otherwise it does exactly one pull, create, start and inspect of the proxy image: port 80 bound on `0.0.0.0`, the daemon socket mounted read-write. |
| `Workflow.StartNewAppContainer` | docker_deploy.py:86-112 | Pulls and creates the app image with `/sbin/my_init`, the log volume, port 80 and the `/etc/docker_env` lines. Then starts it with the log volume bound read-write, and returns the address the daemon reports. |
| `Workflow.Host.Containers` | docker_deploy.py:36 | Each `containers()` call is a fresh query, answered by the next listing of the environment. |
| `Workflow.Host.Stop` | docker_deploy.py:136 | A stop call is always issued. It raises exactly for the ids in `failingStops`. |
| `Workflow.Deploy` | docker_deploy.py:148-156 | `__main__` on a fresh client extends the log by exactly `Run`'s trace and terminates as `Run` says. |
| `DeployProperties.ExitCodes` | docker_deploy.py:148-156 | Exit 2 happens exactly when the first listing fails, and then only that listing is issued: no pull. Exit 1 happens exactly on a non-200 status, exit 0 exactly on 200. An uncaught exception happens exactly when the proxy step's listing or the GET raises. |
| `DeployProperties.HealthGate` | docker_deploy.py:124-130 | A run that issues any stop call got status 200 and completes with exit 0. Every other run leaves the old containers running. |
| `DeployProperties.HealthyRunStopsAfterCheck` | docker_deploy.py:149-156 | With status 200, the trace is the lists, proxy, app and countdown steps, with no stop and no GET among them. Then comes the single GET, then exactly the snapshot's stop calls. The exit is 0. |
| `DeployProperties.StopsOnlyOldAppContainers` | docker_deploy.py:151-156 | Assume no captured id contains `", "`. Every stop call in a run has the 10-second timeout and names an id from the snapshot. The one exception is the single call on `""` made for an empty snapshot. When the snapshot query raised, no stop is issued. |
| `DeployProperties.HealthyRunStopsEveryOldApp` | docker_deploy.py:136 | Assume status 200, a non-empty snapshot and no failing stop. Then the run ends with one 10-second stop per captured old app container, in listing order, and issues no stop before them. |
| `DeployProperties.ProxySkippedWhenRunning` | docker_deploy.py:58-59 | With the marker present, the three listings are followed directly by the new app's pull, create, start and inspect. The proxy image is never pulled. |
| `DeployProperties.ProxyLaunchedWhenAbsent` | docker_deploy.py:60-80 | With the marker absent, the run does exactly one pull, create, start and inspect of the proxy, right after the three listings and before the new app. No other action pulls the proxy image. |

## Left out

- Configuration loading (`os.environ[...]` and `int(...)` at import time, lines 21-23) is left out: `Config` holds the three values already read, and `COUNTDOWN` is an `int` because `int()` accepts negatives.
- `pre_deploy_check` (lines 27-30) only prints; it issues no call and has no model.
- Failures of `pull`, `create_container`, `start`, `inspect_container` and of reading `/etc/docker_env` are not modelled. In the script they propagate uncaught; in the model these calls always succeed.
- The streamed pull progress and its JSON pretty-printing, all standard output and standard error text, and the docker client's socket connection and 30-second timeout are not modelled.
- Python's `str()` rendering of the container list is an opaque input (`Listing.rendering`). The `'forego'` test is a substring test over it.
- The `Command` a listed container reports is taken to be its arguments joined by spaces (`CommandLine`). Only `Id` and `Command` of a listed container are modelled.
- The uncaught exceptions (the proxy step's listing raising, `requests.get` raising) end the run as `Raised`, not through `sys.exit(1)`. CPython turns this into a traceback and exit status 1.
- The IP address read back from the proxy's `inspect_container` is logged as an `Inspect` action but is otherwise unused, as in the script.
- `Workflow.Countdown`: ticks only. The one-second `time.sleep` per tick, and so the "blocks at least N seconds" timing, is not modelled.
- `Workflow.Deploy`: requires a client on which no call has been made yet. This is the module-level client at the start of `__main__`.
- The model follows the script's own behaviour in three corner cases:
  - a negative countdown emits nothing;
  - the stop calls end at the first failing one;
  - an empty snapshot gives one stop call on `""`.

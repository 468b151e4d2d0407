/**
 * The deployment script as it runs: the module-level docker client becomes a
 * `Host` object that answers from an environment and logs every call, and
 * each step of the script is a method over it. `Deploy` is the `__main__`
 * sequence, proved to produce exactly the trace and ending of `Run`.
 */
module Workflow {
  import opened Wrappers
  import opened Text
  import opened DockerDeploy
  import DeployProperties

  /**
   * The outside world as the script reaches it: the docker client `c` (one
   * connection to the daemon), the HTTP client and the clock. Answers come
   * from `env`; every call is appended to `log`. `listCalls` and
   * `createCalls` count the `containers()` and `create_container` calls so far.
   */
  class Host {
    const env: Env
    var log: seq<Action>
    var listCalls: nat
    var createCalls: nat

    constructor (env: Env)
      ensures this.env == env && log == [] && listCalls == 0 && createCalls == 0
    {
      this.env := env;
      log := [];
      listCalls := 0;
      createCalls := 0;
    }

    /** `c.containers()`: a fresh query of the running containers. */
    method Containers() returns (r: Listing)
      modifies this`log, this`listCalls
      ensures r == env.listings(old(listCalls)) && listCalls == old(listCalls) + 1
      ensures log == old(log) + [ListContainers]
    {
      r := env.listings(listCalls);
      listCalls := listCalls + 1;
      log := log + [ListContainers];
    }

    /** `c.pull(image, stream=True)`, consumed to the end. */
    method Pull(image: string)
      modifies this`log
      ensures log == old(log) + [Action.Pull(image)]
    {
      log := log + [Action.Pull(image)];
    }

    /** `c.create_container(...)`: the daemon assigns the next id. */
    method CreateContainer(image: string, command: seq<string>, volumes: seq<string>,
                           ports: seq<nat>, environment: seq<string>) returns (id: string)
      modifies this`log, this`createCalls
      ensures id == env.assignedIds(old(createCalls)) && createCalls == old(createCalls) + 1
      ensures log == old(log) + [Create(image, command, volumes, ports, environment)]
    {
      id := env.assignedIds(createCalls);
      createCalls := createCalls + 1;
      log := log + [Create(image, command, volumes, ports, environment)];
    }

    /** `c.start(id, port_bindings=..., binds=...)`. */
    method Start(id: string, portBindings: seq<PortBinding>, binds: seq<Bind>)
      modifies this`log
      ensures log == old(log) + [Action.Start(id, portBindings, binds)]
    {
      log := log + [Action.Start(id, portBindings, binds)];
    }

    /** `c.inspect_container(id)['NetworkSettings']['IPAddress']`. */
    method InspectContainer(id: string) returns (ip: string)
      modifies this`log
      ensures ip == env.addresses(id)
      ensures log == old(log) + [Inspect(id)]
    {
      ip := env.addresses(id);
      log := log + [Inspect(id)];
    }

    /** `c.stop(id, timeout=...)`: the call is made; `ok` is false when it raises. */
    method Stop(id: string, timeout: nat) returns (ok: bool)
      modifies this`log
      ensures ok <==> id !in env.failingStops
      ensures log == old(log) + [Action.Stop(id, timeout)]
    {
      ok := id !in env.failingStops;
      log := log + [Action.Stop(id, timeout)];
    }

    /** `requests.get(url)`. */
    method Get(url: string) returns (r: Response)
      modifies this`log
      ensures r == env.response
      ensures log == old(log) + [Action.Get(url)]
    {
      r := env.response;
      log := log + [Action.Get(url)];
    }

    /** One countdown line, then `time.sleep(1)`. */
    method Tick(remaining: int)
      modifies this`log
      ensures log == old(log) + [Action.Tick(remaining)]
    {
      log := log + [Action.Tick(remaining)];
    }
  }

  /** `running_containers()`: one listing; `false` means the script exits with code 2. */
  method RunningContainers(c: Host) returns (reachable: bool)
    modifies c`log, c`listCalls
    ensures reachable <==> c.env.listings(old(c.listCalls)).Listed?
    ensures c.listCalls == old(c.listCalls) + 1
    ensures c.log == old(c.log) + [ListContainers]
  {
    var listing := c.Containers();
    reachable := listing.Listed?;
  }

  /** `old_app_container_id()`: one listing, turned into the snapshot (`None` if it raised). */
  method QueryOldAppContainerId(c: Host) returns (snapshot: Option<string>)
    modifies c`log, c`listCalls
    ensures snapshot == OldAppContainerId(c.env.listings(old(c.listCalls)))
    ensures c.listCalls == old(c.listCalls) + 1
    ensures c.log == old(c.log) + [ListContainers]
  {
    var listing := c.Containers();
    snapshot := OldAppContainerId(listing);
  }

  /**
   * `start_nginx_container()`: one listing; if it shows the proxy marker,
   * nothing more; otherwise pull, create, start and inspect the proxy.
   * `raised` is true when the listing raised (the exception is not caught).
   */
  method StartNginxContainer(c: Host, cfg: Config) returns (raised: bool)
    modifies c`log, c`listCalls, c`createCalls
    ensures c.listCalls == old(c.listCalls) + 1
    ensures var listing := c.env.listings(old(c.listCalls));
            raised <==> listing.Unreachable?
    ensures var listing := c.env.listings(old(c.listCalls));
            listing.Unreachable? ==> c.log == old(c.log) + [ListContainers]
    ensures var listing := c.env.listings(old(c.listCalls));
            listing.Listed? ==>
              c.log == old(c.log) + [ListContainers]
                       + ProxyStep(cfg, listing.rendering, c.env.assignedIds(old(c.createCalls)))
              && c.createCalls == old(c.createCalls) + (if ProxyRunning(listing.rendering) then 0 else 1)
  {
    var listing := c.Containers();
    if listing.Unreachable? {
      return true;
    }
    raised := false;
    if ProxyRunning(listing.rendering) {
      return;
    }
    var image := ProxyImage(cfg);
    c.Pull(image);
    var id := c.CreateContainer(image, PROXY_COMMAND, [PROXY_SOCKET], [HTTP_PORT], []);
    c.Start(id, [PortBinding(HTTP_PORT, "0.0.0.0", HTTP_PORT)], [Bind(DOCKER_SOCKET, PROXY_SOCKET, false)]);
    var ip := c.InspectContainer(id);
  }

  /**
   * `start_new_app_container()`: pull the app image, create it running
   * `/sbin/my_init` with the host's environment lines, start it and return
   * the address the daemon reports for it.
   */
  method StartNewAppContainer(c: Host, cfg: Config) returns (ip: string)
    modifies c`log, c`createCalls
    ensures ip == c.env.addresses(c.env.assignedIds(old(c.createCalls)))
    ensures c.createCalls == old(c.createCalls) + 1
    ensures c.log == old(c.log) + AppActions(cfg, c.env.dockerEnv, c.env.assignedIds(old(c.createCalls)))
  {
    var image := AppImage(cfg);
    c.Pull(image);
    var id := c.CreateContainer(image, APP_COMMAND, [LOG_VOLUME], [HTTP_PORT], c.env.dockerEnv);
    c.Start(id, [], [Bind(LOG_VOLUME, LOG_VOLUME, false)]);
    ip := c.InspectContainer(id);
  }

  /** `countdown(seconds)`: one tick per value from `seconds` down to 0; ends with the counter at -1. */
  method Countdown(c: Host, seconds: int) returns (count: int)
    modifies c`log
    ensures c.log == old(c.log) + CountdownLog(seconds)
    ensures count == if seconds >= 0 then -1 else seconds
  {
    count := seconds;
    while count >= 0
      invariant if seconds >= 0 then -1 <= count <= seconds else count == seconds
      invariant c.log + CountdownLog(count) == old(c.log) + CountdownLog(seconds)
      decreases count + 1
    {
      c.Tick(count);
      count := count - 1;
    }
  }

  /**
   * `post_deploy_check(ip)`: one GET on the health URL. `None` lets the run
   * go on (status 200); otherwise how the process ends: `sys.exit(1)` on any
   * other status, an uncaught exception when the request raises.
   */
  method PostDeployCheck(c: Host, cfg: Config, ip: string) returns (halt: Option<Termination>)
    modifies c`log
    ensures c.log == old(c.log) + [Action.Get(HealthUrl(cfg.appName, ip))]
    ensures halt.None? <==> c.env.response == Status(200)
    ensures c.env.response.ConnectionFailed? ==> halt == Some(Raised)
    ensures c.env.response.Status? && c.env.response.code != 200 ==> halt == Some(Exit(1))
  {
    var response := c.Get(HealthUrl(cfg.appName, ip));
    match response
    case ConnectionFailed =>
      halt := Some(Raised);
    case Status(code) =>
      halt := if code == 200 then None else Some(Exit(1));
  }

  /**
   * `stop_old_container(snapshot)`: split the snapshot on `", "` and stop each
   * piece in order; the first failing stop ends the loop and is swallowed.
   * A `None` snapshot cannot be split, which is swallowed too.
   */
  method StopOldContainer(c: Host, snapshot: Option<string>)
    modifies c`log
    ensures c.log == old(c.log) + StopLog(snapshot, c.env.failingStops)
  {
    if snapshot.None? {
      return;
    }
    var pieces := Split(snapshot.value, ID_SEPARATOR);
    ghost var before := c.log;
    var i := 0;
    while i < |pieces|
      invariant 0 <= i <= |pieces|
      invariant forall k :: 0 <= k < i ==> pieces[k] !in c.env.failingStops
      invariant c.log == before + StopActions(pieces[..i])
    {
      var ok := c.Stop(pieces[i], STOP_TIMEOUT);
      StopActionsSnoc(pieces, i);
      AppendAssoc(before, StopActions(pieces[..i]), [Action.Stop(pieces[i], STOP_TIMEOUT)]);
      if !ok {
        StopAttemptsEnd(pieces, c.env.failingStops, i);
        return;
      }
      i := i + 1;
    }
    StopAttemptsEnd(pieces, c.env.failingStops, i);
    assert pieces[..i] == pieces;
  }

  /**
   * The `__main__` sequence on a freshly connected client: its log is
   * extended by exactly the trace of `Run`, and it ends as `Run` says.
   */
  method Deploy(c: Host, cfg: Config) returns (t: Termination)
    requires c.listCalls == 0 && c.createCalls == 0
    modifies c
    ensures c.log == old(c.log) + Run(cfg, c.env).trace
    ensures t == Run(cfg, c.env).termination
  {
    ghost var start := c.log;
    ghost var env := c.env;
    DeployProperties.RunCases(cfg, env);
    var reachable := RunningContainers(c);
    if !reachable {
      assert c.log == start + Run(cfg, env).trace;
      return Exit(2);
    }
    var snapshot := QueryOldAppContainerId(c);
    assert snapshot == OldAppContainerId(env.listings(1));
    var raised := StartNginxContainer(c, cfg);
    if raised {
      assert c.log == start + Run(cfg, env).trace;
      return Raised;
    }
    ghost var rendering := env.listings(2).rendering;
    ghost var appId := NewAppId(env, rendering);
    ghost var done := [ListContainers, ListContainers, ListContainers]
                      + ProxyStep(cfg, rendering, env.assignedIds(0));
    assert c.log == start + done;
    var ip := StartNewAppContainer(c, cfg);
    AppendAssoc(start, done, AppActions(cfg, env.dockerEnv, appId));
    done := done + AppActions(cfg, env.dockerEnv, appId);
    var _ := Countdown(c, cfg.countdown);
    AppendAssoc(start, done, CountdownLog(cfg.countdown));
    done := done + CountdownLog(cfg.countdown);
    var halt := PostDeployCheck(c, cfg, ip);
    AppendAssoc(start, done, [Get(HealthUrl(cfg.appName, ip))]);
    done := done + [Get(HealthUrl(cfg.appName, ip))];
    assert done == Checked(cfg, env, rendering);
    if halt.Some? {
      assert Run(cfg, env) == Outcome(done, halt.value);
      return halt.value;
    }
    ghost var stops := StopLog(snapshot, env.failingStops);
    assert Run(cfg, env).trace == done + stops;
    StopOldContainer(c, snapshot);
    AppendAssoc(start, done, stops);
    t := Exit(0);
  }

  lemma AppendAssoc<T>(a: seq<T>, b: seq<T>, c: seq<T>)
    ensures (a + b) + c == a + (b + c)
  {
  }
}

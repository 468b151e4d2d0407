/**
 * The decision logic of the zero-downtime deployment script, as values and
 * functions: configuration, the container runtime seen as an environment of
 * answers, the abstract actions the script issues, and `Run`, the reference
 * definition of the whole `__main__` sequence (trace of actions plus how the
 * process ends). The imperative rendering lives in module Workflow.
 */
module DockerDeploy {
  import opened Wrappers
  import opened Text

  /* ---------------- Configuration and constants ---------------- */

  /** APP_NAME, GIT_COMMIT_ID and COUNTDOWN, already read from the process environment. */
  datatype Config = Config(appName: string, gitCommitId: string, countdown: int)

  const REGISTRY: string := "registry.devops101.com"
  /** The init process that marks an application container (`Command` ends with it). */
  const APP_INIT: string := "my_init"
  /** The substring of the rendered container list that marks a running proxy. */
  const PROXY_MARKER: string := "forego"
  /** Separator of the old-container snapshot. */
  const ID_SEPARATOR: string := ", "
  /** Grace period, in seconds, of every stop call. */
  const STOP_TIMEOUT: nat := 10
  /** The one application whose health check goes to the admin page. */
  const ADMIN_CHECKED_APP: string := "shop_backend"

  const PROXY_COMMAND: seq<string> := ["forego", "start", "-r"]
  const APP_COMMAND: seq<string> := ["/sbin/my_init"]
  const DOCKER_SOCKET: string := "/var/run/docker.sock"
  const PROXY_SOCKET: string := "/tmp/docker.sock"
  const LOG_VOLUME: string := "/var/log/wsgi"
  const HTTP_PORT: nat := 80

  /* ---------------- The runtime, seen from the script ---------------- */

  /** A running container as `containers()` lists it: its id and its command line. */
  datatype Container = Container(id: string, command: string)

  /**
   * The answer to one `containers()` query: the list together with its
   * Python `str()` rendering (an opaque input), or an exception because the
   * daemon cannot be reached.
   */
  datatype Listing = Listed(containers: seq<Container>, rendering: string) | Unreachable

  /** What `requests.get` gives back: a status code, or an exception. */
  datatype Response = Status(code: int) | ConnectionFailed

  datatype PortBinding = PortBinding(containerPort: nat, hostIp: string, hostPort: nat)
  datatype Bind = Bind(hostPath: string, containerPath: string, readOnly: bool)

  /** One externally visible step of the script. */
  datatype Action =
    | ListContainers
    | Pull(image: string)
    | Create(image: string, command: seq<string>, volumes: seq<string>, ports: seq<nat>, environment: seq<string>)
    | Start(id: string, portBindings: seq<PortBinding>, binds: seq<Bind>)
    | Inspect(id: string)
    | Tick(remaining: int)       // one countdown line followed by a one-second sleep
    | Get(url: string)
    | Stop(id: string, timeout: nat)

  /** How the process ends: `sys.exit(code)`, normal completion (0), or an uncaught exception. */
  datatype Termination = Exit(code: nat) | Raised

  /**
   * Everything the script learns from outside. Each `containers()` call is a
   * fresh query, so `listings(k)` answers the k-th call of the run, counted
   * from 0. `assignedIds(k)` is the id the daemon gives the k-th container
   * created, `addresses` the IP address `inspect_container` reports, and
   * `dockerEnv` the lines of /etc/docker_env.
   */
  datatype Env = Env(
    listings: nat -> Listing,
    assignedIds: nat -> string,
    addresses: string -> string,
    dockerEnv: seq<string>,
    response: Response,
    failingStops: set<string>)

  /** The trace of a run and the way it ended. */
  datatype Outcome = Outcome(trace: seq<Action>, termination: Termination)

  /* ---------------- Strings the script composes ---------------- */

  /** `'{0}/{1}:{2}'.format(registry, repository, tag)`. */
  function ImageRef(registry: string, repository: string, tag: string): string
  {
    registry + "/" + repository + ":" + tag
  }

  /** The application image, `{REGISTRY}/{APP_NAME}:{GIT_COMMIT_ID}`. */
  function AppImage(cfg: Config): string
  {
    ImageRef(REGISTRY, cfg.appName, cfg.gitCommitId)
  }

  /** The proxy image, `{REGISTRY}/nginx-{APP_NAME}:{GIT_COMMIT_ID}`. */
  function ProxyImage(cfg: Config): string
  {
    ImageRef(REGISTRY, "nginx-" + cfg.appName, cfg.gitCommitId)
  }

  /**
   * The URL of the post-deploy check: the admin page (reached through a double
   * slash) for the one reserved application, the root of the container otherwise.
   */
  function HealthUrl(appName: string, ip: string): (url: string)
    ensures |url| >= |"http://" + ip| && url[..|"http://" + ip|] == "http://" + ip
    ensures appName == ADMIN_CHECKED_APP ==> url[|"http://" + ip|..] == "//admin/"
    ensures appName != ADMIN_CHECKED_APP ==> url == "http://" + ip
  {
    if appName == ADMIN_CHECKED_APP then "http://" + ip + "//admin/" else "http://" + ip
  }

  /** The `Command` the daemon reports for a container created with `args`. */
  function CommandLine(args: seq<string>): string
  {
    Join(" ", args)
  }

  /* ---------------- Old-container snapshot ---------------- */

  predicate IsAppContainer(c: Container)
  {
    EndsWith(c.command, APP_INIT)
  }

  /**
   * The ids of the listed application containers: every id it returns
   * belongs to a listed application container, and every listed application
   * container's id is among them (order: see DeployProperties.AppIdsConcat).
   */
  function AppIds(cs: seq<Container>): (ids: seq<string>)
    ensures |ids| <= |cs|
    ensures forall id :: id in ids ==> exists c :: c in cs && c.id == id && IsAppContainer(c)
    ensures forall c :: c in cs && IsAppContainer(c) ==> c.id in ids
  {
    if cs == [] then []
    else
      var rest := AppIds(cs[1..]);
      assert forall c :: c in cs[1..] ==> c in cs;
      assert forall c :: c in cs ==> c == cs[0] || c in cs[1..];
      if IsAppContainer(cs[0]) then [cs[0].id] + rest else rest
  }

  /**
   * `old_app_container_id()`: the ids of the application containers joined by
   * `", "`, or nothing when the query raises (the error is reported and swallowed).
   */
  function OldAppContainerId(listing: Listing): (snapshot: Option<string>)
    ensures snapshot.None? <==> listing.Unreachable?
    ensures listing.Listed? && AppIds(listing.containers) == [] ==> snapshot == Some("")
  {
    match listing
    case Unreachable => None
    case Listed(cs, _) => Some(Join(ID_SEPARATOR, AppIds(cs)))
  }

  /* ---------------- Stopping the old containers ---------------- */

  /**
   * The pieces `stop` is called on, in order: every piece up to and including
   * the first one whose stop fails; the exception ends the loop.
   */
  function StopAttempts(pieces: seq<string>, failing: set<string>): (r: seq<string>)
    ensures |r| <= |pieces| && r == pieces[..|r|]
    ensures forall k :: 0 <= k < |r| - 1 ==> r[k] !in failing
    ensures |r| < |pieces| ==> |r| > 0 && r[|r| - 1] in failing
  {
    if pieces == [] then []
    else if pieces[0] in failing then [pieces[0]]
    else [pieces[0]] + StopAttempts(pieces[1..], failing)
  }

  /**
   * The pieces that actually stopped: the longest prefix none of whose stops fails.
   */
  function Stopped(pieces: seq<string>, failing: set<string>): (r: seq<string>)
    ensures |r| <= |pieces| && r == pieces[..|r|]
    ensures forall k :: 0 <= k < |r| ==> r[k] !in failing
    ensures |r| < |pieces| ==> pieces[|r|] in failing
  {
    if pieces == [] || pieces[0] in failing then []
    else [pieces[0]] + Stopped(pieces[1..], failing)
  }

  /** The first failing piece ends the attempts; with none failing, every piece is attempted. */
  lemma StopAttemptsEnd(pieces: seq<string>, failing: set<string>, i: nat)
    requires i <= |pieces|
    requires forall k :: 0 <= k < i ==> pieces[k] !in failing
    requires i < |pieces| ==> pieces[i] in failing
    ensures StopAttempts(pieces, failing) == if i < |pieces| then pieces[..i + 1] else pieces
  {
    var r := StopAttempts(pieces, failing);
    if |r| > 0 && |r| - 1 < i {
      assert r[|r| - 1] == pieces[|r| - 1];
    }
  }

  /** One stop call with the fixed grace period per id, in order. */
  function StopActions(ids: seq<string>): (r: seq<Action>)
    ensures |r| == |ids|
    ensures forall k :: 0 <= k < |r| ==> r[k] == Stop(ids[k], STOP_TIMEOUT)
  {
    seq(|ids|, k requires 0 <= k < |ids| => Stop(ids[k], STOP_TIMEOUT))
  }

  lemma StopActionsSnoc(ids: seq<string>, i: nat)
    requires i < |ids|
    ensures StopActions(ids[..i + 1]) == StopActions(ids[..i]) + [Stop(ids[i], STOP_TIMEOUT)]
  {
  }

  /**
   * `stop_old_container(snapshot)`: no call at all when the snapshot is `None`
   * (splitting it raises, and that is swallowed); otherwise the stop attempts
   * on its `", "` pieces.
   */
  function StopLog(snapshot: Option<string>, failing: set<string>): (r: seq<Action>)
    ensures snapshot.None? ==> r == []
    ensures snapshot.Some? ==> 1 <= |r| <= |Split(snapshot.value, ID_SEPARATOR)|
  {
    match snapshot
    case None => []
    case Some(s) => StopActions(StopAttempts(Split(s, ID_SEPARATOR), failing))
  }

  /* ---------------- Countdown ---------------- */

  /**
   * The lines `countdown(n)` emits: `n, n - 1, ..., 0`, each followed by a
   * one-second sleep; nothing when `n` is negative.
   */
  function CountdownLog(n: int): (r: seq<Action>)
    ensures |r| == if n >= 0 then n + 1 else 0
    ensures forall k :: 0 <= k < |r| ==> r[k] == Tick(n - k)
    decreases if n >= 0 then n + 1 else 0
  {
    if n < 0 then [] else [Tick(n)] + CountdownLog(n - 1)
  }

  /* ---------------- The launch steps ---------------- */

  /** Pull, create, start (port 80 on all interfaces, the daemon socket read-write) and inspect the proxy. */
  function ProxyActions(cfg: Config, id: string): seq<Action>
  {
    [ Pull(ProxyImage(cfg)),
      Create(ProxyImage(cfg), PROXY_COMMAND, [PROXY_SOCKET], [HTTP_PORT], []),
      Start(id, [PortBinding(HTTP_PORT, "0.0.0.0", HTTP_PORT)], [Bind(DOCKER_SOCKET, PROXY_SOCKET, false)]),
      Inspect(id) ]
  }

  /** Pull, create (with the host's environment lines), start (log volume read-write) and inspect the new app. */
  function AppActions(cfg: Config, environment: seq<string>, id: string): seq<Action>
  {
    [ Pull(AppImage(cfg)),
      Create(AppImage(cfg), APP_COMMAND, [LOG_VOLUME], [HTTP_PORT], environment),
      Start(id, [], [Bind(LOG_VOLUME, LOG_VOLUME, false)]),
      Inspect(id) ]
  }

  /** The `'forego' in str(c.containers())` test. */
  predicate ProxyRunning(rendering: string)
  {
    Contains(rendering, PROXY_MARKER)
  }

  /** What ensuring the proxy does after its listing: nothing if the marker shows, else launch it. */
  function ProxyStep(cfg: Config, rendering: string, id: string): seq<Action>
  {
    if ProxyRunning(rendering) then [] else ProxyActions(cfg, id)
  }

  /* ---------------- The whole run ---------------- */

  /** The id of the new app container: the first created unless the proxy was created before it. */
  function NewAppId(env: Env, rendering: string): string
  {
    env.assignedIds(if ProxyRunning(rendering) then 0 else 1)
  }

  /** The url of the health check, on the address the daemon reports for the new app. */
  function CheckedUrl(cfg: Config, env: Env, rendering: string): string
  {
    HealthUrl(cfg.appName, env.addresses(NewAppId(env, rendering)))
  }

  /**
   * The prefix of a run up to and including the health check, once both
   * checked listings succeeded: the three listings, the proxy step, the new
   * app's launch, the countdown and the GET.
   */
  function Checked(cfg: Config, env: Env, rendering: string): seq<Action>
  {
    [ListContainers, ListContainers, ListContainers]
      + ProxyStep(cfg, rendering, env.assignedIds(0))
      + AppActions(cfg, env.dockerEnv, NewAppId(env, rendering)) + CountdownLog(cfg.countdown)
      + [Get(CheckedUrl(cfg, env, rendering))]
  }

  /**
   * Reference definition of `__main__` on a freshly connected client: list
   * (exit 2 if the daemon is unreachable), snapshot the old ids, ensure the
   * proxy, launch the new app, count down, check health (exit 1 on a non-200
   * status), and only then stop the old containers.
   */
  function Run(cfg: Config, env: Env): Outcome
  {
    match env.listings(0)
    case Unreachable => Outcome([ListContainers], Exit(2))
    case Listed(_, _) =>
      var snapshot := OldAppContainerId(env.listings(1));
      match env.listings(2)
      case Unreachable => Outcome([ListContainers, ListContainers, ListContainers], Raised)
      case Listed(_, rendering) =>
        var checked := Checked(cfg, env, rendering);
        match env.response
        case ConnectionFailed => Outcome(checked, Raised)
        case Status(code) =>
          if code != 200 then Outcome(checked, Exit(1))
          else Outcome(checked + StopLog(snapshot, env.failingStops), Exit(0))
  }
}

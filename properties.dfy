/**
 * What the deployment run promises, proved about the reference definitions of
 * module DockerDeploy: the old-id snapshot and its round trip through the
 * stop loop, the proxy-ensure decision, the health gate and the exit codes.
 */
module DeployProperties {
  import opened Wrappers
  import opened Text
  import opened DockerDeploy

  /* ---------------- Old-container snapshot ---------------- */

  /** The filter keeps listing order: filtering a concatenation concatenates the filtered parts. */
  lemma {:induction false} AppIdsConcat(a: seq<Container>, b: seq<Container>)
    ensures AppIds(a + b) == AppIds(a) + AppIds(b)
  {
    if a == [] {
      assert a + b == b;
    } else {
      assert (a + b)[1..] == a[1..] + b;
      AppIdsConcat(a[1..], b);
    }
  }

  /** Ids never contain the snapshot separator (docker ids are hexadecimal). */
  predicate SeparatorFree(ids: seq<string>)
  {
    forall k :: 0 <= k < |ids| ==> !Contains(ids[k], ID_SEPARATOR)
  }

  /**
   * Splitting the snapshot on `", "` at stop time gives back exactly the
   * captured ids, in order; an empty snapshot gives the single piece `""`.
   */
  lemma SnapshotRoundTrip(cs: seq<Container>, rendering: string)
    requires SeparatorFree(AppIds(cs))
    ensures OldAppContainerId(Listed(cs, rendering)).Some?
    ensures AppIds(cs) != [] ==>
              Split(OldAppContainerId(Listed(cs, rendering)).value, ID_SEPARATOR) == AppIds(cs)
    ensures AppIds(cs) == [] ==>
              Split(OldAppContainerId(Listed(cs, rendering)).value, ID_SEPARATOR) == [""]
  {
    if AppIds(cs) == [] {
      SplitEmpty(ID_SEPARATOR);
    } else {
      SplitJoin(ID_SEPARATOR, AppIds(cs));
    }
  }

  /**
   * The new app container runs `/sbin/my_init`, so the next deployment's
   * snapshot counts it as an application container; the proxy runs forego,
   * so it never does, and its command carries the proxy marker.
   */
  lemma LaunchedContainersClassified(id: string)
    ensures IsAppContainer(Container(id, CommandLine(APP_COMMAND)))
    ensures !IsAppContainer(Container(id, CommandLine(PROXY_COMMAND)))
    ensures Contains(CommandLine(PROXY_COMMAND), PROXY_MARKER)
  {
    assert CommandLine(PROXY_COMMAND) == "forego start -r";
    assert OccursAt(CommandLine(PROXY_COMMAND), PROXY_MARKER, 0);
  }

  /* ---------------- Stop loop ---------------- */

  /**
   * The calls issued are the stopped prefix followed by the first failing
   * piece, if there is one.
   */
  lemma {:induction false} AttemptsAreStoppedThenFailure(pieces: seq<string>, failing: set<string>)
    ensures var done := Stopped(pieces, failing);
            StopAttempts(pieces, failing) ==
              if |done| < |pieces| then done + [pieces[|done|]] else done
  {
    if pieces != [] && pieces[0] !in failing {
      AttemptsAreStoppedThenFailure(pieces[1..], failing);
    }
  }

  /* ---------------- Image references ---------------- */

  /** The two images share registry and tag, and are never the same image. */
  lemma ImagesDistinct(cfg: Config)
    ensures AppImage(cfg) == REGISTRY + "/" + cfg.appName + ":" + cfg.gitCommitId
    ensures ProxyImage(cfg) == REGISTRY + "/nginx-" + cfg.appName + ":" + cfg.gitCommitId
    ensures AppImage(cfg) != ProxyImage(cfg)
  {
    assert |ProxyImage(cfg)| == |AppImage(cfg)| + 6;
  }

  /* ---------------- The whole run ---------------- */

  /** Up to its last action, the checked prefix issues neither a stop nor a GET. */
  lemma CheckedShape(cfg: Config, env: Env, rendering: string)
    ensures var c := Checked(cfg, env, rendering);
            |c| >= 1 && c[|c| - 1] == Get(CheckedUrl(cfg, env, rendering))
            && forall k :: 0 <= k < |c| - 1 ==> !c[k].Stop? && !c[k].Get?
  {
    var c := Checked(cfg, env, rendering);
    var ticks := CountdownLog(cfg.countdown);
    forall k | 0 <= k < |c| - 1 ensures !c[k].Stop? && !c[k].Get? {
      var before := |c| - 1 - |ticks|;
      if k >= before {
        assert c[k] == ticks[k - before];
      }
    }
  }

  /**
   * The three shapes of a run: it ends at the first listing, at the proxy's
   * listing, or it reaches the health check, after which the status decides.
   */
  lemma RunCases(cfg: Config, env: Env)
    ensures env.listings(0).Unreachable? ==> Run(cfg, env) == Outcome([ListContainers], Exit(2))
    ensures env.listings(0).Listed? && env.listings(2).Unreachable? ==>
              Run(cfg, env) == Outcome([ListContainers, ListContainers, ListContainers], Raised)
    ensures env.listings(0).Listed? && env.listings(2).Listed? ==>
              var c := Checked(cfg, env, env.listings(2).rendering);
              Run(cfg, env) ==
              match env.response
              case ConnectionFailed => Outcome(c, Raised)
              case Status(code) =>
                if code != 200 then Outcome(c, Exit(1))
                else Outcome(c + StopLog(OldAppContainerId(env.listings(1)), env.failingStops), Exit(0))
  {
  }

  /**
   * Exit codes: 2 exactly when the first listing fails, and then nothing but
   * that listing was issued; 1 exactly on a non-200 status; 0 exactly on 200;
   * an uncaught exception when the proxy's listing or the GET raises.
   */
  lemma ExitCodes(cfg: Config, env: Env)
    ensures Run(cfg, env).termination == Exit(2) <==> env.listings(0).Unreachable?
    ensures env.listings(0).Unreachable? ==> Run(cfg, env).trace == [ListContainers]
    ensures Run(cfg, env).termination == Exit(1) <==>
              env.listings(0).Listed? && env.listings(2).Listed?
              && env.response.Status? && env.response.code != 200
    ensures Run(cfg, env).termination == Exit(0) <==>
              env.listings(0).Listed? && env.listings(2).Listed? && env.response == Status(200)
    ensures Run(cfg, env).termination == Raised <==>
              env.listings(0).Listed? && (env.listings(2).Unreachable? || env.response.ConnectionFailed?)
  {
  }

  /**
   * Health gate: a run stops some container only if the health check
   * answered 200 (and then the run completes normally); every other outcome
   * leaves the old containers running.
   */
  lemma HealthGate(cfg: Config, env: Env)
    ensures (exists k :: 0 <= k < |Run(cfg, env).trace| && Run(cfg, env).trace[k].Stop?) ==>
              env.response == Status(200) && Run(cfg, env).termination == Exit(0)
  {
    var t := Run(cfg, env).trace;
    if env.listings(0).Listed? && env.listings(2).Listed? && env.response != Status(200) {
      var rendering := env.listings(2).rendering;
      CheckedShape(cfg, env, rendering);
      RunCases(cfg, env);
      assert t == Checked(cfg, env, rendering);
    }
  }

  /**
   * A healthy run reaches the stop step exactly once: the checked prefix
   * (lists, proxy, new app, countdown) with its single GET last, then the stop
   * calls of the snapshot, and nothing else.
   */
  lemma HealthyRunStopsAfterCheck(cfg: Config, env: Env)
    requires env.listings(0).Listed? && env.listings(2).Listed? && env.response == Status(200)
    ensures var t := Run(cfg, env).trace;
            var stops := StopLog(OldAppContainerId(env.listings(1)), env.failingStops);
            var n := |t| - |stops|;
            n >= 1 && t[n - 1] == Get(CheckedUrl(cfg, env, env.listings(2).rendering))
            && (forall k :: 0 <= k < n - 1 ==> !t[k].Stop? && !t[k].Get?)
            && t[n..] == stops
            && Run(cfg, env).termination == Exit(0)
  {
    var rendering := env.listings(2).rendering;
    CheckedShape(cfg, env, rendering);
    RunCases(cfg, env);
    var c := Checked(cfg, env, rendering);
    var stops := StopLog(OldAppContainerId(env.listings(1)), env.failingStops);
    assert Run(cfg, env).trace == c + stops;
    assert (c + stops)[|c|..] == stops;
  }

  /**
   * Only old application containers are ever stopped: every stop call of a
   * run uses the ten-second grace period and names an id captured in the
   * snapshot, except the one call on `""` made when the snapshot was empty;
   * when the snapshot query raised, no stop is issued at all.
   */
  lemma StopsOnlyOldAppContainers(cfg: Config, env: Env)
    requires env.listings(1).Listed? ==> SeparatorFree(AppIds(env.listings(1).containers))
    ensures var t := Run(cfg, env).trace;
            forall k :: 0 <= k < |t| && t[k].Stop? ==>
              t[k].timeout == STOP_TIMEOUT && env.listings(1).Listed?
              && var captured := AppIds(env.listings(1).containers);
                 (t[k].id in captured || (captured == [] && t[k].id == ""))
  {
    var t := Run(cfg, env).trace;
    if env.listings(0).Listed? && env.listings(2).Listed? && env.response == Status(200) {
      var rendering := env.listings(2).rendering;
      HealthyRunStopsAfterCheck(cfg, env);
      var snapshot := OldAppContainerId(env.listings(1));
      var stops := StopLog(snapshot, env.failingStops);
      var n := |t| - |stops|;
      forall k | 0 <= k < |t| && t[k].Stop?
        ensures t[k].timeout == STOP_TIMEOUT && env.listings(1).Listed?
                && var captured := AppIds(env.listings(1).containers);
                   (t[k].id in captured || (captured == [] && t[k].id == ""))
      {
        assert k >= n;
        assert t[k] == stops[k - n];
        var cs := env.listings(1).containers;
        SnapshotRoundTrip(cs, env.listings(1).rendering);
        var pieces := Split(snapshot.value, ID_SEPARATOR);
        var attempts := StopAttempts(pieces, env.failingStops);
        assert t[k].id == attempts[k - n] == pieces[k - n];
      }
    } else {
      HealthGate(cfg, env);
    }
  }

  /**
   * When no stop fails, a healthy run stops every captured old application
   * container exactly once, in listing order, with the ten-second grace period:
   * the run ends with those stop calls and issues no stop before them.
   */
  lemma HealthyRunStopsEveryOldApp(cfg: Config, env: Env)
    requires env.listings(0).Listed? && env.listings(1).Listed? && env.listings(2).Listed?
    requires env.response == Status(200)
    requires var captured := AppIds(env.listings(1).containers);
             captured != [] && SeparatorFree(captured)
             && forall k :: 0 <= k < |captured| ==> captured[k] !in env.failingStops
    ensures var t := Run(cfg, env).trace;
            var captured := AppIds(env.listings(1).containers);
            |t| >= |captured| && t[|t| - |captured|..] == StopActions(captured)
            && forall k :: 0 <= k < |t| - |captured| ==> !t[k].Stop?
  {
    var captured := AppIds(env.listings(1).containers);
    SnapshotRoundTrip(env.listings(1).containers, env.listings(1).rendering);
    HealthyRunStopsAfterCheck(cfg, env);
    var attempts := StopAttempts(captured, env.failingStops);
    assert attempts == captured;
  }

  /** A run whose checked listings succeed is the checked prefix followed by stop calls only. */
  lemma RunExtendsChecked(cfg: Config, env: Env)
    requires env.listings(0).Listed? && env.listings(2).Listed?
    ensures var t := Run(cfg, env).trace;
            var c := Checked(cfg, env, env.listings(2).rendering);
            |t| >= |c| && t[..|c|] == c && forall k :: |c| <= k < |t| ==> t[k].Stop?
  {
    var c := Checked(cfg, env, env.listings(2).rendering);
    var stops := StopLog(OldAppContainerId(env.listings(1)), env.failingStops);
    RunCases(cfg, env);
    if env.response == Status(200) {
      var t := c + stops;
      assert Run(cfg, env).trace == t;
      assert t[..|c|] == c;
      forall k | 0 <= k - |c| < |stops| ensures t[k].Stop? {
        assert t[k] == stops[k - |c|];
      }
    } else {
      assert Run(cfg, env).trace == c;
    }
  }

  /** Past the launch steps, a run pulls nothing: only ticks, the GET and stop calls follow. */
  lemma NoPullAfterLaunch(cfg: Config, env: Env)
    requires env.listings(0).Listed? && env.listings(2).Listed?
    ensures var t := Run(cfg, env).trace;
            var before := if ProxyRunning(env.listings(2).rendering) then 7 else 11;
            forall k :: before <= k < |t| ==> !t[k].Pull?
  {
    var before := if ProxyRunning(env.listings(2).rendering) then 7 else 11;
    var t := Run(cfg, env).trace;
    var c := Checked(cfg, env, env.listings(2).rendering);
    var ticks := CountdownLog(cfg.countdown);
    RunExtendsChecked(cfg, env);
    CheckedShape(cfg, env, env.listings(2).rendering);
    assert |c| == before + |ticks| + 1;
    forall k | before <= k < |t| ensures !t[k].Pull? {
      if k < before + |ticks| {
        assert t[k] == c[k] == ticks[k - before];
      }
    }
  }

  /**
   * Proxy ensure, marker present: the run pulls, creates and starts nothing
   * for the proxy and goes from the three listings straight to the new app.
   */
  lemma ProxySkippedWhenRunning(cfg: Config, env: Env)
    requires env.listings(0).Listed? && env.listings(2).Listed?
    requires ProxyRunning(env.listings(2).rendering)
    ensures var t := Run(cfg, env).trace;
            |t| >= 7 && t[..3] == [ListContainers, ListContainers, ListContainers]
            && t[3..7] == AppActions(cfg, env.dockerEnv, env.assignedIds(0))
            && forall k :: 0 <= k < |t| ==> t[k] != Pull(ProxyImage(cfg))
  {
    var t := Run(cfg, env).trace;
    var c := Checked(cfg, env, env.listings(2).rendering);
    RunExtendsChecked(cfg, env);
    NoPullAfterLaunch(cfg, env);
    ImagesDistinct(cfg);
    var app := AppActions(cfg, env.dockerEnv, env.assignedIds(0));
    assert c[..7] == [ListContainers, ListContainers, ListContainers] + app;
    assert t[..7] == c[..7];
  }

  /**
   * Proxy ensure, marker absent: exactly one pull, one create and one start
   * (binding host port 80) of the proxy image, right after the three listings
   * and before anything of the new app.
   */
  lemma ProxyLaunchedWhenAbsent(cfg: Config, env: Env)
    requires env.listings(0).Listed? && env.listings(2).Listed?
    requires !ProxyRunning(env.listings(2).rendering)
    ensures var t := Run(cfg, env).trace;
            |t| >= 11 && t[..3] == [ListContainers, ListContainers, ListContainers]
            && t[3..7] == ProxyActions(cfg, env.assignedIds(0))
            && t[7..11] == AppActions(cfg, env.dockerEnv, env.assignedIds(1))
            && forall k :: 0 <= k < |t| && k != 3 ==> t[k] != Pull(ProxyImage(cfg))
  {
    var t := Run(cfg, env).trace;
    var c := Checked(cfg, env, env.listings(2).rendering);
    RunExtendsChecked(cfg, env);
    NoPullAfterLaunch(cfg, env);
    ImagesDistinct(cfg);
    var proxy := ProxyActions(cfg, env.assignedIds(0));
    var app := AppActions(cfg, env.dockerEnv, env.assignedIds(1));
    var lists := [ListContainers, ListContainers, ListContainers];
    assert ProxyStep(cfg, env.listings(2).rendering, env.assignedIds(0)) == proxy;
    var launched := lists + proxy + app;
    assert |launched| == 11;
    assert c == launched + CountdownLog(cfg.countdown) + [Get(CheckedUrl(cfg, env, env.listings(2).rendering))];
    assert c[..11] == launched;
    assert t[..11] == c[..11];
  }
}

/**
 * What the dispatcher promises, stated about the specification functions of
 * module Export: the format table, the order of the pipeline's effects, the
 * separation of the helper registry from the target registry, and the
 * refusals of the non-Linux build.
 */
module ExportProperties {
  import opened Wrappers
  import opened Ident
  import opened Export

  // ----- counting and locating effects -----

  predicate IsMissing(e: Effect) { e.StatusMissing? }

  predicate IsInstall(e: Effect) { e.Install? }

  /** Effects of the hand-off: environment changes and exec. */
  predicate IsHandoff(e: Effect) { e.SetEnv? || e.Exec? }

  /** How many of `effects` satisfy `p`. */
  function Count(effects: seq<Effect>, p: Effect -> bool): nat
    decreases |effects|
  {
    if effects == [] then 0
    else Count(effects[..|effects| - 1], p) + (if p(effects[|effects| - 1]) then 1 else 0)
  }

  lemma {:induction false} CountAppend(a: seq<Effect>, b: seq<Effect>, p: Effect -> bool)
    ensures Count(a + b, p) == Count(a, p) + Count(b, p)
    decreases |b|
  {
    if b == [] {
      assert a + b == a;
    } else {
      var n := |b| - 1;
      assert (a + b)[..|a + b| - 1] == a + b[..n];
      assert (a + b)[|a + b| - 1] == b[n];
      CountAppend(a, b[..n], p);
    }
  }

  lemma {:induction false} CountZero(effects: seq<Effect>, p: Effect -> bool)
    ensures Count(effects, p) == 0 <==> forall i :: 0 <= i < |effects| ==> !p(effects[i])
    decreases |effects|
  {
    if effects != [] {
      var n := |effects| - 1;
      CountZero(effects[..n], p);
      assert forall i :: 0 <= i < n ==> effects[..n][i] == effects[i];
    }
  }

  // ----- format resolution -----

  /** The four Linux formats, each served by the `core` package named after its command. */
  lemma KnownFormats()
    ensures LinuxFormatFor("docker") == Ok(ExportFormat(Unqualified("core", "hab-pkg-dockerize"), "hab-pkg-dockerize"))
    ensures LinuxFormatFor("aci") == Ok(ExportFormat(Unqualified("core", "hab-pkg-aci"), "hab-pkg-aci"))
    ensures LinuxFormatFor("mesos") == Ok(ExportFormat(Unqualified("core", "hab-pkg-mesosize"), "hab-pkg-mesosize"))
    ensures LinuxFormatFor("tar") == Ok(ExportFormat(Unqualified("core", "hab-pkg-tarize"), "hab-pkg-tarize"))
  {
  }

  /** Keywords are compared exactly: another spelling of a known one is refused as given. */
  lemma KeywordsAreCaseSensitive()
    ensures LinuxFormatFor("Docker") == Err(UnsupportedExportFormat("Docker"))
    ensures LinuxFormatFor("TAR") == Err(UnsupportedExportFormat("TAR"))
    ensures LinuxFormatFor("tar ") == Err(UnsupportedExportFormat("tar "))
  {
  }

  /** Distinct keywords resolve to distinct helper commands. */
  lemma FormatsAreDistinct(a: string, b: string)
    requires LinuxFormatFor(a).Ok? && LinuxFormatFor(b).Ok?
    requires LinuxFormatFor(a).value.cmd == LinuxFormatFor(b).value.cmd
    ensures a == b
  {
  }

  /** Off Linux, every keyword, the four known ones included, is refused after a warning naming it. */
  lemma OtherFormatForRefuses(value: string, rs: Responses)
    ensures var run := FormatForRun(Other, value, rs);
      && run.result.Err?
      && run.effects == (if rs.warn.Fail? then [Warn(Some(value))] else [Warn(Some(value)), Br])
      && run.result.error == (if rs.warn.Fail? then rs.warn.error
                              else if rs.br.Fail? then rs.br.error
                              else UnsupportedExportFormat(value))
  {
  }

  // ----- the Linux pipeline -----

  /** The pipeline reaches the hand-off: the helper is present, or reporting and installing it succeed. */
  predicate Provisioned(rs: Responses)
  {
    rs.helperInstalled || (rs.status.Pass? && rs.install.Pass?)
  }

  /** A helper that is already installed is neither reported missing nor installed. */
  lemma PresentHelperIsNotInstalled(c: Constants, req: Request, rs: Responses)
    requires rs.helperInstalled
    ensures var run := LinuxStart(c, req, rs);
      Count(run.effects, IsMissing) == 0 && Count(run.effects, IsInstall) == 0 && run.result == rs.exec
  {
    var e := LinuxStart(c, req, rs).effects;
    CountZero(e, IsMissing);
    CountZero(e, IsInstall);
  }

  /**
   * A missing helper is reported once, first, and then installed once, from the
   * helper registry and channel, never forced; a failing report installs nothing.
   */
  lemma MissingHelperIsInstalledOnce(c: Constants, req: Request, rs: Responses)
    requires !rs.helperInstalled
    ensures var e := LinuxStart(c, req, rs).effects;
      && Count(e, IsMissing) == 1
      && e[0] == StatusMissing(req.format.pkgIdent)
      && Count(e, IsInstall) == (if rs.status.Pass? then 1 else 0)
      && (rs.status.Pass? ==>
            e[1] == Install(req.habUrl, Some(req.habChannel), ToString(req.format.pkgIdent),
                            c.product, c.version, c.fsRoot, c.artifactCache, false))
  {
    var helper := req.format.pkgIdent;
    var install := Install(req.habUrl, Some(req.habChannel), ToString(helper),
                           c.product, c.version, c.fsRoot, c.artifactCache, false);
    var e := LinuxStart(c, req, rs).effects;
    if rs.status.Fail? {
      assert e == [StatusMissing(helper)];
      assert [StatusMissing(helper)][..0] == [];
    } else {
      var tail := if rs.install.Fail? then [] else
        [SetEnv(c.depotUrlVar, req.url), SetEnv(c.depotChannelVar, req.channel),
         Exec(helper, req.format.cmd, [ToString(req.ident)])];
      assert e == [StatusMissing(helper), install] + tail;
      CountAppend([StatusMissing(helper), install], tail, IsMissing);
      CountAppend([StatusMissing(helper), install], tail, IsInstall);
      CountZero(tail, IsMissing);
      CountZero(tail, IsInstall);
      assert [StatusMissing(helper), install][..1] == [StatusMissing(helper)];
      assert [StatusMissing(helper)][..0] == [];
      assert Count([StatusMissing(helper)], IsInstall) == 0;
      assert Count([StatusMissing(helper)], IsMissing) == 1;
      assert Count([StatusMissing(helper), install], IsInstall) == 1;
      assert Count([StatusMissing(helper), install], IsMissing) == 1;
    }
  }

  /** Reporting and installing the helper come before every hand-off effect, and exec comes last. */
  lemma ProvisioningPrecedesHandoff(c: Constants, req: Request, rs: Responses)
    ensures var e := LinuxStart(c, req, rs).effects;
      && (forall i, j :: 0 <= i < |e| && 0 <= j < |e| && (IsMissing(e[i]) || IsInstall(e[i])) && IsHandoff(e[j]) ==> i < j)
      && (forall i :: 0 <= i < |e| && e[i].Exec? ==> i == |e| - 1)
  {
  }

  /** A failing report or install is returned unchanged and nothing is exported or executed. */
  lemma FailedProvisioningStops(c: Constants, req: Request, rs: Responses)
    requires !Provisioned(rs)
    ensures var run := LinuxStart(c, req, rs);
      && run.result == (if rs.status.Fail? then rs.status else rs.install)
      && run.result.Fail?
      && Count(run.effects, IsHandoff) == 0
  {
    CountZero(LinuxStart(c, req, rs).effects, IsHandoff);
  }

  /**
   * On a successful hand-off exec receives the helper package, its command and
   * the target package's string form as the only argument, and its answer is
   * the result.
   */
  lemma HandoffExecsHelper(c: Constants, req: Request, rs: Responses)
    requires Provisioned(rs)
    ensures var run := LinuxStart(c, req, rs);
      && run.result == rs.exec
      && run.effects[|run.effects| - 1] == Exec(req.format.pkgIdent, req.format.cmd, [ToString(req.ident)])
  {
  }

  /**
   * The environment the helper starts in: the depot URL and channel variables
   * hold the TARGET registry URL and channel; nothing changes if provisioning fails.
   */
  lemma {:induction false} HandoffEnvironment(env: map<string, string>, c: Constants, req: Request, rs: Responses)
    ensures EnvAfter(env, LinuxStart(c, req, rs).effects)
         == if Provisioned(rs) then env[c.depotUrlVar := req.url][c.depotChannelVar := req.channel] else env
  {
    var helper := req.format.pkgIdent;
    var provision :=
      if rs.helperInstalled then []
      else if rs.status.Fail? then [StatusMissing(helper)]
      else [StatusMissing(helper),
            Install(req.habUrl, Some(req.habChannel), ToString(helper),
                    c.product, c.version, c.fsRoot, c.artifactCache, false)];
    EnvAfterWithoutSetEnv(env, provision);
    if Provisioned(rs) {
      var url, channel := SetEnv(c.depotUrlVar, req.url), SetEnv(c.depotChannelVar, req.channel);
      var exec := Exec(helper, req.format.cmd, [ToString(req.ident)]);
      assert LinuxStart(c, req, rs).effects == provision + [url, channel, exec];
      EnvAfterAppend(env, provision, [url, channel, exec]);
      assert [url, channel, exec][..2] == [url, channel];
      assert [url, channel][..1] == [url];
      assert [url][..0] == [];
      assert EnvAfter(env, [url]) == env[c.depotUrlVar := req.url];
      assert EnvAfter(env, [url, channel]) == env[c.depotUrlVar := req.url][c.depotChannelVar := req.channel];
    }
  }

  /** The helper registry URL and channel never reach the helper's environment. */
  lemma HelperRegistryIsNotExported(env: map<string, string>, c: Constants, req: Request, rs: Responses,
                                    habUrl: string, habChannel: string)
    ensures EnvAfter(env, LinuxStart(c, req.(habUrl := habUrl, habChannel := habChannel), rs).effects)
         == EnvAfter(env, LinuxStart(c, req, rs).effects)
  {
    HandoffEnvironment(env, c, req.(habUrl := habUrl, habChannel := habChannel), rs);
    HandoffEnvironment(env, c, req, rs);
  }

  /** With distinct variable names, each holds its target value after the hand-off. */
  lemma HandoffVariables(env: map<string, string>, c: Constants, req: Request, rs: Responses)
    requires Provisioned(rs) && c.depotUrlVar != c.depotChannelVar
    ensures var after := EnvAfter(env, LinuxStart(c, req, rs).effects);
      && c.depotUrlVar in after && after[c.depotUrlVar] == req.url
      && c.depotChannelVar in after && after[c.depotChannelVar] == req.channel
  {
    HandoffEnvironment(env, c, req, rs);
  }

  // ----- the non-Linux pipeline -----

  /** Off Linux, `start` never installs or hands off and reports the command the user ran. */
  lemma OtherStartRefuses(c: Constants, args: seq<string>, req: Request, rs: Responses)
    ensures var run := StartRun(Other, c, args, req, rs);
      && run.result.Fail?
      && Count(run.effects, IsInstall) == 0
      && Count(run.effects, IsHandoff) == 0
      && (rs.warn.Pass? && rs.br.Pass? ==>
            run.result == Fail(SubcommandNotSupported(Invocation(args))) && run.effects == [Warn(None), Br])
  {
  }

  lemma InvocationExamples()
    ensures Invocation(["hab", "pkg", "export", "tar", "core/redis"]) == "pkg export"
    ensures Invocation(["hab", "pkg"]) == "pkg <unknown>"
    ensures Invocation(["hab"]) == "<unknown> <unknown>"
    ensures Invocation([]) == "<unknown> <unknown>"
  {
  }

  /** Splits a string at its first space; without one, the whole string comes first. */
  function SplitAtSpace(s: string): (string, string)
  {
    if s == [] then ([], [])
    else if s[0] == ' ' then ([], s[1..])
    else var (first, rest) := SplitAtSpace(s[1..]); ([s[0]] + first, rest)
  }

  lemma {:induction false} SplitJoin(a: string, b: string)
    requires ' ' !in a
    ensures SplitAtSpace(a + " " + b) == (a, b)
  {
    if a == [] {
      assert a + " " + b == [' '] + b;
    } else {
      assert a[0] in a;
      assert (a + " " + b)[0] == a[0];
      assert (a + " " + b)[1..] == a[1..] + " " + b;
      assert ' ' !in a[1..] by {
        forall k | 0 <= k < |a[1..]| ensures a[1..][k] != ' ' {
          assert a[1..][k] == a[k + 1] && a[k + 1] in a;
        }
      }
      SplitJoin(a[1..], b);
      assert [a[0]] + a[1..] == a;
    }
  }

  /** Both arguments can be read back from the reported command when the first holds no space. */
  lemma InvocationRoundTrip(args: seq<string>)
    requires ' ' !in ArgOr(args, 1)
    ensures SplitAtSpace(Invocation(args)) == (ArgOr(args, 1), ArgOr(args, 2))
    ensures |args| > 2 ==> SplitAtSpace(Invocation(args)) == (args[1], args[2])
  {
    SplitJoin(ArgOr(args, 1), ArgOr(args, 2));
  }
}

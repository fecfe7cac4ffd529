/**
 * The dispatcher behind `hab pkg export`: it resolves an export format keyword
 * to a helper package and command, makes sure the helper is installed
 * (installing it from the helper registry when it is not), points the helper at
 * the target registry through two environment variables and hands control to
 * it.
 *
 * Every operation is given twice: as a pure function returning the effects it
 * performs and its result (the specification), and as a method of `Host`, the
 * running process, which performs those effects one at a time.
 */
module Export {
  import opened Wrappers
  import opened Ident

  /** The build target. The real pipeline is compiled only for Linux. */
  datatype Platform = Linux | Other

  datatype Error =
    | UnsupportedExportFormat(format: string)
    | SubcommandNotSupported(invocation: string)
      // the errors of the user interface, the installer and exec that this model does not distinguish
    | Collaborator(code: nat)

  /** A resolved format: the helper package and the command it provides. */
  datatype ExportFormat = ExportFormat(pkgIdent: PackageIdent, cmd: string)

  /**
   * Values fixed by the build and by the habitat core crate: the product name
   * and version given to the installer, the filesystem root, the artifact cache
   * path, and the names of the depot URL and depot channel variables.
   */
  datatype Constants = Constants(
    product: string,
    version: string,
    fsRoot: string,
    artifactCache: string,
    depotUrlVar: string,
    depotChannelVar: string)

  /**
   * The parameters of one export: the registry URL and channel of the TARGET
   * package, the registry URL and channel the HELPER is installed from, the
   * target package and the resolved format.
   */
  datatype Request = Request(
    url: string,
    channel: string,
    habUrl: string,
    habChannel: string,
    ident: PackageIdent,
    format: ExportFormat)

  /**
   * What the collaborators answer during one operation: whether loading the
   * installed helper succeeds, and what each user-interface call, the installer
   * and exec return.
   */
  datatype Responses = Responses(
    helperInstalled: bool,
    warn: Outcome<Error>,
    br: Outcome<Error>,
    status: Outcome<Error>,
    install: Outcome<Error>,
    exec: Outcome<Error>)

  /** The observable effects of the dispatcher, in the order they happen. */
  datatype Effect =
      // a warning; it names the format when it comes from format resolution
    | Warn(format: Option<string>)
    | Br
      // the "missing" status line for the helper package
    | StatusMissing(ident: PackageIdent)
    | Install(url: string, channel: Option<string>, pkg: string, product: string,
              version: string, fsRoot: string, artifactCache: string, force: bool)
    | SetEnv(key: string, value: string)
      // hand-off to the helper; on success the process is replaced
    | Exec(ident: PackageIdent, cmd: string, args: seq<string>)

  /** The effects an operation performs and the value it returns. */
  datatype Run<+T> = Run(effects: seq<Effect>, result: T)

  /** The format keywords the Linux build understands (compared case-sensitively). */
  const Keywords: set<string> := {"docker", "aci", "mesos", "tar"}

  /** Stands in for a process argument that is absent. */
  const Unknown: string := "<unknown>"

  /** The format served by the `core` package named after its command. */
  function CoreHelper(cmd: string): ExportFormat
  {
    ExportFormat(Unqualified("core", cmd), cmd)
  }

  // ----- format resolution -----

  /** `format_for` on Linux: the closed keyword table. */
  function LinuxFormatFor(value: string): (r: Result<ExportFormat, Error>)
    ensures r.Ok? <==> value in Keywords
    ensures r.Err? ==> r.error == UnsupportedExportFormat(value)
    ensures r.Ok? ==> r.value.pkgIdent == Unqualified("core", r.value.cmd) && r.value.cmd != ""
  {
    match value
    case "docker" => Ok(CoreHelper("hab-pkg-dockerize"))
    case "aci" => Ok(CoreHelper("hab-pkg-aci"))
    case "mesos" => Ok(CoreHelper("hab-pkg-mesosize"))
    case "tar" => Ok(CoreHelper("hab-pkg-tarize"))
    case _ => Err(UnsupportedExportFormat(value))
  }

  /** `format_for` elsewhere: warn naming the format, break a line, refuse. */
  function OtherFormatFor(value: string, rs: Responses): (run: Run<Result<ExportFormat, Error>>)
    ensures run.result.Err? && |run.effects| > 0 && run.effects[0] == Warn(Some(value))
  {
    if rs.warn.Fail? then Run([Warn(Some(value))], Err(rs.warn.error))
    else if rs.br.Fail? then Run([Warn(Some(value)), Br], Err(rs.br.error))
    else Run([Warn(Some(value)), Br], Err(UnsupportedExportFormat(value)))
  }

  /** The public `format_for`, on the given platform. */
  function FormatForRun(platform: Platform, value: string, rs: Responses): (run: Run<Result<ExportFormat, Error>>)
    ensures run.result.Ok? <==> platform == Linux && value in Keywords
    ensures platform == Linux ==> run.effects == []
    ensures platform == Other ==> |run.effects| > 0 && run.effects[0] == Warn(Some(value))
  {
    match platform
    case Linux => Run([], LinuxFormatFor(value))
    case Other => OtherFormatFor(value, rs)
  }

  // ----- the export pipeline -----

  /** Process argument `n`, or `<unknown>` when the process has fewer arguments. */
  function ArgOr(args: seq<string>, n: nat): string
  {
    if n < |args| then args[n] else Unknown
  }

  /** The command the user ran, rebuilt from process arguments 1 and 2. */
  function Invocation(args: seq<string>): (r: string)
    ensures |args| > 2 ==> r == args[1] + " " + args[2]
    ensures |args| == 2 ==> r == args[1] + " <unknown>"
    ensures |args| < 2 ==> r == "<unknown> <unknown>"
  {
    ArgOr(args, 1) + " " + ArgOr(args, 2)
  }

  /** `start` on Linux: probe, install on a miss, set the environment, exec. */
  function LinuxStart(c: Constants, req: Request, rs: Responses): (run: Run<Outcome<Error>>)
    // the answer of the first collaborator that fails, else exec's answer
    ensures run.result == (if !rs.helperInstalled && rs.status.Fail? then rs.status
                           else if !rs.helperInstalled && rs.install.Fail? then rs.install
                           else rs.exec)
    // exec ends the run exactly when the helper is present or provisioning succeeds
    ensures (|run.effects| > 0 && run.effects[|run.effects| - 1].Exec?)
        <==> rs.helperInstalled || (rs.status.Pass? && rs.install.Pass?)
  {
    var helper := req.format.pkgIdent;
    var provision :=
      if rs.helperInstalled then Run([], Pass)
      else if rs.status.Fail? then Run([StatusMissing(helper)], rs.status)
      else Run([StatusMissing(helper),
                Install(req.habUrl, Some(req.habChannel), ToString(helper),
                        c.product, c.version, c.fsRoot, c.artifactCache, false)],
               rs.install);
    if provision.result.Fail? then provision
    else Run(provision.effects + [SetEnv(c.depotUrlVar, req.url),
                                  SetEnv(c.depotChannelVar, req.channel),
                                  Exec(helper, req.format.cmd, [ToString(req.ident)])],
             rs.exec)
  }

  /** `start` elsewhere: warn, break a line, report the command as unsupported. */
  function OtherStart(args: seq<string>, rs: Responses): (run: Run<Outcome<Error>>)
    ensures run.result.Fail?
    ensures rs.warn.Pass? && rs.br.Pass? ==> run.result.error == SubcommandNotSupported(Invocation(args))
    ensures forall i :: 0 <= i < |run.effects| ==> run.effects[i].Warn? || run.effects[i].Br?
  {
    if rs.warn.Fail? then Run([Warn(None)], rs.warn)
    else if rs.br.Fail? then Run([Warn(None), Br], rs.br)
    else Run([Warn(None), Br], Fail(SubcommandNotSupported(Invocation(args))))
  }

  /** The public `start`, on the given platform. */
  function StartRun(platform: Platform, c: Constants, args: seq<string>, req: Request, rs: Responses): (run: Run<Outcome<Error>>)
    ensures platform == Other ==> run.result.Fail?
    // installs come only from the helper registry and are never forced
    ensures forall i :: 0 <= i < |run.effects| && run.effects[i].Install? ==>
      run.effects[i].url == req.habUrl && run.effects[i].channel == Some(req.habChannel) && !run.effects[i].force
    // the exported variables carry only the target registry and channel
    ensures forall i :: 0 <= i < |run.effects| && run.effects[i].SetEnv? ==>
      run.effects[i] == SetEnv(c.depotUrlVar, req.url) || run.effects[i] == SetEnv(c.depotChannelVar, req.channel)
  {
    match platform
    case Linux => LinuxStart(c, req, rs)
    case Other => OtherStart(args, rs)
  }

  // ----- the process environment -----

  function Apply(env: map<string, string>, e: Effect): map<string, string>
  {
    if e.SetEnv? then env[e.key := e.value] else env
  }

  /** The environment after the given effects, starting from `env`. */
  function EnvAfter(env: map<string, string>, effects: seq<Effect>): map<string, string>
    decreases |effects|
  {
    if effects == [] then env
    else Apply(EnvAfter(env, effects[..|effects| - 1]), effects[|effects| - 1])
  }

  /** Effects other than `SetEnv` leave the environment alone. */
  lemma {:induction false} EnvAfterWithoutSetEnv(env: map<string, string>, effects: seq<Effect>)
    requires forall i :: 0 <= i < |effects| ==> !effects[i].SetEnv?
    ensures EnvAfter(env, effects) == env
    decreases |effects|
  {
    if effects != [] {
      var n := |effects| - 1;
      assert forall i :: 0 <= i < n ==> effects[..n][i] == effects[i];
      EnvAfterWithoutSetEnv(env, effects[..n]);
    }
  }

  lemma {:induction false} EnvAfterAppend(env: map<string, string>, a: seq<Effect>, b: seq<Effect>)
    ensures EnvAfter(env, a + b) == EnvAfter(EnvAfter(env, a), b)
    decreases |b|
  {
    if b == [] {
      assert a + b == a;
    } else {
      var n := |b| - 1;
      assert (a + b)[..|a + b| - 1] == a + b[..n];
      assert (a + b)[|a + b| - 1] == b[n];
      EnvAfterAppend(env, a, b[..n]);
    }
  }

  /**
   * The running process: its platform, build constants and arguments, what it
   * has done so far (user-interface output, installer calls, environment
   * changes, exec) and its environment, which always reflects the `SetEnv`
   * effects in `trace`.
   */
  class Host {
    const platform: Platform
    const consts: Constants
    const args: seq<string>
    ghost const initialEnv: map<string, string>
    var trace: seq<Effect>
    var env: map<string, string>

    ghost predicate Valid()
      reads this
    {
      env == EnvAfter(initialEnv, trace)
    }

    constructor (platform: Platform, consts: Constants, args: seq<string>, env: map<string, string>)
      ensures Valid()
      ensures this.platform == platform && this.consts == consts && this.args == args
      ensures trace == [] && this.env == env
    {
      this.platform := platform;
      this.consts := consts;
      this.args := args;
      this.initialEnv := env;
      this.trace := [];
      this.env := env;
    }

    /** Performs one effect that leaves the environment alone. */
    method Record(e: Effect)
      requires Valid() && !e.SetEnv?
      modifies this
      ensures Valid()
      ensures trace == old(trace) + [e] && env == old(env)
    {
      trace := trace + [e];
      assert trace[..|trace| - 1] == old(trace);
    }

    /** `env::set_var`. */
    method SetVar(key: string, value: string)
      requires Valid()
      modifies this
      ensures Valid()
      ensures trace == old(trace) + [SetEnv(key, value)] && env == old(env)[key := value]
    {
      trace := trace + [SetEnv(key, value)];
      assert trace[..|trace| - 1] == old(trace);
      env := env[key := value];
    }

    /** The public `format_for`. */
    method FormatFor(value: string, rs: Responses) returns (r: Result<ExportFormat, Error>)
      requires Valid()
      modifies this
      ensures Valid()
      ensures var run := FormatForRun(platform, value, rs);
        r == run.result && trace == old(trace) + run.effects && env == old(env)
    {
      if platform == Linux {
        r := LinuxFormatFor(value);
      } else {
        r := FormatForOther(value, rs);
      }
    }

    /** `format_for` off Linux. */
    method FormatForOther(value: string, rs: Responses) returns (r: Result<ExportFormat, Error>)
      requires Valid()
      modifies this
      ensures Valid()
      ensures var run := OtherFormatFor(value, rs);
        r == run.result && trace == old(trace) + run.effects && env == old(env)
    {
      Record(Warn(Some(value)));
      if rs.warn.Fail? {
        return Err(rs.warn.error);
      }
      Record(Br);
      if rs.br.Fail? {
        return Err(rs.br.error);
      }
      r := Err(UnsupportedExportFormat(value));
    }

    /** The public `start`. */
    method Start(req: Request, rs: Responses) returns (r: Outcome<Error>)
      requires Valid()
      modifies this
      ensures Valid()
      ensures var run := StartRun(platform, consts, args, req, rs);
        r == run.result && trace == old(trace) + run.effects && env == EnvAfter(old(env), run.effects)
    {
      if platform == Linux {
        r := StartLinux(req, rs);
      } else {
        r := StartOther(rs);
      }
    }

    /** `start` on Linux. */
    method StartLinux(req: Request, rs: Responses) returns (r: Outcome<Error>)
      requires Valid()
      modifies this
      ensures Valid()
      ensures var run := LinuxStart(consts, req, rs);
        r == run.result && trace == old(trace) + run.effects && env == EnvAfter(old(env), run.effects)
    {
      ghost var effects := LinuxStart(consts, req, rs).effects;
      var helper := req.format.pkgIdent;
      if !rs.helperInstalled {
        Record(StatusMissing(helper));
        if rs.status.Fail? {
          EnvAfterAppend(initialEnv, old(trace), effects);
          return rs.status;
        }
        Record(Install(req.habUrl, Some(req.habChannel), ToString(helper),
                       consts.product, consts.version, consts.fsRoot, consts.artifactCache, false));
        if rs.install.Fail? {
          EnvAfterAppend(initialEnv, old(trace), effects);
          return rs.install;
        }
      }
      var pkgArg := ToString(req.ident);
      SetVar(consts.depotUrlVar, req.url);
      SetVar(consts.depotChannelVar, req.channel);
      Record(Exec(helper, req.format.cmd, [pkgArg]));
      r := rs.exec;
      EnvAfterAppend(initialEnv, old(trace), effects);
    }

    /** `start` off Linux. */
    method StartOther(rs: Responses) returns (r: Outcome<Error>)
      requires Valid()
      modifies this
      ensures Valid()
      ensures var run := OtherStart(args, rs);
        r == run.result && trace == old(trace) + run.effects && env == EnvAfter(old(env), run.effects)
      ensures env == old(env)
    {
      ghost var effects := OtherStart(args, rs).effects;
      var subcmd := ArgOr(args, 1);
      var subsubcmd := ArgOr(args, 2);
      Record(Warn(None));
      if rs.warn.Fail? {
        EnvAfterAppend(initialEnv, old(trace), effects);
        EnvAfterWithoutSetEnv(old(env), effects);
        return rs.warn;
      }
      Record(Br);
      if rs.br.Fail? {
        EnvAfterAppend(initialEnv, old(trace), effects);
        EnvAfterWithoutSetEnv(old(env), effects);
        return rs.br;
      }
      r := Fail(SubcommandNotSupported(subcmd + " " + subsubcmd));
      EnvAfterAppend(initialEnv, old(trace), effects);
      EnvAfterWithoutSetEnv(old(env), effects);
    }
  }
}

/** The `deploy` command (cmd/deployer/deploy.go:101-181): detect the
    project, generate its image reference, then build, push, apply the
    Knative Service, configure ECR pull permissions, attach the optional
    database, Redis and secrets, and report.  External tools and the cluster
    are reduced to the outcomes a World supplies; the Secrets are a store. */
module Pipeline {

  import opened Wrappers
  import opened Os
  import opened Text
  import opened Secrets
  import Pairs
  import Image
  import Build
  import Service
  import opened Attachments

  /** The command's flags. */
  datatype DeployFlags = DeployFlags(
    namespace: string, port: int, cpu: string, mem: string, envs: seq<string>,
    serverUrl: string, kubecontext: string,
    dbHost: string, dbName: string, dbUser: string, dbPassword: string, dbPort: int,
    redisHost: string, redisPassword: string, redisPort: int,
    secrets: seq<string>)

  /** What the environment answers: the process environment, the working
      directory (or the error getting it), the outcomes of the external
      commands, the order in which the runtime visits the env map, whether a
      cluster client can be built.  The ECR pull-permission step is reduced
      to its outcome; the report's outcome is discarded and so not part of
      the world. */
  datatype World = World(
    env: Environment,
    wd: Result<string>,
    refSts: Image.Sts,
    build: Build.BuildTools,
    push: Image.PushTools,
    envOrder: seq<string>,
    apply: Exit,
    ecrPermissions: Exit,
    clientOk: bool)

  /** The steps the command attempts, each with what it was given. */
  datatype Step =
    | BuildStep(runs: seq<Invocation>)
    | PushStep(ref: string)
    | ApplyStep(inv: Invocation)
    | EcrPermissionsStep
    | DatabaseStep(key: SecretKey)
    | RedisStep(key: SecretKey)
    | SecretsStep(key: SecretKey)
    | ReportStep(project: string, namespace: string, image: string)

  /** The position of each kind of step in the command. */
  function Rank(s: Step): nat {
    match s
    case BuildStep(_) => 0
    case PushStep(_) => 1
    case ApplyStep(_) => 2
    case EcrPermissionsStep => 3
    case DatabaseStep(_) => 4
    case RedisStep(_) => 5
    case SecretsStep(_) => 6
    case ReportStep(_, _, _) => 7
  }

  predicate InOrder(steps: seq<Step>) {
    forall i, j :: 0 <= i < j < |steps| ==> Rank(steps[i]) < Rank(steps[j])
  }

  const EcrWarning := "Warning: Failed to configure ECR pull permissions"

  /** The warning printed for the pull-permission step: none when it
      succeeded, otherwise the warning followed by the step's error. */
  function EcrWarnings(e: Exit): seq<string> {
    if e.Failure? then [EcrWarning + ": " + e.reason] else []
  }

  /** The steps run, the command's result, the warnings printed and the
      Secrets afterwards. */
  datatype Outcome = Outcome(steps: seq<Step>, result: Exit, warnings: seq<string>, secrets: map<SecretKey, Data>)

  /** The runtime's iteration order fits the env map the command builds. */
  predicate WellFormed(f: DeployFlags, w: World) {
    Service.IsKeyOrder(Pairs.EnvMap(f.envs), w.envOrder)
  }

  /* ---------------------------------------------------------------------- */
  /* getProjectName                                                         */
  /* ---------------------------------------------------------------------- */

  /** The last '/'-separated field of the working directory.  Split never
      returns an empty list, so the source's empty-list branch cannot be
      taken and only the Getwd error remains. */
  function ProjectName(wd: Result<string>): (r: Result<string>)
    ensures wd.Err? <==> r.Err?
    ensures wd.Err? ==> r.msg == wd.msg
    ensures wd.Ok? ==> '/' !in r.value && EndsWith(wd.value, r.value)
    ensures wd.Ok? ==> r.value == wd.value || EndsWith(wd.value, "/" + r.value)
  {
    match wd
    case Err(e) => Err(e)
    case Ok(dir) =>
      var parts := Split(dir, '/');
      var last := parts[|parts| - 1];
      SplitLast(dir, '/');
      SplitLastAfterSep(dir, '/');
      assert "/" + last == ['/'] + last;
      Ok(last)
  }

  /* ---------------------------------------------------------------------- */
  /* The command as a specification                                         */
  /* ---------------------------------------------------------------------- */

  /** The three optional writers, each skipped when not asked for. */
  function DatabaseStage(f: DeployFlags, clientOk: bool, project: string, ns: string, secrets: map<SecretKey, Data>): Write {
    if f.dbHost == "" then Write(Success, secrets)
    else DatabaseWrite(clientOk, project, ns, f.dbUser, f.dbPassword, f.dbHost, f.dbPort, f.dbName, secrets)
  }

  function RedisStage(f: DeployFlags, clientOk: bool, project: string, ns: string, secrets: map<SecretKey, Data>): Write {
    if f.redisHost == "" then Write(Success, secrets)
    else RedisWrite(clientOk, project, ns, f.redisHost, f.redisPort, f.redisPassword, secrets)
  }

  function SecretsStage(f: DeployFlags, clientOk: bool, project: string, ns: string, secrets: map<SecretKey, Data>): Write {
    if |f.secrets| == 0 then Write(Success, secrets)
    else SecretsWrite(clientOk, project, ns, f.secrets, secrets)
  }

  /** The optional steps after the service is applied: database, Redis and
      secrets, each run only when asked for and each aborting the command
      when it fails; then the report, whose result is ignored.  Each
      function below is the command from that step on; warnings are added
      by the caller. */
  function Attach(f: DeployFlags, clientOk: bool, project: string, ns: string, image: string,
                  steps: seq<Step>, secrets: map<SecretKey, Data>): Outcome
  {
    var d := DatabaseStage(f, clientOk, project, ns, secrets);
    var steps := if f.dbHost == "" then steps else steps + [DatabaseStep(SecretKey(ns, DatabaseSecretName(project)))];
    if d.result.Failure? then Outcome(steps, Failure("database attach failed: " + d.result.reason), [], d.secrets)
    else FromRedis(f, clientOk, project, ns, image, steps, d.secrets)
  }

  function FromRedis(f: DeployFlags, clientOk: bool, project: string, ns: string, image: string,
                     steps: seq<Step>, secrets: map<SecretKey, Data>): Outcome
  {
    var r := RedisStage(f, clientOk, project, ns, secrets);
    var steps := if f.redisHost == "" then steps else steps + [RedisStep(SecretKey(ns, RedisSecretName(project)))];
    if r.result.Failure? then Outcome(steps, Failure("redis attach failed: " + r.result.reason), [], r.secrets)
    else FromSecrets(f, clientOk, project, ns, image, steps, r.secrets)
  }

  function FromSecrets(f: DeployFlags, clientOk: bool, project: string, ns: string, image: string,
                       steps: seq<Step>, secrets: map<SecretKey, Data>): Outcome
  {
    var s := SecretsStage(f, clientOk, project, ns, secrets);
    var steps := if |f.secrets| == 0 then steps else steps + [SecretsStep(SecretKey(ns, ProjectSecretsName(project)))];
    if s.result.Failure? then Outcome(steps, Failure("secrets creation failed: " + s.result.reason), [], s.secrets)
    else FromReport(f, project, ns, image, steps, s.secrets)
  }

  function FromReport(f: DeployFlags, project: string, ns: string, image: string,
                      steps: seq<Step>, secrets: map<SecretKey, Data>): Outcome
  {
    var steps := if f.serverUrl == "" then steps else steps + [ReportStep(project, ns, image)];
    Outcome(steps, Success, [], secrets)
  }

  /** What the external steps of a delivery produce: the build's commands
      and result, the push's result and the kubectl call. */
  datatype Delivery = Delivery(build: Build.BuildRun, push: Result<Image.Pushed>, apply: Invocation)

  function Deliveries(f: DeployFlags, w: World, project: string, image: string): Delivery
    requires WellFormed(f, w)
  {
    Delivery(Build.BuildApplication(".", image, f.envs, w.build),
             Image.PushImage(image, w.env, w.push),
             Service.ApplyInvocation(project, image, DefaultNamespace(f.namespace), f.cpu, f.mem,
                                     Pairs.EnvMap(f.envs), f.kubecontext, f.port, w.envOrder))
  }

  /** The steps of a delivery that got as far as the ECR permissions. */
  function Delivered(d: Delivery, image: string): seq<Step> {
    [BuildStep(d.build.runs), PushStep(image), ApplyStep(d.apply), EcrPermissionsStep]
  }

  /** Build, push and apply, each aborting on failure; then the ECR pull
      permissions, whose failure is only a warning. */
  function Deliver(f: DeployFlags, w: World, project: string, image: string, d: Delivery,
                   secrets: map<SecretKey, Data>): Outcome
  {
    var steps := [BuildStep(d.build.runs)];
    if d.build.result.Failure? then Outcome(steps, Failure("build failed: " + d.build.result.reason), [], secrets)
    else
      var steps := steps + [PushStep(image)];
      if d.push.Err? then Outcome(steps, Failure("push failed: " + d.push.msg), [], secrets)
      else
        var steps := steps + [ApplyStep(d.apply)];
        if w.apply.Failure? then Outcome(steps, Failure("deploy failed: " + w.apply.reason), [], secrets)
        else
          var warnings := EcrWarnings(w.ecrPermissions);
          Attach(f, w.clientOk, project, DefaultNamespace(f.namespace), image, Delivered(d, image), secrets)
            .(warnings := warnings)
  }

  /** getProjectName, then generateImageRef: the project and its image
      reference, or the message the command fails with. */
  function Prepare(wd: Result<string>, env: Environment, refSts: Image.Sts): (r: Result<(string, string)>)
    ensures wd.Err? ==> r == Err("failed to detect project name: " + wd.msg)
    ensures wd.Ok? ==> (r.Ok? <==> Image.GenerateImageRef(ProjectName(wd).value, env, refSts).Ok?)
    ensures r.Ok? ==> && wd.Ok? && r.value.0 == ProjectName(wd).value
                      && r.value.1 == Image.GenerateImageRef(r.value.0, env, refSts).value
  {
    match ProjectName(wd)
    case Err(e) => Err("failed to detect project name: " + e)
    case Ok(project) =>
      match Image.GenerateImageRef(project, env, refSts)
      case Err(e) => Err("failed to generate image reference: " + e)
      case Ok(image) => Ok((project, image))
  }

  /** The whole command. */
  function DeployRun(f: DeployFlags, w: World, secrets: map<SecretKey, Data>): Outcome
    requires WellFormed(f, w)
  {
    match Prepare(w.wd, w.env, w.refSts)
    case Err(e) => Outcome([], Failure(e), [], secrets)
    case Ok((project, image)) => Deliver(f, w, project, image, Deliveries(f, w, project, image), secrets)
  }

  /* ---------------------------------------------------------------------- */
  /* The command as it runs                                                 */
  /* ---------------------------------------------------------------------- */

  /** The RunE body: the same steps with early returns, writing the Secrets
      through the store. */
  method Deploy(f: DeployFlags, w: World, store: SecretStore) returns (o: Outcome)
    requires WellFormed(f, w)
    modifies store
    ensures o.secrets == store.secrets
    ensures o == DeployRun(f, w, old(store.secrets))
  {
    var project: string;
    match ProjectName(w.wd) {
      case Err(e) => return Outcome([], Failure("failed to detect project name: " + e), [], store.secrets);
      case Ok(p) => project := p;
    }
    var image: string;
    match Image.GenerateImageRef(project, w.env, w.refSts) {
      case Err(e) => return Outcome([], Failure("failed to generate image reference: " + e), [], store.secrets);
      case Ok(i) => image := i;
    }
    assert Prepare(w.wd, w.env, w.refSts) == Ok((project, image));
    o := DeliverAndAttach(f, w, project, image, store);
  }

  /** Build, push, apply and ECR permissions, then the attachments. */
  method DeliverAndAttach(f: DeployFlags, w: World, project: string, image: string, store: SecretStore) returns (o: Outcome)
    requires WellFormed(f, w)
    modifies store
    ensures o.secrets == store.secrets
    ensures o == Deliver(f, w, project, image, Deliveries(f, w, project, image), old(store.secrets))
  {
    ghost var d := Deliveries(f, w, project, image);
    var ns := DefaultNamespace(f.namespace);

    var b := Build.BuildApplication(".", image, f.envs, w.build);
    assert b == d.build;
    if b.result.Failure? {
      return Outcome([BuildStep(b.runs)], Failure("build failed: " + b.result.reason), [], store.secrets);
    }

    var pushed := Image.PushImage(image, w.env, w.push);
    assert pushed == d.push;
    if pushed.Err? {
      return Outcome([BuildStep(b.runs)] + [PushStep(image)], Failure("push failed: " + pushed.msg), [], store.secrets);
    }

    var inv := Service.ApplyInvocation(project, image, ns, f.cpu, f.mem, Pairs.EnvMap(f.envs), f.kubecontext, f.port, w.envOrder);
    assert inv == d.apply;
    if w.apply.Failure? {
      return Outcome([BuildStep(b.runs)] + [PushStep(image)] + [ApplyStep(inv)],
                     Failure("deploy failed: " + w.apply.reason), [], store.secrets);
    }

    var warnings := EcrWarnings(w.ecrPermissions);
    o := AttachAll(f, w.clientOk, project, ns, image, store, Delivered(Delivery(b, pushed, inv), image));
    o := o.(warnings := warnings);
  }

  /** The optional attachments and the report, against the store. */
  method AttachAll(f: DeployFlags, clientOk: bool, project: string, ns: string, image: string, store: SecretStore,
                   steps0: seq<Step>) returns (o: Outcome)
    modifies store
    ensures o.secrets == store.secrets
    ensures o == Attach(f, clientOk, project, ns, image, steps0, old(store.secrets))
  {
    var steps := steps0;
    var r := Success;
    if f.dbHost != "" {
      steps := steps + [DatabaseStep(SecretKey(ns, DatabaseSecretName(project)))];
      r := AttachDatabase(store, clientOk, project, ns, f.dbUser, f.dbPassword, f.dbHost, f.dbPort, f.dbName);
    }
    assert Write(r, store.secrets) == DatabaseStage(f, clientOk, project, ns, old(store.secrets));
    if r.Failure? {
      return Outcome(steps, Failure("database attach failed: " + r.reason), [], store.secrets);
    }
    ghost var afterDatabase := store.secrets;
    if f.redisHost != "" {
      steps := steps + [RedisStep(SecretKey(ns, RedisSecretName(project)))];
      r := AttachRedis(store, clientOk, project, ns, f.redisHost, f.redisPort, f.redisPassword);
    }
    assert Write(r, store.secrets) == RedisStage(f, clientOk, project, ns, afterDatabase);
    if r.Failure? {
      return Outcome(steps, Failure("redis attach failed: " + r.reason), [], store.secrets);
    }
    ghost var afterRedis := store.secrets;
    if |f.secrets| > 0 {
      steps := steps + [SecretsStep(SecretKey(ns, ProjectSecretsName(project)))];
      r := CreateSecrets(store, clientOk, project, ns, f.secrets);
    }
    assert Write(r, store.secrets) == SecretsStage(f, clientOk, project, ns, afterRedis);
    if r.Failure? {
      return Outcome(steps, Failure("secrets creation failed: " + r.reason), [], store.secrets);
    }
    if f.serverUrl != "" {
      // The report's own result is discarded.
      steps := steps + [ReportStep(project, ns, image)];
    }
    return Outcome(steps, Success, [], store.secrets);
  }

  /* ---------------------------------------------------------------------- */
  /* Step order                                                             */
  /* ---------------------------------------------------------------------- */

  predicate RanksBelow(steps: seq<Step>, n: nat) {
    forall i :: 0 <= i < |steps| ==> Rank(steps[i]) < n
  }

  /** Appending a step of a later kind keeps the order. */
  lemma AppendInOrder(steps: seq<Step>, s: Step, n: nat)
    requires InOrder(steps) && RanksBelow(steps, Rank(s)) && Rank(s) < n
    ensures InOrder(steps + [s]) && RanksBelow(steps + [s], n)
  {
    var t := steps + [s];
    forall i, j | 0 <= i < j < |t| ensures Rank(t[i]) < Rank(t[j]) {
      assert t[i] == steps[i];
    }
  }

  lemma FromReportInOrder(f: DeployFlags, project: string, ns: string, image: string,
                          steps: seq<Step>, secrets: map<SecretKey, Data>)
    requires InOrder(steps) && RanksBelow(steps, 7)
    ensures InOrder(FromReport(f, project, ns, image, steps, secrets).steps)
  {
    if f.serverUrl != "" { AppendInOrder(steps, ReportStep(project, ns, image), 8); }
  }

  lemma FromSecretsInOrder(f: DeployFlags, clientOk: bool, project: string, ns: string, image: string,
                           steps: seq<Step>, secrets: map<SecretKey, Data>)
    requires InOrder(steps) && RanksBelow(steps, 6)
    ensures InOrder(FromSecrets(f, clientOk, project, ns, image, steps, secrets).steps)
  {
    var s := SecretsStage(f, clientOk, project, ns, secrets);
    var next := if |f.secrets| == 0 then steps else steps + [SecretsStep(SecretKey(ns, ProjectSecretsName(project)))];
    if |f.secrets| != 0 { AppendInOrder(steps, SecretsStep(SecretKey(ns, ProjectSecretsName(project))), 7); }
    if s.result.Success? { FromReportInOrder(f, project, ns, image, next, s.secrets); }
  }

  lemma FromRedisInOrder(f: DeployFlags, clientOk: bool, project: string, ns: string, image: string,
                         steps: seq<Step>, secrets: map<SecretKey, Data>)
    requires InOrder(steps) && RanksBelow(steps, 5)
    ensures InOrder(FromRedis(f, clientOk, project, ns, image, steps, secrets).steps)
  {
    var r := RedisStage(f, clientOk, project, ns, secrets);
    var next := if f.redisHost == "" then steps else steps + [RedisStep(SecretKey(ns, RedisSecretName(project)))];
    if f.redisHost != "" { AppendInOrder(steps, RedisStep(SecretKey(ns, RedisSecretName(project))), 6); }
    if r.result.Success? { FromSecretsInOrder(f, clientOk, project, ns, image, next, r.secrets); }
  }

  lemma AttachInOrder(f: DeployFlags, clientOk: bool, project: string, ns: string, image: string,
                      steps: seq<Step>, secrets: map<SecretKey, Data>)
    requires InOrder(steps) && RanksBelow(steps, 4)
    ensures InOrder(Attach(f, clientOk, project, ns, image, steps, secrets).steps)
  {
    var d := DatabaseStage(f, clientOk, project, ns, secrets);
    var next := if f.dbHost == "" then steps else steps + [DatabaseStep(SecretKey(ns, DatabaseSecretName(project)))];
    if f.dbHost != "" { AppendInOrder(steps, DatabaseStep(SecretKey(ns, DatabaseSecretName(project))), 5); }
    if d.result.Success? { FromRedisInOrder(f, clientOk, project, ns, image, next, d.secrets); }
  }

  /** A delivery either stops within its first three steps or goes on with
      all four of them to the attachments. */
  lemma DeliverShape(f: DeployFlags, w: World, project: string, image: string, d: Delivery, secrets: map<SecretKey, Data>)
    ensures var o := Deliver(f, w, project, image, d, secrets);
            var pre := Delivered(d, image);
            || (1 <= |o.steps| <= 3 && o.steps == pre[..|o.steps|] && o.result.Failure? && o.warnings == [] && o.secrets == secrets)
            || o == Attach(f, w.clientOk, project, DefaultNamespace(f.namespace), image, pre, secrets)
                      .(warnings := EcrWarnings(w.ecrPermissions))
  {
    var pre := Delivered(d, image);
    if d.build.result.Failure? {
      assert [BuildStep(d.build.runs)] == pre[..1];
    } else if d.push.Err? {
      assert [BuildStep(d.build.runs), PushStep(image)] == pre[..2];
    } else if w.apply.Failure? {
      assert [BuildStep(d.build.runs), PushStep(image), ApplyStep(d.apply)] == pre[..3];
    }
  }

  lemma DeliverInOrder(f: DeployFlags, w: World, project: string, image: string, d: Delivery, secrets: map<SecretKey, Data>)
    ensures InOrder(Deliver(f, w, project, image, d, secrets).steps)
  {
    var pre := Delivered(d, image);
    assert InOrder(pre) && RanksBelow(pre, 4);
    DeliverShape(f, w, project, image, d, secrets);
    AttachInOrder(f, w.clientOk, project, DefaultNamespace(f.namespace), image, pre, secrets);
  }

  /** The command attempts its steps strictly in the order build, push,
      apply, ECR permissions, database, Redis, secrets, report. */
  lemma StepsInOrder(f: DeployFlags, w: World, secrets: map<SecretKey, Data>)
    requires WellFormed(f, w)
    ensures InOrder(DeployRun(f, w, secrets).steps)
  {
    match Prepare(w.wd, w.env, w.refSts)
    case Err(_) =>
    case Ok((project, image)) =>
      DeliverInOrder(f, w, project, image, Deliveries(f, w, project, image), secrets);
  }

  /* ---------------------------------------------------------------------- */
  /* What the attachments may change                                        */
  /* ---------------------------------------------------------------------- */

  /** The command's own Secrets: `<project>-db`, `<project>-redis` and
      `<project>-secrets` in its namespace. */
  function Own(project: string, ns: string): set<SecretKey> {
    {SecretKey(ns, DatabaseSecretName(project)), SecretKey(ns, RedisSecretName(project)),
     SecretKey(ns, ProjectSecretsName(project))}
  }

  /** Nothing is removed, and only the given keys may change. */
  predicate ChangesOnly(before: map<SecretKey, Data>, after: map<SecretKey, Data>, keys: set<SecretKey>) {
    && before.Keys <= after.Keys
    && forall k :: k in after && k !in keys ==> k in before && after[k] == before[k]
  }

  lemma ChangesOnlyTrans(a: map<SecretKey, Data>, b: map<SecretKey, Data>, c: map<SecretKey, Data>, keys: set<SecretKey>)
    requires ChangesOnly(a, b, keys) && ChangesOnly(b, c, keys)
    ensures ChangesOnly(a, c, keys)
  {
  }

  /** Each optional writer changes at most the command's own Secrets. */
  lemma StagesChangeOnlyOwn(f: DeployFlags, clientOk: bool, project: string, ns: string, secrets: map<SecretKey, Data>)
    requires ns != ""
    ensures ChangesOnly(secrets, DatabaseStage(f, clientOk, project, ns, secrets).secrets, Own(project, ns))
    ensures ChangesOnly(secrets, RedisStage(f, clientOk, project, ns, secrets).secrets, Own(project, ns))
    ensures ChangesOnly(secrets, SecretsStage(f, clientOk, project, ns, secrets).secrets, Own(project, ns))
  {
    var own := Own(project, ns);
    if clientOk && f.dbHost != "" {
      UpsertChangesOnly(secrets, SecretKey(DefaultNamespace(ns), DatabaseSecretName(project)),
                        DatabaseData(f.dbUser, f.dbPassword, f.dbHost, f.dbPort, f.dbName), own);
    }
    if clientOk && f.redisHost != "" {
      UpsertChangesOnly(secrets, SecretKey(DefaultNamespace(ns), RedisSecretName(project)),
                        RedisData(f.redisPassword, f.redisHost, f.redisPort), own);
    }
    if clientOk && |f.secrets| > 0 && forall i :: 0 <= i < |f.secrets| ==> '=' in f.secrets[i] {
      UpsertChangesOnly(secrets, SecretKey(DefaultNamespace(ns), ProjectSecretsName(project)),
                        Pairs.EnvMap(f.secrets), own);
    }
  }

  lemma UpsertChangesOnly(secrets: map<SecretKey, Data>, key: SecretKey, data: Data, keys: set<SecretKey>)
    requires key in keys
    ensures ChangesOnly(secrets, Upsert(secrets, key, data), keys)
  {
  }

  /** From the report on: the steps only grow, the result is success and
      the report is the last step exactly when a server was given. */
  lemma FromReportFacts(f: DeployFlags, project: string, ns: string, image: string,
                        steps: seq<Step>, secrets: map<SecretKey, Data>)
    requires RanksBelow(steps, 7)
    ensures var o := FromReport(f, project, ns, image, steps, secrets);
            && steps <= o.steps && o.secrets == secrets && o.warnings == [] && o.result == Success
            && (f.serverUrl != "" <==> |o.steps| > 0 && o.steps[|o.steps| - 1].ReportStep?)
  {
    if |steps| > 0 { assert Rank(steps[|steps| - 1]) < 7; }
  }

  lemma FromSecretsFacts(f: DeployFlags, clientOk: bool, project: string, ns: string, image: string,
                         steps: seq<Step>, secrets: map<SecretKey, Data>)
    requires ns != "" && RanksBelow(steps, 6)
    ensures var o := FromSecrets(f, clientOk, project, ns, image, steps, secrets);
            && steps <= o.steps && o.warnings == []
            && ChangesOnly(secrets, o.secrets, Own(project, ns))
            && (o.secrets != secrets ==> |o.steps| > |steps|)
            && (o.result.Success? && f.serverUrl != "" <==> |o.steps| > 0 && o.steps[|o.steps| - 1].ReportStep?)
  {
    var st := SecretsStage(f, clientOk, project, ns, secrets);
    var next := if |f.secrets| == 0 then steps else steps + [SecretsStep(SecretKey(ns, ProjectSecretsName(project)))];
    assert RanksBelow(next, 7);
    StagesChangeOnlyOwn(f, clientOk, project, ns, secrets);
    if st.result.Success? {
      FromReportFacts(f, project, ns, image, next, st.secrets);
    }
  }

  lemma FromRedisFacts(f: DeployFlags, clientOk: bool, project: string, ns: string, image: string,
                       steps: seq<Step>, secrets: map<SecretKey, Data>)
    requires ns != "" && RanksBelow(steps, 5)
    ensures var o := FromRedis(f, clientOk, project, ns, image, steps, secrets);
            && steps <= o.steps && o.warnings == []
            && ChangesOnly(secrets, o.secrets, Own(project, ns))
            && (o.secrets != secrets ==> |o.steps| > |steps|)
            && (o.result.Success? && f.serverUrl != "" <==> |o.steps| > 0 && o.steps[|o.steps| - 1].ReportStep?)
  {
    var st := RedisStage(f, clientOk, project, ns, secrets);
    var next := if f.redisHost == "" then steps else steps + [RedisStep(SecretKey(ns, RedisSecretName(project)))];
    assert RanksBelow(next, 6);
    StagesChangeOnlyOwn(f, clientOk, project, ns, secrets);
    if st.result.Success? {
      FromSecretsFacts(f, clientOk, project, ns, image, next, st.secrets);
      ChangesOnlyTrans(secrets, st.secrets, FromSecrets(f, clientOk, project, ns, image, next, st.secrets).secrets, Own(project, ns));
    }
  }

  lemma AttachFacts(f: DeployFlags, clientOk: bool, project: string, ns: string, image: string,
                    steps: seq<Step>, secrets: map<SecretKey, Data>)
    requires ns != "" && RanksBelow(steps, 4)
    ensures var o := Attach(f, clientOk, project, ns, image, steps, secrets);
            && steps <= o.steps && o.warnings == []
            && ChangesOnly(secrets, o.secrets, Own(project, ns))
            && (o.secrets != secrets ==> |o.steps| > |steps|)
            && (o.result.Success? && f.serverUrl != "" <==> |o.steps| > 0 && o.steps[|o.steps| - 1].ReportStep?)
  {
    var st := DatabaseStage(f, clientOk, project, ns, secrets);
    var next := if f.dbHost == "" then steps else steps + [DatabaseStep(SecretKey(ns, DatabaseSecretName(project)))];
    assert RanksBelow(next, 5);
    StagesChangeOnlyOwn(f, clientOk, project, ns, secrets);
    if st.result.Success? {
      var o := FromRedis(f, clientOk, project, ns, image, next, st.secrets);
      assert Attach(f, clientOk, project, ns, image, steps, secrets) == o;
      FromRedisFacts(f, clientOk, project, ns, image, next, st.secrets);
      ChangesOnlyTrans(secrets, st.secrets, o.secrets, Own(project, ns));
    }
  }

  /** The facts of a whole delivery. */
  lemma DeliverFacts(f: DeployFlags, w: World, project: string, image: string, d: Delivery, secrets: map<SecretKey, Data>)
    ensures var o := Deliver(f, w, project, image, d, secrets);
            var ns := DefaultNamespace(f.namespace);
            // Secrets are written only after the service is applied.
            && (o.secrets != secrets ==> |o.steps| > 4 && o.steps[..4] == Delivered(d, image) && w.apply.Success?)
            // And only the command's own ones.
            && ChangesOnly(secrets, o.secrets, Own(project, ns))
            // The report runs last, and only after a success with a server.
            && (o.result.Success? && f.serverUrl != "" <==> |o.steps| > 0 && o.steps[|o.steps| - 1].ReportStep?)
            // A failed pull-permission step is a warning, nothing more.
            && o.warnings == (if |o.steps| > 3 then EcrWarnings(w.ecrPermissions) else [])
  {
    DeliverWrites(f, w, project, image, d, secrets);
    DeliverEnds(f, w, project, image, d, secrets);
  }

  /** Where and when a delivery writes Secrets. */
  lemma DeliverWrites(f: DeployFlags, w: World, project: string, image: string, d: Delivery, secrets: map<SecretKey, Data>)
    ensures var o := Deliver(f, w, project, image, d, secrets);
            && (o.secrets != secrets ==> |o.steps| > 4 && o.steps[..4] == Delivered(d, image) && w.apply.Success?)
            && ChangesOnly(secrets, o.secrets, Own(project, DefaultNamespace(f.namespace)))
  {
    DeliverShape(f, w, project, image, d, secrets);
    var pre := Delivered(d, image);
    assert RanksBelow(pre, 4);
    AttachFacts(f, w.clientOk, project, DefaultNamespace(f.namespace), image, pre, secrets);
  }

  /** How a delivery ends: the report and the warnings. */
  lemma DeliverEnds(f: DeployFlags, w: World, project: string, image: string, d: Delivery, secrets: map<SecretKey, Data>)
    ensures var o := Deliver(f, w, project, image, d, secrets);
            && (o.result.Success? && f.serverUrl != "" <==> |o.steps| > 0 && o.steps[|o.steps| - 1].ReportStep?)
            && o.warnings == (if |o.steps| > 3 then EcrWarnings(w.ecrPermissions) else [])
  {
    DeliverShape(f, w, project, image, d, secrets);
    var pre := Delivered(d, image);
    assert RanksBelow(pre, 4);
    AttachFacts(f, w.clientOk, project, DefaultNamespace(f.namespace), image, pre, secrets);
  }

  lemma DeliverIgnoresPermissions(f: DeployFlags, w: World, e: Exit, project: string, image: string,
                                  d: Delivery, secrets: map<SecretKey, Data>)
    ensures var a := Deliver(f, w, project, image, d, secrets);
            var b := Deliver(f, w.(ecrPermissions := e), project, image, d, secrets);
            a.steps == b.steps && a.result == b.result && a.secrets == b.secrets
  {
  }

  lemma DeliveriesIgnorePermissions(f: DeployFlags, w: World, e: Exit, project: string, image: string)
    requires WellFormed(f, w)
    ensures Deliveries(f, w.(ecrPermissions := e), project, image) == Deliveries(f, w, project, image)
  {
  }

  /** Whether the pull permissions could be configured changes neither the
      steps, nor the result, nor the Secrets. */
  lemma EcrPermissionsOnlyWarn(f: DeployFlags, w: World, e: Exit, secrets: map<SecretKey, Data>)
    requires WellFormed(f, w)
    ensures var a := DeployRun(f, w, secrets);
            var b := DeployRun(f, w.(ecrPermissions := e), secrets);
            a.steps == b.steps && a.result == b.result && a.secrets == b.secrets
  {
    var w' := w.(ecrPermissions := e);
    assert WellFormed(f, w');
    match Prepare(w.wd, w.env, w.refSts)
    case Err(_) =>
    case Ok((project, image)) =>
      var d := Deliveries(f, w, project, image);
      DeliveriesIgnorePermissions(f, w, e, project, image);
      DeliverIgnoresPermissions(f, w, e, project, image, d, secrets);
      assert DeployRun(f, w, secrets) == Deliver(f, w, project, image, d, secrets);
      assert DeployRun(f, w', secrets) == Deliver(f, w', project, image, d, secrets);
  }

  /** Secrets change only after the service has been applied and the
      pull-permission step has run. */
  lemma SecretsOnlyAfterApply(f: DeployFlags, w: World, secrets: map<SecretKey, Data>)
    requires WellFormed(f, w)
    ensures var o := DeployRun(f, w, secrets);
            o.secrets != secrets ==> |o.steps| > 4 && o.steps[2].ApplyStep? && o.steps[3] == EcrPermissionsStep
                                     && w.apply.Success?
  {
    match Prepare(w.wd, w.env, w.refSts)
    case Err(_) =>
    case Ok((project, image)) =>
      var d := Deliveries(f, w, project, image);
      var o := Deliver(f, w, project, image, d, secrets);
      assert DeployRun(f, w, secrets) == o;
      DeliverWrites(f, w, project, image, d, secrets);
      DeliveredPrefix(o, d, image, secrets);
  }

  /** An outcome that starts with a whole delivery has applied the service
      and then run the pull-permission step. */
  lemma DeliveredPrefix(o: Outcome, d: Delivery, image: string, secrets: map<SecretKey, Data>)
    requires o.secrets != secrets ==> |o.steps| > 4 && o.steps[..4] == Delivered(d, image)
    ensures o.secrets != secrets ==> o.steps[2] == ApplyStep(d.apply) && o.steps[3] == EcrPermissionsStep
  {
    if o.secrets != secrets {
      assert o.steps[2] == o.steps[..4][2] && o.steps[3] == o.steps[..4][3];
    }
  }

  /** The command changes no Secret but its project's own three, in its
      namespace, and removes none. */
  lemma WritesOwnSecretsOnly(f: DeployFlags, w: World, secrets: map<SecretKey, Data>)
    requires WellFormed(f, w) && w.wd.Ok?
    ensures ChangesOnly(secrets, DeployRun(f, w, secrets).secrets,
                        Own(ProjectName(w.wd).value, DefaultNamespace(f.namespace)))
  {
    match Prepare(w.wd, w.env, w.refSts)
    case Err(_) =>
    case Ok((project, image)) =>
      DeliverFacts(f, w, project, image, Deliveries(f, w, project, image), secrets);
  }

  /** The report is attempted, as the last step, exactly when the command
      succeeds and a server was given. */
  lemma ReportLastOnSuccess(f: DeployFlags, w: World, secrets: map<SecretKey, Data>)
    requires WellFormed(f, w)
    ensures var o := DeployRun(f, w, secrets);
            o.result.Success? && f.serverUrl != "" <==> |o.steps| > 0 && o.steps[|o.steps| - 1].ReportStep?
  {
    match Prepare(w.wd, w.env, w.refSts)
    case Err(_) =>
    case Ok((project, image)) =>
      DeliverFacts(f, w, project, image, Deliveries(f, w, project, image), secrets);
  }

  /* ---------------------------------------------------------------------- */
  /* Runs that reach the attachments                                        */
  /* ---------------------------------------------------------------------- */

  /** The Secrets after every requested attachment has been written: the
      database, Redis and generic secrets, each an upsert of its own key. */
  function AttachedSecrets(f: DeployFlags, project: string, ns: string, secrets: map<SecretKey, Data>): map<SecretKey, Data> {
    var s1 := if f.dbHost == "" then secrets
              else Upsert(secrets, SecretKey(ns, DatabaseSecretName(project)),
                          DatabaseData(f.dbUser, f.dbPassword, f.dbHost, f.dbPort, f.dbName));
    var s2 := if f.redisHost == "" then s1
              else Upsert(s1, SecretKey(ns, RedisSecretName(project)), RedisData(f.redisPassword, f.redisHost, f.redisPort));
    if |f.secrets| == 0 then s2 else Upsert(s2, SecretKey(ns, ProjectSecretsName(project)), Pairs.EnvMap(f.secrets))
  }

  /** When every external step succeeds, the client can be built and every
      secret pair holds '=', the command succeeds and leaves exactly the
      requested Secrets written; a failed pull-permission step shows only
      as a warning. */
  lemma AllStepsSucceed(f: DeployFlags, w: World, project: string, image: string, d: Delivery, secrets: map<SecretKey, Data>)
    requires d.build.result.Success? && d.push.Ok? && w.apply.Success? && w.clientOk
    requires forall i :: 0 <= i < |f.secrets| ==> '=' in f.secrets[i]
    ensures var o := Deliver(f, w, project, image, d, secrets);
            && o.result == Success
            && o.secrets == AttachedSecrets(f, project, DefaultNamespace(f.namespace), secrets)
            && o.warnings == EcrWarnings(w.ecrPermissions)
  {
    var ns := DefaultNamespace(f.namespace);
    var pre := Delivered(d, image);
    var s1 := DatabaseStage(f, true, project, ns, secrets);
    var steps1 := if f.dbHost == "" then pre else pre + [DatabaseStep(SecretKey(ns, DatabaseSecretName(project)))];
    var s2 := RedisStage(f, true, project, ns, s1.secrets);
    var steps2 := if f.redisHost == "" then steps1 else steps1 + [RedisStep(SecretKey(ns, RedisSecretName(project)))];
    var s3 := SecretsStage(f, true, project, ns, s2.secrets);
    assert s1.result == Success && s2.result == Success && s3.result == Success;
    assert Attach(f, true, project, ns, image, pre, secrets) == FromRedis(f, true, project, ns, image, steps1, s1.secrets);
    assert FromRedis(f, true, project, ns, image, steps1, s1.secrets) == FromSecrets(f, true, project, ns, image, steps2, s2.secrets);
  }

  /** The command as written aborts when an attachment fails, although the
      service has already been applied: the database attachment failing for
      want of a cluster client ends the run with a failure after five
      steps, the third of which applied the service. */
  lemma AttachmentFailureAborts(f: DeployFlags, w: World, project: string, image: string, d: Delivery, secrets: map<SecretKey, Data>)
    requires d.build.result.Success? && d.push.Ok? && w.apply.Success?
    requires f.dbHost != "" && !w.clientOk
    ensures var o := Deliver(f, w, project, image, d, secrets);
            && o.result == Failure("database attach failed: " + ClientError)
            && o.steps == Delivered(d, image) + [DatabaseStep(SecretKey(DefaultNamespace(f.namespace), DatabaseSecretName(project)))]
            && o.steps[2] == ApplyStep(d.apply)
            && o.secrets == secrets
  {
  }

  /** Likewise a failing Redis attachment: without a cluster client (and
      with no database asked for, which would have failed first) the run
      ends after the Redis step with its prefixed failure; the secrets and
      the report do not run. */
  lemma RedisFailureAborts(f: DeployFlags, w: World, project: string, image: string, d: Delivery, secrets: map<SecretKey, Data>)
    requires d.build.result.Success? && d.push.Ok? && w.apply.Success?
    requires f.dbHost == "" && f.redisHost != "" && !w.clientOk
    ensures var o := Deliver(f, w, project, image, d, secrets);
            && o.result == Failure("redis attach failed: " + ClientError)
            && o.steps == Delivered(d, image) + [RedisStep(SecretKey(DefaultNamespace(f.namespace), RedisSecretName(project)))]
            && o.secrets == secrets
  {
    var pre := Delivered(d, image);
    var ns := DefaultNamespace(f.namespace);
    assert Attach(f, false, project, ns, image, pre, secrets) == FromRedis(f, false, project, ns, image, pre, secrets);
  }

  /** A failing secrets step without a client (nothing earlier asked for)
      ends the run after it, with its prefixed failure and no Secret
      written. */
  lemma SecretsClientFailureAborts(f: DeployFlags, w: World, project: string, image: string, d: Delivery, secrets: map<SecretKey, Data>)
    requires d.build.result.Success? && d.push.Ok? && w.apply.Success?
    requires f.dbHost == "" && f.redisHost == "" && |f.secrets| > 0 && !w.clientOk
    ensures var o := Deliver(f, w, project, image, d, secrets);
            && o.result == Failure("secrets creation failed: " + ClientError)
            && o.steps == Delivered(d, image) + [SecretsStep(SecretKey(DefaultNamespace(f.namespace), ProjectSecretsName(project)))]
            && o.secrets == secrets
  {
    var ns := DefaultNamespace(f.namespace);
    var pre := Delivered(d, image);
    assert Attach(f, false, project, ns, image, pre, secrets) == FromRedis(f, false, project, ns, image, pre, secrets);
    assert FromRedis(f, false, project, ns, image, pre, secrets) == FromSecrets(f, false, project, ns, image, pre, secrets);
  }

  /** A secret pair without '=' aborts the run at the secrets step, after
      the database and Redis Secrets asked for have been written: the
      failure names a bad pair, the report does not run, and the generic
      Secret is not written. */
  lemma BadSecretPairAborts(f: DeployFlags, w: World, project: string, image: string, d: Delivery, secrets: map<SecretKey, Data>)
    requires d.build.result.Success? && d.push.Ok? && w.apply.Success? && w.clientOk
    requires exists i :: 0 <= i < |f.secrets| && '=' !in f.secrets[i]
    ensures var o := Deliver(f, w, project, image, d, secrets);
            var ns := DefaultNamespace(f.namespace);
            && (exists i :: 0 <= i < |f.secrets| && '=' !in f.secrets[i]
                            && o.result == Failure("secrets creation failed: " + InvalidSecretPair + f.secrets[i]))
            && |o.steps| > 4 && o.steps[|o.steps| - 1] == SecretsStep(SecretKey(ns, ProjectSecretsName(project)))
            && o.secrets == AttachedSecrets(f.(secrets := []), project, ns, secrets)
  {
    var ns := DefaultNamespace(f.namespace);
    var pre := Delivered(d, image);
    var s1 := DatabaseStage(f, true, project, ns, secrets);
    var steps1 := if f.dbHost == "" then pre else pre + [DatabaseStep(SecretKey(ns, DatabaseSecretName(project)))];
    var s2 := RedisStage(f, true, project, ns, s1.secrets);
    var steps2 := if f.redisHost == "" then steps1 else steps1 + [RedisStep(SecretKey(ns, RedisSecretName(project)))];
    assert s1.result == Success && s2.result == Success;
    assert Attach(f, true, project, ns, image, pre, secrets) == FromRedis(f, true, project, ns, image, steps1, s1.secrets);
    assert FromRedis(f, true, project, ns, image, steps1, s1.secrets) == FromSecrets(f, true, project, ns, image, steps2, s2.secrets);
    FromSecretsBadPair(f, project, ns, image, steps2, s2.secrets);
  }

  lemma FromSecretsBadPair(f: DeployFlags, project: string, ns: string, image: string,
                           steps: seq<Step>, secrets: map<SecretKey, Data>)
    requires exists i :: 0 <= i < |f.secrets| && '=' !in f.secrets[i]
    ensures var o := FromSecrets(f, true, project, ns, image, steps, secrets);
            && (exists i :: 0 <= i < |f.secrets| && '=' !in f.secrets[i]
                            && o.result == Failure("secrets creation failed: " + InvalidSecretPair + f.secrets[i]))
            && o.steps == steps + [SecretsStep(SecretKey(ns, ProjectSecretsName(project)))]
            && o.secrets == secrets
  {
    var w := SecretsStage(f, true, project, ns, secrets);
    assert |f.secrets| > 0;
    assert w == SecretsWrite(true, project, ns, f.secrets, secrets);
  }

  /** A step that writes or reports is one the flags asked for. */
  predicate Asked(f: DeployFlags, s: Step) {
    match s
    case DatabaseStep(_) => f.dbHost != ""
    case RedisStep(_) => f.redisHost != ""
    case SecretsStep(_) => |f.secrets| > 0
    case ReportStep(_, _, _) => f.serverUrl != ""
    case _ => true
  }

  predicate AllAsked(f: DeployFlags, steps: seq<Step>) {
    forall s :: s in steps ==> Asked(f, s)
  }

  /** Every attachment step and the report run only when their flag is
      set. */
  lemma StepsOnlyWhenAsked(f: DeployFlags, w: World, secrets: map<SecretKey, Data>)
    requires WellFormed(f, w)
    ensures AllAsked(f, DeployRun(f, w, secrets).steps)
  {
    match Prepare(w.wd, w.env, w.refSts)
    case Err(_) =>
    case Ok((project, image)) =>
      var d := Deliveries(f, w, project, image);
      var o := Deliver(f, w, project, image, d, secrets);
      assert DeployRun(f, w, secrets) == o;
      DeliverAsked(f, w, project, image, d, secrets);
  }

  lemma DeliverAsked(f: DeployFlags, w: World, project: string, image: string, d: Delivery, secrets: map<SecretKey, Data>)
    ensures AllAsked(f, Deliver(f, w, project, image, d, secrets).steps)
  {
    var pre := Delivered(d, image);
    DeliverShape(f, w, project, image, d, secrets);
    assert AllAsked(f, pre);
    AttachAsked(f, w.clientOk, project, DefaultNamespace(f.namespace), image, pre, secrets);
  }

  lemma AttachAsked(f: DeployFlags, clientOk: bool, project: string, ns: string, image: string,
                    steps: seq<Step>, secrets: map<SecretKey, Data>)
    requires AllAsked(f, steps)
    ensures AllAsked(f, Attach(f, clientOk, project, ns, image, steps, secrets).steps)
  {
    var st := DatabaseStage(f, clientOk, project, ns, secrets);
    var next := if f.dbHost == "" then steps else steps + [DatabaseStep(SecretKey(ns, DatabaseSecretName(project)))];
    assert AllAsked(f, next);
    if st.result.Success? {
      FromRedisAsked(f, clientOk, project, ns, image, next, st.secrets);
    }
  }

  lemma FromRedisAsked(f: DeployFlags, clientOk: bool, project: string, ns: string, image: string,
                       steps: seq<Step>, secrets: map<SecretKey, Data>)
    requires AllAsked(f, steps)
    ensures AllAsked(f, FromRedis(f, clientOk, project, ns, image, steps, secrets).steps)
  {
    var st := RedisStage(f, clientOk, project, ns, secrets);
    var next := if f.redisHost == "" then steps else steps + [RedisStep(SecretKey(ns, RedisSecretName(project)))];
    assert AllAsked(f, next);
    if st.result.Success? {
      FromSecretsAsked(f, clientOk, project, ns, image, next, st.secrets);
    }
  }

  lemma FromSecretsAsked(f: DeployFlags, clientOk: bool, project: string, ns: string, image: string,
                         steps: seq<Step>, secrets: map<SecretKey, Data>)
    requires AllAsked(f, steps)
    ensures AllAsked(f, FromSecrets(f, clientOk, project, ns, image, steps, secrets).steps)
  {
    var next := if |f.secrets| == 0 then steps else steps + [SecretsStep(SecretKey(ns, ProjectSecretsName(project)))];
    assert AllAsked(f, next);
    var report := if f.serverUrl == "" then next else next + [ReportStep(project, ns, image)];
    assert AllAsked(f, report);
  }
}

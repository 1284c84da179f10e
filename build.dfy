/** The build stage: buildApplication (cmd/deployer/deploy.go:421-448) tries
    the pack CLI and falls back to a Docker build whose Dockerfile
    createDockerfile (cmd/deployer/deploy.go:463-507) chooses from the
    marker files in the application directory. */
module Build {

  import opened Wrappers
  import opened Os
  import Text

  /* ---------------------------------------------------------------------- */
  /* createDockerfile                                                       */
  /* ---------------------------------------------------------------------- */

  datatype Runtime = Node | Python | Golang | Plain

  /** The first marker present decides: package.json, then requirements.txt,
      then go.mod; with none of them, a plain alpine image. */
  function DetectRuntime(files: set<string>): (r: Runtime)
    ensures r == Node <==> "package.json" in files
    ensures r == Python <==> "package.json" !in files && "requirements.txt" in files
    ensures r == Golang <==> "package.json" !in files && "requirements.txt" !in files && "go.mod" in files
    ensures r == Plain <==> "package.json" !in files && "requirements.txt" !in files && "go.mod" !in files
  {
    if "package.json" in files then Node
    else if "requirements.txt" in files then Python
    else if "go.mod" in files then Golang
    else Plain
  }

  /** One Dockerfile instruction, or a blank line. */
  datatype Instruction =
    | From(image: string)
    | Workdir(dir: string)
    | Copy(args: string)
    | Run(command: string)
    | Expose(port: nat)
    | Cmd(argv: seq<string>)
    | Blank

  /** The Dockerfile templates, one instruction per line. */
  function Template(r: Runtime): seq<Instruction> {
    match r
    case Node => [
      From("node:18-alpine"),
      Workdir("/app"),
      Copy("package*.json ./"),
      Run("npm install --omit=dev"),
      Copy(". ."),
      Expose(8080),
      Cmd(["node", "server.js"])]
    case Python => [
      From("python:3.11-slim"),
      Run("apt-get update && apt-get install -y gcc && rm -rf /var/lib/apt/lists/*"),
      Workdir("/app"),
      Copy("requirements.txt ."),
      Run("pip install --no-cache-dir -r requirements.txt"),
      Copy(". ."),
      Expose(8080),
      Cmd(["gunicorn", "--bind", "0.0.0.0:8080", "app:app"])]
    case Golang => [
      From("golang:1.21-alpine AS builder"),
      Workdir("/app"),
      Copy("go.mod ./"),
      Run("go mod download"),
      Copy(". ."),
      Run("go build -o main ."),
      Blank,
      From("alpine:latest"),
      Run("apk add --no-cache ca-certificates"),
      Workdir("/root/"),
      Copy("--from=builder /app/main ."),
      Expose(8080),
      Cmd(["./main"])]
    case Plain => [
      From("alpine:latest"),
      Workdir("/app"),
      Copy(". ."),
      Expose(8080),
      Cmd(["echo", "No specific buildpack detected, using default"])]
  }

  /** The text of one line: the keyword and its operands, CMD in exec form. */
  function RenderInstruction(i: Instruction): string {
    match i
    case From(image) => "FROM " + image
    case Workdir(dir) => "WORKDIR " + dir
    case Copy(args) => "COPY " + args
    case Run(command) => "RUN " + command
    case Expose(port) => "EXPOSE " + Text.NatToString(port)
    case Cmd(argv) => "CMD [" + QuotedList(argv) + "]"
    case Blank => ""
  }

  function QuotedList(argv: seq<string>): string {
    if argv == [] then ""
    else if |argv| == 1 then "\"" + argv[0] + "\""
    else "\"" + argv[0] + "\", " + QuotedList(argv[1..])
  }

  /** The Dockerfile text: the rendered lines joined by newlines. */
  function DockerfileText(lines: seq<Instruction>): string {
    Text.Join(seq(|lines|, i requires 0 <= i < |lines| => RenderInstruction(lines[i])), "\n")
  }

  /** The shape every template shares: it starts from a base image, copies
      the application in, exposes port 8080 and ends with the command that
      starts it. */
  predicate Shaped(t: seq<Instruction>) {
    && Expose(8080) in t && Copy(". .") in t
    && |t| > 0 && t[0].From? && t[|t| - 1].Cmd?
  }

  /** Every Dockerfile the fallback can produce starts from a base image,
      copies the application in, exposes port 8080 and ends with the command
      that starts it. The base image follows the detected runtime: Node for
      package.json, then Python for requirements.txt, then Go for go.mod,
      and otherwise a plain alpine image that only says no buildpack was
      detected. */
  function CreateDockerfile(files: set<string>): (lines: seq<Instruction>)
    ensures Shaped(lines)
    ensures "package.json" in files ==> lines[0] == From("node:18-alpine")
    ensures "package.json" !in files && "requirements.txt" in files ==> lines[0] == From("python:3.11-slim")
    ensures "package.json" !in files && "requirements.txt" !in files && "go.mod" in files
            ==> lines[0] == From("golang:1.21-alpine AS builder")
    ensures "package.json" !in files && "requirements.txt" !in files && "go.mod" !in files
            ==> lines == [From("alpine:latest"), Workdir("/app"), Copy(". ."), Expose(8080),
                          Cmd(["echo", "No specific buildpack detected, using default"])]
  {
    var r := DetectRuntime(files);
    TemplateShape(r);
    TemplateBases();
    Template(r)
  }

  /** The base image of each template. */
  lemma TemplateBases()
    ensures Template(Node)[0] == From("node:18-alpine")
    ensures Template(Python)[0] == From("python:3.11-slim")
    ensures Template(Golang)[0] == From("golang:1.21-alpine AS builder")
    ensures Template(Plain) == [From("alpine:latest"), Workdir("/app"), Copy(". ."), Expose(8080),
                                Cmd(["echo", "No specific buildpack detected, using default"])]
  {
  }

  lemma TemplateShape(r: Runtime)
    ensures Shaped(Template(r))
  {
    match r
    case Node => NodeShaped();
    case Python => PythonShaped();
    case Golang => GolangShaped();
    case Plain => PlainShaped();
  }

  lemma NodeShaped()
    ensures Shaped(Template(Node)) && Template(Node)[0] == From("node:18-alpine")
  {
    ShapedAt(Template(Node), 4, 5);
  }
  lemma PythonShaped() ensures Shaped(Template(Python)) { ShapedAt(Template(Python), 5, 6); }
  lemma GolangShaped() ensures Shaped(Template(Golang)) { ShapedAt(Template(Golang), 4, 11); }
  lemma PlainShaped() ensures Shaped(Template(Plain)) { ShapedAt(Template(Plain), 2, 3); }

  lemma ShapedAt(t: seq<Instruction>, copy: nat, expose: nat)
    requires copy < |t| && t[copy] == Copy(". .") && expose < |t| && t[expose] == Expose(8080)
    requires t[0].From? && t[|t| - 1].Cmd?
    ensures Shaped(t)
  {
  }

  /* ---------------------------------------------------------------------- */
  /* Command lines                                                          */
  /* ---------------------------------------------------------------------- */

  /** "--env", e for every build entry, in order. */
  function EnvFlags(envs: seq<string>): (r: seq<string>)
    ensures |r| == 2 * |envs|
    ensures forall i :: 0 <= i < |envs| ==> r[2 * i] == "--env" && r[2 * i + 1] == envs[i]
  {
    if envs == [] then []
    else
      var rest := EnvFlags(envs[..|envs| - 1]);
      assert forall i :: 0 <= i < |envs| - 1 ==> (rest + ["--env", envs[|envs| - 1]])[2 * i] == rest[2 * i];
      rest + ["--env", envs[|envs| - 1]]
  }

  const Builder := "paketobuildpacks/builder:tiny"

  function PackArgs(image: string, appPath: string, envs: seq<string>): seq<string> {
    ["build", image, "--path", appPath, "--builder", Builder, "--pull-policy", "always", "--verbose"]
    + EnvFlags(envs)
  }

  /** The append loop that builds pack's arguments. */
  method BuildPackArgs(image: string, appPath: string, envs: seq<string>) returns (args: seq<string>)
    ensures args == PackArgs(image, appPath, envs)
  {
    args := ["build", image, "--path", appPath, "--builder", Builder, "--pull-policy", "always", "--verbose"];
    ghost var base := args;
    for i := 0 to |envs|
      invariant args == base + EnvFlags(envs[..i])
    {
      assert envs[..i + 1][..i] == envs[..i];
      args := args + ["--env", envs[i]];
    }
    assert envs[..|envs|] == envs;
  }

  /** buildWithDocker: the Docker build always targets linux/amd64 and
      reads its Dockerfile from standard input. */
  function BuildWithDocker(image: string, appPath: string, dockerfile: string): (inv: Invocation)
    ensures inv.program == "docker" && |inv.args| == 8 && inv.args[1] == "--platform" && inv.args[2] == "linux/amd64"
    ensures inv.args[5..] == ["-f", "-", appPath] && inv.stdin == dockerfile
  {
    Invocation("docker", ["build", "--platform", "linux/amd64", "-t", image, "-f", "-", appPath], dockerfile)
  }

  /** The Docker build of an application directory holding files. */
  function DockerBuild(image: string, appPath: string, files: set<string>): Invocation {
    BuildWithDocker(image, appPath, DockerfileText(CreateDockerfile(files)))
  }

  /* ---------------------------------------------------------------------- */
  /* buildApplication                                                       */
  /* ---------------------------------------------------------------------- */

  /** What the environment does with a build: where the pack CLI was found
      ("" when it was not), how pack ends, how docker build ends, and which
      files the application directory holds. */
  datatype BuildTools = BuildTools(packPath: string, pack: Exit, docker: Exit, files: set<string>)

  /** The commands buildApplication runs, in order, and its result. */
  datatype BuildRun = BuildRun(runs: seq<Invocation>, result: Exit)

  function PackBuild(image: string, appPath: string, envs: seq<string>, packPath: string): Invocation {
    Invocation(packPath, PackArgs(image, appPath, envs), "")
  }

  function BuildApplication(appPath: string, image: string, envs: seq<string>, t: BuildTools): (b: BuildRun)
    // Without a pack CLI only Docker runs, and its result is the result.
    ensures t.packPath == "" ==> b.runs == [DockerBuild(image, appPath, t.files)] && b.result == t.docker
    // A failing pack is followed by Docker, whose result is the result.
    ensures t.packPath != "" && t.pack.Failure? ==>
              && b.runs == [PackBuild(image, appPath, envs, t.packPath), DockerBuild(image, appPath, t.files)]
              && b.result == t.docker
    // A succeeding pack is the whole build: Docker never runs.
    ensures t.packPath != "" && t.pack.Success? ==>
              b.runs == [PackBuild(image, appPath, envs, t.packPath)] && b.result == Success
  {
    if t.packPath == "" then BuildRun([DockerBuild(image, appPath, t.files)], t.docker)
    else
      var pack := PackBuild(image, appPath, envs, t.packPath);
      if t.pack.Failure? then BuildRun([pack, DockerBuild(image, appPath, t.files)], t.docker)
      else BuildRun([pack], Success)
  }

  /** The build succeeds exactly when one of the two paths produced an
      image. */
  lemma BuildOutcome(appPath: string, image: string, envs: seq<string>, t: BuildTools)
    ensures var b := BuildApplication(appPath, image, envs, t);
            && (b.result.Success? <==> (t.packPath != "" && t.pack.Success?) || t.docker.Success?)
            && |b.runs| > 0
  {
  }

  /** The Docker build runs, last, exactly when pack was missing or
      failed. */
  lemma DockerRunsLastIffPackFailed(appPath: string, image: string, envs: seq<string>, t: BuildTools)
    ensures var b := BuildApplication(appPath, image, envs, t);
            |b.runs| > 0 &&
            (b.runs[|b.runs| - 1] == DockerBuild(image, appPath, t.files) <==> !(t.packPath != "" && t.pack.Success?))
  {
    if t.packPath != "" && t.pack.Success? {
      PackSuccessSkipsDocker(appPath, image, envs, t);
    }
  }

  /** A succeeding pack build is the only command run. */
  lemma PackSuccessSkipsDocker(appPath: string, image: string, envs: seq<string>, t: BuildTools)
    requires t.packPath != "" && t.pack.Success?
    ensures BuildApplication(appPath, image, envs, t).runs == [PackBuild(image, appPath, envs, t.packPath)]
    ensures DockerBuild(image, appPath, t.files) !in BuildApplication(appPath, image, envs, t).runs
  {
    PackIsNotDocker(image, appPath, envs, t.packPath, DockerfileText(CreateDockerfile(t.files)));
  }

  /** pack and Docker are never the same command, whatever the Dockerfile:
      their numbers of arguments differ. */
  lemma PackIsNotDocker(image: string, appPath: string, envs: seq<string>, packPath: string, dockerfile: string)
    ensures BuildWithDocker(image, appPath, dockerfile) !in [PackBuild(image, appPath, envs, packPath)]
  {
    assert |PackBuild(image, appPath, envs, packPath).args| >= 9;
  }
}

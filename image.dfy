/** Image references and the registry: the region fallback, generateImageRef
    (cmd/deployer/deploy.go:371-418) and dockerPushWithECRLogin
    (cmd/deployer/deploy.go:212-288), with the AWS CLI and docker calls
    reduced to their outcomes. */
module Image {

  import opened Wrappers
  import opened Text
  import opened Os

  /** AWS_REGION, else AWS_DEFAULT_REGION, else us-east-1. */
  function Region(env: Environment): (r: string)
    ensures r != ""
    ensures Getenv(env, "AWS_REGION") != "" ==> r == env["AWS_REGION"]
    ensures Getenv(env, "AWS_REGION") == "" && Getenv(env, "AWS_DEFAULT_REGION") != "" ==> r == env["AWS_DEFAULT_REGION"]
    ensures Getenv(env, "AWS_REGION") == "" && Getenv(env, "AWS_DEFAULT_REGION") == "" ==> r == "us-east-1"
  {
    var region := Getenv(env, "AWS_REGION");
    var region := if region == "" then Getenv(env, "AWS_DEFAULT_REGION") else region;
    if region == "" then "us-east-1" else region
  }

  /** <account>.dkr.ecr.<region>.amazonaws.com */
  function EcrRegistry(account: string, region: string): string {
    account + ".dkr.ecr." + region + ".amazonaws.com"
  }

  function EcrImage(account: string, region: string, repository: string): string {
    EcrRegistry(account, region) + "/" + repository + ":latest"
  }

  /** What `aws sts get-caller-identity --query Account --output text`
      produced: a failure with its error, or its standard output. */
  datatype Sts = StsFailed(reason: string) | StsOutput(out: string)

  /* ---------------------------------------------------------------------- */
  /* generateImageRef                                                       */
  /* ---------------------------------------------------------------------- */

  /** The account that generateImageRef reads from ECR_URL: the first
      '.'-separated field, kept only when it contains "dkr". */
  function EcrUrlAccount(ecrUrl: string): string {
    if ecrUrl == "" then ""
    else
      var parts := Split(ecrUrl, '.');
      if |parts| > 0 && Contains(parts[0], "dkr") then Split(parts[0], '.')[0] else ""
  }

  /** The ECR_URL fallback can only produce an "account" that itself contains
      "dkr", so never a numeric AWS account id. */
  lemma EcrUrlAccountContainsDkr(ecrUrl: string)
    ensures EcrUrlAccount(ecrUrl) == "" || Contains(EcrUrlAccount(ecrUrl), "dkr")
  {
    if ecrUrl != "" {
      var first := Split(ecrUrl, '.')[0];
      if Contains(first, "dkr") {
        assert '.' !in first;
        assert Cut(first, '.').None?;
        assert Split(first, '.') == [first];
      }
    }
  }

  /** A registry host such as 123456789012.dkr.ecr.us-east-1.amazonaws.com
      yields no account at all: its first field is the numeric account,
      which never contains "dkr". */
  lemma NumericEcrUrlYieldsNothing(account: string, domain: string)
    requires '.' !in account && 'd' !in account
    ensures EcrUrlAccount(account + "." + domain) == ""
  {
    SplitCons(account, '.', domain);
    NotContainsByChar(account, "dkr", 'd');
  }

  /** generateImageRef's decision tree. */
  function GenerateImageRef(project: string, env: Environment, sts: Sts): (r: Result<string>)
    ensures sts.StsOutput? && TrimSpace(sts.out) != "" ==> r == Ok(EcrImage(TrimSpace(sts.out), Region(env), project))
    ensures sts.StsOutput? ==> (r.Err? <==> AllSpace(sts.out))
    ensures sts.StsFailed? ==> r.Ok?
    ensures sts.StsFailed? && Getenv(env, "AWS_ACCOUNT_ID") != "" ==> r == Ok(EcrImage(env["AWS_ACCOUNT_ID"], Region(env), project))
    ensures sts.StsFailed? && Getenv(env, "AWS_ACCOUNT_ID") == "" && EcrUrlAccount(Getenv(env, "ECR_URL")) == ""
            ==> r == Ok(project + ":latest")
    ensures sts.StsFailed? && Getenv(env, "AWS_ACCOUNT_ID") == "" && EcrUrlAccount(Getenv(env, "ECR_URL")) != ""
            ==> r == Ok(EcrImage(EcrUrlAccount(Getenv(env, "ECR_URL")), Region(env), project))
  {
    var region := Region(env);
    match sts
    case StsFailed(_) =>
      var account := Getenv(env, "AWS_ACCOUNT_ID");
      var account := if account == "" then EcrUrlAccount(Getenv(env, "ECR_URL")) else account;
      if account == "" then Ok(project + ":latest")
      else Ok(EcrImage(account, region, project))
    case StsOutput(out) =>
      TrimSpaceEmpty(out);
      var account := TrimSpace(out);
      if account == "" then Err("AWS account ID is empty")
      else Ok(EcrImage(account, region, project))
  }

  /* ---------------------------------------------------------------------- */
  /* Re-tagging and parsing a reference for the push                        */
  /* ---------------------------------------------------------------------- */

  predicate IsEcrRef(ref: string) {
    Contains(ref, ".dkr.ecr.")
  }

  /** A reference that does not name an ECR host is re-tagged as
      <account>.dkr.ecr.<region>.amazonaws.com/<text before first ':'>:latest. */
  function PushRef(ref: string, account: string, region: string): string {
    if IsEcrRef(ref) then ref else EcrImage(account, region, Split(ref, ':')[0])
  }

  /** Registry host (text before the first '/') and repository (the second
      '/'-field, cut at its first ':').  A reference without '/' has no
      second field: the source indexes past the end of its split and
      panics, which the model reports as None. */
  function ParseImageRef(ref: string): Option<(string, string)> {
    var parts := Split(ref, '/');
    if |parts| < 2 then None
    else Some((parts[0], Split(parts[1], ':')[0]))
  }

  /** A re-tagged local reference parses back into the ECR registry and the
      original name, when neither the account, the region nor the name holds
      a '/'. */
  lemma RetaggedRefParses(ref: string, account: string, region: string)
    requires !IsEcrRef(ref)
    requires '/' !in account && '/' !in region && '/' !in Split(ref, ':')[0]
    ensures ParseImageRef(PushRef(ref, account, region)) == Some((EcrRegistry(account, region), Split(ref, ':')[0]))
  {
    var name := Split(ref, ':')[0];
    var host := EcrRegistry(account, region);
    NoSlashInRegistry(account, region);
    var tail := name + ":latest";
    assert PushRef(ref, account, region) == host + ['/'] + tail;
    SplitCons(host, '/', tail);
    NameTail(name);
  }

  lemma NoSlashInRegistry(account: string, region: string)
    requires '/' !in account && '/' !in region
    ensures '/' !in EcrRegistry(account, region)
  {
    assert '/' !in ".dkr.ecr.";
    assert '/' !in ".amazonaws.com";
  }

  lemma NameTail(name: string)
    requires '/' !in name && ':' !in name
    ensures Split(name + ":latest", '/') == [name + ":latest"]
    ensures Split(name + ":latest", ':')[0] == name
  {
    var tail := name + ":latest";
    assert '/' !in ":latest";
    assert '/' !in tail;
    assert tail == name + [':'] + "latest";
    CutJoin(name, ':', "latest");
  }

  /** A reference already in ECR form is pushed as it is. */
  lemma EcrRefKept(ref: string, account: string, region: string)
    requires IsEcrRef(ref)
    ensures PushRef(ref, account, region) == ref
  {
  }

  /** Every re-tagged reference is itself in ECR form, so it is not
      re-tagged a second time. */
  lemma RetaggedIsEcr(ref: string, account: string, region: string)
    ensures IsEcrRef(PushRef(ref, account, region))
  {
    if !IsEcrRef(ref) {
      var name := Split(ref, ':')[0];
      assert PushRef(ref, account, region)
          == account + ".dkr.ecr." + (region + ".amazonaws.com" + "/" + name + ":latest");
      ContainsInfix(account, ".dkr.ecr.", region + ".amazonaws.com" + "/" + name + ":latest");
    }
  }

  /* ---------------------------------------------------------------------- */
  /* dockerPushWithECRLogin                                                 */
  /* ---------------------------------------------------------------------- */

  /** The first words of the push's message when the account cannot be
      read; the CLI's error follows it. */
  const AccountIdError := "failed to get AWS account ID for ECR push"

  /** Outcomes of the external steps of a push, in the order they run. */
  datatype PushTools = PushTools(
    sts: Sts,            // aws sts get-caller-identity
    tag: Exit,           // docker tag (only for a local reference)
    password: Exit,      // aws ecr get-login-password
    login: Exit,         // docker login
    repoExists: bool,    // aws ecr describe-repositories succeeded
    createRepo: Exit,    // aws ecr create-repository
    push: Exit)          // docker push

  /** What a successful push did. */
  datatype Pushed = Pushed(image: string, registry: string, repository: string, createdRepository: bool)

  /** The step sequence of dockerPushWithECRLogin; each failing step ends the
      push with its own message (the remediation text after the first line
      of the source's messages is left out). */
  function PushImage(ref: string, env: Environment, t: PushTools): (r: Result<Pushed>)
    ensures r.Ok? <==>
      && t.sts.StsOutput? && !AllSpace(t.sts.out)
      && (!IsEcrRef(ref) ==> t.tag.Success?)
      && ParseImageRef(PushRef(ref, TrimSpace(t.sts.out), Region(env))).Some?
      && t.password.Success? && t.login.Success?
      && (t.repoExists || t.createRepo.Success?)
      && t.push.Success?
    ensures r.Ok? ==> && r.value.image == PushRef(ref, TrimSpace(t.sts.out), Region(env))
                      && IsEcrRef(r.value.image)
                      && r.value.createdRepository == !t.repoExists
                      && Some((r.value.registry, r.value.repository)) == ParseImageRef(r.value.image)
    ensures t.sts.StsFailed? ==> r == Err(AccountIdError + ": " + t.sts.reason)
  {
    var region := Region(env);
    match t.sts
    case StsFailed(reason) => Err(AccountIdError + ": " + reason)
    case StsOutput(out) =>
      TrimSpaceEmpty(out);
      var account := TrimSpace(out);
      if account == "" then Err("AWS account ID is empty")
      else
        var image := PushRef(ref, account, region);
        RetaggedIsEcr(ref, account, region);
        if !IsEcrRef(ref) && t.tag.Failure? then Err("failed to tag image for ECR: " + t.tag.reason)
        else match ParseImageRef(image)
          case None => Err("invalid image: " + image)
          case Some((registry, repository)) =>
            if t.password.Failure? then Err("failed to get ECR login password: " + t.password.reason)
            else if t.login.Failure? then Err("failed to login to ECR: " + t.login.reason)
            else if !t.repoExists && t.createRepo.Failure? then
              Err("failed to create ECR repository " + repository + ": " + t.createRepo.reason)
            else if t.push.Failure? then Err("failed to push image to ECR: " + t.push.reason)
            else Ok(Pushed(image, registry, repository, !t.repoExists))
  }

  /** The repository pushed to for a local image is the image's own name, and
      it is created exactly when describe-repositories did not find it. */
  lemma PushLocalImage(ref: string, env: Environment, t: PushTools)
    requires !IsEcrRef(ref) && t.sts.StsOutput?
    requires '/' !in TrimSpace(t.sts.out) && '/' !in Region(env) && '/' !in Split(ref, ':')[0]
    requires PushImage(ref, env, t).Ok?
    ensures PushImage(ref, env, t).value.repository == Split(ref, ':')[0]
    ensures PushImage(ref, env, t).value.registry == EcrRegistry(TrimSpace(t.sts.out), Region(env))
  {
    RetaggedRefParses(ref, TrimSpace(t.sts.out), Region(env));
  }
}

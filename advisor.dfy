/** The pod-log advisor (agent/main.go): it lists the Knative pods of a
    namespace, and for every container that is waiting or has restarted it
    reads the pod's logs and prints the container's state with one of four
    fixed pieces of advice.  The cluster is reduced to what the listing and
    the log reads return. */
module Advisor {

  import opened Wrappers
  import opened Text
  import opened Os
  import Secrets

  /* ---------------------------------------------------------------------- */
  /* analyze                                                                */
  /* ---------------------------------------------------------------------- */

  /** The four kinds of advice, in the order analyze tries them. */
  datatype Advice = Registry | Restart | Permissions | Inspect

  /** The text printed for each kind of advice. The texts are written in
      word chunks only to keep the solver from unfolding whole literals. */
  function Message(a: Advice): (m: string)
    ensures |m| > 0
  {
    match a
    case Registry => "Check" + " ECR" + " image," + " tag," + " and" + " registry" + " auth;" + " run" + " docker" + " login" + " to" + " ECR."
    case Restart => "Review" + " CMD/ENTRYPOINT" + " and" + " env;" + " add" + " readiness/liveness;" + " adjust" + " minScale."
    case Permissions => "Bind" + " IAM" + " roles" + " via" + " IRSA" + " to" + " ServiceAccount;" + " adjust" + " RBAC."
    case Inspect => "Inspect" + " env," + " ConfigMaps/Secrets," + " resource" + " limits;" + " check" + " Knative" + " revision" + " conditions."
  }

  /** The advice texts start with different letters, so a printed advice
      names its kind. */
  lemma MessageInjective(a: Advice, b: Advice)
    ensures Message(a) == Message(b) <==> a == b
  {
    assert Message(Registry)[0] == 'C' && Message(Restart)[0] == 'R';
    assert Message(Permissions)[0] == 'B' && Message(Inspect)[0] == 'I';
    if a != b {
      assert Message(a)[0] != Message(b)[0];
    }
  }

  /** The keyword groups analyze looks for in the lower-cased logs. */
  predicate PullFailure(l: string) {
    Contains(l, "imagepullbackoff") || Contains(l, "manifest unknown")
  }

  predicate CrashLoop(l: string) {
    Contains(l, "crashloopbackoff")
  }

  predicate Denied(l: string) {
    Contains(l, "permission") || Contains(l, "forbidden")
  }

  /** The kind of advice analyze gives for a log text. */
  function Classify(logs: string): Advice {
    var l := ToLower(logs);
    if PullFailure(l) then Registry
    else if CrashLoop(l) then Restart
    else if Denied(l) then Permissions
    else Inspect
  }

  /** analyze: total, and always one of the four advice texts. */
  function Analyze(logs: string): (r: string)
    ensures exists a: Advice :: r == Message(a)
  {
    Message(Classify(logs))
  }

  /** A pull failure gets the registry advice, whatever else the logs
      hold; without one a crash loop gets the restart advice, even when
      permissions are also mentioned; without either a denial gets the RBAC
      advice; everything else the default.  Each advice is given exactly in
      its case. */
  lemma AnalyzePriority(logs: string)
    ensures var l := ToLower(logs);
            && (Analyze(logs) == Message(Registry) <==> PullFailure(l))
            && (Analyze(logs) == Message(Restart) <==> !PullFailure(l) && CrashLoop(l))
            && (Analyze(logs) == Message(Permissions) <==> !PullFailure(l) && !CrashLoop(l) && Denied(l))
            && (Analyze(logs) == Message(Inspect) <==> !PullFailure(l) && !CrashLoop(l) && !Denied(l))
  {
    var c := Classify(logs);
    MessageInjective(c, Registry);
    MessageInjective(c, Restart);
    MessageInjective(c, Permissions);
    MessageInjective(c, Inspect);
  }

  /** Matching ignores case: logs that agree once lower-cased get the same
      advice. */
  lemma AnalyzeIgnoresCase(logs: string, other: string)
    requires ToLower(logs) == ToLower(other)
    ensures Analyze(logs) == Analyze(other)
    ensures Analyze(ToLower(logs)) == Analyze(logs)
  {
    ToLowerIdempotent(logs);
  }

  /* ---------------------------------------------------------------------- */
  /* Containers and their states                                            */
  /* ---------------------------------------------------------------------- */

  /** What a container status tells: the reason it is waiting, the reason
      it terminated (each absent when not in that state) and how often it
      restarted. */
  datatype ContainerState = ContainerState(waiting: Option<string>, terminated: Option<string>)
  datatype ContainerStatus = ContainerStatus(state: ContainerState, restartCount: int)

  /** The containers main analyses: waiting ones and restarted ones. */
  predicate NeedsAttention(cs: ContainerStatus) {
    cs.state.waiting.Some? || cs.restartCount > 0
  }

  /** stateOf: the waiting reason, else the terminated reason, else
      "Unknown". */
  function StateOf(cs: ContainerStatus): (r: string)
    ensures cs.state.waiting.Some? ==> r == cs.state.waiting.value
    ensures cs.state.waiting.None? && cs.state.terminated.Some? ==> r == cs.state.terminated.value
    ensures cs.state.waiting.None? && cs.state.terminated.None? ==> r == "Unknown"
  {
    match cs.state.waiting
    case Some(reason) => reason
    case None =>
      match cs.state.terminated
      case Some(reason) => reason
      case None => "Unknown"
  }

  /* ---------------------------------------------------------------------- */
  /* getenv and the namespace                                               */
  /* ---------------------------------------------------------------------- */

  /** getenv(k, d): the variable's value when it is set to something other
      than "", d otherwise. */
  function GetenvOr(env: Environment, k: string, d: string): (v: string)
    ensures k in env && env[k] != "" ==> v == env[k]
    ensures k !in env || env[k] == "" ==> v == d
  {
    var v := Getenv(env, k);
    if v != "" then v else d
  }

  /** The namespace the advisor inspects. */
  function Namespace(env: Environment): string {
    GetenvOr(env, "NAMESPACE", "default")
  }

  /** The advisor's namespace is never empty, and it defaults exactly as
      the deployer's client namespace does. */
  lemma NamespaceDefaults(env: Environment)
    ensures Namespace(env) != ""
    ensures Namespace(env) == Secrets.DefaultNamespace(Getenv(env, "NAMESPACE"))
  {
  }

  /* ---------------------------------------------------------------------- */
  /* main's report                                                          */
  /* ---------------------------------------------------------------------- */

  /** A listed pod: its name and its containers' statuses. */
  datatype Pod = Pod(name: string, statuses: seq<ContainerStatus>)

  /** One reported problem: the pod, the container's state, the advice. */
  datatype Issue = Issue(pod: string, state: string, fix: string)

  /** The report's text for one problem: the header naming pod and state,
      then the advice on its own line, and nothing else. */
  function Render(i: Issue): (r: string)
    ensures StartsWith(r, "Pod " + i.pod + " issue: " + i.state + "\nFix: ")
    ensures EndsWith(r, i.fix + "\n")
    ensures |r| == |"Pod " + i.pod + " issue: " + i.state + "\nFix: "| + |i.fix| + 1
  {
    var head := "Pod " + i.pod + " issue: " + i.state + "\nFix: ";
    assert (head + i.fix + "\n")[..|head|] == head;
    assert (head + i.fix + "\n")[|head|..] == i.fix + "\n";
    head + i.fix + "\n"
  }

  /** The logs read for a pod; a failed read is ignored and reads as "". */
  function LogsOf(logs: map<string, string>, pod: string): string {
    if pod in logs then logs[pod] else ""
  }

  /** The statuses that need attention, in their order. */
  function Attention(statuses: seq<ContainerStatus>): (r: seq<ContainerStatus>)
    ensures |r| <= |statuses|
    ensures forall c :: c in r ==> c in statuses && NeedsAttention(c)
    ensures forall j :: 0 <= j < |statuses| && NeedsAttention(statuses[j]) ==> statuses[j] in r
  {
    if statuses == [] then []
    else
      var init := statuses[..|statuses| - 1];
      var cs := statuses[|statuses| - 1];
      assert forall j :: 0 <= j < |init| ==> init[j] == statuses[j];
      assert statuses == init + [cs];
      if NeedsAttention(cs) then Attention(init) + [cs] else Attention(init)
  }

  /** idx lists, in increasing order, the indices of statuses that picked
      holds, and every index whose status needs attention is among them. */
  predicate PicksInOrder(statuses: seq<ContainerStatus>, picked: seq<ContainerStatus>, idx: seq<int>) {
    && |idx| == |picked|
    && (forall i :: 0 <= i < |idx| ==> 0 <= idx[i] < |statuses| && picked[i] == statuses[idx[i]])
    && (forall i, j :: 0 <= i < j < |idx| ==> idx[i] < idx[j])
    && (forall j :: 0 <= j < |statuses| && NeedsAttention(statuses[j]) ==> j in idx)
  }

  /** The selection keeps the containers' order: the i-th selected status
      is the status at an index that grows with i, and every index whose
      status needs attention is one of them. */
  lemma {:induction false} AttentionInOrder(statuses: seq<ContainerStatus>)
    ensures exists idx :: PicksInOrder(statuses, Attention(statuses), idx)
  {
    if statuses == [] {
      assert PicksInOrder(statuses, Attention(statuses), []);
    } else {
      var init := statuses[..|statuses| - 1];
      var cs := statuses[|statuses| - 1];
      assert statuses == init + [cs];
      AttentionInOrder(init);
      var a0 := Attention(init);
      var idx0 :| PicksInOrder(init, a0, idx0);
      if NeedsAttention(cs) {
        assert Attention(statuses) == a0 + [cs];
        PicksFlagged(statuses, init, cs, a0, idx0);
      } else {
        assert Attention(statuses) == a0;
        PicksQuiet(statuses, init, cs, a0, idx0);
      }
    }
  }

  /** The step of AttentionInOrder when the last container needs
      attention: it is picked, and its index joins the map. */
  lemma PicksFlagged(statuses: seq<ContainerStatus>, init: seq<ContainerStatus>, cs: ContainerStatus,
                     picked: seq<ContainerStatus>, idx0: seq<int>)
    requires statuses == init + [cs] && NeedsAttention(cs)
    requires PicksInOrder(init, picked, idx0)
    ensures PicksInOrder(statuses, picked + [cs], idx0 + [|init|])
  {
    var idx := idx0 + [|init|];
    forall i | 0 <= i < |idx|
      ensures 0 <= idx[i] < |statuses| && (picked + [cs])[i] == statuses[idx[i]]
    {
      if i < |idx0| {
        assert idx[i] == idx0[i] && (picked + [cs])[i] == picked[i];
      }
    }
    forall j | 0 <= j < |statuses| && NeedsAttention(statuses[j])
      ensures j in idx
    {
      if j < |init| {
        assert init[j] == statuses[j];
        assert j in idx0;
      } else {
        assert idx[|idx0|] == j;
      }
    }
    IncreasingAppend(idx0, |init|);
  }

  /** The step of AttentionInOrder when the last container needs no
      attention: the picked statuses and the map stay as they are. */
  lemma PicksQuiet(statuses: seq<ContainerStatus>, init: seq<ContainerStatus>, cs: ContainerStatus,
                   picked: seq<ContainerStatus>, idx0: seq<int>)
    requires statuses == init + [cs] && !NeedsAttention(cs)
    requires PicksInOrder(init, picked, idx0)
    ensures PicksInOrder(statuses, picked, idx0)
  {
    forall j | 0 <= j < |statuses| && NeedsAttention(statuses[j])
      ensures j in idx0
    {
      assert j < |init| && init[j] == statuses[j];
    }
    forall i | 0 <= i < |idx0|
      ensures 0 <= idx0[i] < |statuses| && picked[i] == statuses[idx0[i]]
    {
      assert init[idx0[i]] == statuses[idx0[i]];
    }
  }

  /** An increasing sequence stays increasing when a larger value is
      appended. */
  lemma IncreasingAppend(idx: seq<int>, n: int)
    requires forall i, j :: 0 <= i < j < |idx| ==> idx[i] < idx[j]
    requires forall i :: 0 <= i < |idx| ==> idx[i] < n
    ensures forall i, j :: 0 <= i < j < |idx + [n]| ==> (idx + [n])[i] < (idx + [n])[j]
  {
    forall i, j | 0 <= i < j < |idx + [n]|
      ensures (idx + [n])[i] < (idx + [n])[j]
    {
      assert (idx + [n])[i] == idx[i];
      if j < |idx| {
        assert (idx + [n])[j] == idx[j];
      }
    }
  }

  /** The problems reported for one pod: one per container that needs
      attention, in the containers' order, each with that container's state
      and the pod's advice. */
  function PodIssues(name: string, statuses: seq<ContainerStatus>, logs: string): (r: seq<Issue>)
    ensures |r| == |Attention(statuses)|
    ensures forall i :: 0 <= i < |r| ==> r[i] == Issue(name, StateOf(Attention(statuses)[i]), Analyze(logs))
  {
    if statuses == [] then []
    else
      var init := statuses[..|statuses| - 1];
      var cs := statuses[|statuses| - 1];
      var r := PodIssues(name, init, logs);
      assert statuses == init + [cs];
      if NeedsAttention(cs) then r + [Issue(name, StateOf(cs), Analyze(logs))] else r
  }

  /** A pod is reported exactly when one of its containers needs
      attention. */
  lemma QuietPodUnreported(name: string, statuses: seq<ContainerStatus>, logs: string)
    ensures PodIssues(name, statuses, logs) == [] <==> forall j :: 0 <= j < |statuses| ==> !NeedsAttention(statuses[j])
  {
    if exists j :: 0 <= j < |statuses| && NeedsAttention(statuses[j]) {
      var j :| 0 <= j < |statuses| && NeedsAttention(statuses[j]);
      assert statuses[j] in Attention(statuses);
    }
  }

  /** How many problems the listed pods have in all. */
  function Flagged(pods: seq<Pod>): nat {
    if pods == [] then 0 else Flagged(pods[..|pods| - 1]) + |Attention(pods[|pods| - 1].statuses)|
  }

  /** The problems of every listed pod, pod by pod. */
  function Issues(pods: seq<Pod>, logs: map<string, string>): (r: seq<Issue>)
    ensures |r| == Flagged(pods)
    ensures forall i :: 0 <= i < |r| ==> r[i].fix == Analyze(LogsOf(logs, r[i].pod))
    ensures forall i :: 0 <= i < |r| ==> exists p :: 0 <= p < |pods| && r[i].pod == pods[p].name
  {
    if pods == [] then []
    else
      var init := pods[..|pods| - 1];
      var p := pods[|pods| - 1];
      var r := Issues(init, logs);
      assert forall k :: 0 <= k < |init| ==> init[k] == pods[k];
      r + PodIssues(p.name, p.statuses, LogsOf(logs, p.name))
  }

  /** One pod's problems are exactly its PodIssues, read with its own
      logs. */
  lemma IssuesSingle(p: Pod, logs: map<string, string>)
    ensures Issues([p], logs) == PodIssues(p.name, p.statuses, LogsOf(logs, p.name))
  {
    assert [p][..0] == [];
  }

  /** The report goes pod by pod: the problems of a + b are those of a
      followed by those of b. */
  lemma {:induction false} IssuesConcat(a: seq<Pod>, b: seq<Pod>, logs: map<string, string>)
    ensures Issues(a + b, logs) == Issues(a, logs) + Issues(b, logs)
    decreases |b|
  {
    if b == [] {
      assert a + b == a;
    } else {
      var init := b[..|b| - 1];
      var p := b[|b| - 1];
      assert b == init + [p];
      IssuesConcat(a, init, logs);
      IssuesConcatLast(a, init, p, logs);
    }
  }

  /** The induction step of IssuesConcat: one more pod at the end of b. */
  lemma IssuesConcatLast(a: seq<Pod>, init: seq<Pod>, p: Pod, logs: map<string, string>)
    requires Issues(a + init, logs) == Issues(a, logs) + Issues(init, logs)
    ensures Issues(a + (init + [p]), logs) == Issues(a, logs) + Issues(init + [p], logs)
  {
    var head := Issues(a, logs);
    var mid := Issues(init, logs);
    var tail := PodIssues(p.name, p.statuses, LogsOf(logs, p.name));
    assert Issues(a + (init + [p]), logs) == (head + mid) + tail by {
      assert a + (init + [p]) == (a + init) + [p];
      IssuesLast(a + init, p, logs);
    }
    assert Issues(init + [p], logs) == mid + tail by {
      IssuesLast(init, p, logs);
    }
    ConcatAssociates(head, mid, tail);
  }

  /** Concatenation of reports associates; stated apart so that the
      reports' own contracts are not in scope. */
  lemma ConcatAssociates(x: seq<Issue>, y: seq<Issue>, z: seq<Issue>)
    ensures (x + y) + z == x + (y + z)
  {
  }

  /** Adding a pod at the end adds its problems at the end. */
  lemma IssuesLast(pods: seq<Pod>, p: Pod, logs: map<string, string>)
    ensures Issues(pods + [p], logs) == Issues(pods, logs) + PodIssues(p.name, p.statuses, LogsOf(logs, p.name))
  {
    assert (pods + [p])[..|pods|] == pods;
  }

  /** main: fails when no client can be built or the pods cannot be listed
      (log.Fatal); otherwise reports the problems of the pods listed in
      Namespace(env). */
  function Advise(clientOk: bool, listed: Result<seq<Pod>>, logs: map<string, string>): (r: Result<seq<Issue>>)
    ensures !clientOk ==> r == Err(Secrets.ClientError)
    ensures clientOk && listed.Err? ==> r == Err(listed.msg)
    ensures clientOk && listed.Ok? ==> r == Ok(Issues(listed.value, logs))
    ensures clientOk && listed.Ok? ==> |r.value| == Flagged(listed.value)
    ensures r.Ok? ==> forall i :: 0 <= i < |r.value| ==> r.value[i].fix == Analyze(LogsOf(logs, r.value[i].pod))
  {
    if !clientOk then Err(Secrets.ClientError)
    else
      match listed
      case Err(e) => Err(e)
      case Ok(pods) => Ok(Issues(pods, logs))
  }
}

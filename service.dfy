/** The Knative Service descriptor and the kubectl call that applies it:
    newKnServiceYAML and knServiceApply (cmd/deployer/deploy.go:299-334).
    The descriptor is modelled as its list of lines; the environment lines
    come in an order the caller supplies, since Go visits a map in no fixed
    order. */
module Service {

  import opened Os
  import Text

  const MinScaleLine := "        autoscaling.knative.dev/minScale: \"1\""
  const EnvHeader := "        env:"

  function NameLine(k: string): string { "          - name: " + k }
  function ValueLine(v: string): string { "            value: \"" + v + "\"" }

  /** An order in which Go may visit the map: every key exactly once. */
  predicate IsKeyOrder(env: map<string, string>, order: seq<string>) {
    && (forall i :: 0 <= i < |order| ==> order[i] in env)
    && (forall k :: k in env ==> k in order)
    && (forall i, j :: 0 <= i < j < |order| ==> order[i] != order[j])
  }

  /** Two lines per variable: its name, then its quoted value. */
  function EnvLines(env: map<string, string>, order: seq<string>): (r: seq<string>)
    requires forall i :: 0 <= i < |order| ==> order[i] in env
    ensures |r| == 2 * |order|
    ensures forall i :: 0 <= i < |order| ==> r[2 * i] == NameLine(order[i]) && r[2 * i + 1] == ValueLine(env[order[i]])
  {
    if order == [] then []
    else
      var rest := EnvLines(env, order[..|order| - 1]);
      var k := order[|order| - 1];
      assert forall i :: 0 <= i < |order| - 1 ==> (rest + [NameLine(k), ValueLine(env[k])])[2 * i] == rest[2 * i];
      rest + [NameLine(k), ValueLine(env[k])]
  }

  /** The header of the document, up to the container's port. */
  function HeaderLines(name: string, image: string, namespace: string, port: int): seq<string> {
    [ "apiVersion: serving.knative.dev/v1",
      "kind: Service",
      "metadata:",
      "  name: " + name,
      "  namespace: " + namespace,
      "spec:",
      "  template:",
      "    metadata:",
      "      annotations:",
      MinScaleLine,
      "    spec:",
      "      containers:",
      "        - image: " + image,
      "          ports:",
      "            - containerPort: " + Text.IntToString(port),
      "              name: http1" ]
  }

  /** The lines of newKnServiceYAML.  cpu and mem are accepted and never
      written: the descriptor carries no resource requests. */
  function ServiceLines(name: string, image: string, namespace: string, cpu: string, mem: string,
                        env: map<string, string>, port: int, order: seq<string>): seq<string>
    requires IsKeyOrder(env, order)
  {
    HeaderLines(name, image, namespace, port)
    + (if |env| == 0 then [""] else [EnvHeader] + EnvLines(env, order))
    + [""]
  }

  /** The document text: the lines joined by newlines. */
  function ServiceYaml(name: string, image: string, namespace: string, cpu: string, mem: string,
                       env: map<string, string>, port: int, order: seq<string>): string
    requires IsKeyOrder(env, order)
  {
    Text.Join(ServiceLines(name, image, namespace, cpu, mem, env, port, order), "\n")
  }

  /** An order of a non-empty map is non-empty. */
  lemma KeyOrderNonEmpty(env: map<string, string>, order: seq<string>)
    requires IsKeyOrder(env, order)
    ensures |env| == 0 <==> |order| == 0
  {
    if |env| != 0 {
      var k :| k in env;
      assert k in order;
    }
    if |order| != 0 {
      assert order[0] in env;
    }
  }

  /** No header line opens an env block. */
  lemma HeaderHasNoEnv(name: string, image: string, namespace: string, port: int)
    ensures EnvHeader !in HeaderLines(name, image, namespace, port)
  {
    var h := HeaderLines(name, image, namespace, port);
    // The fixed lines differ from it in length, the others in one column.
    assert |EnvHeader| == 12 && EnvHeader[2] == ' ' && EnvHeader[8] == 'e';
    forall i | 0 <= i < |h| ensures h[i] != EnvHeader {
      if i == 3 || i == 4 {
        assert h[i][2] == 'n';
      } else if i == 12 || i == 14 {
        assert h[i][8] != 'e';
      } else {
        assert |h[i]| != 12;
      }
    }
  }

  /** Whatever the variables, the service keeps one instance warm. */
  lemma AlwaysMinScaleOne(name: string, image: string, namespace: string, cpu: string, mem: string,
                          env: map<string, string>, port: int, order: seq<string>)
    requires IsKeyOrder(env, order)
    ensures MinScaleLine in ServiceLines(name, image, namespace, cpu, mem, env, port, order)
  {
    assert ServiceLines(name, image, namespace, cpu, mem, env, port, order)[9] == MinScaleLine;
  }

  /** The env block is there exactly when there are variables, and then each
      variable has a name line followed by its value line. */
  lemma EnvBlockIffVariables(name: string, image: string, namespace: string, cpu: string, mem: string,
                             env: map<string, string>, port: int, order: seq<string>)
    requires IsKeyOrder(env, order)
    ensures var lines := ServiceLines(name, image, namespace, cpu, mem, env, port, order);
            && (EnvHeader in lines <==> |env| > 0)
            && forall k :: k in env ==> exists i :: 0 <= i < |lines| - 1 && lines[i] == NameLine(k) && lines[i + 1] == ValueLine(env[k])
  {
    var lines := ServiceLines(name, image, namespace, cpu, mem, env, port, order);
    var h := HeaderLines(name, image, namespace, port);
    HeaderHasNoEnv(name, image, namespace, port);
    KeyOrderNonEmpty(env, order);
    if |env| == 0 {
      assert lines == h + [""] + [""];
      assert "" != EnvHeader;
    } else {
      var e := EnvLines(env, order);
      assert lines == h + [EnvHeader] + e + [""];
      assert lines[|h|] == EnvHeader;
      forall k | k in env
        ensures exists i :: 0 <= i < |lines| - 1 && lines[i] == NameLine(k) && lines[i + 1] == ValueLine(env[k])
      {
        var j :| 0 <= j < |order| && order[j] == k;
        var i := |h| + 1 + 2 * j;
        assert lines[i] == e[2 * j] && lines[i + 1] == e[2 * j + 1];
      }
    }
    if |env| == 0 {
      assert EnvHeader !in lines by {
        assert lines == h + ["", ""];
      }
    }
  }

  /** The kubectl arguments: `--context <ctx>` goes first exactly when a
      context was given. */
  function KubectlArgs(kubecontext: string): (args: seq<string>)
    ensures kubecontext != "" ==> args == ["--context", kubecontext] + ["apply", "-f", "-"]
    ensures kubecontext == "" ==> args == ["apply", "-f", "-"]
  {
    var args := ["apply", "-f", "-"];
    if kubecontext != "" then ["--context", kubecontext] + args else args
  }

  /** knServiceApply: kubectl reading the descriptor on standard input. */
  function ApplyInvocation(name: string, image: string, namespace: string, cpu: string, mem: string,
                           env: map<string, string>, kubecontext: string, port: int, order: seq<string>): (inv: Invocation)
    requires IsKeyOrder(env, order)
    ensures inv.program == "kubectl"
    ensures "--context" in inv.args <==> kubecontext != ""
    ensures inv.stdin == ServiceYaml(name, image, namespace, cpu, mem, env, port, order)
  {
    var args := KubectlArgs(kubecontext);
    assert "--context" !in ["apply", "-f", "-"];
    assert kubecontext != "" ==> args[0] == "--context";
    Invocation("kubectl", args, ServiceYaml(name, image, namespace, cpu, mem, env, port, order))
  }
}

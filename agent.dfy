/** The deployer's log agent as its tests fix it (cmd/deployer/test-ai-agent.go):
    an ordered table of error patterns where the first match wins, fix
    strategies ranked by confidence, and an agent object that captures the
    lines it monitors in a bounded buffer.  Only the tests are available, so
    the trigger phrases are the phrases those tests use for each category,
    and the strategy table holds only the entry they fix. */
module Agent {

  import opened Wrappers
  import opened Text

  /* ---------------------------------------------------------------------- */
  /* Patterns and detection                                                 */
  /* ---------------------------------------------------------------------- */

  /** A named error pattern and the lower-case phrase that triggers it. */
  datatype ErrorPattern = ErrorPattern(name: string, trigger: string)

  /** The registered patterns, in priority order. */
  const Patterns: seq<ErrorPattern> := [
    ErrorPattern("buildpack_failure", "failed to fetch base layers"),
    ErrorPattern("ecr_auth_failed", "authentication failed"),
    ErrorPattern("repository_not_found", "repository not found"),
    ErrorPattern("revision_missing", "revision missing"),
    ErrorPattern("image_pull_backoff", "imagepullbackoff"),
    ErrorPattern("dns_resolution_failed", "could not resolve host"),
    ErrorPattern("permission_denied", "permission denied"),
    ErrorPattern("loadbalancer_pending", "loadbalancer pending")
  ]

  /** The position of the first pattern whose trigger occurs in text. */
  function FirstMatch(text: string, ps: seq<ErrorPattern>): (r: Option<nat>)
    ensures r.None? <==> forall i :: 0 <= i < |ps| ==> !Contains(text, ps[i].trigger)
    ensures r.Some? ==> && r.value < |ps| && Contains(text, ps[r.value].trigger)
                        && forall j :: 0 <= j < r.value ==> !Contains(text, ps[j].trigger)
  {
    if ps == [] then None
    else if Contains(text, ps[0].trigger) then Some(0)
    else Shift(FirstMatch(text, ps[1..]))
  }

  /** A position one further on. */
  function Shift(o: Option<nat>): Option<nat> {
    match o
    case None => None
    case Some(k) => Some(k + 1)
  }

  /** detectError: the line is lower-cased, then the first registered
      pattern whose trigger it contains is the answer. */
  function Detect(line: string): Option<ErrorPattern> {
    match FirstMatch(ToLower(line), Patterns)
    case None => None
    case Some(i) => Some(Patterns[i])
  }

  /** A line whose first occurring trigger is pattern i's is detected as
      pattern i: the table's order decides between overlapping patterns. */
  lemma DetectedAs(line: string, i: nat)
    requires i < |Patterns| && Contains(ToLower(line), Patterns[i].trigger)
    requires forall j :: 0 <= j < i ==> !Contains(ToLower(line), Patterns[j].trigger)
    ensures Detect(line) == Some(Patterns[i])
  {
    MatchAt(ToLower(line), i);
  }

  /** A line is detected exactly when some trigger occurs in it, whatever
      the case of its letters. */
  lemma DetectIffSomeTrigger(line: string)
    ensures Detect(line).Some? <==> exists i :: 0 <= i < |Patterns| && Contains(ToLower(line), Patterns[i].trigger)
    ensures Detect(line) == Detect(ToLower(line))
  {
    ToLowerIdempotent(line);
  }

  /* ---------------------------------------------------------------------- */
  /* The lines the tests classify                                           */
  /* ---------------------------------------------------------------------- */

  /** One triggering line per category, with the category it must get.
      The lines are written word by word, and each line's proof is split into
      a ...Chars lemma (which characters the lower-cased line lacks), a
      ...Found lemma (where its trigger occurs) and a call to NoneWithout or
      FirstWithout: both the word chunks and the split keep the solver from
      unfolding whole string literals at once, and are there for that reason
      only. */
  const PositiveCases: seq<(string, string)> := [
    ("buildpack_failure", "ERROR:" + " failed" + " to" + " build: " + "failed" + " to" + " fetch" + " base" + " layers"),
    ("ecr_auth_failed", "authentication" + " failed" + ":" + " unauthorized"),
    ("repository_not_found", "repository" + " not" + " found" + ":" + " no" + " such" + " repository"),
    ("revision_missing", "revision" + " missing" + ":" + " revision" + " not" + " found"),
    ("image_pull_backoff", "imagepullbackoff" + ":" + " failed" + " to" + " pull" + " image"),
    ("dns_resolution_failed", "could" + " not" + " resolve" + " host" + ":" + " dns" + " failed"),
    ("permission_denied", "permission" + " denied" + ":" + " access" + " denied"),
    ("loadbalancer_pending", "loadbalancer" + " pending" + ":" + " external" + " pending")
  ]

  /** Lines that must not be detected. */
  const NegativeCases: seq<string> := [
    "Building" + " application" + " successfully",
    "Deploy" + " completed" + " without" + " errors",
    "All" + " checks" + " passed",
    "Service" + " is" + " running" + " normally"
  ]

  /** A phrase whose first character a does not hold occurs in a + b exactly
      when it occurs in b. */
  lemma SkipPrefix(a: string, b: string, p: string)
    requires |p| > 0 && p[0] !in a
    ensures Contains(a + b, p) <==> Contains(b, p)
  {
    assert (a + b)[..|a|] == a;
    assert (a + b)[|a|..] == b;
    ContainsSkip(a + b, p, |a|);
  }

  /** Patterns lo up to hi cannot match a text that lacks, for each of them,
      one character of its trigger. */
  lemma NoneBetween(text: string, lo: nat, hi: nat, cs: seq<char>)
    requires lo <= hi <= |Patterns| && |cs| == hi - lo
    requires forall j :: lo <= j < hi ==> cs[j - lo] in Patterns[j].trigger && cs[j - lo] !in text
    ensures forall j :: lo <= j < hi ==> !Contains(text, Patterns[j].trigger)
  {
    forall j | lo <= j < hi
      ensures !Contains(text, Patterns[j].trigger)
    {
      NotContainsByChar(text, Patterns[j].trigger, cs[j - lo]);
    }
  }

  /** The search answers k when pattern k's trigger occurs and no earlier
      one does. */
  lemma MatchAt(text: string, k: nat)
    requires k < |Patterns| && Contains(text, Patterns[k].trigger)
    requires forall j :: 0 <= j < k ==> !Contains(text, Patterns[j].trigger)
    ensures FirstMatch(text, Patterns) == Some(k)
  {
    var r := FirstMatch(text, Patterns);
    assert r.Some?;
  }

  /** No pattern matches a text that lacks, for each pattern, one character
      of its trigger. */
  lemma NoneWithout(text: string, cs: seq<char>)
    requires |cs| == |Patterns|
    requires forall j :: 0 <= j < |Patterns| ==> cs[j] in Patterns[j].trigger && cs[j] !in text
    ensures FirstMatch(text, Patterns) == None
  {
    NoneBetween(text, 0, |Patterns|, cs);
  }

  /** Pattern k matches first when its trigger occurs and the text lacks,
      for each earlier pattern, one character of that trigger. */
  lemma FirstWithout(text: string, k: nat, cs: seq<char>)
    requires k < |Patterns| && |cs| == k && Contains(text, Patterns[k].trigger)
    requires forall j :: 0 <= j < k ==> cs[j] in Patterns[j].trigger && cs[j] !in text
    ensures FirstMatch(text, Patterns) == Some(k)
  {
    NoneBetween(text, 0, k, cs);
    MatchAt(text, k);
  }

  /** "authentication failed" does not occur in the resolver's line: its
      only 'a' is in the closing word, too near the end. */
  lemma DnsNotAuthentication(lower: string)
    requires lower == "could" + " not" + " resolve" + " host" + ":" + " dns" + " failed"
    ensures !Contains(lower, Patterns[1].trigger)
  {
    var head := "could" + " not" + " resolve" + " host" + ":" + " dns";
    SkipPrefix(head, " failed", Patterns[1].trigger);
    ShortNotContains(" failed", Patterns[1].trigger);
  }

  /** "revision missing" does not occur in "service is running normally":
      each 'r' there is followed by a letter other than 'e'. */
  lemma RevisionNotInService(lower: string)
    requires lower == "service" + " is" + " running" + " normally"
    ensures !Contains(lower, Patterns[3].trigger)
  {
    var p := Patterns[3].trigger;
    var tail := "unning" + " normally";
    var rest := "vice is " + (['r'] + tail);
    assert lower == "se" + (['r'] + rest);
    SkipPrefix("se", ['r'] + rest, p);
    ContainsSkipMismatch('r', rest, p);
    SkipPrefix("vice is ", ['r'] + tail, p);
    ContainsSkipMismatch('r', tail, p);
    ShortNotContains(tail, p);
  }

  lemma DetectsBuildpackFailureIn(lower: string)
    requires lower == "error:" + " failed" + " to" + " build: " + "failed" + " to" + " fetch" + " base" + " layers"
    ensures FirstMatch(lower, Patterns) == Some(0)
  {
    assert Patterns[0].trigger == "failed" + " to" + " fetch" + " base" + " layers";
    assert lower == "error:" + " failed" + " to" + " build: " + Patterns[0].trigger + "";
    ContainsInfix("error:" + " failed" + " to" + " build: ", Patterns[0].trigger, "");
    MatchAt(lower, 0);
  }

  lemma DetectsBuildpackFailure(line: string)
    requires line == "ERROR:" + " failed" + " to" + " build: " + "failed" + " to" + " fetch" + " base" + " layers"
    ensures Detect(line) == Some(Patterns[0])
  {
    ToLowerAppend("ERROR:", " failed");
    ToLowerAppend("ERROR:" + " failed", " to");
    ToLowerAppend("ERROR:" + " failed" + " to", " build: ");
    ToLowerAppend("ERROR:" + " failed" + " to" + " build: ", "failed");
    ToLowerAppend("ERROR:" + " failed" + " to" + " build: " + "failed", " to");
    ToLowerAppend("ERROR:" + " failed" + " to" + " build: " + "failed" + " to", " fetch");
    ToLowerAppend("ERROR:" + " failed" + " to" + " build: " + "failed" + " to" + " fetch", " base");
    ToLowerAppend("ERROR:" + " failed" + " to" + " build: " + "failed" + " to" + " fetch" + " base", " layers");
    assert ToLower(line) == "error:" + " failed" + " to" + " build: " + "failed" + " to" + " fetch" + " base" + " layers" by {
      assert ToLower("ERROR:") == "error:";
      assert ToLower(" failed") == " failed";
      assert ToLower(" to") == " to";
      assert ToLower(" build: ") == " build: ";
      assert ToLower("failed") == "failed";
      assert ToLower(" to") == " to";
      assert ToLower(" fetch") == " fetch";
      assert ToLower(" base") == " base";
      assert ToLower(" layers") == " layers";
    }
    DetectsBuildpackFailureIn(ToLower(line));
  }

  lemma DetectsEcrAuthFailedChars(lower: string)
    requires lower == "authentication" + " failed" + ":" + " unauthorized"
    ensures 'b' !in lower
  {
  }

  lemma DetectsEcrAuthFailedFound(lower: string)
    requires lower == "authentication" + " failed" + ":" + " unauthorized"
    ensures Contains(lower, Patterns[1].trigger)
  {
    assert Patterns[1].trigger == "authentication" + " failed";
    assert lower == "" + Patterns[1].trigger + (":" + " unauthorized");
    ContainsInfix("", Patterns[1].trigger, (":" + " unauthorized"));
  }

  lemma DetectsEcrAuthFailed(line: string)
    requires line == "authentication" + " failed" + ":" + " unauthorized"
    ensures Detect(line) == Some(Patterns[1])
  {
    ToLowerAppend("authentication", " failed");
    ToLowerAppend("authentication" + " failed", ":");
    ToLowerAppend("authentication" + " failed" + ":", " unauthorized");
    assert ToLower(line) == "authentication" + " failed" + ":" + " unauthorized" by {
      assert ToLower("authentication") == "authentication";
      assert ToLower(" failed") == " failed";
      assert ToLower(":") == ":";
      assert ToLower(" unauthorized") == " unauthorized";
    }
    DetectsEcrAuthFailedChars(ToLower(line));
    DetectsEcrAuthFailedFound(ToLower(line));
    FirstWithout(ToLower(line), 1, ['b']);
  }

  lemma DetectsRepositoryNotFoundChars(lower: string)
    requires lower == "repository" + " not" + " found" + ":" + " no" + " such" + " repository"
    ensures 'a' !in lower
  {
  }

  lemma DetectsRepositoryNotFoundFound(lower: string)
    requires lower == "repository" + " not" + " found" + ":" + " no" + " such" + " repository"
    ensures Contains(lower, Patterns[2].trigger)
  {
    assert Patterns[2].trigger == "repository" + " not" + " found";
    assert lower == "" + Patterns[2].trigger + (":" + " no" + " such" + " repository");
    ContainsInfix("", Patterns[2].trigger, (":" + " no" + " such" + " repository"));
  }

  lemma DetectsRepositoryNotFound(line: string)
    requires line == "repository" + " not" + " found" + ":" + " no" + " such" + " repository"
    ensures Detect(line) == Some(Patterns[2])
  {
    ToLowerAppend("repository", " not");
    ToLowerAppend("repository" + " not", " found");
    ToLowerAppend("repository" + " not" + " found", ":");
    ToLowerAppend("repository" + " not" + " found" + ":", " no");
    ToLowerAppend("repository" + " not" + " found" + ":" + " no", " such");
    ToLowerAppend("repository" + " not" + " found" + ":" + " no" + " such", " repository");
    assert ToLower(line) == "repository" + " not" + " found" + ":" + " no" + " such" + " repository" by {
      assert ToLower("repository") == "repository";
      assert ToLower(" not") == " not";
      assert ToLower(" found") == " found";
      assert ToLower(":") == ":";
      assert ToLower(" no") == " no";
      assert ToLower(" such") == " such";
      assert ToLower(" repository") == " repository";
    }
    DetectsRepositoryNotFoundChars(ToLower(line));
    DetectsRepositoryNotFoundFound(ToLower(line));
    FirstWithout(ToLower(line), 2, ['a', 'a']);
  }

  lemma DetectsRevisionMissingChars(lower: string)
    requires lower == "revision" + " missing" + ":" + " revision" + " not" + " found"
    ensures 'a' !in lower && 'p' !in lower
  {
  }

  lemma DetectsRevisionMissingFound(lower: string)
    requires lower == "revision" + " missing" + ":" + " revision" + " not" + " found"
    ensures Contains(lower, Patterns[3].trigger)
  {
    assert Patterns[3].trigger == "revision" + " missing";
    assert lower == "" + Patterns[3].trigger + (":" + " revision" + " not" + " found");
    ContainsInfix("", Patterns[3].trigger, (":" + " revision" + " not" + " found"));
  }

  lemma DetectsRevisionMissing(line: string)
    requires line == "revision" + " missing" + ":" + " revision" + " not" + " found"
    ensures Detect(line) == Some(Patterns[3])
  {
    ToLowerAppend("revision", " missing");
    ToLowerAppend("revision" + " missing", ":");
    ToLowerAppend("revision" + " missing" + ":", " revision");
    ToLowerAppend("revision" + " missing" + ":" + " revision", " not");
    ToLowerAppend("revision" + " missing" + ":" + " revision" + " not", " found");
    assert ToLower(line) == "revision" + " missing" + ":" + " revision" + " not" + " found" by {
      assert ToLower("revision") == "revision";
      assert ToLower(" missing") == " missing";
      assert ToLower(":") == ":";
      assert ToLower(" revision") == " revision";
      assert ToLower(" not") == " not";
      assert ToLower(" found") == " found";
    }
    DetectsRevisionMissingChars(ToLower(line));
    DetectsRevisionMissingFound(ToLower(line));
    FirstWithout(ToLower(line), 3, ['a', 'a', 'p']);
  }

  lemma DetectsImagePullBackoffChars(lower: string)
    requires lower == "imagepullbackoff" + ":" + " failed" + " to" + " pull" + " image"
    ensures 'h' !in lower && 'r' !in lower
  {
  }

  lemma DetectsImagePullBackoffFound(lower: string)
    requires lower == "imagepullbackoff" + ":" + " failed" + " to" + " pull" + " image"
    ensures Contains(lower, Patterns[4].trigger)
  {
    assert Patterns[4].trigger == "imagepullbackoff";
    assert lower == "" + Patterns[4].trigger + (":" + " failed" + " to" + " pull" + " image");
    ContainsInfix("", Patterns[4].trigger, (":" + " failed" + " to" + " pull" + " image"));
  }

  lemma DetectsImagePullBackoff(line: string)
    requires line == "imagepullbackoff" + ":" + " failed" + " to" + " pull" + " image"
    ensures Detect(line) == Some(Patterns[4])
  {
    ToLowerAppend("imagepullbackoff", ":");
    ToLowerAppend("imagepullbackoff" + ":", " failed");
    ToLowerAppend("imagepullbackoff" + ":" + " failed", " to");
    ToLowerAppend("imagepullbackoff" + ":" + " failed" + " to", " pull");
    ToLowerAppend("imagepullbackoff" + ":" + " failed" + " to" + " pull", " image");
    assert ToLower(line) == "imagepullbackoff" + ":" + " failed" + " to" + " pull" + " image" by {
      assert ToLower("imagepullbackoff") == "imagepullbackoff";
      assert ToLower(":") == ":";
      assert ToLower(" failed") == " failed";
      assert ToLower(" to") == " to";
      assert ToLower(" pull") == " pull";
      assert ToLower(" image") == " image";
    }
    DetectsImagePullBackoffChars(ToLower(line));
    DetectsImagePullBackoffFound(ToLower(line));
    FirstWithout(ToLower(line), 4, ['h', 'h', 'r', 'r']);
  }

  lemma DetectsDnsResolutionFailedChars(lower: string)
    requires lower == "could" + " not" + " resolve" + " host" + ":" + " dns" + " failed"
    ensures 'b' !in lower && 'm' !in lower && 'p' !in lower
  {
  }

  lemma DetectsDnsResolutionFailedFound(lower: string)
    requires lower == "could" + " not" + " resolve" + " host" + ":" + " dns" + " failed"
    ensures Contains(lower, Patterns[5].trigger)
  {
    assert Patterns[5].trigger == "could" + " not" + " resolve" + " host";
    assert lower == "" + Patterns[5].trigger + (":" + " dns" + " failed");
    ContainsInfix("", Patterns[5].trigger, (":" + " dns" + " failed"));
  }

  lemma DnsEarlierAbsent(lower: string)
    requires 'b' !in lower && 'm' !in lower && 'p' !in lower && !Contains(lower, Patterns[1].trigger)
    ensures forall j :: 0 <= j < 5 ==> !Contains(lower, Patterns[j].trigger)
  {
    NoneBetween(lower, 0, 1, ['b']);
    NoneBetween(lower, 2, 5, ['p', 'm', 'm']);
  }

  lemma DetectsDnsResolutionFailedIn(lower: string)
    requires 'b' !in lower && 'm' !in lower && 'p' !in lower && !Contains(lower, Patterns[1].trigger)
    requires Contains(lower, Patterns[5].trigger)
    ensures FirstMatch(lower, Patterns) == Some(5)
  {
    DnsEarlierAbsent(lower);
    MatchAt(lower, 5);
  }

  lemma DetectsDnsResolutionFailed(line: string)
    requires line == "could" + " not" + " resolve" + " host" + ":" + " dns" + " failed"
    ensures Detect(line) == Some(Patterns[5])
  {
    ToLowerAppend("could", " not");
    ToLowerAppend("could" + " not", " resolve");
    ToLowerAppend("could" + " not" + " resolve", " host");
    ToLowerAppend("could" + " not" + " resolve" + " host", ":");
    ToLowerAppend("could" + " not" + " resolve" + " host" + ":", " dns");
    ToLowerAppend("could" + " not" + " resolve" + " host" + ":" + " dns", " failed");
    assert ToLower(line) == "could" + " not" + " resolve" + " host" + ":" + " dns" + " failed" by {
      assert ToLower("could") == "could";
      assert ToLower(" not") == " not";
      assert ToLower(" resolve") == " resolve";
      assert ToLower(" host") == " host";
      assert ToLower(":") == ":";
      assert ToLower(" dns") == " dns";
      assert ToLower(" failed") == " failed";
    }
    DetectsDnsResolutionFailedChars(ToLower(line));
    DetectsDnsResolutionFailedFound(ToLower(line));
    DnsNotAuthentication(ToLower(line));
    DetectsDnsResolutionFailedIn(ToLower(line));
  }

  lemma DetectsPermissionDeniedChars(lower: string)
    requires lower == "permission" + " denied" + ":" + " access" + " denied"
    ensures 'f' !in lower && 'v' !in lower
  {
  }

  lemma DetectsPermissionDeniedFound(lower: string)
    requires lower == "permission" + " denied" + ":" + " access" + " denied"
    ensures Contains(lower, Patterns[6].trigger)
  {
    assert Patterns[6].trigger == "permission" + " denied";
    assert lower == "" + Patterns[6].trigger + (":" + " access" + " denied");
    ContainsInfix("", Patterns[6].trigger, (":" + " access" + " denied"));
  }

  lemma DetectsPermissionDenied(line: string)
    requires line == "permission" + " denied" + ":" + " access" + " denied"
    ensures Detect(line) == Some(Patterns[6])
  {
    ToLowerAppend("permission", " denied");
    ToLowerAppend("permission" + " denied", ":");
    ToLowerAppend("permission" + " denied" + ":", " access");
    ToLowerAppend("permission" + " denied" + ":" + " access", " denied");
    assert ToLower(line) == "permission" + " denied" + ":" + " access" + " denied" by {
      assert ToLower("permission") == "permission";
      assert ToLower(" denied") == " denied";
      assert ToLower(":") == ":";
      assert ToLower(" access") == " access";
      assert ToLower(" denied") == " denied";
    }
    DetectsPermissionDeniedChars(ToLower(line));
    DetectsPermissionDeniedFound(ToLower(line));
    FirstWithout(ToLower(line), 6, ['f', 'f', 'f', 'v', 'f', 'v']);
  }

  lemma DetectsLoadbalancerPendingChars(lower: string)
    requires lower == "loadbalancer" + " pending" + ":" + " external" + " pending"
    ensures 'f' !in lower && 'm' !in lower && 'v' !in lower
  {
  }

  lemma DetectsLoadbalancerPendingFound(lower: string)
    requires lower == "loadbalancer" + " pending" + ":" + " external" + " pending"
    ensures Contains(lower, Patterns[7].trigger)
  {
    assert Patterns[7].trigger == "loadbalancer" + " pending";
    assert lower == "" + Patterns[7].trigger + (":" + " external" + " pending");
    ContainsInfix("", Patterns[7].trigger, (":" + " external" + " pending"));
  }

  lemma DetectsLoadbalancerPending(line: string)
    requires line == "loadbalancer" + " pending" + ":" + " external" + " pending"
    ensures Detect(line) == Some(Patterns[7])
  {
    ToLowerAppend("loadbalancer", " pending");
    ToLowerAppend("loadbalancer" + " pending", ":");
    ToLowerAppend("loadbalancer" + " pending" + ":", " external");
    ToLowerAppend("loadbalancer" + " pending" + ":" + " external", " pending");
    assert ToLower(line) == "loadbalancer" + " pending" + ":" + " external" + " pending" by {
      assert ToLower("loadbalancer") == "loadbalancer";
      assert ToLower(" pending") == " pending";
      assert ToLower(":") == ":";
      assert ToLower(" external") == " external";
      assert ToLower(" pending") == " pending";
    }
    DetectsLoadbalancerPendingChars(ToLower(line));
    DetectsLoadbalancerPendingFound(ToLower(line));
    FirstWithout(ToLower(line), 7, ['f', 'f', 'f', 'v', 'f', 'v', 'm']);
  }

  /** Each test line is detected as exactly its category. */
  lemma PositiveCasesDetected()
    ensures forall k :: 0 <= k < |PositiveCases| ==>
              Detect(PositiveCases[k].1).Some? && Detect(PositiveCases[k].1).value.name == PositiveCases[k].0
  {
    forall k | 0 <= k < |PositiveCases|
      ensures Detect(PositiveCases[k].1).Some? && Detect(PositiveCases[k].1).value.name == PositiveCases[k].0
    {
      if k == 0 {
        DetectsBuildpackFailure(PositiveCases[0].1);
      } else if k == 1 {
        DetectsEcrAuthFailed(PositiveCases[1].1);
      } else if k == 2 {
        DetectsRepositoryNotFound(PositiveCases[2].1);
      } else if k == 3 {
        DetectsRevisionMissing(PositiveCases[3].1);
      } else if k == 4 {
        DetectsImagePullBackoff(PositiveCases[4].1);
      } else if k == 5 {
        DetectsDnsResolutionFailed(PositiveCases[5].1);
      } else if k == 6 {
        DetectsPermissionDenied(PositiveCases[6].1);
      } else {
        DetectsLoadbalancerPending(PositiveCases[7].1);
      }
    }
  }

  lemma IgnoresBuildingChars(lower: string)
    requires lower == "building" + " application" + " successfully"
    ensures 'h' !in lower && 'm' !in lower && 'r' !in lower
  {
  }

  lemma IgnoresBuilding(line: string)
    requires line == "Building" + " application" + " successfully"
    ensures Detect(line).None?
  {
    ToLowerAppend("Building", " application");
    ToLowerAppend("Building" + " application", " successfully");
    assert ToLower(line) == "building" + " application" + " successfully" by {
      assert ToLower("Building") == "building";
      assert ToLower(" application") == " application";
      assert ToLower(" successfully") == " successfully";
    }
    IgnoresBuildingChars(ToLower(line));
    NoneWithout(ToLower(line), ['h', 'h', 'r', 'r', 'm', 'r', 'r', 'r']);
  }

  lemma IgnoresDeployCompletedChars(lower: string)
    requires lower == "deploy" + " completed" + " without" + " errors"
    ensures 'f' !in lower && 'n' !in lower && 'v' !in lower
  {
  }

  lemma IgnoresDeployCompleted(line: string)
    requires line == "Deploy" + " completed" + " without" + " errors"
    ensures Detect(line).None?
  {
    ToLowerAppend("Deploy", " completed");
    ToLowerAppend("Deploy" + " completed", " without");
    ToLowerAppend("Deploy" + " completed" + " without", " errors");
    assert ToLower(line) == "deploy" + " completed" + " without" + " errors" by {
      assert ToLower("Deploy") == "deploy";
      assert ToLower(" completed") == " completed";
      assert ToLower(" without") == " without";
      assert ToLower(" errors") == " errors";
    }
    IgnoresDeployCompletedChars(ToLower(line));
    NoneWithout(ToLower(line), ['f', 'f', 'f', 'v', 'f', 'v', 'n', 'n']);
  }

  lemma IgnoresChecksPassedChars(lower: string)
    requires lower == "all" + " checks" + " passed"
    ensures 'f' !in lower && 'r' !in lower
  {
  }

  lemma IgnoresChecksPassed(line: string)
    requires line == "All" + " checks" + " passed"
    ensures Detect(line).None?
  {
    ToLowerAppend("All", " checks");
    ToLowerAppend("All" + " checks", " passed");
    assert ToLower(line) == "all" + " checks" + " passed" by {
      assert ToLower("All") == "all";
      assert ToLower(" checks") == " checks";
      assert ToLower(" passed") == " passed";
    }
    IgnoresChecksPassedChars(ToLower(line));
    NoneWithout(ToLower(line), ['f', 'f', 'f', 'r', 'f', 'r', 'r', 'r']);
  }

  lemma IgnoresRunningNormallyChars(lower: string)
    requires lower == "service" + " is" + " running" + " normally"
    ensures 'd' !in lower && 'f' !in lower
  {
  }

  lemma IgnoresRunningNormallyIn(lower: string)
    requires 'd' !in lower && 'f' !in lower && !Contains(lower, Patterns[3].trigger)
    ensures FirstMatch(lower, Patterns) == None
  {
    NoneBetween(lower, 0, 3, ['f', 'f', 'f']);
    NoneBetween(lower, 4, 8, ['f', 'd', 'd', 'd']);
    assert forall j :: 0 <= j < |Patterns| ==> !Contains(lower, Patterns[j].trigger);
  }

  lemma IgnoresRunningNormally(line: string)
    requires line == "Service" + " is" + " running" + " normally"
    ensures Detect(line).None?
  {
    ToLowerAppend("Service", " is");
    ToLowerAppend("Service" + " is", " running");
    ToLowerAppend("Service" + " is" + " running", " normally");
    assert ToLower(line) == "service" + " is" + " running" + " normally" by {
      assert ToLower("Service") == "service";
      assert ToLower(" is") == " is";
      assert ToLower(" running") == " running";
      assert ToLower(" normally") == " normally";
    }
    IgnoresRunningNormallyChars(ToLower(line));
    RevisionNotInService(ToLower(line));
    IgnoresRunningNormallyIn(ToLower(line));
  }

  /** No benign line is detected. */
  lemma NegativeCasesIgnored()
    ensures forall k :: 0 <= k < |NegativeCases| ==> Detect(NegativeCases[k]).None?
  {
    IgnoresBuilding(NegativeCases[0]);
    IgnoresDeployCompleted(NegativeCases[1]);
    IgnoresChecksPassed(NegativeCases[2]);
    IgnoresRunningNormally(NegativeCases[3]);
  }

  /* ---------------------------------------------------------------------- */
  /* Fix strategies                                                         */
  /* ---------------------------------------------------------------------- */

  /** A remedy and the confidence placed in it. */
  datatype FixStrategy = FixStrategy(name: string, confidence: real)

  /** A classified error and its candidate remedies. */
  datatype DeploymentError = DeploymentError(pattern: ErrorPattern, suggestions: seq<FixStrategy>)

  /** The registered strategies the tests fix: buildpack failures fall back
      to a Docker build. */
  const FixStrategies: map<string, seq<FixStrategy>> := map["buildpack_failure" := [FixStrategy("docker_fallback", 0.9)]]

  /** Every registered confidence lies in [0, 1]. */
  predicate ConfidencesValid(table: map<string, seq<FixStrategy>>) {
    forall name, i :: name in table && 0 <= i < |table[name]| ==> 0.0 <= table[name][i].confidence <= 1.0
  }

  /** The first candidate of highest confidence. */
  function BestIndex(s: seq<FixStrategy>): (k: nat)
    requires |s| > 0
    ensures k < |s|
    ensures forall j :: 0 <= j < |s| ==> s[j].confidence <= s[k].confidence
    ensures forall j :: 0 <= j < k ==> s[j].confidence < s[k].confidence
  {
    if |s| == 1 then 0
    else
      var k := BestIndex(s[..|s| - 1]);
      if s[|s| - 1].confidence > s[k].confidence then |s| - 1 else k
  }

  /** selectBestFix: nothing for no error or no candidates, otherwise the
      candidate of highest confidence, the earliest on a tie. */
  function SelectBestFix(e: Option<DeploymentError>): (r: Option<FixStrategy>)
    ensures r.None? <==> e.None? || |e.value.suggestions| == 0
    ensures r.Some? ==> && r.value in e.value.suggestions
                        && forall f :: f in e.value.suggestions ==> f.confidence <= r.value.confidence
  {
    if e.None? || |e.value.suggestions| == 0 then None
    else Some(e.value.suggestions[BestIndex(e.value.suggestions)])
  }

  /** The registered table respects the confidence bound. */
  lemma RegisteredConfidencesValid()
    ensures ConfidencesValid(FixStrategies)
  {
    forall name, i | name in FixStrategies && 0 <= i < |FixStrategies[name]|
      ensures 0.0 <= FixStrategies[name][i].confidence <= 1.0
    {
      assert name == "buildpack_failure";
    }
  }

  /** A selected fix from a valid table has a confidence in [0, 1]. */
  lemma SelectedConfidenceBounded(table: map<string, seq<FixStrategy>>, p: ErrorPattern)
    requires ConfidencesValid(table) && p.name in table
    ensures var r := SelectBestFix(Some(DeploymentError(p, table[p.name])));
            r.Some? ==> 0.0 <= r.value.confidence <= 1.0
  {
    var s := table[p.name];
    if |s| > 0 {
      var k := BestIndex(s);
      assert 0.0 <= s[k].confidence <= 1.0;
    }
  }

  /** A buildpack failure is answered by the Docker fallback, with high
      confidence. */
  lemma BuildpackFailureFallsBackToDocker()
    ensures var r := SelectBestFix(Some(DeploymentError(ErrorPattern("buildpack_failure", ""), FixStrategies["buildpack_failure"])));
            r.Some? && r.value.name == "docker_fallback" && r.value.confidence >= 0.8
  {
  }

  /* ---------------------------------------------------------------------- */
  /* The agent                                                              */
  /* ---------------------------------------------------------------------- */

  /** The strategies registered for a pattern, none when it has no entry. */
  function Strategies(name: string): (r: seq<FixStrategy>)
    ensures name in FixStrategies ==> r == FixStrategies[name]
    ensures name !in FixStrategies ==> r == []
  {
    if name in FixStrategies then FixStrategies[name] else []
  }

  /** The newest lines of s, at most capacity of them. */
  function Window(s: seq<string>, capacity: nat): (r: seq<string>)
    ensures |r| <= capacity && |r| <= |s|
    ensures |s| <= capacity ==> r == s
    ensures r == s[|s| - |r|..]
  {
    if |s| <= capacity then s else s[|s| - capacity..]
  }

  /** Keeping the newest lines step by step keeps the newest lines of the
      whole stream. */
  lemma WindowAppend(s: seq<string>, x: string, capacity: nat)
    ensures Window(Window(s, capacity) + [x], capacity) == Window(s + [x], capacity)
  {
  }

  /** Some line of the stream is detected. */
  predicate AnyDetected(lines: seq<string>) {
    exists i :: 0 <= i < |lines| && Detect(lines[i]).Some?
  }

  /** A stream with one more line has a detected line exactly when the
      shorter one had or the new line is one. */
  lemma AnyDetectedAppend(lines: seq<string>, x: string)
    ensures AnyDetected(lines + [x]) <==> AnyDetected(lines) || Detect(x).Some?
  {
    if Detect(x).Some? {
      assert (lines + [x])[|lines|] == x;
    }
    if AnyDetected(lines) {
      var i :| 0 <= i < |lines| && Detect(lines[i]).Some?;
      assert (lines + [x])[i] == lines[i];
    }
    if AnyDetected(lines + [x]) {
      var i :| 0 <= i < |lines + [x]| && Detect((lines + [x])[i]).Some?;
      if i < |lines| {
        assert (lines + [x])[i] == lines[i];
      }
    }
  }

  /** The status an agent reports after seeing lines: "error_detected" once
      any line was classified, otherwise what it was. */
  function StatusAfter(status: string, lines: seq<string>): (r: string)
    ensures r == "error_detected" <==> status == "error_detected" || AnyDetected(lines)
    ensures !AnyDetected(lines) ==> r == status
  {
    if AnyDetected(lines) then "error_detected" else status
  }

  /** The status after one more line. */
  function NextStatus(status: string, line: string): string {
    if Detect(line).Some? then "error_detected" else status
  }

  /** The last error after one more line: a detected line replaces it,
      with the strategies registered for its pattern. */
  function NextError(e: Option<DeploymentError>, line: string): Option<DeploymentError> {
    match Detect(line)
    case None => e
    case Some(p) => Some(DeploymentError(p, Strategies(p.name)))
  }

  /** The last error after a stream of lines. */
  function ErrorAfter(e: Option<DeploymentError>, lines: seq<string>): Option<DeploymentError>
    decreases |lines|
  {
    if lines == [] then e else NextError(ErrorAfter(e, lines[..|lines| - 1]), lines[|lines| - 1])
  }

  /** The last error is left alone by a stream with no detected line. */
  lemma {:induction false} ErrorAfterUndetected(e: Option<DeploymentError>, lines: seq<string>)
    requires !AnyDetected(lines)
    ensures ErrorAfter(e, lines) == e
    decreases |lines|
  {
    if lines != [] {
      var init := lines[..|lines| - 1];
      var last := lines[|lines| - 1];
      assert lines == init + [last];
      AnyDetectedAppend(init, last);
      ErrorAfterUndetected(e, init);
    }
  }

  /** Otherwise the last error is the pattern of the stream's last detected
      line, with its strategies. */
  lemma {:induction false} ErrorAfterLastDetected(e: Option<DeploymentError>, lines: seq<string>)
    ensures forall j :: 0 <= j < |lines| && Detect(lines[j]).Some? &&
                        (forall l :: j < l < |lines| ==> Detect(lines[l]).None?) ==>
              ErrorAfter(e, lines) == Some(DeploymentError(Detect(lines[j]).value, Strategies(Detect(lines[j]).value.name)))
    decreases |lines|
  {
    if lines != [] {
      var init := lines[..|lines| - 1];
      var last := lines[|lines| - 1];
      assert lines == init + [last];
      ErrorAfterLastDetected(e, init);
      forall j | 0 <= j < |lines| && Detect(lines[j]).Some? && (forall l :: j < l < |lines| ==> Detect(lines[l]).None?)
        ensures ErrorAfter(e, lines) == Some(DeploymentError(Detect(lines[j]).value, Strategies(Detect(lines[j]).value.name)))
      {
        if j < |lines| - 1 {
          assert Detect(last).None?;
          assert init[j] == lines[j];
          assert forall l :: j < l < |init| ==> init[l] == lines[l];
        }
      }
    }
  }

  /** Reading line i of a stream after the lines before it. */
  lemma MonitorStep(prev: seq<string>, status: string, e: Option<DeploymentError>, lines: seq<string>, i: nat, capacity: nat)
    requires i < |lines|
    ensures Window(Window(prev + lines[..i], capacity) + [lines[i]], capacity) == Window(prev + lines[..i + 1], capacity)
    ensures StatusAfter(status, lines[..i + 1]) == NextStatus(StatusAfter(status, lines[..i]), lines[i])
    ensures ErrorAfter(e, lines[..i + 1]) == NextError(ErrorAfter(e, lines[..i]), lines[i])
  {
    assert lines[..i + 1] == lines[..i] + [lines[i]];
    assert lines[..i + 1][..i] == lines[..i];
    assert prev + lines[..i + 1] == (prev + lines[..i]) + [lines[i]];
    WindowAppend(prev + lines[..i], lines[i], capacity);
    AnyDetectedAppend(lines[..i], lines[i]);
  }

  /** NewAIAgent and its state: a status, the captured lines (the newest
      `capacity` of them) and the last error detected. */
  class AIAgent {
    var status: string
    var logs: seq<string>
    var lastError: Option<DeploymentError>
    const capacity: nat

    ghost predicate Valid()
      reads this
    {
      |logs| <= capacity
    }

    /** A fresh agent is monitoring and has captured nothing. */
    constructor (capacity: nat)
      ensures Valid()
      ensures status == "monitoring" && logs == [] && lastError == None && this.capacity == capacity
    {
      status := "monitoring";
      logs := [];
      lastError := None;
      this.capacity := capacity;
    }

    /** One line read from the stream: it is captured, evicting the oldest
        past capacity, and a detected line becomes the last error together
        with its registered strategies. */
    method ProcessLine(line: string)
      requires Valid()
      modifies this
      ensures Valid()
      ensures logs == Window(old(logs) + [line], capacity)
      ensures status == NextStatus(old(status), line)
      ensures lastError == NextError(old(lastError), line)
    {
      logs := Window(logs + [line], capacity);
      var d := Detect(line);
      if d.Some? {
        lastError := Some(DeploymentError(d.value, Strategies(d.value.name)));
        status := "error_detected";
      }
    }

    /** MonitorLogs, read synchronously: every line is processed in order. */
    method MonitorLogs(lines: seq<string>)
      requires Valid()
      modifies this
      ensures Valid()
      ensures logs == Window(old(logs) + lines, capacity)
      ensures status == StatusAfter(old(status), lines)
      ensures lastError == ErrorAfter(old(lastError), lines)
    {
      var i := 0;
      while i < |lines|
        invariant 0 <= i <= |lines|
        invariant Valid()
        invariant logs == Window(old(logs) + lines[..i], capacity)
        invariant status == StatusAfter(old(status), lines[..i])
        invariant lastError == ErrorAfter(old(lastError), lines[..i])
      {
        MonitorStep(old(logs), old(status), old(lastError), lines, i, capacity);
        ProcessLine(lines[i]);
        i := i + 1;
      }
      assert lines[..i] == lines;
    }

    /** ExportLogs: a copy of the captured lines. */
    method ExportLogs() returns (r: seq<string>)
      ensures r == logs
    {
      r := logs;
    }

    /** GetStatus */
    method GetStatus() returns (r: string)
      ensures r == status
    {
      r := status;
    }
  }

  /** A fresh agent reports "monitoring"; after it monitored a non-empty
      stream, the export holds the stream's newest lines, all of them when
      they fit, and so is not empty. */
  method MonitoringCaptures(capacity: nat, lines: seq<string>) returns (status: string, exported: seq<string>)
    requires capacity > 0
    ensures status == "monitoring"
    ensures |lines| > 0 ==> |exported| > 0
    ensures |lines| <= capacity ==> exported == lines
    ensures |exported| <= |lines| && exported == lines[|lines| - |exported|..]
  {
    var agent := new AIAgent(capacity);
    status := agent.GetStatus();
    agent.MonitorLogs(lines);
    exported := agent.ExportLogs();
  }

  /* ---------------------------------------------------------------------- */
  /* The real-world scenarios                                               */
  /* ---------------------------------------------------------------------- */

  /** A build that succeeds on Docker: nothing in it is an error. */
  const SuccessStream: seq<string> := [
    "Building" + " application...",
    "Using" + " Docker" + " build...",
    "Build" + " successful!"
  ]

  /** Streams that each carry one error line among progress messages: a
      buildpack failure, an ECR push failure and a Knative deploy failure. */
  const FailureStreams: seq<seq<string>> := [
    ["Building with pack...", "ERROR:" + " failed" + " to" + " build: " + "failed" + " to" + " fetch" + " base" + " layers", "Falling back to Docker build...", "Docker build successful!"],
    ["Pushing to ECR...", "ERROR:" + " push" + " failed: " + "authentication" + " failed", "Refreshing ECR auth...", "Push successful!"],
    ["Deploying to Knative...", "ERROR: " + "revision" + " missing", "Restarting service...", "Deploy successful!"]
  ]

  lemma IgnoresBuildingApplicationChars(lower: string)
    requires lower == "building" + " application..."
    ensures 'f' !in lower && 'r' !in lower
  {
  }

  lemma IgnoresBuildingApplication(line: string)
    requires line == "Building" + " application..."
    ensures Detect(line).None?
  {
    ToLowerAppend("Building", " application...");
    assert ToLower(line) == "building" + " application..." by {
      assert ToLower("Building") == "building";
      assert ToLower(" application...") == " application...";
    }
    IgnoresBuildingApplicationChars(ToLower(line));
    NoneWithout(ToLower(line), ['f', 'f', 'f', 'r', 'f', 'r', 'r', 'r']);
  }

  lemma IgnoresUsingDockerChars(lower: string)
    requires lower == "using" + " docker" + " build..."
    ensures 'f' !in lower && 'p' !in lower && 'v' !in lower
  {
  }

  lemma IgnoresUsingDocker(line: string)
    requires line == "Using" + " Docker" + " build..."
    ensures Detect(line).None?
  {
    ToLowerAppend("Using", " Docker");
    ToLowerAppend("Using" + " Docker", " build...");
    assert ToLower(line) == "using" + " docker" + " build..." by {
      assert ToLower("Using") == "using";
      assert ToLower(" Docker") == " docker";
      assert ToLower(" build...") == " build...";
    }
    IgnoresUsingDockerChars(ToLower(line));
    NoneWithout(ToLower(line), ['f', 'f', 'f', 'v', 'f', 'v', 'p', 'p']);
  }

  lemma IgnoresBuildSuccessfulChars(lower: string)
    requires lower == "build" + " successful!"
    ensures 'a' !in lower && 'r' !in lower
  {
  }

  lemma IgnoresBuildSuccessful(line: string)
    requires line == "Build" + " successful!"
    ensures Detect(line).None?
  {
    ToLowerAppend("Build", " successful!");
    assert ToLower(line) == "build" + " successful!" by {
      assert ToLower("Build") == "build";
      assert ToLower(" successful!") == " successful!";
    }
    IgnoresBuildSuccessfulChars(ToLower(line));
    NoneWithout(ToLower(line), ['a', 'a', 'r', 'r', 'a', 'r', 'r', 'a']);
  }

  lemma DetectsPushAuthFailureChars(lower: string)
    requires lower == "error:" + " push" + " failed: " + "authentication" + " failed"
    ensures 'b' !in lower
  {
  }

  lemma DetectsPushAuthFailureFound(lower: string)
    requires lower == "error:" + " push" + " failed: " + "authentication" + " failed"
    ensures Contains(lower, Patterns[1].trigger)
  {
    assert Patterns[1].trigger == "authentication" + " failed";
    assert lower == "error:" + " push" + " failed: " + Patterns[1].trigger + "";
    ContainsInfix("error:" + " push" + " failed: ", Patterns[1].trigger, "");
  }

  lemma DetectsPushAuthFailure(line: string)
    requires line == "ERROR:" + " push" + " failed: " + "authentication" + " failed"
    ensures Detect(line) == Some(Patterns[1])
  {
    ToLowerAppend("ERROR:", " push");
    ToLowerAppend("ERROR:" + " push", " failed: ");
    ToLowerAppend("ERROR:" + " push" + " failed: ", "authentication");
    ToLowerAppend("ERROR:" + " push" + " failed: " + "authentication", " failed");
    assert ToLower(line) == "error:" + " push" + " failed: " + "authentication" + " failed" by {
      assert ToLower("ERROR:") == "error:";
      assert ToLower(" push") == " push";
      assert ToLower(" failed: ") == " failed: ";
      assert ToLower("authentication") == "authentication";
      assert ToLower(" failed") == " failed";
    }
    DetectsPushAuthFailureChars(ToLower(line));
    DetectsPushAuthFailureFound(ToLower(line));
    FirstWithout(ToLower(line), 1, ['b']);
  }

  lemma DetectsKnativeRevisionMissingChars(lower: string)
    requires lower == "error: " + "revision" + " missing"
    ensures 'f' !in lower
  {
  }

  lemma DetectsKnativeRevisionMissingFound(lower: string)
    requires lower == "error: " + "revision" + " missing"
    ensures Contains(lower, Patterns[3].trigger)
  {
    assert Patterns[3].trigger == "revision" + " missing";
    assert lower == "error: " + Patterns[3].trigger + "";
    ContainsInfix("error: ", Patterns[3].trigger, "");
  }

  lemma DetectsKnativeRevisionMissing(line: string)
    requires line == "ERROR: " + "revision" + " missing"
    ensures Detect(line) == Some(Patterns[3])
  {
    ToLowerAppend("ERROR: ", "revision");
    ToLowerAppend("ERROR: " + "revision", " missing");
    assert ToLower(line) == "error: " + "revision" + " missing" by {
      assert ToLower("ERROR: ") == "error: ";
      assert ToLower("revision") == "revision";
      assert ToLower(" missing") == " missing";
    }
    DetectsKnativeRevisionMissingChars(ToLower(line));
    DetectsKnativeRevisionMissingFound(ToLower(line));
    FirstWithout(ToLower(line), 3, ['f', 'f', 'f']);
  }

  /** The success stream holds no detected line. */
  lemma SuccessStreamClean()
    ensures !AnyDetected(SuccessStream)
  {
    IgnoresBuildingApplication(SuccessStream[0]);
    IgnoresUsingDocker(SuccessStream[1]);
    IgnoresBuildSuccessful(SuccessStream[2]);
  }

  /** Each failing stream holds a detected line. */
  lemma FailureStreamsDetected()
    ensures forall k :: 0 <= k < |FailureStreams| ==> AnyDetected(FailureStreams[k])
  {
    forall k | 0 <= k < |FailureStreams|
      ensures AnyDetected(FailureStreams[k])
    {
      if k == 0 {
        DetectsBuildpackFailure(FailureStreams[0][1]);
      } else if k == 1 {
        DetectsPushAuthFailure(FailureStreams[1][1]);
      } else {
        DetectsKnativeRevisionMissing(FailureStreams[2][1]);
      }
      assert Detect(FailureStreams[k][1]).Some?;
    }
  }

  /** One scenario of the real-world test: a fresh agent monitors the
      stream, and its exported lines are searched for a detected one. */
  method RunScenario(capacity: nat, stream: seq<string>) returns (errorDetected: bool)
    requires capacity > 0
    ensures errorDetected == AnyDetected(Window(stream, capacity))
    ensures |stream| <= capacity ==> (errorDetected <==> AnyDetected(stream))
  {
    var agent := new AIAgent(capacity);
    agent.MonitorLogs(stream);
    assert [] + stream == stream;
    var logs := agent.ExportLogs();
    errorDetected := false;
    var i := 0;
    while i < |logs| && !errorDetected
      invariant 0 <= i <= |logs|
      invariant errorDetected == AnyDetected(logs[..i])
    {
      AnyDetectedStep(logs, i);
      errorDetected := Detect(logs[i]).Some?;
      i := i + 1;
    }
    if i < |logs| {
      AnyDetectedPrefix(logs, i);
    } else {
      assert logs[..i] == logs;
    }
  }

  /** A prefix one line longer has a detected line exactly when the shorter
      prefix has or the added line is one. */
  lemma AnyDetectedStep(lines: seq<string>, i: nat)
    requires i < |lines|
    ensures AnyDetected(lines[..i + 1]) <==> AnyDetected(lines[..i]) || Detect(lines[i]).Some?
  {
    assert lines[..i + 1] == lines[..i] + [lines[i]];
    AnyDetectedAppend(lines[..i], lines[i]);
  }

  /** A detected line in a prefix is a detected line of the stream. */
  lemma AnyDetectedPrefix(lines: seq<string>, n: nat)
    requires n <= |lines| && AnyDetected(lines[..n])
    ensures AnyDetected(lines)
  {
    var i :| 0 <= i < n && Detect(lines[..n][i]).Some?;
    assert lines[..n][i] == lines[i];
  }

  /** The real-world scenarios, each monitored by a fresh agent with room
      for the whole stream: no error is found in the successful build, and
      one is found in each failing stream. */
  method RealWorldScenarios(capacity: nat) returns (detected: seq<bool>)
    requires capacity >= 4
    ensures detected == [false, true, true, true]
  {
    SuccessStreamClean();
    FailureStreamsDetected();
    var clean := RunScenario(capacity, SuccessStream);
    detected := [clean];
    var k := 0;
    while k < |FailureStreams|
      invariant 0 <= k <= |FailureStreams|
      invariant detected == [false] + seq(k, _ => true)
    {
      assert |FailureStreams[k]| == 4;
      var found := RunScenario(capacity, FailureStreams[k]);
      detected := detected + [found];
      k := k + 1;
    }
  }
}

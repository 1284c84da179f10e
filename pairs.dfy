/** `key=value` entries: toEnvMap (cmd/deployer/deploy.go:290-297), which
    skips malformed entries, and the stricter loops of createSecrets
    (cmd/deployer/deploy.go:606-613) and the secrets command
    (cmd/deployer/attach.go:83-84), which reject them. */
module Pairs {

  import opened Wrappers
  import opened Text

  /** strings.SplitN(p, "=", 2) when it yields two parts. */
  function Entry(p: string): Option<(string, string)> {
    Cut(p, '=')
  }

  predicate HasKey(p: string, k: string) {
    Entry(p).Some? && Entry(p).value.0 == k
  }

  /** The map built from the entries in order: each well-formed entry sets
      its key, later entries overwriting earlier ones; malformed ones are
      passed over. */
  function EnvMap(pairs: seq<string>): map<string, string>
    decreases |pairs|
  {
    if pairs == [] then map[]
    else
      var m := EnvMap(pairs[..|pairs| - 1]);
      match Entry(pairs[|pairs| - 1])
      case None => m
      case Some((k, v)) => m[k := v]
  }

  /** toEnvMap's loop. */
  method ToEnvMap(pairs: seq<string>) returns (m: map<string, string>)
    ensures m == EnvMap(pairs)
  {
    m := map[];
    for i := 0 to |pairs|
      invariant m == EnvMap(pairs[..i])
    {
      assert pairs[..i + 1][..i] == pairs[..i];
      match Entry(pairs[i])
      case Some((k, v)) => m := m[k := v];
      case None =>
    }
    assert pairs[..|pairs|] == pairs;
  }

  /** A key is in the map exactly when some well-formed entry names it. */
  lemma {:induction false} EnvMapKeys(pairs: seq<string>, k: string)
    ensures k in EnvMap(pairs) <==> exists i :: 0 <= i < |pairs| && HasKey(pairs[i], k)
    decreases |pairs|
  {
    if pairs != [] {
      var init := pairs[..|pairs| - 1];
      EnvMapKeys(init, k);
      assert k in EnvMap(pairs) <==> k in EnvMap(init) || HasKey(pairs[|pairs| - 1], k);
      if exists i :: 0 <= i < |pairs| && HasKey(pairs[i], k) {
        var i :| 0 <= i < |pairs| && HasKey(pairs[i], k);
        if i < |pairs| - 1 { assert init[i] == pairs[i]; }
      }
      if exists i :: 0 <= i < |init| && HasKey(init[i], k) {
        var i :| 0 <= i < |init| && HasKey(init[i], k);
        assert pairs[i] == init[i];
      }
    }
  }

  /** The value of a key comes from the last entry that names it. */
  lemma {:induction false} EnvMapLastWins(pairs: seq<string>, i: nat)
    requires i < |pairs| && Entry(pairs[i]).Some?
    requires forall j :: i < j < |pairs| ==> !HasKey(pairs[j], Entry(pairs[i]).value.0)
    ensures Entry(pairs[i]).value.0 in EnvMap(pairs)
    ensures EnvMap(pairs)[Entry(pairs[i]).value.0] == Entry(pairs[i]).value.1
    decreases |pairs|
  {
    if i < |pairs| - 1 {
      var init := pairs[..|pairs| - 1];
      assert init[i] == pairs[i];
      forall j | i < j < |init| ensures !HasKey(init[j], Entry(init[i]).value.0) {
        assert init[j] == pairs[j];
      }
      EnvMapLastWins(init, i);
      assert !HasKey(pairs[|pairs| - 1], Entry(pairs[i]).value.0);
    }
  }

  /** Only the first '=' separates: the value keeps any further ones. */
  lemma ValueKeepsEquals(k: string, v: string)
    requires '=' !in k
    ensures EnvMap([k + "=" + v]) == map[k := v]
  {
    CutJoin(k, '=', v);
    assert [k + "=" + v][..0] == [];
  }

  /** A malformed entry is passed over wherever it stands. */
  lemma {:induction false} EnvMapSkipsMalformed(before: seq<string>, p: string, after: seq<string>)
    requires '=' !in p
    ensures EnvMap(before + [p] + after) == EnvMap(before + after)
    decreases |after|
  {
    if after == [] {
      var s := before + [p] + after;
      assert s == before + [p];
      assert s[..|s| - 1] == before && s[|s| - 1] == p;
      assert Entry(p).None?;
      assert before + after == before;
    } else {
      var last := after[|after| - 1];
      var init := after[..|after| - 1];
      assert (before + [p] + after)[..|before + [p] + after| - 1] == before + [p] + init;
      assert (before + after)[..|before + after| - 1] == before + init;
      EnvMapSkipsMalformed(before, p, init);
    }
  }

  /** Index of the first entry without '=', if any. */
  function FirstMalformed(pairs: seq<string>): (r: Option<nat>)
    ensures r.None? <==> forall i :: 0 <= i < |pairs| ==> '=' in pairs[i]
    ensures r.Some? ==> r.value < |pairs| && '=' !in pairs[r.value]
                        && forall i :: 0 <= i < r.value ==> '=' in pairs[i]
    decreases |pairs|
  {
    if pairs == [] then None
    else if '=' !in pairs[0] then Some(0)
    else match FirstMalformed(pairs[1..])
      case None => None
      case Some(i) => Some(i + 1)
  }

  /** What createSecrets and the secrets command make of their entries: the
      first entry without '=' is an error, `invalid` followed by that entry;
      otherwise the data is the map of all entries. */
  function ParsePairs(pairs: seq<string>, invalid: string): (r: Result<map<string, string>>)
    ensures r.Err? <==> exists i :: 0 <= i < |pairs| && '=' !in pairs[i]
    ensures r.Err? ==> exists i :: 0 <= i < |pairs| && '=' !in pairs[i] && r.msg == invalid + pairs[i]
                                   && forall j :: 0 <= j < i ==> '=' in pairs[j]
    ensures r.Ok? ==> r.value == EnvMap(pairs)
  {
    match FirstMalformed(pairs)
    case None => Ok(EnvMap(pairs))
    case Some(i) => Err(invalid + pairs[i])
  }

  /** The loop itself, which returns at the first malformed entry. */
  method CollectPairs(pairs: seq<string>, invalid: string) returns (r: Result<map<string, string>>)
    ensures r == ParsePairs(pairs, invalid)
  {
    var data := map[];
    for i := 0 to |pairs|
      invariant forall j :: 0 <= j < i ==> '=' in pairs[j]
      invariant data == EnvMap(pairs[..i])
    {
      assert pairs[..i + 1][..i] == pairs[..i];
      match Entry(pairs[i])
      case None =>
        return Err(invalid + pairs[i]);
      case Some((k, v)) =>
        data := data[k := v];
    }
    assert pairs[..|pairs|] == pairs;
    return Ok(data);
  }
}

/** The stand-alone secret commands of cmd/deployer/attach.go: attach-db,
    attach-redis and secrets.  Each checks its required flags before it
    builds a cluster client, defaults the namespace, and upserts one Secret
    with Get → Update/Create. */
module Commands {

  import opened Os
  import opened Secrets
  import Pairs
  import opened Attachments

  const DbRequired := "name, host, db required"
  const RedisRequired := "name and host required"
  const NameRequired := "name required"
  const InvalidPair := "invalid pair: "

  /* ---------------------------------------------------------------------- */
  /* What each command does to the store                                    */
  /* ---------------------------------------------------------------------- */

  /** attach-db: a missing name, host or database fails before the cluster
      is touched; past that check the command writes exactly what the
      deploy pipeline's database attachment writes. */
  function AttachDbRun(clientOk: bool, name: string, namespace: string, user: string, password: string,
                       host: string, port: int, db: string, secrets: map<SecretKey, Data>): (w: Write)
    ensures name == "" || host == "" || db == "" ==> w == Write(Failure(DbRequired), secrets)
    ensures name != "" && host != "" && db != "" && !clientOk ==> w == Write(Failure(ClientError), secrets)
    ensures name != "" && host != "" && db != "" && clientOk ==>
              && w.result == Success
              && w.secrets == Upsert(secrets, SecretKey(DefaultNamespace(namespace), name + "-db"),
                                     map["DATABASE_URL" := DatabaseUrl(user, password, host, port, db)])
  {
    if name == "" || host == "" || db == "" then Write(Failure(DbRequired), secrets)
    else DatabaseWrite(clientOk, name, namespace, user, password, host, port, db, secrets)
  }

  /** attach-redis: name and host are required; then `<name>-redis` gets
      REDIS_URL. */
  function AttachRedisRun(clientOk: bool, name: string, namespace: string, host: string, port: int,
                          password: string, secrets: map<SecretKey, Data>): (w: Write)
    ensures name == "" || host == "" ==> w == Write(Failure(RedisRequired), secrets)
    ensures name != "" && host != "" && !clientOk ==> w == Write(Failure(ClientError), secrets)
    ensures name != "" && host != "" && clientOk ==>
              && w.result == Success
              && w.secrets == Upsert(secrets, SecretKey(DefaultNamespace(namespace), name + "-redis"),
                                     map["REDIS_URL" := RedisUrl(password, host, port)])
  {
    if name == "" || host == "" then Write(Failure(RedisRequired), secrets)
    else RedisWrite(clientOk, name, namespace, host, port, password, secrets)
  }

  /** secrets: the name is required and is used as the Secret's name as it
      is, without the "-secrets" suffix the deploy pipeline adds; a pair
      without '=' fails the command and nothing is written. */
  function SecretsRun(clientOk: bool, name: string, namespace: string, pairs: seq<string>,
                      secrets: map<SecretKey, Data>): (w: Write)
    ensures name == "" ==> w == Write(Failure(NameRequired), secrets)
    ensures name != "" && !clientOk ==> w == Write(Failure(ClientError), secrets)
    ensures name != "" && clientOk && (exists i :: 0 <= i < |pairs| && '=' !in pairs[i]) ==>
              && w.secrets == secrets
              && exists i :: 0 <= i < |pairs| && '=' !in pairs[i] && w.result == Failure(InvalidPair + pairs[i])
    ensures name != "" && clientOk && (forall i :: 0 <= i < |pairs| ==> '=' in pairs[i]) ==>
              w == Write(Success, Upsert(secrets, SecretKey(DefaultNamespace(namespace), name), Pairs.EnvMap(pairs)))
  {
    if name == "" then Write(Failure(NameRequired), secrets)
    else if !clientOk then Write(Failure(ClientError), secrets)
    else match Pairs.ParsePairs(pairs, InvalidPair)
      case Err(e) => Write(Failure(e), secrets)
      case Ok(data) => Write(Success, secrets[SecretKey(DefaultNamespace(namespace), name) := data])
  }

  /* ---------------------------------------------------------------------- */
  /* Properties                                                             */
  /* ---------------------------------------------------------------------- */

  /** A failing command leaves the store as it found it, and a succeeding
      one changes only the Secret it names. */
  lemma CommandsTouchOneSecret(clientOk: bool, name: string, namespace: string, user: string, password: string,
                               host: string, port: int, db: string, pairs: seq<string>, secrets: map<SecretKey, Data>)
    ensures var w := AttachDbRun(clientOk, name, namespace, user, password, host, port, db, secrets);
            && (w.result.Failure? ==> w.secrets == secrets)
            && forall k :: k in secrets && k != SecretKey(DefaultNamespace(namespace), name + "-db") ==>
                 k in w.secrets && w.secrets[k] == secrets[k]
    ensures var w := AttachRedisRun(clientOk, name, namespace, host, port, password, secrets);
            && (w.result.Failure? ==> w.secrets == secrets)
            && forall k :: k in secrets && k != SecretKey(DefaultNamespace(namespace), name + "-redis") ==>
                 k in w.secrets && w.secrets[k] == secrets[k]
    ensures var w := SecretsRun(clientOk, name, namespace, pairs, secrets);
            && (w.result.Failure? ==> w.secrets == secrets)
            && forall k :: k in secrets && k != SecretKey(DefaultNamespace(namespace), name) ==>
                 k in w.secrets && w.secrets[k] == secrets[k]
  {
    var s := SecretsRun(clientOk, name, namespace, pairs, secrets);
    if name != "" && clientOk && forall i :: 0 <= i < |pairs| ==> '=' in pairs[i] {
      assert s.result == Success;
    }
  }

  /** Running a command again on the store it produced changes nothing and
      reports the same result. */
  lemma CommandsIdempotent(clientOk: bool, name: string, namespace: string, user: string, password: string,
                           host: string, port: int, db: string, pairs: seq<string>, secrets: map<SecretKey, Data>)
    ensures var w := AttachDbRun(clientOk, name, namespace, user, password, host, port, db, secrets);
            AttachDbRun(clientOk, name, namespace, user, password, host, port, db, w.secrets) == w
    ensures var w := AttachRedisRun(clientOk, name, namespace, host, port, password, secrets);
            AttachRedisRun(clientOk, name, namespace, host, port, password, w.secrets) == w
    ensures var w := SecretsRun(clientOk, name, namespace, pairs, secrets);
            SecretsRun(clientOk, name, namespace, pairs, w.secrets) == w
  {
    WritersIdempotent(clientOk, name, namespace, user, password, host, port, db, pairs, secrets);
    var w := SecretsRun(clientOk, name, namespace, pairs, secrets);
    if name != "" && clientOk && forall i :: 0 <= i < |pairs| ==> '=' in pairs[i] {
      UpsertIdempotent(secrets, SecretKey(DefaultNamespace(namespace), name), Pairs.EnvMap(pairs));
    }
  }

  /** For the same name, the attach commands write the very Secrets the
      deploy pipeline's attachments write, while the secrets command writes
      a different one from the pipeline's `<name>-secrets`. */
  lemma CommandsAgainstPipeline(clientOk: bool, name: string, namespace: string, user: string, password: string,
                                host: string, port: int, db: string, pairs: seq<string>, secrets: map<SecretKey, Data>)
    requires name != "" && host != ""
    ensures db != "" ==> AttachDbRun(clientOk, name, namespace, user, password, host, port, db, secrets)
                         == DatabaseWrite(clientOk, name, namespace, user, password, host, port, db, secrets)
    ensures AttachRedisRun(clientOk, name, namespace, host, port, password, secrets)
            == RedisWrite(clientOk, name, namespace, host, port, password, secrets)
    ensures SecretKey(DefaultNamespace(namespace), name) != SecretKey(DefaultNamespace(namespace), ProjectSecretsName(name))
  {
    assert |ProjectSecretsName(name)| == |name| + 8;
  }

  /* ---------------------------------------------------------------------- */
  /* The RunE bodies against the store                                      */
  /* ---------------------------------------------------------------------- */

  method AttachDbCommand(store: SecretStore, clientOk: bool, name: string, namespace: string, user: string,
                  password: string, host: string, port: int, db: string) returns (r: Exit)
    modifies store
    ensures Write(r, store.secrets) == AttachDbRun(clientOk, name, namespace, user, password, host, port, db, old(store.secrets))
  {
    if name == "" || host == "" || db == "" {
      return Failure(DbRequired);
    }
    r := AttachDatabase(store, clientOk, name, namespace, user, password, host, port, db);
  }

  method AttachRedisCommand(store: SecretStore, clientOk: bool, name: string, namespace: string, host: string,
                            port: int, password: string) returns (r: Exit)
    modifies store
    ensures Write(r, store.secrets) == AttachRedisRun(clientOk, name, namespace, host, port, password, old(store.secrets))
  {
    if name == "" || host == "" {
      return Failure(RedisRequired);
    }
    r := AttachRedis(store, clientOk, name, namespace, host, port, password);
  }

  method SecretsCommand(store: SecretStore, clientOk: bool, name: string, namespace: string,
                        pairs: seq<string>) returns (r: Exit)
    modifies store
    ensures Write(r, store.secrets) == SecretsRun(clientOk, name, namespace, pairs, old(store.secrets))
  {
    if name == "" {
      return Failure(NameRequired);
    }
    var ns := DefaultNamespace(namespace);
    if !clientOk {
      return Failure(ClientError);
    }
    var parsed := Pairs.CollectPairs(pairs, InvalidPair);
    match parsed {
      case Err(e) =>
        return Failure(e);
      case Ok(data) =>
        var _ := store.Apply(SecretKey(ns, name), data);
        return Success;
    }
  }
}

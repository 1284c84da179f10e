/** The pipeline's secret writers: attachDatabase, attachRedis and
    createSecrets (cmd/deployer/deploy.go:552-630).  Each builds a cluster
    client, composes the secret and upserts it with Get → Update/Create. */
module Attachments {

  import opened Wrappers
  import opened Os
  import opened Secrets
  import Pairs

  /** The result of a writer and the store it leaves behind. */
  datatype Write = Write(result: Exit, secrets: map<SecretKey, Data>)

  /** What one upsert does to the store: the key holds the new data, every
      other secret is untouched, and the key set grows by at most that key. */
  function Upsert(secrets: map<SecretKey, Data>, key: SecretKey, data: Data): (r: map<SecretKey, Data>)
    ensures key in r && r[key] == data
    ensures r.Keys == secrets.Keys + {key}
    ensures forall k :: k in secrets && k != key ==> r[k] == secrets[k]
  {
    secrets[key := data]
  }

  /** Upserting the same secret twice leaves the store as once did. */
  lemma UpsertIdempotent(secrets: map<SecretKey, Data>, key: SecretKey, data: Data)
    ensures Upsert(Upsert(secrets, key, data), key, data) == Upsert(secrets, key, data)
  {
  }

  /** attachDatabase: `<name>-db` in the defaulted namespace gets the single
      key DATABASE_URL; without a client nothing is written. */
  function DatabaseWrite(clientOk: bool, name: string, namespace: string, user: string, password: string,
                         host: string, port: int, db: string, secrets: map<SecretKey, Data>): (w: Write)
    ensures !clientOk ==> w == Write(Failure(ClientError), secrets)
    ensures clientOk ==> w.result == Success
    ensures clientOk ==> w.secrets == Upsert(secrets, SecretKey(DefaultNamespace(namespace), DatabaseSecretName(name)),
                                             DatabaseData(user, password, host, port, db))
  {
    if !clientOk then Write(Failure(ClientError), secrets)
    else
      var key := SecretKey(DefaultNamespace(namespace), name + "-db");
      Write(Success, secrets[key := map["DATABASE_URL" := DatabaseUrl(user, password, host, port, db)]])
  }

  /** attachRedis: `<name>-redis` gets the single key REDIS_URL. */
  function RedisWrite(clientOk: bool, name: string, namespace: string, host: string, port: int,
                      password: string, secrets: map<SecretKey, Data>): (w: Write)
    ensures !clientOk ==> w == Write(Failure(ClientError), secrets)
    ensures clientOk ==> w.result == Success
    ensures clientOk ==> w.secrets == Upsert(secrets, SecretKey(DefaultNamespace(namespace), RedisSecretName(name)),
                                             RedisData(password, host, port))
  {
    if !clientOk then Write(Failure(ClientError), secrets)
    else
      var key := SecretKey(DefaultNamespace(namespace), name + "-redis");
      Write(Success, secrets[key := map["REDIS_URL" := RedisUrl(password, host, port)]])
  }

  const InvalidSecretPair := "invalid secret pair: "

  /** createSecrets: `<name>-secrets` gets the parsed pairs; a pair without
      '=' fails the call before anything is written. */
  function SecretsWrite(clientOk: bool, name: string, namespace: string, pairs: seq<string>,
                        secrets: map<SecretKey, Data>): (w: Write)
    ensures !clientOk ==> w == Write(Failure(ClientError), secrets)
    ensures clientOk && (exists i :: 0 <= i < |pairs| && '=' !in pairs[i]) ==>
              && w.secrets == secrets
              && exists i :: 0 <= i < |pairs| && '=' !in pairs[i] && w.result == Failure(InvalidSecretPair + pairs[i])
    ensures clientOk && (forall i :: 0 <= i < |pairs| ==> '=' in pairs[i]) ==>
              w == Write(Success, Upsert(secrets, SecretKey(DefaultNamespace(namespace), ProjectSecretsName(name)),
                                         Pairs.EnvMap(pairs)))
  {
    if !clientOk then Write(Failure(ClientError), secrets)
    else match Pairs.ParsePairs(pairs, InvalidSecretPair)
      case Err(e) => Write(Failure(e), secrets)
      case Ok(data) => Write(Success, secrets[SecretKey(DefaultNamespace(namespace), name + "-secrets") := data])
  }

  /** A writer that succeeds again on the store it produced leaves it as it
      was: each of the three is idempotent. */
  lemma WritersIdempotent(clientOk: bool, name: string, namespace: string, user: string, password: string,
                          host: string, port: int, db: string, pairs: seq<string>, secrets: map<SecretKey, Data>)
    ensures var w := DatabaseWrite(clientOk, name, namespace, user, password, host, port, db, secrets);
            DatabaseWrite(clientOk, name, namespace, user, password, host, port, db, w.secrets) == w
    ensures var w := RedisWrite(clientOk, name, namespace, host, port, password, secrets);
            RedisWrite(clientOk, name, namespace, host, port, password, w.secrets) == w
    ensures var w := SecretsWrite(clientOk, name, namespace, pairs, secrets);
            SecretsWrite(clientOk, name, namespace, pairs, w.secrets) == w
  {
    var d := DatabaseWrite(clientOk, name, namespace, user, password, host, port, db, secrets);
    var r := RedisWrite(clientOk, name, namespace, host, port, password, secrets);
    var s := SecretsWrite(clientOk, name, namespace, pairs, secrets);
    if clientOk {
      UpsertIdempotent(secrets, SecretKey(DefaultNamespace(namespace), DatabaseSecretName(name)),
                       DatabaseData(user, password, host, port, db));
      UpsertIdempotent(secrets, SecretKey(DefaultNamespace(namespace), RedisSecretName(name)),
                       RedisData(password, host, port));
    }
  }

  /** The three writers never touch each other's secret. */
  lemma WritersDisjoint(name: string, namespace: string)
    ensures var ns := DefaultNamespace(namespace);
            && SecretKey(ns, DatabaseSecretName(name)) != SecretKey(ns, RedisSecretName(name))
            && SecretKey(ns, DatabaseSecretName(name)) != SecretKey(ns, ProjectSecretsName(name))
            && SecretKey(ns, RedisSecretName(name)) != SecretKey(ns, ProjectSecretsName(name))
  {
    DerivedNamesDistinct(name);
  }

  /* ---------------------------------------------------------------------- */
  /* The writers against the store                                          */
  /* ---------------------------------------------------------------------- */

  method AttachDatabase(store: SecretStore, clientOk: bool, name: string, namespace: string, user: string,
                        password: string, host: string, port: int, db: string) returns (r: Exit)
    modifies store
    ensures Write(r, store.secrets) == DatabaseWrite(clientOk, name, namespace, user, password, host, port, db, old(store.secrets))
  {
    if !clientOk {
      return Failure(ClientError);
    }
    var ns := DefaultNamespace(namespace);
    var url := DatabaseUrl(user, password, host, port, db);
    var _ := store.Apply(SecretKey(ns, name + "-db"), map["DATABASE_URL" := url]);
    return Success;
  }

  method AttachRedis(store: SecretStore, clientOk: bool, name: string, namespace: string, host: string,
                     port: int, password: string) returns (r: Exit)
    modifies store
    ensures Write(r, store.secrets) == RedisWrite(clientOk, name, namespace, host, port, password, old(store.secrets))
  {
    if !clientOk {
      return Failure(ClientError);
    }
    var ns := DefaultNamespace(namespace);
    var url := RedisUrl(password, host, port);
    var _ := store.Apply(SecretKey(ns, name + "-redis"), map["REDIS_URL" := url]);
    return Success;
  }

  method CreateSecrets(store: SecretStore, clientOk: bool, name: string, namespace: string,
                       pairs: seq<string>) returns (r: Exit)
    modifies store
    ensures Write(r, store.secrets) == SecretsWrite(clientOk, name, namespace, pairs, old(store.secrets))
  {
    if !clientOk {
      return Failure(ClientError);
    }
    var ns := DefaultNamespace(namespace);
    var parsed := Pairs.CollectPairs(pairs, InvalidSecretPair);
    match parsed {
      case Err(e) =>
        return Failure(e);
      case Ok(data) =>
        var _ := store.Apply(SecretKey(ns, name + "-secrets"), data);
        return Success;
    }
  }
}

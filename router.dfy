/** The secrets registry handlers (app/api/secrets_router.py). Each handler
    reads the metadata store first, then calls the vault, then writes
    metadata, on the two module-wide clients `_secrets_mgr` and `_store`. */
module Router {
  import opened Wrappers
  import opened Domain
  import opened Responses
  import opened Vault
  import opened Store

  /** Both external stores at one moment: the vault and the metadata documents. */
  datatype State = State(secrets: Secrets, docs: Documents)

  /** What the outside world decides during one request: the ARN the vault
      issues on create, and whether the store fetch, the vault call and the
      store write go through. */
  datatype Io = Io(issuedArn: string, fetch: Outage, vault: Outage, post: Outage)

  /** A handler's effect: the stores afterwards and the response, or the
      HTTPException it raises. */
  datatype Outcome = Outcome(state: State, response: Result<ApiResponse, Exception>)

  const AlreadyExists := HttpException(400, "Secret already exists")
  const NotFound := HttpException(404, "Secret not found")
  const UpdatedMessage := "Secret updated successfully"

  /** The text put in a 500 response for a non-HTTP exception (stands for `repr(e)`). */
  function Describe(e: Exception): string
  {
    match e
    case HttpException(_, detail) => detail
    case ClientError(code) => code
    case StoreError(code) => code
  }

  /** The `except` clauses: an HTTPException passes through unchanged, any
      other exception becomes a 500. */
  function AsHttp(e: Exception): (h: Exception)
    ensures h.HttpException?
    ensures e.HttpException? ==> h == e
    ensures !e.HttpException? ==> h == HttpException(500, Describe(e))
  {
    if e.HttpException? then e else HttpException(500, Describe(e))
  }

  /** A record is backed by the vault: a secret exists under its key's
      namespaced name, and it carries the record's ARN. */
  ghost predicate Backed(appEnv: string, secrets: Secrets, r: SecretRecord)
  {
    Name(appEnv, r.secretKey) in secrets && secrets[Name(appEnv, r.secretKey)].arn == r.secretArn
  }

  /** The registry invariant: every metadata document sits at its own key's
      path and is backed by a vault secret with the same ARN. */
  ghost predicate Consistent(appEnv: string, root: string, s: State)
  {
    forall p :: p in s.docs ==>
      p == KeyForSecret(root, s.docs[p].secretKey) && Backed(appEnv, s.secrets, s.docs[p])
  }

  /** `create_secret`: reject a key that has a record, else create the vault
      secret, then save `{key, arn}`, and answer with that record. */
  function Create(appEnv: string, root: string, s: State, key: string, value: string, io: Io)
    : (o: Outcome)
  {
    match Lookup(s.docs, root, key, io.fetch)
    case Failure(e) => Outcome(s, Failure(AsHttp(e)))
    case Success(existing) =>
      if existing.Some? then Outcome(s, Failure(AlreadyExists))
      else
        var created := CreateCall(s.secrets, Name(appEnv, key), value, io.issuedArn, io.vault);
        match created.result
        case Failure(e) => Outcome(State(created.secrets, s.docs), Failure(AsHttp(e)))
        case Success(arn) =>
          var saved := SaveCall(s.docs, root, key, arn, io.post);
          var after := State(created.secrets, saved.docs);
          match saved.result
          case Failure(e) => Outcome(after, Failure(AsHttp(e)))
          case Success(_) => Outcome(after, Success(SuccessResponse(Some(Object(SecretRecord(key, arn))))))
  }

  /** `view_secret`: the record for `key`, or 404; the stores are untouched. */
  function View(root: string, s: State, key: string, io: Io): (r: Result<ApiResponse, Exception>)
  {
    match Lookup(s.docs, root, key, io.fetch)
    case Failure(e) => Failure(AsHttp(e))
    case Success(item) =>
      if item.None? then Failure(NotFound)
      else Success(SuccessResponse(Some(Object(item.value))))
  }

  /** `modify_secret`: 404 for a key without a record, else put the new value
      in the vault; metadata is never written. */
  function Modify(appEnv: string, root: string, s: State, key: string, value: string, io: Io)
    : (o: Outcome)
  {
    match Lookup(s.docs, root, key, io.fetch)
    case Failure(e) => Outcome(s, Failure(AsHttp(e)))
    case Success(item) =>
      if item.None? then Outcome(s, Failure(NotFound))
      else
        var put := PutValueCall(s.secrets, Name(appEnv, key), value, io.vault);
        var after := State(put.secrets, s.docs);
        match put.result
        case Failure(e) => Outcome(after, Failure(AsHttp(e)))
        case Success(_) => Outcome(after, Success(SuccessResponse(Some(Text(UpdatedMessage)))))
  }

  /** The router module: the two shared clients as fields. */
  class SecretsRouter {
    const mgr: SecretsManagerService
    const store: SecretsStore

    constructor (mgr: SecretsManagerService, store: SecretsStore)
      ensures this.mgr == mgr && this.store == store
    {
      this.mgr := mgr;
      this.store := store;
    }

    ghost function Current(): State
      reads mgr, store
    {
      State(mgr.secrets, store.docs)
    }

    ghost predicate Valid()
      reads mgr, store
    {
      Consistent(mgr.appEnv, store.root, Current())
    }

    /** POST `/`. */
    method CreateSecret(key: string, value: string, io: Io) returns (r: Result<ApiResponse, Exception>)
      modifies mgr, store
      ensures Outcome(Current(), r) == Create(mgr.appEnv, store.root, old(Current()), key, value, io)
      ensures old(Valid()) ==> Valid()
    {
      ghost var before := Current();
      var existing := store.Get(key, io.fetch);
      if existing.Failure? {
        return Failure(AsHttp(existing.error));
      }
      if existing.value.Some? {
        return Failure(AlreadyExists);
      }
      var arn := mgr.CreateSecret(key, value, io.issuedArn, io.vault);
      if arn.Failure? {
        if Consistent(mgr.appEnv, store.root, before) {
          CreateKeepsConsistent(mgr.appEnv, store.root, before, key, value, io);
        }
        return Failure(AsHttp(arn.error));
      }
      var saved := store.Save(key, arn.value, io.post);
      if Consistent(mgr.appEnv, store.root, before) {
        CreateKeepsConsistent(mgr.appEnv, store.root, before, key, value, io);
      }
      if saved.Failure? {
        return Failure(AsHttp(saved.error));
      }
      r := Success(SuccessResponse(Some(Object(SecretRecord(key, arn.value)))));
    }

    /** POST `/fetch`: every record, never a secret value. */
    method ListSecrets(io: Io) returns (r: Result<ApiResponse, Exception>)
      ensures r.Failure? <==> io.fetch.Down?
      ensures r.Failure? ==> r.error == HttpException(500, io.fetch.code)
      ensures r.Success? ==>
        r.value.success && r.value.error.None? && r.value.data.Some? && r.value.data.value.Array?
        && IsListing(store.docs, KeyForAll(store.root), r.value.data.value.records)
      ensures Valid() && r.Success? ==>
        ListsRegistry(mgr.appEnv, store.root, Current(), r.value.data.value.records)
    {
      var items := store.ListAll(io.fetch);
      if items.Failure? {
        return Failure(AsHttp(items.error));
      }
      r := Success(SuccessResponse(Some(Array(items.value))));
      if Valid() {
        ListingIsRegistry(mgr.appEnv, store.root, Current(), items.value);
      }
    }

    /** GET `/{secret_key}`: metadata only; the vault is not called. */
    method ViewSecret(key: string, io: Io) returns (r: Result<ApiResponse, Exception>)
      ensures r == View(store.root, Current(), key, io)
      ensures Valid() && r.Success? ==>
        r.value.data.Some? && r.value.data.value.Object?
        && r.value.data.value.record.secretKey == key
        && Backed(mgr.appEnv, mgr.secrets, r.value.data.value.record)
    {
      var item := store.Get(key, io.fetch);
      if item.Failure? {
        return Failure(AsHttp(item.error));
      }
      if item.value.None? {
        return Failure(NotFound);
      }
      r := Success(SuccessResponse(Some(Object(item.value.value))));
    }

    /** PUT `/{secret_key}`. */
    method ModifySecret(key: string, value: string, io: Io) returns (r: Result<ApiResponse, Exception>)
      modifies mgr
      ensures Outcome(Current(), r) == Modify(mgr.appEnv, store.root, old(Current()), key, value, io)
      ensures old(Valid()) ==> Valid()
    {
      ghost var before := Current();
      var item := store.Get(key, io.fetch);
      if item.Failure? {
        return Failure(AsHttp(item.error));
      }
      if item.value.None? {
        return Failure(NotFound);
      }
      var updated := mgr.UpdateSecret(key, value, io.vault);
      if Consistent(mgr.appEnv, store.root, before) {
        ModifyKeepsConsistent(mgr.appEnv, store.root, before, key, value, io);
      }
      if updated.Failure? {
        return Failure(AsHttp(updated.error));
      }
      r := Success(SuccessResponse(Some(Text(UpdatedMessage))));
    }
  }

  /** Create keeps the registry consistent, whether it succeeds or fails at
      any step: the vault secret is created before the record that points at it. */
  lemma CreateKeepsConsistent(appEnv: string, root: string, s: State, key: string, value: string, io: Io)
    requires Consistent(appEnv, root, s)
    ensures Consistent(appEnv, root, Create(appEnv, root, s, key, value, io).state)
  {
  }

  /** Modify keeps the registry consistent: it only changes a value, never an ARN. */
  lemma ModifyKeepsConsistent(appEnv: string, root: string, s: State, key: string, value: string, io: Io)
    requires Consistent(appEnv, root, s)
    ensures Consistent(appEnv, root, Modify(appEnv, root, s, key, value, io).state)
  {
  }

  /** The listed records are exactly the registered keys' records: each one is
      the record saved for its key and backed by the vault, no key appears
      twice, every registered key appears, and there are as many entries as
      records. */
  ghost predicate ListsRegistry(appEnv: string, root: string, s: State, items: seq<SecretRecord>)
  {
    && |items| == |s.docs|
    && (forall i :: 0 <= i < |items| ==>
          KeyForSecret(root, items[i].secretKey) in s.docs
          && s.docs[KeyForSecret(root, items[i].secretKey)] == items[i]
          && Backed(appEnv, s.secrets, items[i]))
    && (forall i, j :: 0 <= i < j < |items| ==> items[i].secretKey != items[j].secretKey)
    && (forall k :: KeyForSecret(root, k) in s.docs ==> exists i :: 0 <= i < |items| && items[i].secretKey == k)
  }

  /** In a consistent registry, a listing below the root lists every
      registered key once, with its record. */
  lemma ListingIsRegistry(appEnv: string, root: string, s: State, items: seq<SecretRecord>)
    requires Consistent(appEnv, root, s)
    requires IsListing(s.docs, KeyForAll(root), items)
    ensures ListsRegistry(appEnv, root, s, items)
  {
    var paths :| ListsAlong(s.docs, KeyForAll(root), items, paths);
    assert Below(s.docs, KeyForAll(root)) == s.docs by {
      forall p | p in s.docs ensures IsUnder(KeyForAll(root), p) {
        assert p == KeyForSecret(root, s.docs[p].secretKey);
      }
    }
    forall i | 0 <= i < |items|
      ensures paths[i] == KeyForSecret(root, items[i].secretKey)
    {
    }
    forall i, j | 0 <= i < j < |items|
      ensures items[i].secretKey != items[j].secretKey
    {
      assert paths[i] != paths[j];
    }
    forall k | KeyForSecret(root, k) in s.docs
      ensures exists i :: 0 <= i < |items| && items[i].secretKey == k
    {
      var p := KeyForSecret(root, k);
      var i :| 0 <= i < |paths| && paths[i] == p;
      KeyForSecretInjective(root, k, items[i].secretKey);
    }
  }
}

/** Properties of the registry handlers: the per-key state machine
    ABSENT -> (create) -> REGISTERED -> (update)* -> REGISTERED, and the
    consistency of the two stores across any sequence of requests. */
module RouterProperties {
  import opened Wrappers
  import opened Domain
  import opened Responses
  import opened Vault
  import opened Store
  import opened Router

  /** The record for `key` as create and view answer it. */
  function RecordResponse(key: string, arn: string): ApiResponse
  {
    SuccessResponse(Some(Object(SecretRecord(key, arn))))
  }

  /** Create on a key whose record exists answers 400 "Secret already exists"
      and touches neither the vault nor the store. */
  lemma CreateRejectsRegistered(appEnv: string, root: string, s: State, key: string, value: string, io: Io)
    requires KeyForSecret(root, key) in s.docs && io.fetch.Up?
    ensures Create(appEnv, root, s, key, value, io) == Outcome(s, Failure(HttpException(400, "Secret already exists")))
  {
  }

  /** Create on a fresh key, with every call going through, answers with
      `{key, arn}` for the ARN the vault issued, and afterwards the vault holds
      the value under that ARN and the store holds exactly that record. */
  lemma CreateRegisters(appEnv: string, root: string, s: State, key: string, value: string, io: Io)
    requires KeyForSecret(root, key) !in s.docs && Name(appEnv, key) !in s.secrets
    requires io.fetch.Up? && io.vault.Up? && io.post.Up?
    ensures var o := Create(appEnv, root, s, key, value, io);
      && o.response == Success(RecordResponse(key, io.issuedArn))
      && o.state.secrets == s.secrets[Name(appEnv, key) := VaultSecret(io.issuedArn, value)]
      && o.state.docs == s.docs[KeyForSecret(root, key) := SecretRecord(key, io.issuedArn)]
  {
  }

  /** A successful create answers with exactly the record it saved, and the
      ARN in it is the one the vault holds for the key. */
  lemma CreateAnswersSavedRecord(appEnv: string, root: string, s: State, key: string, value: string, io: Io)
    requires Create(appEnv, root, s, key, value, io).response.Success?
    ensures var o := Create(appEnv, root, s, key, value, io);
      && KeyForSecret(root, key) in o.state.docs
      && o.response == Success(SuccessResponse(Some(Object(o.state.docs[KeyForSecret(root, key)]))))
      && o.state.docs[KeyForSecret(root, key)] == SecretRecord(key, io.issuedArn)
      && Backed(appEnv, o.state.secrets, SecretRecord(key, io.issuedArn))
  {
  }

  /** If the vault refuses the create, no record is written and the caller
      sees a 500. */
  lemma CreateVaultFailureWritesNothing(appEnv: string, root: string, s: State, key: string, value: string, io: Io)
    requires KeyForSecret(root, key) !in s.docs && io.fetch.Up?
    requires CreateCall(s.secrets, Name(appEnv, key), value, io.issuedArn, io.vault).result.Failure?
    ensures var o := Create(appEnv, root, s, key, value, io);
      && o.state == s
      && o.response.Failure? && o.response.error.status == 500
  {
  }

  /** If the store write fails after the vault create, the vault secret is
      left without a record (an orphan) and the caller sees a 500; the
      failure never leaves a record without a secret. */
  lemma CreateSaveFailureLeavesOrphan(appEnv: string, root: string, s: State, key: string, value: string, io: Io)
    requires KeyForSecret(root, key) !in s.docs && Name(appEnv, key) !in s.secrets
    requires io.fetch.Up? && io.vault.Up? && io.post.Down?
    ensures var o := Create(appEnv, root, s, key, value, io);
      && o.response == Failure(HttpException(500, io.post.code))
      && o.state.docs == s.docs
      && Name(appEnv, key) in o.state.secrets
  {
  }

  /** An orphaned vault secret blocks create for its key with a 500, not a
      400: the vault's "already exists" error is not an HTTPException. */
  lemma CreateOverOrphanIs500(appEnv: string, root: string, s: State, key: string, value: string, io: Io)
    requires KeyForSecret(root, key) !in s.docs && Name(appEnv, key) in s.secrets
    requires io.fetch.Up? && io.vault.Up?
    ensures Create(appEnv, root, s, key, value, io)
         == Outcome(s, Failure(HttpException(500, "ResourceExistsException")))
  {
  }

  /** After a successful create, view answers with the same response create
      gave: the same key and the same ARN. */
  lemma CreateThenView(appEnv: string, root: string, s: State, key: string, value: string, io: Io, io2: Io)
    requires Create(appEnv, root, s, key, value, io).response.Success?
    requires io2.fetch.Up?
    ensures View(root, Create(appEnv, root, s, key, value, io).state, key, io2)
         == Create(appEnv, root, s, key, value, io).response
  {
  }

  /** A second create of a key answers 400 and leaves both stores, and so the
      vault value from the first create, as they were. */
  lemma CreateTwiceRejected(appEnv: string, root: string, s: State, key: string, v1: string, v2: string, io: Io, io2: Io)
    requires Create(appEnv, root, s, key, v1, io).response.Success?
    requires io2.fetch.Up?
    ensures var first := Create(appEnv, root, s, key, v1, io).state;
      && Create(appEnv, root, first, key, v2, io2) == Outcome(first, Failure(AlreadyExists))
      && first.secrets[Name(appEnv, key)].value == v1
  {
  }

  /** View on a key without a record answers 404. */
  lemma ViewUnknownNotFound(root: string, s: State, key: string, io: Io)
    requires KeyForSecret(root, key) !in s.docs && io.fetch.Up?
    ensures View(root, s, key, io) == Failure(HttpException(404, "Secret not found"))
  {
  }

  /** Modify on a key without a record answers 404 and makes no vault call. */
  lemma ModifyUnknownNotFound(appEnv: string, root: string, s: State, key: string, value: string, io: Io)
    requires KeyForSecret(root, key) !in s.docs && io.fetch.Up?
    ensures Modify(appEnv, root, s, key, value, io) == Outcome(s, Failure(HttpException(404, "Secret not found")))
  {
  }

  /** Modify never writes metadata, so what view answers for any key is the
      same before and after, ARN included. */
  lemma ModifyKeepsView(appEnv: string, root: string, s: State, key: string, value: string, io: Io, other: string, io2: Io)
    ensures Modify(appEnv, root, s, key, value, io).state.docs == s.docs
    ensures View(root, Modify(appEnv, root, s, key, value, io).state, other, io2) == View(root, s, other, io2)
  {
  }

  /** A successful modify changes only the value under the key's vault name;
      the ARN there and every other vault secret stay. */
  lemma ModifyChangesOnlyValue(appEnv: string, root: string, s: State, key: string, value: string, io: Io)
    requires Modify(appEnv, root, s, key, value, io).response.Success?
    ensures var t := Modify(appEnv, root, s, key, value, io).state;
      && Name(appEnv, key) in s.secrets && Name(appEnv, key) in t.secrets
      && t.secrets[Name(appEnv, key)] == VaultSecret(s.secrets[Name(appEnv, key)].arn, value)
      && t.secrets - {Name(appEnv, key)} == s.secrets - {Name(appEnv, key)}
  {
  }

  /** In a consistent registry, modify on a registered key fails only when
      the vault cannot be reached. */
  lemma ModifyRegisteredSucceeds(appEnv: string, root: string, s: State, key: string, value: string, io: Io)
    requires Consistent(appEnv, root, s)
    requires KeyForSecret(root, key) in s.docs && io.fetch.Up? && io.vault.Up?
    ensures Modify(appEnv, root, s, key, value, io).response == Success(SuccessResponse(Some(Text(UpdatedMessage))))
  {
  }

  /** In a consistent registry, view answers with a record for the key asked
      about, backed by a vault secret with the same ARN. */
  lemma ViewAnswersOwnRecord(appEnv: string, root: string, s: State, key: string, io: Io)
    requires Consistent(appEnv, root, s)
    requires View(root, s, key, io).Success?
    ensures var data := View(root, s, key, io).value.data;
      && data.Some? && data.value.Object?
      && data.value.record.secretKey == key
      && Backed(appEnv, s.secrets, data.value.record)
  {
  }

  /** In a consistent registry every record lies below the listing path, so
      list answers with every record and nothing else. */
  lemma ListSeesEveryRecord(appEnv: string, root: string, s: State)
    requires Consistent(appEnv, root, s)
    ensures Below(s.docs, KeyForAll(root)) == s.docs
  {
  }

  /** Every failure a handler answers with is an HTTPException with 400, 404
      or 500. */
  lemma HandlerErrorsAreHttp(appEnv: string, root: string, s: State, key: string, value: string, io: Io)
    ensures var c := Create(appEnv, root, s, key, value, io).response;
      c.Failure? ==> c.error.HttpException? && c.error.status in {400, 500}
    ensures var v := View(root, s, key, io);
      v.Failure? ==> v.error.HttpException? && v.error.status in {404, 500}
    ensures var m := Modify(appEnv, root, s, key, value, io).response;
      m.Failure? ==> m.error.HttpException? && m.error.status in {404, 500}
  {
  }

  /** One request to the router; list and view leave the stores alone. */
  datatype Request =
    | CreateRequest(key: string, value: string)
    | ListRequest
    | ViewRequest(key: string)
    | ModifyRequest(key: string, value: string)

  /** The stores after one request. */
  function Apply(appEnv: string, root: string, s: State, req: Request, io: Io): State
  {
    match req
    case CreateRequest(key, value) => Create(appEnv, root, s, key, value, io).state
    case ModifyRequest(key, value) => Modify(appEnv, root, s, key, value, io).state
    case ListRequest => s
    case ViewRequest(_) => s
  }

  /** The stores after a sequence of requests, each with its own outside events. */
  function Run(appEnv: string, root: string, s: State, calls: seq<(Request, Io)>): State
    decreases |calls|
  {
    if calls == [] then s
    else Run(appEnv, root, Apply(appEnv, root, s, calls[0].0, calls[0].1), calls[1..])
  }

  /** One request never removes or changes a record: registered stays
      registered and its ARN never changes. */
  lemma ApplyKeepsRecords(appEnv: string, root: string, s: State, req: Request, io: Io, p: string)
    requires p in s.docs
    ensures var t := Apply(appEnv, root, s, req, io);
      p in t.docs && t.docs[p] == s.docs[p]
  {
  }

  /** Any sequence of requests keeps the registry consistent. */
  lemma {:induction false} RunKeepsConsistent(appEnv: string, root: string, s: State, calls: seq<(Request, Io)>)
    requires Consistent(appEnv, root, s)
    ensures Consistent(appEnv, root, Run(appEnv, root, s, calls))
    decreases |calls|
  {
    if calls != [] {
      var (req, io) := calls[0];
      match req {
        case CreateRequest(key, value) => CreateKeepsConsistent(appEnv, root, s, key, value, io);
        case ModifyRequest(key, value) => ModifyKeepsConsistent(appEnv, root, s, key, value, io);
        case ListRequest =>
        case ViewRequest(_) =>
      }
      RunKeepsConsistent(appEnv, root, Apply(appEnv, root, s, req, io), calls[1..]);
    }
  }

  /** No sequence of requests takes a key back to ABSENT or changes the ARN
      its record holds. */
  lemma {:induction false} RunKeepsRecords(appEnv: string, root: string, s: State, calls: seq<(Request, Io)>, p: string)
    requires p in s.docs
    ensures var t := Run(appEnv, root, s, calls);
      p in t.docs && t.docs[p] == s.docs[p]
    decreases |calls|
  {
    if calls != [] {
      ApplyKeepsRecords(appEnv, root, s, calls[0].0, calls[0].1, p);
      RunKeepsRecords(appEnv, root, Apply(appEnv, root, s, calls[0].0, calls[0].1), calls[1..], p);
    }
  }

  /** Starting from empty stores, after any requests every record is backed
      by a vault secret with its ARN. */
  lemma EveryRecordBackedFromEmpty(appEnv: string, root: string, calls: seq<(Request, Io)>, p: string)
    requires p in Run(appEnv, root, State(map[], map[]), calls).docs
    ensures var t := Run(appEnv, root, State(map[], map[]), calls);
      Backed(appEnv, t.secrets, t.docs[p])
  {
    RunKeepsConsistent(appEnv, root, State(map[], map[]), calls);
  }
}

/** The wrapper over the secret vault (app/services/secrets_manager.py).
    The vault is a map from namespaced secret name to the ARN it issued and
    the current value; `create_secret` and `put_secret_value` are the two
    calls the wrapper makes on it. */
module Vault {
  import opened Wrappers
  import opened Domain

  datatype VaultSecret = VaultSecret(arn: string, value: string)

  type Secrets = map<string, VaultSecret>

  /** A vault call's result together with the vault afterwards. */
  datatype Reply<+T> = Reply(result: Result<T, Exception>, secrets: Secrets)

  /** Error codes the vault raises for a taken or an unknown name. */
  const ResourceExists := "ResourceExistsException"
  const ResourceNotFound := "ResourceNotFoundException"

  /** `_name`: the vault-visible name `{APP_ENV}/{secret_key}`. */
  function Name(appEnv: string, key: string): (n: string)
    ensures |n| == |appEnv| + 1 + |key|
    ensures n[..|appEnv|] == appEnv && n[|appEnv|] == '/' && n[|appEnv| + 1..] == key
  {
    appEnv + "/" + key
  }

  /** For one environment, distinct keys get distinct vault names. */
  lemma NameInjective(appEnv: string, k1: string, k2: string)
    ensures Name(appEnv, k1) == Name(appEnv, k2) <==> k1 == k2
  {
  }

  /** The vault's `create_secret`: an unreachable vault or a taken name is an
      error and changes nothing; otherwise the name now holds the value under
      the ARN the vault issues, and that ARN is returned. */
  function CreateCall(secrets: Secrets, name: string, value: string, issuedArn: string, outage: Outage)
    : (reply: Reply<string>)
    ensures reply.result.Success? <==> outage.Up? && name !in secrets
    ensures reply.result.Success? ==>
      name in reply.secrets && reply.secrets[name] == VaultSecret(reply.result.value, value)
      && reply.result.value == issuedArn
    ensures reply.secrets - {name} == secrets - {name}
    ensures reply.result.Failure? ==> reply.secrets == secrets && reply.result.error.ClientError?
  {
    if outage.Down? then Reply(Failure(ClientError(outage.code)), secrets)
    else if name in secrets then Reply(Failure(ClientError(ResourceExists)), secrets)
    else Reply(Success(issuedArn), secrets[name := VaultSecret(issuedArn, value)])
  }

  /** The vault's `put_secret_value`: an unreachable vault or an unknown name
      is an error and changes nothing; otherwise only the value under that
      name changes, its ARN stays. */
  function PutValueCall(secrets: Secrets, name: string, value: string, outage: Outage)
    : (reply: Reply<()>)
    ensures reply.result.Success? <==> outage.Up? && name in secrets
    ensures reply.result.Success? ==>
      name in secrets && name in reply.secrets
      && reply.secrets[name] == VaultSecret(secrets[name].arn, value)
    ensures reply.secrets - {name} == secrets - {name}
    ensures reply.result.Failure? ==> reply.secrets == secrets && reply.result.error.ClientError?
  {
    if outage.Down? then Reply(Failure(ClientError(outage.code)), secrets)
    else if name !in secrets then Reply(Failure(ClientError(ResourceNotFound)), secrets)
    else Reply(Success(()), secrets[name := secrets[name].(value := value)])
  }

  /** `SecretsManagerService`: the vault seen through one client, for one
      deployment environment. */
  class SecretsManagerService {
    const appEnv: string
    var secrets: Secrets

    constructor (appEnv: string, secrets: Secrets)
      ensures this.appEnv == appEnv && this.secrets == secrets
    {
      this.appEnv := appEnv;
      this.secrets := secrets;
    }

    /** `create_secret`: creates the secret under its namespaced name and
        returns the ARN the vault reports; vault errors are re-raised as they are. */
    method CreateSecret(key: string, value: string, issuedArn: string, outage: Outage)
      returns (arn: Result<string, Exception>)
      modifies this
      ensures Reply(arn, secrets) == CreateCall(old(secrets), Name(appEnv, key), value, issuedArn, outage)
    {
      var name := Name(appEnv, key);
      if outage.Down? {
        return Failure(ClientError(outage.code));
      }
      if name in secrets {
        return Failure(ClientError(ResourceExists));
      }
      secrets := secrets[name := VaultSecret(issuedArn, value)];
      arn := Success(issuedArn);
    }

    /** `update_secret`: puts a new value under the same namespaced name that
        `create_secret` used; vault errors are re-raised as they are. */
    method UpdateSecret(key: string, value: string, outage: Outage)
      returns (r: Result<(), Exception>)
      modifies this
      ensures Reply(r, secrets) == PutValueCall(old(secrets), Name(appEnv, key), value, outage)
    {
      var name := Name(appEnv, key);
      if outage.Down? {
        return Failure(ClientError(outage.code));
      }
      if name !in secrets {
        return Failure(ClientError(ResourceNotFound));
      }
      secrets := secrets[name := secrets[name].(value := value)];
      r := Success(());
    }
  }

  /** Updating after creating reaches the secret the create made: the ARN
      stays the one create returned and the value is the new one. */
  lemma UpdateAfterCreate(secrets: Secrets, appEnv: string, key: string, v1: string, v2: string, issuedArn: string)
    requires CreateCall(secrets, Name(appEnv, key), v1, issuedArn, Up).result.Success?
    ensures var created := CreateCall(secrets, Name(appEnv, key), v1, issuedArn, Up);
            var updated := PutValueCall(created.secrets, Name(appEnv, key), v2, Up);
            updated.result.Success?
            && updated.secrets[Name(appEnv, key)] == VaultSecret(created.result.value, v2)
  {
  }
}

/** Values shared by the vault wrapper, the metadata store and the router. */
module Domain {

  /** The metadata document kept for one secret: `{secret_key, secret_arn}`.
      It has no field for the secret value, so no record can carry one. */
  datatype SecretRecord = SecretRecord(secretKey: string, secretArn: string)

  /** How one call into an external service (the vault or the object store)
      ends: it goes through, or it fails with a transient error code. */
  datatype Outage = Up | Down(code: string)

  /** The exceptions that travel through the handlers. */
  datatype Exception =
    | HttpException(status: int, detail: string)  // FastAPI's HTTPException
    | ClientError(code: string)                    // botocore ClientError from the vault
    | StoreError(code: string)                     // any failure of the document-store client
}

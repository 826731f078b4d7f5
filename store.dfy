/** The metadata store wrapper (app/services/secrets_store.py). The object
    store behind it is a map from path to the one JSON document saved there. */
module Store {
  import opened Wrappers
  import opened Domain

  type Documents = map<string, SecretRecord>

  /** What the document-store client's `fetch` hands back: a list of
      documents, or some value that is not a list. */
  datatype Fetched = Items(items: seq<SecretRecord>) | NotAList

  /** The result of `save` together with the documents afterwards. */
  datatype Saved = Saved(result: Result<(), Exception>, docs: Documents)

  /** `_root`: `{APP_BASE_PATH}/System/Secrets`. */
  function Root(basePath: string): (root: string)
    ensures |root| == |basePath| + |"/System/Secrets"|
    ensures root[..|basePath|] == basePath && root[|basePath|..] == "/System/Secrets"
  {
    basePath + "/System/Secrets"
  }

  /** `_key_for_secret`: the folder of one secret, `{root}/{secret_key}`. */
  function KeyForSecret(root: string, key: string): (path: string)
    ensures |path| == |root| + 1 + |key|
    ensures path[..|root|] == root && path[|root|] == '/' && path[|root| + 1..] == key
    ensures IsUnder(root, path)
  {
    root + "/" + key
  }

  /** `_key_for_all`: the folder holding every secret's folder. */
  function KeyForAll(root: string): (folder: string)
    ensures forall p :: IsUnder(folder, p) <==> IsUnder(root, p)
    ensures forall key :: IsUnder(folder, KeyForSecret(root, key))
  {
    root
  }

  /** `path` lies strictly below the folder `prefix`. */
  predicate IsUnder(prefix: string, path: string)
  {
    |path| > |prefix| && path[..|prefix|] == prefix && path[|prefix|] == '/'
  }

  /** Distinct keys get distinct paths. */
  lemma KeyForSecretInjective(root: string, k1: string, k2: string)
    ensures KeyForSecret(root, k1) == KeyForSecret(root, k2) <==> k1 == k2
  {
  }

  /** The selection in `get`: the first element of a non-empty list, and
      nothing otherwise. */
  function First(f: Fetched): (r: Option<SecretRecord>)
    ensures r.Some? <==> f.Items? && |f.items| > 0
    ensures r.Some? ==> r.value == f.items[0]
  {
    if f.Items? && |f.items| > 0 then Some(f.items[0]) else None
  }

  /** The selection in `list_all`: a list as it is, anything else as the
      empty list. */
  function AsList(f: Fetched): (r: seq<SecretRecord>)
    ensures f.Items? ==> r == f.items
    ensures f.NotAList? ==> r == []
  {
    if f.Items? then f.items else []
  }

  /** Fetching one record's path: the document saved there, if any. */
  function Exact(docs: Documents, path: string): (f: Fetched)
    ensures f.Items? && |f.items| <= 1
    ensures |f.items| == 1 <==> path in docs
    ensures path in docs ==> f.items[0] == docs[path]
  {
    Items(if path in docs then [docs[path]] else [])
  }

  /** What `get` returns for `key`: the record at the key's path, or None. */
  function Lookup(docs: Documents, root: string, key: string, outage: Outage)
    : (r: Result<Option<SecretRecord>, Exception>)
    ensures r.Success? <==> outage.Up?
    ensures r.Success? ==>
      (r.value.Some? <==> KeyForSecret(root, key) in docs)
      && (r.value.Some? ==> r.value.value == docs[KeyForSecret(root, key)])
  {
    if outage.Down? then Failure(StoreError(outage.code))
    else Success(First(Exact(docs, KeyForSecret(root, key))))
  }

  /** What `save` does: writes `{key, arn}` at the key's path, replacing any
      earlier document there. */
  function SaveCall(docs: Documents, root: string, key: string, arn: string, outage: Outage)
    : (s: Saved)
    ensures s.result.Success? <==> outage.Up?
    ensures s.result.Success? ==>
      KeyForSecret(root, key) in s.docs && s.docs[KeyForSecret(root, key)] == SecretRecord(key, arn)
    ensures s.docs - {KeyForSecret(root, key)} == docs - {KeyForSecret(root, key)}
    ensures s.result.Failure? ==> s.docs == docs
  {
    if outage.Down? then Saved(Failure(StoreError(outage.code)), docs)
    else Saved(Success(()), docs[KeyForSecret(root, key) := SecretRecord(key, arn)])
  }

  /** The documents saved below `prefix`, by path. */
  ghost function Below(docs: Documents, prefix: string): map<string, SecretRecord>
  {
    map p | p in docs && IsUnder(prefix, p) :: docs[p]
  }

  /** `items` lists the documents below `prefix` along the distinct paths
      `paths`: entry `i` is the document at `paths[i]`, and every path below
      `prefix` is visited exactly once. */
  ghost predicate ListsAlong(docs: Documents, prefix: string, items: seq<SecretRecord>, paths: seq<string>)
  {
    && |paths| == |items| == |Below(docs, prefix)|
    && (forall i, j :: 0 <= i < j < |paths| ==> paths[i] != paths[j])
    && (forall i :: 0 <= i < |paths| ==> paths[i] in Below(docs, prefix) && items[i] == docs[paths[i]])
    && (forall p :: p in Below(docs, prefix) ==> p in paths)
  }

  /** `items` lists the documents below `prefix`: one entry per document, in
      no particular order. */
  ghost predicate IsListing(docs: Documents, prefix: string, items: seq<SecretRecord>)
  {
    exists paths :: ListsAlong(docs, prefix, items, paths)
  }

  /** Saving then getting the same key gives back the saved record. */
  lemma SaveThenLookup(docs: Documents, root: string, key: string, arn: string)
    ensures Lookup(SaveCall(docs, root, key, arn, Up).docs, root, key, Up)
         == Success(Some(SecretRecord(key, arn)))
  {
  }

  /** Saving one key leaves what `get` returns for every other key alone. */
  lemma SaveKeepsOtherKeys(docs: Documents, root: string, key: string, arn: string, other: string, outage: Outage)
    requires other != key
    ensures Lookup(SaveCall(docs, root, key, arn, Up).docs, root, other, outage)
         == Lookup(docs, root, other, outage)
  {
  }

  /** `SecretsStore`: the metadata documents under `{APP_BASE_PATH}/System/Secrets`. */
  class SecretsStore {
    const basePath: string
    const root: string
    var docs: Documents

    constructor (basePath: string, docs: Documents)
      ensures this.basePath == basePath && root == Root(basePath) && this.docs == docs
    {
      this.basePath := basePath;
      root := Root(basePath);
      this.docs := docs;
    }

    /** The client's `fetch` at one document's path. */
    method FetchDocument(path: string, outage: Outage) returns (r: Result<Fetched, Exception>)
      ensures outage.Down? ==> r == Failure(StoreError(outage.code))
      ensures outage.Up? ==> r == Success(Exact(docs, path))
    {
      if outage.Down? {
        return Failure(StoreError(outage.code));
      }
      if path in docs {
        r := Success(Items([docs[path]]));
      } else {
        r := Success(Items([]));
      }
    }

    /** The client's `fetch` at a folder: every document below it, one by one. */
    method FetchFolder(prefix: string, outage: Outage) returns (r: Result<Fetched, Exception>)
      ensures r.Success? <==> outage.Up?
      ensures r.Failure? ==> r.error == StoreError(outage.code)
      ensures r.Success? ==> r.value.Items? && IsListing(docs, prefix, r.value.items)
    {
      if outage.Down? {
        return Failure(StoreError(outage.code));
      }
      ghost var below := Below(docs, prefix);
      var pending := set p | p in docs && IsUnder(prefix, p);
      assert pending == below.Keys;
      var items: seq<SecretRecord> := [];
      ghost var paths: seq<string> := [];
      while pending != {}
        invariant pending <= below.Keys
        invariant |paths| == |items| && |items| + |pending| == |below.Keys|
        invariant forall i, j :: 0 <= i < j < |paths| ==> paths[i] != paths[j]
        invariant forall i :: 0 <= i < |paths| ==> paths[i] in below && paths[i] !in pending && items[i] == docs[paths[i]]
        invariant forall p :: p in below.Keys - pending ==> p in paths
        decreases |pending|
      {
        var p :| p in pending;
        items := items + [docs[p]];
        paths := paths + [p];
        pending := pending - {p};
      }
      assert |below.Keys| == |below|;
      assert ListsAlong(docs, prefix, items, paths);
      r := Success(Items(items));
    }

    /** `save`: upserts `{secret_key, secret_arn}` at the key's path. */
    method Save(key: string, arn: string, outage: Outage) returns (r: Result<(), Exception>)
      modifies this
      ensures Saved(r, docs) == SaveCall(old(docs), root, key, arn, outage)
    {
      if outage.Down? {
        return Failure(StoreError(outage.code));
      }
      docs := docs[KeyForSecret(root, key) := SecretRecord(key, arn)];
      r := Success(());
    }

    /** `get`: the record saved for `key`, or None; the store is unchanged. */
    method Get(key: string, outage: Outage) returns (r: Result<Option<SecretRecord>, Exception>)
      ensures r == Lookup(docs, root, key, outage)
    {
      var fetched := FetchDocument(KeyForSecret(root, key), outage);
      if fetched.Failure? {
        return Failure(fetched.error);
      }
      r := Success(First(fetched.value));
    }

    /** `list_all`: every record below the root, never an error from the
        selection itself; the store is unchanged. */
    method ListAll(outage: Outage) returns (r: Result<seq<SecretRecord>, Exception>)
      ensures r.Success? <==> outage.Up?
      ensures r.Failure? ==> r.error == StoreError(outage.code)
      ensures r.Success? ==> IsListing(docs, KeyForAll(root), r.value)
    {
      var fetched := FetchFolder(KeyForAll(root), outage);
      if fetched.Failure? {
        return Failure(fetched.error);
      }
      r := Success(AsList(fetched.value));
    }
  }
}

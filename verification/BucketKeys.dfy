/** The names a bucket holds. */
module BucketKeys {

  import opened Names

  datatype Key =
    | Content(oid: Oid)
    | Marker(repo: Repo, oid: Oid)
    | Ref(oid: Oid, repo: Repo)
    | Size(repo: Repo, oid: Oid, bytes: nat)
    | Incoming(repo: Repo, oid: Oid)
    | Lock(repo: Repo, id: string)
    | Complete
}

/** The names objects and repositories go by. */
module Names {
  import opened Wrappers

  // The digest a client names an object by.
  datatype Oid = Oid(hex: string)

  // What a repository is filed under: the lower-cased organisation, behind its
  // forge's prefix if it has one, and the lower-cased repository name.
  datatype Repo = Repo(org: string, name: string)

  predicate IsHex(c: char) {
    '0' <= c <= '9' || 'a' <= c <= 'f'
  }

  predicate IsDigest(raw: string) {
    |raw| == 64 && forall i | 0 <= i < |raw| :: IsHex(raw[i])
  }

  function ParseOid(raw: string): Option<Oid> {
    if IsDigest(raw) then Some(Oid(raw)) else None
  }
}

/** What a repository is called, and what it is filed under. */
module Namespaces {
  import opened Wrappers
  import opened Strings
  import opened Text
  import opened Names

  const LONGEST_SEGMENT: nat := 100
  const LONGEST_FORGE: nat := 32
  const SEPARATOR: char := '~'

  datatype Namespace = Namespace(forge: Option<string>, org: string, repo: string, storedOrg: string, storedRepo: string)
  {
    function Stored(): Repo {
      Repo(storedOrg, storedRepo)
    }
  }

  predicate IsLower(c: char) {
    'a' <= c <= 'z'
  }

  predicate IsUpper(c: char) {
    'A' <= c <= 'Z'
  }

  predicate IsWellFormed(segment: string) {
    && 0 < |segment| <= LONGEST_SEGMENT
    && segment[0] != '.'
    && forall i | 0 <= i < |segment| ::
         IsLower(segment[i]) || IsUpper(segment[i]) || IsDigit(segment[i]) || segment[i] in {'-', '_', '.'}
  }

  predicate IsForgeName(name: string) {
    && 1 <= |name| <= LONGEST_FORGE
    && (IsLower(name[0]) || IsDigit(name[0]))
    && (forall i | 0 <= i < |name| :: IsLower(name[i]) || IsDigit(name[i]) || name[i] == '-')
    && name != "api" && name != "dashboard"
  }

  function New(org: string, repo: string): Option<Namespace> {
    if IsWellFormed(org) && IsWellFormed(repo)
    then Some(Namespace(None, org, repo, Lower(org), Lower(repo)))
    else None
  }

  function On(forge: string, org: string, repo: string): Option<Namespace> {
    if !IsForgeName(forge) then None
    else
      match New(org, repo)
      case None => None
      case Some(ns) => Some(ns.(forge := Some(forge), storedOrg := forge + [SEPARATOR] + ns.storedOrg))
  }

  // ----- Who is let in -----

  // An organisation or a repository is one to a hundred letters, digits, dashes,
  // underscores and dots, not a dot first; a forge one to thirty-two small letters,
  // digits and dashes, not a dash first, and not one of the two names taken.
  lemma LetInExactlyWhen(forge: string, org: string, repo: string)
    ensures New(org, repo).Some? <==> forall s | s in {org, repo} ::
      && 1 <= |s| <= 100 && s[0] != '.'
      && forall i | 0 <= i < |s| :: 'a' <= s[i] <= 'z' || 'A' <= s[i] <= 'Z' || '0' <= s[i] <= '9' || s[i] in "-_."
    ensures On(forge, org, repo).Some? <==>
      && New(org, repo).Some? && 1 <= |forge| <= 32 && forge[0] != '-' && forge != "api" && forge != "dashboard"
      && forall i | 0 <= i < |forge| :: 'a' <= forge[i] <= 'z' || '0' <= forge[i] <= '9' || forge[i] == '-'
    ensures New(org, repo).Some? ==> Admitted(New(org, repo).value) && New(org, repo).value.forge == None
    ensures On(forge, org, repo).Some? ==> Admitted(On(forge, org, repo).value) && On(forge, org, repo).value.forge == Some(forge)
    ensures On(forge, org, repo).Some? ==> On(forge, org, repo).value.org == org && On(forge, org, repo).value.repo == repo
  {
    WellFormedMeans(org);
    WellFormedMeans(repo);
  }

  lemma WellFormedMeans(s: string)
    ensures IsWellFormed(s) <==>
      && 1 <= |s| <= 100 && s[0] != '.'
      && forall i | 0 <= i < |s| :: 'a' <= s[i] <= 'z' || 'A' <= s[i] <= 'Z' || '0' <= s[i] <= '9' || s[i] in "-_."
  {
  }

  // One that was let in.
  predicate Admitted(ns: Namespace) {
    match ns.forge
    case None => New(ns.org, ns.repo) == Some(ns)
    case Some(forge) => On(forge, ns.org, ns.repo) == Some(ns)
  }

  // Names that can be filed: whole segments that no dot-directory is mistaken for.
  predicate IsFiled(segment: string) {
    segment != "" && segment[0] != '.' && Plain(segment) && Lower(segment) == segment
  }

  predicate Fileable(r: Repo) {
    IsFiled(r.org) && IsFiled(r.name)
  }

  lemma StoredIsFileable(ns: Namespace)
    requires Admitted(ns)
    ensures Fileable(ns.Stored())
  {
  }

  lemma NoSeparator(segment: string)
    requires IsWellFormed(segment) || IsForgeName(segment)
    ensures SEPARATOR !in segment && SEPARATOR !in Lower(segment)
  {
  }

  // A forge's prefix shows.
  lemma SeparatorShows(ns: Namespace)
    requires Admitted(ns)
    ensures SEPARATOR in ns.storedOrg <==> ns.forge.Some?
  {
  }

  // Two namespaces share a directory only if they are the same one, up to case:
  // the same forge, the same organisation and the same repository.
  lemma StoredNamesDiffer(a: Namespace, b: Namespace)
    requires Admitted(a) && Admitted(b) && a.Stored() == b.Stored()
    ensures a.forge == b.forge && Lower(a.org) == Lower(b.org) && Lower(a.repo) == Lower(b.repo)
  {
    hide IsWellFormed, IsForgeName;
    SeparatorShows(a);
    SeparatorShows(b);
    if a.forge.Some? {
      NoSeparator(a.forge.value);
      NoSeparator(b.forge.value);
      SamePrefix(a.forge.value, Lower(a.org), b.forge.value, Lower(b.org));
    }
  }

  lemma SamePrefix(f: string, x: string, g: string, y: string)
    requires SEPARATOR !in f && SEPARATOR !in g
    requires f + [SEPARATOR] + x == g + [SEPARATOR] + y
    ensures f == g && x == y
  {
    var s := f + [SEPARATOR] + x;
    assert s[|f|] == SEPARATOR && s[|g|] == SEPARATOR;
    assert forall i | 0 <= i < |f| :: s[i] == f[i];
    assert forall i | 0 <= i < |g| :: s[i] == g[i];
    assert |f| == |g|;
    assert f == s[..|f|] == g;
    assert x == s[|f| + 1..] == y;
  }
}

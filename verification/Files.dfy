/** A filesystem with hard links, as much of one as the store leans on. */
module Files {
  import opened Wrappers
  import opened Bytes
  import opened Names

  datatype Path =
    | Object(repo: Repo, oid: Oid)
    | Shared(oid: Oid)
    | Staging(ticket: nat, relink: bool)

  // Names lead to inodes, inodes to bytes.  What an inode holds never changes once
  // it has a name the rest of the store can see.
  datatype Fs = Fs(names: map<Path, nat>, data: map<nat, Bytes>)
  {
    ghost predicate Valid() {
      forall p | p in names :: names[p] in data
    }

    predicate Has(p: Path) {
      p in names
    }

    function Read(p: Path): Bytes
      requires Has(p) && names[p] in data
    {
      data[names[p]]
    }

    function Links(inode: nat): (n: nat) {
      |set p | p in names && names[p] == inode|
    }
  }

  datatype LinkOutcome = Linked(fs: Fs) | Exists | Missing

  function Link(fs: Fs, from: Path, to: Path): LinkOutcome {
    if !fs.Has(from) then Missing
    else if fs.Has(to) then Exists
    else Linked(fs.(names := fs.names[to := fs.names[from]]))
  }

  // Renaming one name of an inode onto another name of it does nothing at all.
  function Rename(fs: Fs, from: Path, to: Path): Option<Fs> {
    if !fs.Has(from) then None
    else if fs.Has(to) && fs.names[to] == fs.names[from] then Some(fs)
    else Some(fs.(names := fs.names[to := fs.names[from]] - {from}))
  }

  function Unlink(fs: Fs, p: Path): Fs {
    fs.(names := fs.names - {p})
  }

  // A new file under an inode nobody has used.
  function Create(fs: Fs, p: Path, inode: nat, bytes: Bytes): Fs
    requires inode !in fs.data
  {
    Fs(fs.names[p := inode], fs.data[inode := bytes])
  }
}

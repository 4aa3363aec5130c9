/** What a filesystem's files take up, each inode counted once. */
module Accounting {
  import opened Bytes
  import opened Files

  ghost function Total(data: map<nat, Bytes>, inodes: set<nat>): nat
    requires inodes <= data.Keys
  {
    if inodes == {} then 0
    else
      var i :| i in inodes;
      |data[i]| + Total(data, inodes - {i})
  }

  lemma {:induction false} TotalWithout(data: map<nat, Bytes>, inodes: set<nat>, i: nat)
    requires inodes <= data.Keys && i in inodes
    ensures Total(data, inodes) == |data[i]| + Total(data, inodes - {i})
  {
    var j :| j in inodes && Total(data, inodes) == |data[j]| + Total(data, inodes - {j});
    if j != i {
      TotalWithout(data, inodes - {j}, i);
      TotalWithout(data, inodes - {i}, j);
      assert inodes - {j} - {i} == inodes - {i} - {j};
    }
  }

  function Named(fs: Fs): set<nat> {
    set p | p in fs.names :: fs.names[p]
  }

  // Bytes on disk: an inode with any name at all.
  ghost function Occupied(fs: Fs): nat
    requires fs.Valid()
  {
    Total(fs.data, Named(fs))
  }

  // The repositories' own names and no others, which is what a measurement walks.
  function Visible(fs: Fs): Fs {
    fs.(names := map p | p in fs.names && p.Object? :: fs.names[p])
  }

  ghost function Measured(fs: Fs): nat
    requires fs.Valid()
  {
    Occupied(Visible(fs))
  }

  // How many names an inode has once one of them is taken away.
  lemma UnlinkCounts(fs: Fs, p: Path, i: nat)
    requires fs.Has(p)
    ensures Unlink(fs, p).Links(i) == fs.Links(i) - (if fs.names[p] == i then 1 else 0)
  {
    var was := set q | q in fs.names && fs.names[q] == i;
    var now := set q | q in Unlink(fs, p).names && Unlink(fs, p).names[q] == i;
    assert now == was - {p};
  }

  // An inode has one name exactly when that name is the only one.
  lemma OnlyName(fs: Fs, p: Path)
    requires fs.Has(p)
    ensures fs.Links(fs.names[p]) >= 1
    ensures fs.Links(fs.names[p]) == 1 <==> forall q | q in fs.names && q != p :: fs.names[q] != fs.names[p]
  {
    var all := set q | q in fs.names && fs.names[q] == fs.names[p];
    assert p in all;
    if forall q | q in fs.names && q != p :: fs.names[q] != fs.names[p] {
      assert all == {p};
    }
    if |all| == 1 {
      assert |all - {p}| == 0;
      forall q | q in fs.names && q != p ensures fs.names[q] != fs.names[p] {
        assert q !in all - {p};
        assert q !in all;
      }
    }
  }

  // Bytes go with the last name of them and not before.
  lemma UnlinkFrees(fs: Fs, p: Path)
    requires fs.Valid() && fs.Has(p)
    ensures Unlink(fs, p).Valid()
    ensures Occupied(fs) == Occupied(Unlink(fs, p)) + if fs.Links(fs.names[p]) == 1 then |fs.Read(p)| else 0
  {
    var i, fs' := fs.names[p], Unlink(fs, p);
    OnlyName(fs, p);
    forall j | j in Named(fs) && j != i ensures j in Named(fs') {
      var q :| q in fs.names && fs.names[q] == j;
      assert q in fs'.names;
    }
    forall j | j in Named(fs') ensures j in Named(fs) {
      var q :| q in fs'.names && fs'.names[q] == j;
      assert q in fs.names;
    }
    if fs.Links(i) == 1 {
      assert Named(fs') == Named(fs) - {i};
      TotalWithout(fs.data, Named(fs), i);
    } else {
      var q :| q in fs.names && q != p && fs.names[q] == i;
      assert q in fs'.names;
      assert Named(fs') == Named(fs);
    }
  }

  lemma VisibleUnlink(fs: Fs, p: Path)
    ensures Visible(Unlink(fs, p)) == Unlink(Visible(fs), p)
    ensures !p.Object? ==> Visible(Unlink(fs, p)) == Visible(fs)
  {
  }
}

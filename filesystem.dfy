/** The part of the operating system's file system the program touches: paths, existence,
    sizes, removing a file and creating directories. Paths are compared as strings. */
module FileSystem {
  import opened Common

  /** What a path names: a regular file or a directory, with the size `os.path.getsize` reports. */
  datatype Entry = File(size: nat) | Dir(size: nat)

  /** The file system as a map from every existing path to what it names. */
  type Fs = map<string, Entry>

  /** `os.path.exists(p)` */
  predicate Exists(fs: Fs, p: string) {
    p in fs
  }

  /** `os.path.join(a, b)` on POSIX: an absolute `b` replaces `a`; otherwise one separator
      is put between them unless `a` is empty or already ends with one. */
  function Join(a: string, b: string): string {
    if |b| > 0 && b[0] == '/' then b
    else if a == [] || a[|a| - 1] == '/' then a + b
    else a + "/" + b
  }

  /** For a relative `b`, joining `a` with `b` is joining `a` with the empty name and then appending `b`. */
  lemma JoinRelative(a: string, b: string)
    requires !(|b| > 0 && b[0] == '/')
    ensures Join(a, b) == Join(a, "") + b
  {
  }

  /** The proper ancestors of a path: each prefix that stops just before a `'/'`. */
  function Ancestors(p: string): set<string> {
    set i | 0 < i < |p| && p[i] == '/' :: p[..i]
  }

  lemma AncestorsTransitive(p: string, a: string, b: string)
    requires a in Ancestors(p) && b in Ancestors(a)
    ensures b in Ancestors(p)
  {
    var i :| 0 < i < |p| && p[i] == '/' && a == p[..i];
    var j :| 0 < j < |a| && a[j] == '/' && b == a[..j];
    assert p[j] == '/' && b == p[..j];
  }

  /** Every existing path hangs below existing directories. */
  ghost predicate IsTree(fs: Fs) {
    forall p, a :: p in fs && a in Ancestors(p) ==> a in fs && fs[a].Dir?
  }

  /** The directories `os.makedirs(p)` creates: `p` and its ancestors that do not exist yet. */
  function NewDirs(fs: Fs, p: string, dirSize: nat): map<string, Entry> {
    map a | a in ({p} + Ancestors(p)) && a !in fs :: Dir(dirSize)
  }

  /** The machine's file system, which the program changes in place. */
  class Disk {
    var entries: Fs

    ghost predicate Valid()
      reads this
    {
      IsTree(entries)
    }

    constructor (entries: Fs)
      requires IsTree(entries)
      ensures Valid() && this.entries == entries
    {
      this.entries := entries;
    }

    /** `os.remove(p)` on a regular file: the file is gone and nothing else changes. */
    method RemoveFile(p: string)
      requires Valid() && p in entries && entries[p].File?
      modifies this
      ensures Valid()
      ensures entries == old(entries) - {p}
    {
      entries := entries - {p};
      forall q, a | q in entries && a in Ancestors(q) ensures a in entries && entries[a].Dir? {
        assert a in old(entries) && old(entries)[a].Dir?;
      }
    }

    /** `os.makedirs(p)`: raises (ok is false) when `p` is empty or already exists, or when one of
        its ancestors is a file; otherwise creates `p` and each missing ancestor as a directory. */
    method MakeDirs(p: string, dirSize: nat) returns (ok: bool)
      requires Valid()
      modifies this
      ensures Valid()
      ensures ok <==> p != [] && p !in old(entries) && forall a :: a in Ancestors(p) && a in old(entries) ==> old(entries)[a].Dir?
      ensures ok ==> entries == old(entries) + NewDirs(old(entries), p, dirSize)
      ensures !ok ==> entries == old(entries)
      ensures ok ==> Exists(entries, p)
    {
      ok := p != [] && p !in entries && forall a :: a in Ancestors(p) && a in entries ==> entries[a].Dir?;
      if ok {
        var old_entries := entries;
        var added := NewDirs(entries, p, dirSize);
        entries := entries + added;
        forall q, a | q in entries && a in Ancestors(q) ensures a in entries && entries[a].Dir? {
          if q in added {
            assert q == p || q in Ancestors(p);
            if q != p {
              AncestorsTransitive(p, q, a);
            }
            assert a in Ancestors(p);
            if a !in old_entries {
              assert a in added;
            }
          } else {
            assert q in old_entries;
            assert a in old_entries && old_entries[a].Dir?;
          }
        }
      }
    }
  }
}

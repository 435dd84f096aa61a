/** System calls.  Each is one atomic step, and every other process may act before it. */
module Os {
  import opened Common
  import opened FileSystem
  import opened Revisions

  datatype ConflictKind = Changed | Deleted | Appeared | TypeChanged

  datatype RevisionError =
    | UnstableRead
    | Conflict(kind: ConflictKind, current: Option<Revision>)
    | UnsupportedFinalType(name: string)
    | UnsupportedEncoding
    | TooLarge
    | Io(message: string)

  datatype Result<T> = Ok(value: T) | Err(error: RevisionError)

  datatype Creation = Opened(fd: Ino) | NameTaken | Failed(error: RevisionError)

  datatype Linking = Linkage | Exists | LinkFailed(error: RevisionError)

  /** A save took effect: `start` is the filesystem when the call began, `checked` when its second check
      ended, `before` and `after` around the publishing call itself. */
  datatype Publish = Publish(path: Path, expected: ExpectedRevision, bytes: Bytes, start: Fs, checked: Fs,
                             before: Fs, after: Fs)

  function LstatOf(fs: Fs, p: Path): Option<Meta> {
    if p in fs.names && fs.names[p] in fs.nodes then Some(MetaOf(fs.names[p], fs.nodes[fs.names[p]])) else None
  }

  /** The temporary names of `process` are as they were, and so are the inodes they name. */
  predicate TempsKept(process: nat, a: Fs, b: Fs) {
    forall p <- a.names.Keys + b.names.Keys | p.name.Temp? && p.name.process == process ::
      && Binding(a, p) == Binding(b, p)
      && (p in a.names && a.names[p] in a.nodes ==>
            a.names[p] in b.nodes && b.nodes[a.names[p]] == a.nodes[a.names[p]])
  }

  class Kernel {
    var fs: Fs

    /** The server's own process. */
    const process: nat
    /** The digest it puts in revisions. */
    const hash: Hasher
    /** No other process changes files. */
    const alone: bool
    /** Other processes leave this process's temporary names alone. */
    const private: bool

    /** Some call failed for a reason of the system's own. */
    ghost var failed: bool
    /** A removal of one of this process's temporary names failed. */
    ghost var stuck: bool
    /** Names this process has created, replaced or removed. */
    ghost var wrote: set<Path>

    constructor (initial: Fs, process: nat, hash: Hasher, alone: bool, private: bool)
      requires Valid(initial)
      ensures fs == initial && this.process == process && this.hash == hash && this.alone == alone
        && this.private == private
      ensures !failed && !stuck && wrote == {}
    {
      fs, this.process, this.hash, this.alone, this.private := initial, process, hash, alone, private;
      failed, stuck, wrote := false, false, {};
    }

    predicate Mine(p: Path) { p.name.Temp? && p.name.process == process }

    /** What others may do between two calls of this process. */
    predicate Outside(a: Fs, b: Fs) {
      && Evolves(a, b)
      && (alone ==> a == b)
      && (private ==> TempsKept(process, a, b))
    }

    lemma OutsideSelf(a: Fs)
      ensures Outside(a, a)
    {
      EvolvesSelf(a);
    }

    lemma OutsideOn(a: Fs, b: Fs, c: Fs)
      requires Valid(a) && Valid(b) && Outside(a, b) && Outside(b, c)
      ensures Outside(a, c)
    {
      EvolvesOn(a, b, c);
    }

    method Interfere()
      requires Valid(fs)
      modifies `fs
      ensures Valid(fs) && Outside(old(fs), fs)
    {
      OutsideSelf(fs);
      var next: Fs :| Valid(next) && Outside(fs, next);
      fs := next;
    }

    method Lstat(p: Path) returns (r: Result<Option<Meta>>)
      requires Valid(fs)
      modifies `fs, `failed
      ensures Valid(fs) && Outside(old(fs), fs) && (old(failed) ==> failed)
      ensures r.Ok? ==> r.value == LstatOf(fs, p)
      ensures r.Err? ==> failed && r.error.Io?
    {
      Interfere();
      if * {
        failed := true;
        return Err(Io("read"));
      }
      return Ok(LstatOf(fs, p));
    }

    /** Read-only, with O_NOFOLLOW. */
    method Open(p: Path) returns (r: Result<Ino>)
      requires Valid(fs)
      modifies `fs, `failed
      ensures Valid(fs) && Outside(old(fs), fs) && (old(failed) ==> failed)
      ensures r.Ok? ==> Binding(fs, p) == Some(r.value)
      ensures r.Err? ==> r.error.Io? && (failed || p !in fs.names || fs.nodes[fs.names[p]].kind == Symlink)
    {
      Interfere();
      if * {
        failed := true;
        return Err(Io("read"));
      }
      if p !in fs.names || fs.nodes[fs.names[p]].kind == Symlink {
        return Err(Io("read"));
      }
      return Ok(fs.names[p]);
    }

    method Fstat(fd: Ino) returns (r: Result<Meta>)
      requires Valid(fs) && fd in fs.nodes
      modifies `fs, `failed
      ensures Valid(fs) && Outside(old(fs), fs) && (old(failed) ==> failed) && fd in fs.nodes
      ensures r.Ok? ==> r.value == MetaOf(fd, fs.nodes[fd])
      ensures r.Err? ==> failed && r.error.Io?
    {
      Interfere();
      if * {
        failed := true;
        return Err(Io("read"));
      }
      return Ok(MetaOf(fd, fs.nodes[fd]));
    }

    /** One `read`: some of what follows `offset`, nothing exactly at or past the end. */
    method ReadSome(fd: Ino, offset: nat, max: nat) returns (r: Result<Bytes>)
      requires Valid(fs) && fd in fs.nodes && max > 0
      modifies `fs, `failed
      ensures Valid(fs) && Outside(old(fs), fs) && (old(failed) ==> failed) && fd in fs.nodes
      ensures r.Ok? ==> |r.value| <= max
      ensures r.Ok? && r.value == [] ==> offset >= |fs.nodes[fd].bytes|
      ensures r.Ok? && r.value != [] ==>
        offset + |r.value| <= |fs.nodes[fd].bytes| && r.value == fs.nodes[fd].bytes[offset..offset + |r.value|]
      ensures r.Err? ==> failed && r.error.Io?
    {
      Interfere();
      if * {
        failed := true;
        return Err(Io("read"));
      }
      var bytes := fs.nodes[fd].bytes;
      if offset >= |bytes| {
        return Ok([]);
      }
      assert 1 <= 1 <= max && offset + 1 <= |bytes|;
      var n: nat :| 1 <= n <= max && offset + n <= |bytes|;
      return Ok(bytes[offset..offset + n]);
    }

    /** O_CREAT | O_EXCL. */
    method CreateNew(p: Path) returns (r: Creation, ghost before: Fs)
      requires Valid(fs)
      modifies `fs, `failed, `wrote
      ensures Valid(before) && Outside(old(fs), before) && (old(failed) ==> failed)
      ensures Valid(fs) && Evolves(before, fs)
      ensures match r
        case Opened(fd) =>
          && p !in before.names && fd !in before.names.Values
          && fs.names == before.names[p := fd] && wrote == old(wrote) + {p}
          && fd in fs.nodes && fs.nodes == before.nodes[fd := fs.nodes[fd]] && fs.nodes[fd].stamp == before.clock
          && fs.nodes[fd].kind == Regular && fs.nodes[fd].bytes == [] && fs.nodes[fd].links == 1
        case NameTaken => fs == before && p in before.names && wrote == old(wrote)
        case Failed(error) => fs == before && failed && error == Io("write(temp)") && wrote == old(wrote)
    {
      Interfere();
      before := fs;
      EvolvesSelf(fs);
      var fd: Ino := *;
      var blank: Node := *;
      if p in fs.names {
        return NameTaken, before;
      }
      var refused: bool := *;
      if refused || fd in fs.names.Values {
        failed := true;
        return Failed(Io("write(temp)")), before;
      }
      CreatedEvolves(fs, p, fd, blank);
      fs := Created(fs, p, fd, blank);
      wrote := wrote + {p};
      return Opened(fd), before;
    }

    /** `fchown` and `fchmod`. */
    method SetOwner(fd: Ino, uid: nat, gid: nat, mode: nat) returns (error: Option<RevisionError>, ghost before: Fs)
      requires Valid(fs) && fd in fs.nodes
      modifies `fs, `failed
      ensures Valid(before) && Outside(old(fs), before) && fd in before.nodes && (old(failed) ==> failed)
      ensures Valid(fs) && Evolves(before, fs) && fd in fs.nodes
      ensures error.Some? ==> failed && error.value.Io? && fs == before
      ensures error.None? ==> fs == Stamp(before, fd, before.nodes[fd].(uid := uid, gid := gid, mode := mode))
    {
      Interfere();
      before := fs;
      EvolvesSelf(fs);
      if * {
        failed := true;
        return Some(Io("write(set ownership)")), before;
      }
      StampEvolves(fs, fd, fs.nodes[fd].(uid := uid, gid := gid, mode := mode));
      fs := Stamp(fs, fd, fs.nodes[fd].(uid := uid, gid := gid, mode := mode));
      return None, before;
    }

    /** One `write`: some of `data`, at least one byte. */
    method WriteSome(fd: Ino, offset: nat, data: Bytes) returns (r: Result<nat>, ghost before: Fs)
      requires Valid(fs) && fd in fs.nodes && data != []
      modifies `fs, `failed
      ensures Valid(before) && Outside(old(fs), before) && fd in before.nodes && (old(failed) ==> failed)
      ensures Valid(fs) && Evolves(before, fs) && fd in fs.nodes
      ensures r.Err? ==> failed && r.error.Io? && fs == before
      ensures r.Ok? ==>
        && 1 <= r.value <= |data|
        && fs == Stamp(before, fd, before.nodes[fd].(bytes := Spliced(before.nodes[fd].bytes, offset, data[..r.value])))
    {
      Interfere();
      before := fs;
      EvolvesSelf(fs);
      if * {
        failed := true;
        return Err(Io("write(temp)")), before;
      }
      var n: nat :| 1 <= n <= |data|;
      var node := fs.nodes[fd].(bytes := Spliced(fs.nodes[fd].bytes, offset, data[..n]));
      StampEvolves(fs, fd, node);
      fs := Stamp(fs, fd, node);
      return Ok(n), before;
    }

    method SyncAll(fd: Ino) returns (error: Option<RevisionError>)
      requires Valid(fs) && fd in fs.nodes
      modifies `fs, `failed
      ensures Valid(fs) && Outside(old(fs), fs) && (old(failed) ==> failed) && fd in fs.nodes
      ensures error.Some? ==> failed && error.value.Io?
    {
      Interfere();
      if * {
        failed := true;
        return Some(Io("write(sync)"));
      }
      return None;
    }

    method Rename(from: Path, to: Path) returns (error: Option<RevisionError>, ghost before: Fs)
      requires Valid(fs)
      modifies `fs, `failed, `wrote
      ensures Valid(before) && Outside(old(fs), before) && (old(failed) ==> failed)
      ensures Valid(fs) && Evolves(before, fs)
      ensures error.Some? ==> fs == before && wrote == old(wrote) && error.value.Io?
      ensures error.Some? ==> failed || from !in before.names
                              || (to in before.names && before.nodes[before.names[to]].kind == Directory)
      ensures error.None? ==>
        from in before.names && fs == Renamed(before, from, to) && wrote == old(wrote) + {from, to}
    {
      Interfere();
      before := fs;
      EvolvesSelf(fs);
      if * {
        failed := true;
        return Some(Io("write(rename)")), before;
      }
      if from !in fs.names || (to in fs.names && fs.nodes[fs.names[to]].kind == Directory) {
        return Some(Io("write(rename)")), before;
      }
      RenamedEvolves(fs, from, to);
      fs := Renamed(fs, from, to);
      wrote := wrote + {from, to};
      return None, before;
    }

    method HardLink(from: Path, to: Path) returns (r: Linking, ghost before: Fs)
      requires Valid(fs)
      modifies `fs, `failed, `wrote
      ensures Valid(before) && Outside(old(fs), before) && (old(failed) ==> failed)
      ensures Valid(fs) && Evolves(before, fs)
      ensures match r
        case Linkage => from in before.names && to !in before.names && fs == Linked(before, from, to)
          && wrote == old(wrote) + {to}
        case Exists => fs == before && wrote == old(wrote) && to in fs.names
        case LinkFailed(error) => fs == before && wrote == old(wrote) && error.Io? && (failed || from !in before.names)
    {
      Interfere();
      before := fs;
      EvolvesSelf(fs);
      if * {
        failed := true;
        return LinkFailed(Io("write(publish missing)")), before;
      }
      if from !in fs.names {
        return LinkFailed(Io("write(publish missing)")), before;
      }
      if to in fs.names {
        return Exists, before;
      }
      LinkedEvolves(fs, from, to);
      fs := Linked(fs, from, to);
      wrote := wrote + {to};
      return Linkage, before;
    }

    method RemoveFile(p: Path) returns (ok: bool, ghost before: Fs)
      requires Valid(fs)
      modifies `fs, `failed, `stuck, `wrote
      ensures Valid(before) && Outside(old(fs), before) && (old(failed) ==> failed) && (old(stuck) ==> stuck)
      ensures Valid(fs) && Evolves(before, fs)
      ensures ok ==> p in before.names && fs == Unlinked(before, p) && wrote == old(wrote) + {p} && stuck == old(stuck)
      ensures !ok ==> fs == before && wrote == old(wrote)
      ensures !ok && p in before.names ==>
        (Mine(p) ==> stuck) && (failed || before.nodes[before.names[p]].kind == Directory)
    {
      Interfere();
      before := fs;
      EvolvesSelf(fs);
      if * {
        failed, stuck := true, stuck || (p in fs.names && Mine(p));
        return false, before;
      }
      if p !in fs.names || fs.nodes[fs.names[p]].kind == Directory {
        stuck := stuck || (p in fs.names && Mine(p));
        return false, before;
      }
      UnlinkedEvolves(fs, p);
      fs := Unlinked(fs, p);
      wrote := wrote + {p};
      return true, before;
    }
  }
}

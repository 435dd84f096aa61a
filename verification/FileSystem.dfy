/** A filesystem as the server's system calls see it: paths bound to inodes, inodes with content,
    metadata and a change stamp.

    The one assumption about the kernel is that change stamps never repeat: whatever changes an inode,
    or binds or unbinds one of its names, gives the inode a stamp no earlier step used. */
module FileSystem {
  import opened Common

  datatype Ino = Ino(dev: nat, number: nat)

  datatype Kind = Regular | Symlink | Directory | Fifo | Special

  datatype Node = Node(kind: Kind, bytes: Bytes, mtime: int, stamp: int, mode: nat, uid: nat, gid: nat,
                       links: nat)

  /** Temporary names carry the process that made them and a serial number. */
  datatype Name = Plain(text: string) | Temp(process: nat, serial: nat)

  datatype Path = Path(directory: string, name: Name)

  datatype Fs = Fs(names: map<Path, Ino>, nodes: map<Ino, Node>, clock: int)

  predicate Valid(fs: Fs) {
    && (forall p <- fs.names :: fs.names[p] in fs.nodes)
    && (forall i <- fs.nodes :: fs.nodes[i].stamp < fs.clock)
  }

  function Binding(fs: Fs, p: Path): Option<Ino> {
    if p in fs.names then Some(fs.names[p]) else None
  }

  predicate Stamped(fs: Fs, i: Ino, since: int) {
    i in fs.nodes && fs.nodes[i].stamp >= since
  }

  predicate NodesEvolve(a: Fs, b: Fs) {
    && (forall i <- a.nodes :: i in b.nodes && (b.nodes[i] == a.nodes[i] || b.nodes[i].stamp >= a.clock))
    && (forall i <- b.nodes :: i in a.nodes || b.nodes[i].stamp >= a.clock)
  }

  /** p names the same inode in b, or both inodes concerned carry a new stamp. */
  predicate Kept(a: Fs, b: Fs, p: Path) {
    || Binding(a, p) == Binding(b, p)
    || ((p in a.names ==> Stamped(b, a.names[p], a.clock)) && (p in b.names ==> Stamped(b, b.names[p], a.clock)))
  }

  predicate NamesEvolve(a: Fs, b: Fs) { forall p <- a.names.Keys + b.names.Keys :: Kept(a, b, p) }

  /** b may follow a. */
  predicate Evolves(a: Fs, b: Fs) {
    a.clock <= b.clock && NodesEvolve(a, b) && NamesEvolve(a, b)
  }

  lemma EvolvesSelf(a: Fs)
    ensures Evolves(a, a)
  {
  }

  lemma KeptAlways(a: Fs, b: Fs, p: Path)
    requires NamesEvolve(a, b)
    ensures Kept(a, b, p)
  {
    assert p in a.names.Keys + b.names.Keys || Binding(a, p) == Binding(b, p);
  }

  lemma EvolvesOn(a: Fs, b: Fs, c: Fs)
    requires Valid(a) && Valid(b) && Evolves(a, b) && Evolves(b, c)
    ensures Evolves(a, c)
  {
    NodesEvolveOn(a, b, c);
    forall p <- a.names.Keys + c.names.Keys ensures Kept(a, c, p) {
      KeptAlways(a, b, p);
      KeptAlways(b, c, p);
    }
  }

  lemma NodesEvolveOn(a: Fs, b: Fs, c: Fs)
    requires a.clock <= b.clock && NodesEvolve(a, b) && NodesEvolve(b, c)
    ensures NodesEvolve(a, c)
  {
  }

  /** An inode whose stamp is older than some instant has not changed since that instant. */
  lemma OldStampMeansUnchanged(a: Fs, b: Fs, i: Ino)
    requires Evolves(a, b) && i in b.nodes && b.nodes[i].stamp < a.clock
    ensures i in a.nodes && a.nodes[i] == b.nodes[i]
    ensures forall p :: (p in a.names && a.names[p] == i) <==> (p in b.names && b.names[p] == i)
  {
    forall p ensures (p in a.names && a.names[p] == i) <==> (p in b.names && b.names[p] == i) {
      KeptAlways(a, b, p);
    }
  }

  // ---------------------------------------------------------------------------------------------
  // What each system call does when it succeeds.

  function Stamp(fs: Fs, i: Ino, node: Node): Fs {
    fs.(nodes := fs.nodes[i := node.(stamp := fs.clock)], clock := fs.clock + 1)
  }

  lemma StampEvolves(fs: Fs, i: Ino, node: Node)
    requires Valid(fs)
    ensures Valid(Stamp(fs, i, node)) && Evolves(fs, Stamp(fs, i, node))
  {
  }

  /** A new, empty regular file named p. */
  function Created(fs: Fs, p: Path, i: Ino, blank: Node): Fs {
    Stamp(fs, i, blank.(kind := Regular, bytes := [], links := 1)).(names := fs.names[p := i])
  }

  function Unlinked(fs: Fs, p: Path): Fs
    requires Valid(fs) && p in fs.names
  {
    var i := fs.names[p];
    var n := fs.nodes[i];
    Stamp(fs, i, n.(links := if n.links > 0 then n.links - 1 else 0)).(names := fs.names - {p})
  }

  /** `rename`: whatever `to` named loses that link. */
  function Renamed(fs: Fs, from: Path, to: Path): Fs
    requires Valid(fs) && from in fs.names
  {
    if Binding(fs, from) == Binding(fs, to) then fs
    else
      Moved(if to in fs.names then Unlinked(fs, to) else fs, from, to)
  }

  function Moved(fs: Fs, from: Path, to: Path): Fs
    requires from in fs.names && fs.names[from] in fs.nodes
  {
    var i := fs.names[from];
    Stamp(fs, i, fs.nodes[i]).(names := (fs.names - {from})[to := i])
  }

  function Linked(fs: Fs, from: Path, to: Path): Fs
    requires Valid(fs) && from in fs.names
  {
    var i := fs.names[from];
    Stamp(fs, i, fs.nodes[i].(links := fs.nodes[i].links + 1)).(names := fs.names[to := i])
  }

  /** Writing at an offset: a hole left by a truncation reads as zeros. */
  function Spliced(bytes: Bytes, offset: nat, data: Bytes): Bytes {
    var hole := if |bytes| < offset then seq(offset - |bytes|, _ => 0 as byte) else [];
    var head := if |bytes| < offset then bytes + hole else bytes[..offset];
    head + data + if offset + |data| < |bytes| then bytes[offset + |data|..] else []
  }

  lemma CreatedEvolves(fs: Fs, p: Path, i: Ino, blank: Node)
    requires Valid(fs) && p !in fs.names
    ensures Valid(Created(fs, p, i, blank)) && Evolves(fs, Created(fs, p, i, blank))
  {
  }

  lemma UnlinkedEvolves(fs: Fs, p: Path)
    requires Valid(fs) && p in fs.names
    ensures Valid(Unlinked(fs, p)) && Evolves(fs, Unlinked(fs, p))
  {
  }

  lemma LinkedEvolves(fs: Fs, from: Path, to: Path)
    requires Valid(fs) && from in fs.names && to !in fs.names
    ensures Valid(Linked(fs, from, to)) && Evolves(fs, Linked(fs, from, to))
  {
  }

  lemma RenamedEvolves(fs: Fs, from: Path, to: Path)
    requires Valid(fs) && from in fs.names
    ensures Valid(Renamed(fs, from, to)) && Evolves(fs, Renamed(fs, from, to))
  {
    if Binding(fs, from) != Binding(fs, to) {
      var cleared := if to in fs.names then Unlinked(fs, to) else fs;
      if to in fs.names { UnlinkedEvolves(fs, to); }
      MovedEvolves(cleared, from, to);
      EvolvesOn(fs, cleared, Moved(cleared, from, to));
    }
  }

  lemma MovedEvolves(fs: Fs, from: Path, to: Path)
    requires Valid(fs) && from in fs.names && to !in fs.names
    ensures Valid(Moved(fs, from, to)) && Evolves(fs, Moved(fs, from, to))
  {
  }
}

/** Revision tokens: what they record, when they are valid, and their JSON form. */
module Revisions {
  import opened Common
  import opened FileSystem
  import opened Sha256
  import opened Sha256Proofs

  const MAX_READ_BYTES := 16 * 1024 * 1024
  const NSEC := 1_000_000_000

  datatype RevisionState = PresentState
  datatype RevisionKind = FileKind

  datatype Revision = Revision(schema: int, state: RevisionState, kind: RevisionKind, dev: int, ino: int,
                               size: int, mtimeSec: int, mtimeNsec: int, ctimeSec: int, ctimeNsec: int,
                               mode: int, sha256: string)

  datatype ExpectedRevision = Present(revision: Revision) | Missing

  /** `fs::Metadata`, as lstat and fstat return it. */
  datatype Meta = Meta(ino: Ino, kind: Kind, size: nat, mtime: int, stamp: int, mode: nat, uid: nat, gid: nat,
                       links: nat)

  function MetaOf(i: Ino, n: Node): Meta {
    Meta(i, n.kind, |n.bytes|, n.mtime, n.stamp, n.mode, n.uid, n.gid, n.links)
  }

  function FinalType(m: Meta): Option<string> {
    if m.kind == Symlink then Some("symlink")
    else if m.kind == Directory then Some("directory")
    else if m.kind == Fifo then Some("fifo")
    else if m.kind != Regular then Some("nonregular")
    else if m.links != 1 then Some("hardlink")
    else None
  }

  predicate MetadataEqual(a: Meta, b: Meta) {
    && a.ino.dev == b.ino.dev
    && a.ino.number == b.ino.number
    && a.size == b.size
    && a.mtime / NSEC == b.mtime / NSEC
    && a.mtime % NSEC == b.mtime % NSEC
    && a.stamp / NSEC == b.stamp / NSEC
    && a.stamp % NSEC == b.stamp % NSEC
    && a.kind == b.kind
    && a.mode == b.mode
    && a.uid == b.uid
    && a.gid == b.gid
    && a.links == b.links
  }

  function FromMetadata(m: Meta, digest: string): Revision {
    Revision(1, PresentState, FileKind, m.ino.dev, m.ino.number, m.size, m.mtime / NSEC, m.mtime % NSEC,
             m.stamp / NSEC, m.stamp % NSEC, m.mode % 0x1000, digest)
  }

  /** The content digest a server puts in its tokens.  The protocol holds for any; the server's own is `Digest`. */
  type Hasher = Bytes -> string

  predicate HexDigest64(s: string) { |s| == 64 && forall c | c in s :: LowerHex(c) }

  ghost predicate HexDigests(hash: Hasher) { forall m :: HexDigest64(hash(m)) }

  lemma Sha256GivesHexDigests()
    ensures HexDigests(Digest)
  {
    forall m ensures HexDigest64(Digest(m)) {
      DigestIsLowerHex(m);
    }
  }

  /** The revision of an inode at one instant. */
  function RevisionOf(hash: Hasher, i: Ino, n: Node): Revision {
    FromMetadata(MetaOf(i, n), hash(n.bytes))
  }

  predicate IsValidFileRevision(r: Revision) {
    && r.schema == 1
    && 0 <= r.mtimeNsec < NSEC
    && 0 <= r.ctimeNsec < NSEC
    && r.mode <= 0xfff
    && HexDigest64(r.sha256)
  }

  function Ctime(r: Revision): int { r.ctimeSec * NSEC + r.ctimeNsec }

  lemma RevisionNamesNode(hash: Hasher, i: Ino, n: Node)
    ensures var r := RevisionOf(hash, i, n);
      Ctime(r) == n.stamp && Ino(r.dev, r.ino) == i && (HexDigests(hash) ==> IsValidFileRevision(r))
  {
  }

  // ---------------------------------------------------------------------------------------------
  // JSON

  /** Field names, which the wire spells in snake case. */
  datatype Key = Schema | State | KindKey | Dev | InoKey | Size | MtimeSec | MtimeNsec | CtimeSec | CtimeNsec
               | Mode | Sha256Key | ExpectedState | ExpectedRevisionKey | Append | MustBeNew | Other(name: string)

  datatype Json = Null | Bool(b: bool) | Num(n: int) | Str(s: string) | Arr(items: seq<Json>)
                | Obj(fields: map<Key, Json>)

  predicate U64(n: int) { 0 <= n < 0x1_0000_0000_0000_0000 }
  predicate I64(n: int) { -0x8000_0000_0000_0000 <= n < 0x8000_0000_0000_0000 }

  /** The widths of the fields a server revision is held in. */
  predicate Fits(r: Revision) {
    && 0 <= r.schema < 256
    && U64(r.dev) && U64(r.ino) && U64(r.size)
    && I64(r.mtimeSec) && I64(r.mtimeNsec) && I64(r.ctimeSec) && I64(r.ctimeNsec)
    && 0 <= r.mode < 0x1_0000_0000
  }

  const TOKEN_KEYS: set<Key> := {Schema, State, KindKey, Dev, InoKey, Size, MtimeSec, MtimeNsec, CtimeSec,
                                 CtimeNsec, Mode, Sha256Key}

  function TokenField(r: Revision, k: Key): Json {
    match k
    case Schema => Num(r.schema)
    case State => Str("present")
    case KindKey => Str("file")
    case Dev => Num(r.dev)
    case InoKey => Num(r.ino)
    case Size => Num(r.size)
    case MtimeSec => Num(r.mtimeSec)
    case MtimeNsec => Num(r.mtimeNsec)
    case CtimeSec => Num(r.ctimeSec)
    case CtimeNsec => Num(r.ctimeNsec)
    case Mode => Num(r.mode)
    case Sha256Key => Str(r.sha256)
    case _ => Null
  }

  function ToValue(r: Revision): Json { Obj(map k | k in TOKEN_KEYS :: TokenField(r, k)) }

  function Unsigned(o: map<Key, Json>, name: Key): Option<int> {
    if name in o && o[name].Num? && U64(o[name].n) then Some(o[name].n) else None
  }

  function Signed(o: map<Key, Json>, name: Key): Option<int> {
    if name in o && o[name].Num? && I64(o[name].n) then Some(o[name].n) else None
  }

  function Text(o: map<Key, Json>, name: Key): Option<string> {
    if name in o && o[name].Str? then Some(o[name].s) else None
  }

  function Narrow(n: Option<int>, limit: int): Option<int> {
    if n.Some? && n.value < limit then n else None
  }

  /** The record built before it is validated.  None stands for every error; error texts are not modelled. */
  function ParseFields(o: map<Key, Json>): Option<Revision> {
    var schema, mode := Narrow(Unsigned(o, Schema), 256), Narrow(Unsigned(o, Mode), 0x1_0000_0000);
    var dev, ino, size := Unsigned(o, Dev), Unsigned(o, InoKey), Unsigned(o, Size);
    var ms, mn := Signed(o, MtimeSec), Signed(o, MtimeNsec);
    var cs, cn := Signed(o, CtimeSec), Signed(o, CtimeNsec);
    var sha := Text(o, Sha256Key);
    if Text(o, State) != Some("present") || Text(o, KindKey) != Some("file") || schema.None? || dev.None?
      || ino.None? || size.None? || ms.None? || mn.None? || cs.None? || cn.None? || mode.None? || sha.None?
    then None
    else Some(Revision(schema.value, PresentState, FileKind, dev.value, ino.value, size.value, ms.value, mn.value,
                       cs.value, cn.value, mode.value, sha.value))
  }

  function FromValue(v: Json): Option<Revision> {
    if !v.Obj? then None
    else
      var r := ParseFields(v.fields);
      if r.Some? && IsValidFileRevision(r.value) then r else None
  }

  predicate Has(o: map<Key, Json>, k: Key, v: Json) { k in o && o[k] == v }

  predicate Carries(o: map<Key, Json>, r: Revision) {
    && Has(o, Schema, Num(r.schema)) && Has(o, State, Str("present")) && Has(o, KindKey, Str("file"))
    && Has(o, Dev, Num(r.dev)) && Has(o, InoKey, Num(r.ino)) && Has(o, Size, Num(r.size))
    && Has(o, MtimeSec, Num(r.mtimeSec)) && Has(o, MtimeNsec, Num(r.mtimeNsec))
    && Has(o, CtimeSec, Num(r.ctimeSec)) && Has(o, CtimeNsec, Num(r.ctimeNsec))
    && Has(o, Mode, Num(r.mode)) && Has(o, Sha256Key, Str(r.sha256))
  }

  lemma ParseFieldsExactly(o: map<Key, Json>, r: Revision)
    ensures ParseFields(o) == Some(r) <==> Fits(r) && Carries(o, r)
  {
    assert r.state == PresentState && r.kind == FileKind;
  }

  lemma TokenHas(o: map<Key, Json>, r: Revision, k: Key)
    requires Carries(o, r) && k in TOKEN_KEYS
    ensures Has(o, k, TokenField(r, k))
  {
    match k
    case Schema => case State => case KindKey => case Dev => case InoKey => case Size =>
    case MtimeSec => case MtimeNsec => case CtimeSec => case CtimeNsec => case Mode => case Sha256Key =>
    case _ =>
  }

  lemma AgreesMeansCarries(o: map<Key, Json>, r: Revision)
    ensures Agrees(o, ToValue(r).fields) <==> Carries(o, r)
  {
    var w := ToValue(r).fields;
    if Carries(o, r) {
      forall k | k in w ensures k in o && o[k] == w[k] {
        TokenHas(o, r, k);
      }
    }
    if Agrees(o, w) {
      AgreesAtNames(o, r);
      AgreesAtTimes(o, r);
    }
  }

  lemma AgreesAt(o: map<Key, Json>, r: Revision, k: Key)
    requires Agrees(o, ToValue(r).fields) && k in TOKEN_KEYS
    ensures Has(o, k, TokenField(r, k))
  {
    assert k in ToValue(r).fields;
  }

  lemma AgreesAtNames(o: map<Key, Json>, r: Revision)
    requires Agrees(o, ToValue(r).fields)
    ensures Has(o, Schema, Num(r.schema)) && Has(o, State, Str("present")) && Has(o, KindKey, Str("file"))
    ensures Has(o, Dev, Num(r.dev)) && Has(o, InoKey, Num(r.ino)) && Has(o, Size, Num(r.size))
  {
    AgreesAt(o, r, Schema);
    AgreesAt(o, r, State);
    AgreesAt(o, r, KindKey);
    AgreesAt(o, r, Dev);
    AgreesAt(o, r, InoKey);
    AgreesAt(o, r, Size);
  }

  lemma AgreesAtTimes(o: map<Key, Json>, r: Revision)
    requires Agrees(o, ToValue(r).fields)
    ensures Has(o, MtimeSec, Num(r.mtimeSec)) && Has(o, MtimeNsec, Num(r.mtimeNsec))
    ensures Has(o, CtimeSec, Num(r.ctimeSec)) && Has(o, CtimeNsec, Num(r.ctimeNsec))
    ensures Has(o, Mode, Num(r.mode)) && Has(o, Sha256Key, Str(r.sha256))
  {
    AgreesAt(o, r, MtimeSec);
    AgreesAt(o, r, MtimeNsec);
    AgreesAt(o, r, CtimeSec);
    AgreesAt(o, r, CtimeNsec);
    AgreesAt(o, r, Mode);
    AgreesAt(o, r, Sha256Key);
  }

  predicate Agrees(o: map<Key, Json>, want: map<Key, Json>) {
    forall k <- want :: k in o && o[k] == want[k]
  }

  /** Parsing accepts exactly the objects that carry all twelve fields of a valid token, and yields that token. */
  lemma FromValueExactly(v: Json, r: Revision)
    ensures FromValue(v) == Some(r)
       <==> v.Obj? && IsValidFileRevision(r) && Fits(r) && Agrees(v.fields, ToValue(r).fields)
  {
    if v.Obj? {
      AgreesMeansCarries(v.fields, r);
      ParseFieldsExactly(v.fields, r);
    }
  }

  /** A token survives the wire exactly when it is valid and fits its field widths. */
  lemma RoundTrip(r: Revision)
    ensures FromValue(ToValue(r)) == Some(r) <==> IsValidFileRevision(r) && Fits(r)
    ensures FromValue(ToValue(r)).Some? ==> FromValue(ToValue(r)) == Some(r)
  {
    FromValueExactly(ToValue(r), r);
    var back := FromValue(ToValue(r));
    if back.Some? {
      FromValueExactly(ToValue(r), back.value);
    }
  }

  /** Metadata in the ranges the kernel reports. */
  predicate KernelRange(m: Meta) {
    U64(m.ino.dev) && U64(m.ino.number) && U64(m.size) && I64(m.mtime / NSEC) && I64(m.stamp / NSEC)
  }

  /** Every token the server issues comes back from the client as itself. */
  lemma IssuedTokensReturn(i: Ino, n: Node)
    requires KernelRange(MetaOf(i, n))
    ensures var r := RevisionOf(Digest, i, n); FromValue(ToValue(r)) == Some(r)
  {
    Sha256GivesHexDigests();
    RevisionNamesNode(Digest, i, n);
    RoundTrip(RevisionOf(Digest, i, n));
  }

  // ---------------------------------------------------------------------------------------------
  // Which writes are conditional

  datatype Expectation = Conditional(expected: ExpectedRevision) | Unconditional | Malformed

  /** `expected_revision_from_request`, and the branch on `append` and `must_be_new` after it. */
  function ExpectedFromRequest(req: map<Key, Json>): Expectation {
    var state := Text(req, ExpectedState);
    if state.Some? then if state.value == "missing" then Conditional(Missing) else Malformed
    else if ExpectedRevisionKey !in req then Unconditional
    else
      var r := FromValue(req[ExpectedRevisionKey]);
      if r.Some? then Conditional(Present(r.value)) else Malformed
  }

  function Flag(req: map<Key, Json>, name: Key): bool {
    name in req && req[name].Bool? && req[name].b
  }

  function WriteMode(req: map<Key, Json>): Expectation {
    var e := ExpectedFromRequest(req);
    if e.Conditional? && (Flag(req, Append) || Flag(req, MustBeNew)) then Unconditional else e
  }

  /** v is an object with all twelve fields of the valid token r. */
  predicate Spells(v: Json, r: Revision) {
    v.Obj? && IsValidFileRevision(r) && Fits(r) && Agrees(v.fields, ToValue(r).fields)
  }

  /** The request is refused, or it is checked against exactly the token it carries. */
  predicate HeedsToken(req: map<Key, Json>, mode: Expectation)
    requires ExpectedRevisionKey in req
  {
    match mode
    case Malformed => true
    case Conditional(Present(r)) => Spells(req[ExpectedRevisionKey], r)
    case _ => false
  }

  /** A token in a request is ignored exactly when the request also says that the file is missing, or when the
      token is well formed, no state is given, and the request asks to append or to create.  The first kind can
      then only create; with either flag the write is not conditional at all. */
  lemma TokenIgnoredExactly(req: map<Key, Json>)
    requires ExpectedRevisionKey in req
    ensures var state, flagged := Text(req, ExpectedState), Flag(req, Append) || Flag(req, MustBeNew);
      && (!HeedsToken(req, WriteMode(req)) <==>
            || state == Some("missing")
            || (state.None? && flagged && exists r :: Spells(req[ExpectedRevisionKey], r)))
      && (!HeedsToken(req, WriteMode(req)) ==>
            WriteMode(req) == if flagged then Unconditional else Conditional(Missing))
  {
    var token := req[ExpectedRevisionKey];
    forall r ensures FromValue(token) == Some(r) <==> Spells(token, r) {
      FromValueExactly(token, r);
    }
    assert FromValue(token).Some? ==> Spells(token, FromValue(token).value);
  }
}

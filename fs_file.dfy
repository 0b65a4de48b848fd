/** Filesystem entries of a remote-filesystem client, as immutable values.

    An `Entry` is either a directory or a file snapshot, with optional POSIX
    metadata (owner, group, three permission triples) and an optional symlink
    target, which is itself an entry.  Every accessor is total and dispatches
    on the variant; `RealFile` follows the symlink chain to its end; `UnixPex`
    is one read/write/execute triple with its bit-exact byte codec.
 */
module Fs {

  datatype Option<T> = None | Some(value: T)

  /** Unsigned integers of the source.  `u8` is a bit-vector so that the
      permission codec is modelled with the source's own shifts and masks. */
  type u8 = bv8
  newtype u32 = x: int | 0 <= x < 0x1_0000_0000
  newtype usize = x: int | 0 <= x < 0x1_0000_0000_0000_0000

  /** Instants are only stored and compared here; an instant is a count of
      nanoseconds since the epoch. */
  type SystemTime = int

  /** A path is its text; paths are compared as strings, not by component. */
  type Path = string

  /** The size every directory reports, whatever it holds. */
  const DIR_SIZE: usize := 4096

  /** `b as u8` for a boolean. */
  function BoolByte(b: bool): u8 {
    if b then 1 else 0
  }

  // ---------------------------------------------------------------------
  // UnixPex: one read/write/execute triple of a POSIX mode

  datatype UnixPex = UnixPex(read: bool, write: bool, execute: bool) {

    static function New(read: bool, write: bool, execute: bool): (p: UnixPex)
      ensures p.CanRead() == read && p.CanWrite() == write && p.CanExecute() == execute
    {
      UnixPex(read, write, execute)
    }

    predicate CanRead() {
      read
    }

    predicate CanWrite() {
      write
    }

    predicate CanExecute() {
      execute
    }

    /** The conventional octal digit of this triple in a POSIX mode
        (r = 4, w = 2, x = 1), computed on unbounded integers. */
    function OctalDigit(): (n: nat)
      ensures n <= 7
    {
      (if read then 4 else 0) + (if write then 2 else 0) + (if execute then 1 else 0)
    }

    /** Encodes the triple as a byte: read in bit 2, write in bit 1, execute
        in bit 0.  The shifted terms are added in `u8`, which wraps; the
        ensures say that it never does and that the byte is the octal digit. */
    function AsByte(): (b: u8)
      ensures b <= 7
      ensures b as int == OctalDigit()
    {
      (BoolByte(read) << 2) + (BoolByte(write) << 1) + BoolByte(execute)
    }

    /** Decodes a byte: bit 2 is read, bit 1 write, bit 0 execute; the bits
        above are ignored. */
    static function FromByte(bits: u8): (p: UnixPex)
      ensures p.read <==> bits & 4 == 4
      ensures p.write <==> bits & 2 == 2
      ensures p.execute <==> bits & 1 == 1
      ensures p.OctalDigit() == (bits & 7) as int
    {
      UnixPex((bits >> 2) & 1 != 0, (bits >> 1) & 1 != 0, bits & 1 != 0)
    }
  }

  /** Decoding an encoded triple gives the triple back. */
  lemma PexRoundTrip(p: UnixPex)
    ensures UnixPex.FromByte(p.AsByte()) == p
  {
  }

  /** Encoding a decoded byte keeps exactly its low three bits. */
  lemma ByteRoundTrip(bits: u8)
    ensures UnixPex.FromByte(bits).AsByte() == bits & 7
  {
  }

  /** Two triples encode to the same byte exactly when they are equal. */
  lemma AsByteInjective(p: UnixPex, q: UnixPex)
    ensures p.AsByte() == q.AsByte() <==> p == q
  {
  }

  /** Two bytes decode to the same triple exactly when their low three bits
      agree. */
  lemma FromByteLowBits(a: u8, b: u8)
    ensures UnixPex.FromByte(a) == UnixPex.FromByte(b) <==> a & 7 == b & 7
  {
  }

  // ---------------------------------------------------------------------
  // Entries

  /** The owner, group and other permission triples. */
  type PexTriple = (UnixPex, UnixPex, UnixPex)

  datatype Directory = Directory(
    name: string,
    absPath: Path,
    lastChangeTime: SystemTime,
    lastAccessTime: SystemTime,
    creationTime: SystemTime,
    symlink: Option<Entry>,           // UNIX only
    user: Option<u32>,                // UNIX only
    group: Option<u32>,               // UNIX only
    unixPex: Option<PexTriple>        // UNIX only
  )

  datatype File = File(
    name: string,
    absPath: Path,
    lastChangeTime: SystemTime,
    lastAccessTime: SystemTime,
    creationTime: SystemTime,
    size: usize,
    ftype: Option<string>,
    symlink: Option<Entry>,           // UNIX only
    user: Option<u32>,                // UNIX only
    group: Option<u32>,               // UNIX only
    unixPex: Option<PexTriple>        // UNIX only
  )

  /** A generic entry in a directory.  The symlink target of an entry is held
      by value, so a chain of links is finite and has no cycle. */
  datatype Entry = DirEntry(dir: Directory) | FileEntry(file: File) {

    function AbsPath(): Path {
      match this
      case DirEntry(d) => d.absPath
      case FileEntry(f) => f.absPath
    }

    function Name(): string {
      match this
      case DirEntry(d) => d.name
      case FileEntry(f) => f.name
    }

    function LastChangeTime(): SystemTime {
      match this
      case DirEntry(d) => d.lastChangeTime
      case FileEntry(f) => f.lastChangeTime
    }

    function LastAccessTime(): SystemTime {
      match this
      case DirEntry(d) => d.lastAccessTime
      case FileEntry(f) => f.lastAccessTime
    }

    function CreationTime(): SystemTime {
      match this
      case DirEntry(d) => d.creationTime
      case FileEntry(f) => f.creationTime
    }

    /** A directory always reports `DIR_SIZE`. */
    function Size(): usize {
      match this
      case DirEntry(_) => DIR_SIZE
      case FileEntry(f) => f.size
    }

    /** A directory never has a file type. */
    function Ftype(): Option<string> {
      match this
      case DirEntry(_) => None
      case FileEntry(f) => f.ftype
    }

    function User(): Option<u32> {
      match this
      case DirEntry(d) => d.user
      case FileEntry(f) => f.user
    }

    function Group(): Option<u32> {
      match this
      case DirEntry(d) => d.group
      case FileEntry(f) => f.group
    }

    function Pex(): Option<PexTriple> {
      match this
      case DirEntry(d) => d.unixPex
      case FileEntry(f) => f.unixPex
    }

    /** The symlink target of whichever variant is active. */
    function Target(): Option<Entry> {
      match this
      case DirEntry(d) => d.symlink
      case FileEntry(f) => f.symlink
    }

    predicate IsSymlink() {
      match this
      case DirEntry(d) => d.symlink.Some?
      case FileEntry(f) => f.symlink.Some?
    }

    predicate IsDir() {
      DirEntry?
    }

    predicate IsFile() {
      FileEntry?
    }

    /** An entry is hidden when its name starts with a dot. */
    predicate IsHidden()
      ensures IsHidden() <==> |Name()| > 0 && Name()[0] == '.'
    {
      "." <= Name()
    }

    /** The entry at the end of the symlink chain: the entry itself when it
        is not a symlink, and otherwise the real file of its target. */
    function RealFile(): (r: Entry)
      ensures !r.IsSymlink()
      ensures r == this <==> !IsSymlink()
    {
      match this
      case DirEntry(d) =>
        (match d.symlink
         case Some(target) => target.RealFile()
         case None => this)
      case FileEntry(f) =>
        (match f.symlink
         case Some(target) => target.RealFile()
         case None => this)
    }

    /** The file payload; only defined on a file entry. */
    function UnwrapFile(): (f: File)
      requires IsFile()
      ensures FileEntry(f) == this
    {
      file
    }

    /** The directory payload; only defined on a directory entry. */
    function UnwrapDir(): (d: Directory)
      requires IsDir()
      ensures DirEntry(d) == this
    {
      dir
    }

    /** The symlink chain from this entry: the entry, then each link target
        in turn, down to the first entry that is not a symlink. */
    ghost function Chain(): (c: seq<Entry>)
      ensures |c| >= 1 && c[0] == this
    {
      match this
      case DirEntry(d) =>
        (match d.symlink
         case Some(target) => [this] + target.Chain()
         case None => [this])
      case FileEntry(f) =>
        (match f.symlink
         case Some(target) => [this] + target.Chain()
         case None => [this])
    }
  }

  /** Every accessor of a directory entry returns the field it was built
      with; size and file type are the fixed directory values. */
  lemma DirectoryAccessors(d: Directory)
    ensures var e := DirEntry(d);
      && e.AbsPath() == d.absPath
      && e.Name() == d.name
      && e.LastChangeTime() == d.lastChangeTime
      && e.LastAccessTime() == d.lastAccessTime
      && e.CreationTime() == d.creationTime
      && e.Size() == 4096
      && e.Ftype() == None
      && e.User() == d.user
      && e.Group() == d.group
      && e.Pex() == d.unixPex
      && (e.IsSymlink() <==> d.symlink.Some?)
      && e.IsDir() && !e.IsFile()
  {
  }

  /** Every accessor of a file entry returns the field it was built with. */
  lemma FileAccessors(f: File)
    ensures var e := FileEntry(f);
      && e.AbsPath() == f.absPath
      && e.Name() == f.name
      && e.LastChangeTime() == f.lastChangeTime
      && e.LastAccessTime() == f.lastAccessTime
      && e.CreationTime() == f.creationTime
      && e.Size() == f.size
      && e.Ftype() == f.ftype
      && e.User() == f.user
      && e.Group() == f.group
      && e.Pex() == f.unixPex
      && (e.IsSymlink() <==> f.symlink.Some?)
      && e.IsFile() && !e.IsDir()
  {
  }

  /** Every entry is exactly one of a directory and a file. */
  lemma DirXorFile(e: Entry)
    ensures e.IsDir() <==> !e.IsFile()
  {
  }

  /** An entry is a symlink exactly when it has a link target. */
  lemma SymlinkHasTarget(e: Entry)
    ensures e.IsSymlink() <==> e.Target().Some?
  {
  }

  /** Following a link: the real file of a symlink is that of its target. */
  lemma RealFileFollowsTarget(e: Entry)
    requires e.IsSymlink()
    ensures e.Target().Some? && e.RealFile() == e.Target().value.RealFile()
  {
  }

  /** Resolving twice resolves nothing more. */
  lemma RealFileIdempotent(e: Entry)
    ensures e.RealFile().RealFile() == e.RealFile()
  {
  }

  /** The chain is linked: each element but the last is a symlink to the
      next, and the last one is not a symlink. */
  lemma {:induction false} ChainLinked(e: Entry)
    ensures var c := e.Chain();
      && (forall i :: 0 <= i < |c| - 1 ==> c[i].Target() == Some(c[i + 1]))
      && !c[|c| - 1].IsSymlink()
  {
    match e.Target()
    case None =>
    case Some(t) =>
      ChainLinked(t);
      assert e.Chain() == [e] + t.Chain();
  }

  /** The real file is the last entry of the symlink chain. */
  lemma {:induction false} RealFileEndsChain(e: Entry)
    ensures e.RealFile() == e.Chain()[|e.Chain()| - 1]
  {
    match e.Target()
    case None =>
    case Some(t) =>
      RealFileEndsChain(t);
      assert e.Chain() == [e] + t.Chain();
  }

  /** The real file is the only entry of the chain that is not a symlink. */
  lemma {:induction false} RealFileOnlyTerminal(e: Entry)
    ensures forall x :: x in e.Chain() && !x.IsSymlink() ==> x == e.RealFile()
  {
    match e.Target()
    case None =>
    case Some(t) =>
      RealFileOnlyTerminal(t);
      assert e.Chain() == [e] + t.Chain();
  }
}

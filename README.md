# remotefs filesystem entries, in Dafny

This project models the entry layer of the remotefs client library
(`src/fs/file.rs`): the values that every remote-filesystem backend fills in
when it lists a directory or stats a path. It performs no I/O.

- `Fs.UnixPex` is one POSIX read/write/execute triple. `FromByte` decodes a
  byte (bit 2 read, bit 1 write, bit 0 execute, higher bits ignored) and
  `AsByte` encodes it back. Both are written with the source's own `u8` shifts
  and masks on `bv8`. The contracts tie the byte to the conventional octal mode
  digit (r = 4, w = 2, x = 1) computed on unbounded integers. The lemmas prove
  both round trips and that decoding ignores every bit above bit 2.
- `Fs.Entry` is the closed sum `DirEntry(Directory) | FileEntry(File)`. It has
  total accessors that project the active variant's field. A directory always
  reports size 4096 and no file type.
- `Fs.Entry.RealFile` follows the `symlink` field until it reaches an entry that
  is not a symlink. In the source the target is a uniquely owned `Box`, and
  here it is held by value. Either way a chain is finite and acyclic, and the
  recursion terminates structurally. The ghost function
  `Chain` lists the entries of a chain. It is the reference for `RealFile`:
  the lemmas prove that the result is the last entry of the chain and the
  only entry in it that is not a symlink.
- `FsTests` restates the concrete cases of the source's unit tests as lemmas.

Types: `u8` is `bv8`. `u32` and `usize` (taken as 64 bits) are newtypes over
`int`. A `SystemTime` is an `int` count of nanoseconds. A path is its text.

Symlink resolution has no hop limit and no cycle error; the model follows
the code.

## Model

| member | source | states |
|---|---|---|
| `Fs.UnixPex.New` | src/fs/file.rs:92-119 | a triple built from three flags answers each of can_read, can_write and can_execute (`UnixPex.CanRead`, `CanWrite`, `CanExecute`) with the flag it was given |
| `Fs.UnixPex.AsByte` | src/fs/file.rs:124-126 | the encoded byte is at most 7; the u8 addition never wraps; the byte equals the triple's octal mode digit 4r + 2w + x |
| `Fs.UnixPex.FromByte` | src/fs/file.rs:129-137 | read is bit 2 of the byte, write bit 1, execute bit 0; the triple's octal digit is the byte's low three bits |
| `Fs.PexRoundTrip` | src/fs/file.rs:124-137 | decoding the encoding of any triple gives that triple back |
| `Fs.ByteRoundTrip` | src/fs/file.rs:124-137 | encoding the decoding of any byte gives its low three bits, `v & 7` |
| `Fs.AsByteInjective` | src/fs/file.rs:124-126 | two triples have the same byte exactly when they are equal |
| `Fs.FromByteLowBits` | src/fs/file.rs:129-137 | two bytes decode to the same triple exactly when their low three bits agree, so higher bits are ignored |
| `Fs.DirectoryAccessors` | src/fs/file.rs:143-262 | on a directory entry, every accessor (`Entry.AbsPath`, `Name`, `LastChangeTime`, `LastAccessTime`, `CreationTime`, `Size`, `Ftype`, `User`, `Group`, `Pex`, `IsSymlink`, `IsDir`, `IsFile`) returns the field it was built with; size is 4096 and file type is None whatever the fields; is_symlink holds iff the symlink field is set; is_dir holds and is_file does not |
| `Fs.FileAccessors` | src/fs/file.rs:143-262 | on a file entry, every accessor (`Entry.AbsPath`, `Name`, `LastChangeTime`, `LastAccessTime`, `CreationTime`, `Size`, `Ftype`, `User`, `Group`, `Pex`, `IsSymlink`, `IsDir`, `IsFile`) returns the field it was built with, including its size and file type; is_symlink holds iff the symlink field is set; is_file holds and is_dir does not |
| `Fs.DirXorFile` | src/fs/file.rs:253-262 | every entry is exactly one of a directory and a file |
| `Fs.SymlinkHasTarget` | src/fs/file.rs:243-248 | an entry is a symlink exactly when the active variant has a link target |
| `Fs.Entry.IsHidden` | src/fs/file.rs:267-269 | an entry is hidden iff its name is non-empty and its first character is a dot, for both variants |
| `Fs.Entry.RealFile` | src/fs/file.rs:274-285 | the result is never a symlink; it is the entry itself exactly when the entry is not a symlink |
| `Fs.RealFileFollowsTarget` | src/fs/file.rs:274-285 | the real file of a symlink is the real file of its target, for both variants |
| `Fs.RealFileIdempotent` | src/fs/file.rs:274-285 | resolving the real file a second time changes nothing |
| `Fs.ChainLinked` | src/fs/file.rs:274-285 | in the symlink chain each entry but the last links to the next one, and the last one is not a symlink |
| `Fs.RealFileEndsChain` | src/fs/file.rs:274-285 | the real file is the last entry of the symlink chain |
| `Fs.RealFileOnlyTerminal` | src/fs/file.rs:274-285 | the real file is the only entry of the chain that is not a symlink |
| `Fs.Entry.UnwrapFile` | src/fs/file.rs:290-295 | defined only on a file entry; returns the payload that the entry wraps |
| `Fs.Entry.UnwrapDir` | src/fs/file.rs:301-306 | defined only on a directory entry; returns the payload that the entry wraps (`unwrap_dir` is compiled only for the unit tests) |
| `FsTests.DirectoryEntryCase` | src/fs/file.rs:315-346 | the directory "/foo" reports its fields, size 4096, no file type and permissions 7/5/5 |
| `FsTests.FileEntryCase` | src/fs/file.rs:348-381 | the file "/bar.txt" reports its fields, size 8192, type "txt" and permissions 6/4/4 |
| `FsTests.BadUnwrapCases` | src/fs/file.rs:383-419 | unwrapping a file as a directory, or a directory as a file, is outside the unwrap's precondition |
| `FsTests.HiddenCases` | src/fs/file.rs:421-464 | "bar.txt" is not hidden; ".gitignore" (a file) and ".git" (a directory) are hidden |
| `FsTests.RealFileNoneCases` | src/fs/file.rs:466-501 | a file or directory without a symlink resolves to its own path |
| `FsTests.RealFileChainCase` | src/fs/file.rs:503-551 | root -> child -> target resolves to target, path "/home/cvisintin/projects" |
| `FsTests.UnixPexCases` | src/fs/file.rs:553-575 | 4 decodes to read only, 0 to nothing, 3 to write and execute, 7 to all; 3 and 7 encode back to 3 and 7 |

## Left out

- `SystemTime` and `PathBuf` internals: an instant is an `int` and a path is a string. Outside its tests the source only stores and clones them. Paths are compared as strings, whereas `PathBuf` equality compares path components (`"/foo/"` equals `"/foo"` in the source but not in the model).
- `Clone`, `Debug` and `Box`: entries are immutable values, so a clone is the same value.
- The panic of `unwrap_file` and `unwrap_dir` on the wrong variant: it becomes the precondition that the variant matches.
- Stack exhaustion in symlink resolution: the source recurses once per link, so a very deep but finite chain can overflow the call stack. The model's recursion has no depth bound, so that failure is not modelled. Neither the source (uniquely owned `Box` targets) nor the model can build a cyclic chain.
- `usize` is taken as 64 bits; no arithmetic is done on it.

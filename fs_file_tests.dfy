/** The concrete cases of the entry module's unit tests, stated as lemmas
    about the model. */
module FsTests {
  import opened Fs

  const Now: SystemTime := 0

  function DirFoo(): Entry {
    DirEntry(Directory("foo", "/foo", Now, Now, Now, None, Some(0), Some(0),
      Some((UnixPex.FromByte(7), UnixPex.FromByte(5), UnixPex.FromByte(5)))))
  }

  function FileBar(name: string, path: Path): Entry {
    FileEntry(File(name, path, Now, Now, Now, 8192, Some("txt"), None, Some(0), Some(0),
      Some((UnixPex.FromByte(6), UnixPex.FromByte(4), UnixPex.FromByte(4)))))
  }

  /** A directory reports its own fields, size 4096 and no file type. */
  lemma DirectoryEntryCase()
    ensures var e := DirFoo();
      && e.AbsPath() == "/foo" && e.Name() == "foo"
      && e.LastAccessTime() == Now && e.LastChangeTime() == Now && e.CreationTime() == Now
      && e.Size() == 4096 && e.Ftype() == None
      && e.User() == Some(0) && e.Group() == Some(0)
      && !e.IsSymlink() && e.IsDir() && !e.IsFile()
      && e.Pex() == Some((UnixPex(true, true, true), UnixPex(true, false, true), UnixPex(true, false, true)))
      && e.UnwrapDir().absPath == "/foo"
  {
  }

  /** A file reports its own fields, including its size and file type. */
  lemma FileEntryCase()
    ensures var e := FileBar("bar.txt", "/bar.txt");
      && e.AbsPath() == "/bar.txt" && e.Name() == "bar.txt"
      && e.LastAccessTime() == Now && e.LastChangeTime() == Now && e.CreationTime() == Now
      && e.Size() == 8192 && e.Ftype() == Some("txt")
      && e.User() == Some(0) && e.Group() == Some(0)
      && e.Pex() == Some((UnixPex(true, true, false), UnixPex(true, false, false), UnixPex(true, false, false)))
      && !e.IsSymlink() && !e.IsDir() && e.IsFile()
      && e.UnwrapFile().absPath == "/bar.txt"
  {
  }

  /** Unwrapping the wrong variant is outside the unwraps' preconditions. */
  lemma BadUnwrapCases()
    ensures !FileBar("bar.txt", "/bar.txt").IsDir()
    ensures !DirFoo().IsFile()
  {
  }

  /** Hidden exactly when the name starts with a dot, for files and
      directories alike. */
  lemma HiddenCases()
    ensures !FileBar("bar.txt", "/bar.txt").IsHidden()
    ensures FileBar(".gitignore", "/.gitignore").IsHidden()
    ensures DirEntry(DirFoo().dir.(name := ".git", absPath := "/.git")).IsHidden()
  {
  }

  /** Without a symlink, the real file is the entry itself. */
  lemma RealFileNoneCases()
    ensures FileBar("bar.txt", "/bar.txt").RealFile().AbsPath() == "/bar.txt"
    ensures DirFoo().RealFile().AbsPath() == "/foo"
  {
  }

  /** root -> child -> target resolves to the target. */
  lemma RealFileChainCase()
    ensures
      var all := Some((UnixPex.FromByte(7), UnixPex.FromByte(7), UnixPex.FromByte(7)));
      var target := DirEntry(Directory("projects", "/home/cvisintin/projects", Now, Now, Now,
        None, Some(0), Some(0), all));
      var child := DirEntry(Directory("projects", "/develop/projects", Now, Now, Now,
        Some(target), Some(0), Some(0), all));
      var root := FileEntry(File("projects", "/projects", Now, Now, Now, 8, None,
        Some(child), Some(0), Some(0), all));
      && root.IsSymlink()
      && root.RealFile() == target
      && root.RealFile().AbsPath() == "/home/cvisintin/projects"
  {
  }

  /** The permission triples of the codec test. */
  lemma UnixPexCases()
    ensures UnixPex.FromByte(4) == UnixPex.New(true, false, false)
    ensures UnixPex.FromByte(0) == UnixPex.New(false, false, false)
    ensures UnixPex.FromByte(3) == UnixPex.New(false, true, true)
    ensures UnixPex.FromByte(7) == UnixPex.New(true, true, true)
    ensures UnixPex.FromByte(3).AsByte() == 3
    ensures UnixPex.FromByte(7).AsByte() == 7
  {
  }
}

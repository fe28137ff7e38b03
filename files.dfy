/** The file system as the scripts see it: a finite map from resolved paths to file contents. */
module Files {
  import opened Common

  /** Identifies the bytes of one image file; the bytes themselves are not modelled. */
  type Content = nat

  type FileSystem = map<Path, Content>

  /** `shutil.move` / `os.rename` that succeeds: the content changes name, nothing else moves. */
  function Move(fs: FileSystem, from: Path, to: Path): (r: FileSystem)
    requires from in fs
    ensures r.Keys == fs.Keys - {from} + {to}
    ensures r[to] == fs[from]
    ensures forall p :: p in r && p != to ==> r[p] == fs[p]
  {
    (fs - {from})[to := fs[from]]
  }
}

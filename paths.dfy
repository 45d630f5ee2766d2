/** The part of the filesystem the adapters look at, and the file names they pick. */
module Paths {

  /** What a path names on disk, when it exists. */
  datatype EntryKind = File | Directory

  /** A snapshot of the filesystem: the paths that exist and what they are.
      A path that is not a key does not exist. */
  type FileSystem = map<string, EntryKind>

  predicate IsFile(fs: FileSystem, p: string) {
    p in fs && fs[p] == File
  }

  predicate IsDir(fs: FileSystem, p: string) {
    p in fs && fs[p] == Directory
  }

  /** The file an adapter writes its output to. `NextFree(dir, prefix)` stands
      for the result of the repository's free-name helper
      (`find_next_available_filename(dir, prefix)`), whose code is not part of
      this model; the model records which directory and prefix it is asked for.
      `Under(dir, t)` is `Path(dir) / t`: the name `t` joined onto `dir`. */
  datatype Target = Exact(path: string) | NextFree(dir: string, prefix: string) | Under(dir: string, name: Target)
}

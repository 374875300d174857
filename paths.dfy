/** Paths and file contents of the abstract working directory. */
module Paths {
  /** One path component, such as "SD_ROOT" or "fusee.bin". */
  type Name = string

  /** A path relative to the working directory, as its list of components; [] is the working directory itself. */
  type Path = seq<Name>

  /** A path that names something below a directory: never empty (a member of a ZIP archive, say). */
  type RelPath = p: Path | |p| > 0 witness [""]

  type Byte = b: int | 0 <= b < 256

  /** The bytes of a file. */
  type Blob = seq<Byte>

  function Parent(p: Path): Path
    requires |p| > 0
  {
    p[..|p| - 1]
  }

  /** p and the non-empty prefixes of p: what `mkdir(parents=True)` creates. */
  function Chain(p: Path): set<Path>
  {
    set k | 0 < k <= |p| :: p[..k]
  }
}

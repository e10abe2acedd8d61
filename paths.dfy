/**
 * Filesystem paths as sequences of components: `migrations/12345` is
 * `Path(["migrations", "12345"])`.
 */
module Paths {
  import opened Results
  import opened Text

  datatype Path = Path(components: seq<string>)

  /** `Path::file_name`: the final component, if there is one. */
  function FileName(p: Path): Option<string>
  {
    if |p.components| == 0 then None else Some(p.components[|p.components| - 1])
  }

  /** `Path::join` with a relative, single-component name. */
  function Join(p: Path, name: string): (r: Path)
    ensures FileName(r) == Some(name)
  {
    Path(p.components + [name])
  }

  /** The text form of a path: its components separated by `/`. */
  function Display(p: Path): string
  {
    JoinWith(p.components, '/')
  }

  /** Joining a name adds `/` and the name to the text form. */
  lemma DisplayJoin(p: Path, name: string)
    ensures Display(Join(p, name)) == if p.components == [] then name else Display(p) + "/" + name
  {
    JoinWithSnoc(p.components, name, '/');
  }
}

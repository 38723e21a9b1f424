/** The read-only view of the build's artifact tree (Jenkins' `VirtualFile`):
    a node is either a leaf file or a directory with its children listed in
    enumeration order, never both. */
module Files {

  datatype Node = Leaf(name: string) | Dir(name: string, children: seq<Node>)

  /** The leaves under `files`, depth-first, in enumeration order. */
  function Leaves(files: seq<Node>): (r: seq<Node>)
    ensures forall i :: 0 <= i < |r| ==> r[i].Leaf?
    decreases files
  {
    if files == [] then []
    else
      (match files[0]
       case Leaf(_) => [files[0]]
       case Dir(_, children) => Leaves(children))
      + Leaves(files[1..])
  }
}

/** con_inside_floating: the floating container a container is in. */
module Floating {
  import opened Containers

  /** What the search meets on its way up. */
  datatype Stop = Floating | Grounded | Climb

  ghost function StopAt(c: Con): Stop
    reads c`ty, c`floating
  {
    if c.ty == FloatingCon || c.floating then Floating
    else if c.ty == Workspace || c.ty == Output then Grounded
    else Climb
  }

  /** The CT_FLOATING_CON itself, or the one around a window that floats. */
  ghost function FoundAt(c: Con): Con?
    reads c`ty, c`floating, c`parent
  {
    if c.ty == FloatingCon then c else if c.floating then c.parent else null
  }

  /** `path` is the way up from `c`, to the first container that settles the
    * question or to the top of the tree. */
  ghost predicate Climbing(path: seq<Con>, c: Con?)
    reads path`ty, path`floating, path`parent
  {
    && (path == [] <==> c == null)
    && (path != [] ==> path[0] == c && (StopAt(path[|path| - 1]) != Climb || path[|path| - 1].parent == null))
    && (forall i {:trigger path[i]} :: 0 <= i < |path| - 1 ==>
       StopAt(path[i]) == Climb && path[i].parent == path[i + 1])
  }

  method ConInsideFloating(con: Con?, ghost path: seq<Con>) returns (r: Con?)
    requires Climbing(path, con)
    ensures r == if path == [] then null else FoundAt(path[|path| - 1])
    decreases |path|
  {
    if con == null {
      return null;
    }
    if con.ty == FloatingCon {
      return con;
    }
    if con.floating {
      return con.parent;
    }
    if con.ty == Workspace || con.ty == Output {
      return null;
    }
    r := ConInsideFloating(con.parent, path[1..]);
  }
}

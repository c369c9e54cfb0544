/**
 * Named PostScript procedures (`Procedure` and `ProcedureRegistry` of
 * src/lib.rs), the two built-in path procedures, and what those bodies do
 * to the operand stack and the current path when a shape calls them.
 */
module Procedures {
  import opened Wrappers
  import opened Graphics

  /** A named markup fragment, defined once in the document prologue. */
  datatype Procedure = Procedure(name: string, body: string)

  /** The path-construction operators the built-in bodies are made of. */
  datatype PathOp = Newpath | Moveto | Rlineto | Closepath

  function Word(op: PathOp): string {
    match op
    case Newpath => "newpath"
    case Moveto => "moveto"
    case Rlineto => "rlineto"
    case Closepath => "closepath"
  }

  function Words(ops: seq<PathOp>): string {
    if ops == [] then "" else " " + Word(ops[0]) + Words(ops[1..])
  }

  /** `/name { op op ... } def`, the text of a procedure definition (layout whitespace not modelled). */
  function Definition(name: string, ops: seq<PathOp>): string {
    "/" + name + " {" + Words(ops) + " } def"
  }

  /** The body of the built-in `rect`: a move and four relative lines, closed. */
  const RectOps: seq<PathOp> := [Newpath, Moveto, Rlineto, Rlineto, Rlineto, Rlineto, Closepath]

  /** The body of the built-in `line`: a move and one relative line, closed. */
  const LineOps: seq<PathOp> := [Newpath, Moveto, Rlineto, Closepath]

  const RectProcedure: Procedure := Procedure("rect", Definition("rect", RectOps))

  const LineProcedure: Procedure := Procedure("line", Definition("line", LineOps))

  const BuiltinNames: set<string> := {"rect", "line"}

  /** Operand stack (top last) and the current path of the interpreter. */
  datatype PathState = PathState(operands: seq<real>, points: seq<Point>, closed: bool)

  /**
   * One path operator. `moveto` pops y then x; `rlineto` pops dy then dx and
   * draws from the current point. Popping an empty stack, or `rlineto`
   * without a current point, is a PostScript error (None). Only the single
   * subpath the built-ins build is modelled: `moveto` starts the path afresh.
   */
  function Exec(op: PathOp, s: PathState): Option<PathState> {
    var n := |s.operands|;
    match op
    case Newpath => Some(PathState(s.operands, [], false))
    case Moveto =>
      if n < 2 then None
      else Some(PathState(s.operands[..n - 2], [Point(s.operands[n - 2], s.operands[n - 1])], false))
    case Rlineto =>
      if n < 2 || s.points == [] then None
      else
        var last := s.points[|s.points| - 1];
        Some(PathState(s.operands[..n - 2],
                       s.points + [Point(last.x + s.operands[n - 2], last.y + s.operands[n - 1])],
                       s.closed))
    case Closepath => if s.points == [] then Some(s) else Some(s.(closed := true))
  }

  function Run(ops: seq<PathOp>, s: PathState): Option<PathState> {
    if ops == [] then Some(s)
    else match Exec(ops[0], s)
      case None => None
      case Some(t) => Run(ops[1..], t)
  }

  /** Calling a procedure whose body is `ops` with `operands` already pushed. */
  function Invoke(ops: seq<PathOp>, operands: seq<real>): Option<PathState> {
    Run(ops, PathState(operands, [], false))
  }

  /** A name-to-procedure map; the last procedure added under a name wins. */
  class ProcedureRegistry {
    var procedures: map<string, Procedure>

    /** Every entry is stored under its own name. */
    ghost predicate Valid()
      reads this
    {
      forall name :: name in procedures ==> procedures[name].name == name
    }

    constructor ()
      ensures Valid() && procedures == map[]
    {
      procedures := map[];
    }

    /** Looks a procedure up by its exact name. */
    function GetProcedure(name: string): (found: Option<Procedure>)
      reads this
      requires Valid()
      ensures found.None? <==> name !in procedures
      ensures found.Some? ==> found.value.name == name && found.value in procedures.Values
    {
      if name in procedures then Some(procedures[name]) else None
    }

    /** The stored procedures, one per distinct name, in no particular order. */
    function ListProcedures(): (list: set<Procedure>)
      reads this
      requires Valid()
      ensures forall p :: p in list <==> p.name in procedures && procedures[p.name] == p
      ensures |list| == |procedures|
    {
      ValuesNamedByKeys(procedures);
      procedures.Values
    }

    method AddProcedure(procedure: Procedure)
      requires Valid()
      modifies this
      ensures Valid()
      ensures procedures == old(procedures)[procedure.name := procedure]
      ensures GetProcedure(procedure.name) == Some(procedure)
      ensures forall name :: name != procedure.name ==> GetProcedure(name) == old(GetProcedure(name))
      ensures |procedures| == if procedure.name in old(procedures) then old(|procedures|) else old(|procedures|) + 1
    {
      procedures := procedures[procedure.name := procedure];
    }

    /** A registry holding exactly the built-in `rect` and `line` procedures. */
    static method WithBuiltins() returns (registry: ProcedureRegistry)
      ensures fresh(registry) && registry.Valid()
      ensures registry.procedures.Keys == BuiltinNames
      ensures registry.GetProcedure("rect") == Some(RectProcedure)
      ensures registry.GetProcedure("line") == Some(LineProcedure)
      ensures registry.ListProcedures() == {RectProcedure, LineProcedure}
    {
      registry := new ProcedureRegistry();
      registry.AddProcedure(RectProcedure);
      registry.AddProcedure(LineProcedure);
    }
  }

  /** When every entry carries its key as its name, there are as many values as keys. */
  lemma {:induction false} ValuesNamedByKeys(m: map<string, Procedure>)
    requires forall name :: name in m ==> m[name].name == name
    ensures |m.Values| == |m.Keys|
    decreases |m|
  {
    if m != map[] {
      var k :| k in m;
      var rest := m - {k};
      assert rest.Keys == m.Keys - {k};
      ValuesNamedByKeys(rest);
      assert m.Values == rest.Values + {m[k]} by {
        forall v | v in m.Values ensures v in rest.Values + {m[k]} {
          var j :| j in m && m[j] == v;
          if j != k { assert j in rest; }
        }
      }
      assert m[k] !in rest.Values;
    }
  }
}

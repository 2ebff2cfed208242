/** The visitors of `pygdbmi/visitors.py`: the dispatch of `BaseVisitor` through
    its table of handlers, the `Indenter` of the pretty-printer, and
    `PrettyPrintVisitor`, which writes a tree to an append-only sink.

    `Render` is the specification of the pretty-printer: the text a visit
    writes and whether it completes. The printer's methods are proved against
    it, and the lemmas below state the layout it produces. */
module Visitors {
  import opened Wrappers
  import opened Syntax

  // ---------------------------------------------------------------------------
  // Dispatch
  // ---------------------------------------------------------------------------

  /** How a visit ends: it completes, or it reaches a node whose type has no
      entry in the dispatch table and the lookup raises `KeyError`. */
  datatype Status = Completed | KeyError(key: NodeType)

  /** The six handlers a visitor registers. */
  datatype Handler =
    | ResultRecordHandler
    | ResultHandler
    | ValueHandler
    | CStringHandler
    | ListHandler
    | TupleHandler

  /** The table `_visit_fns` every visitor builds in its constructor. */
  const VisitFns: map<NodeType, Handler> := map[
    ResultRecordType := ResultRecordHandler,
    ResultType := ResultHandler,
    ValueType := ValueHandler,
    CStringType := CStringHandler,
    ListType := ListHandler,
    TupleType := TupleHandler
  ]

  /** The handler `h` is the one written for nodes of the kind of `n`. */
  predicate Handles(h: Handler, n: Node) {
    match h
    case ResultRecordHandler => n.ResultRecord?
    case ResultHandler => n.Result?
    case ValueHandler => n.Value?
    case CStringHandler => n.CString?
    case ListHandler => n.List?
    case TupleHandler => n.Tuple?
  }

  /** Looking up the runtime type of a node finds exactly the handler for its
      kind, and fails for every type outside the six node classes. */
  lemma DispatchExact(n: Node)
    ensures TypeOf(n) in VisitFns <==> !n.Foreign?
    ensures TypeOf(n) in VisitFns ==> Handles(VisitFns[TypeOf(n)], n)
  {
  }

  /** A visitor whose handlers are all the defaults, which do nothing. It has
      no state, so a visit changes nothing; it only fails on an unknown type. */
  class BaseVisitor {

    constructor ()
    {
    }

    method Visit(n: Node) returns (status: Status)
      ensures status == (if TypeOf(n) in VisitFns then Completed else KeyError(TypeOf(n)))
    {
      var t := TypeOf(n);
      if t !in VisitFns {
        return KeyError(t);
      }
      DispatchExact(n);
      match VisitFns[t] {
        case ResultRecordHandler => VisitResultRecord(n);
        case ResultHandler => VisitResult(n);
        case ValueHandler => VisitValue(n);
        case CStringHandler => VisitCString(n);
        case ListHandler => VisitList(n);
        case TupleHandler => VisitTuple(n);
      }
      status := Completed;
    }

    method VisitResult(n: Node)
    {
    }

    method VisitResultRecord(n: Node)
    {
    }

    method VisitValue(n: Node)
    {
    }

    method VisitCString(n: Node)
    {
    }

    method VisitList(n: Node)
    {
    }

    method VisitTuple(n: Node)
    {
    }
  }

  // ---------------------------------------------------------------------------
  // Indentation
  // ---------------------------------------------------------------------------

  /** What the indenter returns at `level`: two spaces per level. Python's
      `'  ' * k` is the empty string for `k <= 0`. */
  function Indent(level: int): (s: string)
    ensures |s| == if level <= 0 then 0 else 2 * level
    decreases level
  {
    if level <= 0 then "" else "  " + Indent(level - 1)
  }

  /** Every character of an indentation is a space. */
  lemma {:induction false} IndentIsTwoSpacesPerLevel(level: int)
    ensures forall i :: 0 <= i < |Indent(level)| ==> Indent(level)[i] == ' '
    decreases level
  {
    if level > 0 {
      IndentIsTwoSpacesPerLevel(level - 1);
    }
  }

  /** The indentation counter of the pretty-printer, raised on entry to a
      `with` block and lowered on every exit from it. */
  class Indenter {
    var level: int

    constructor ()
      ensures level == 0
    {
      level := 0;
    }

    method Enter()
      modifies this
      ensures level == old(level) + 1
    {
      level := level + 1;
    }

    method Exit()
      modifies this
      ensures level == old(level) - 1
    {
      level := level - 1;
    }

    method Call() returns (s: string)
      ensures s == Indent(level)
    {
      s := Indent(level);
    }
  }

  // ---------------------------------------------------------------------------
  // Specification of the pretty-printer
  // ---------------------------------------------------------------------------

  /** What a visit writes to the sink, and how it ends. A visit that raises has
      already written the text before the failing node. */
  datatype Emit = Emit(text: string, status: Status)

  function Prepend(prefix: string, e: Emit): Emit {
    Emit(prefix + e.text, e.status)
  }

  /** Text written after a block only when the block completed. */
  function Close(e: Emit, suffix: string): Emit {
    if e.status == Completed then Emit(e.text + suffix, Completed) else e
  }

  /** What follows the child at index `i` of a container. */
  function Separator(n: Node, i: nat): string {
    if i == |Children(n)| - 1 then "\n" else ",\n"
  }

  /** What visiting `n` writes when the indenter stands at `level`. */
  function Render(n: Node, level: int): Emit
    decreases n, 1
  {
    match n
    case ResultRecord(resultClass, results) =>
      var maybeComma := if |results| > 0 then "," else "";
      Prepend("^" + resultClass + maybeComma + "\n", RenderChildren(n, 0, level + 1))
    case Result(name, value) =>
      Prepend(Indent(level) + name + " = ", Render(value, level))
    case Value(inner) =>
      Render(inner, level)
    case CString(text) =>
      Emit("\"" + text + "\"", Completed)
    case List(_) =>
      Close(Prepend("[\n", RenderChildren(n, 0, level + 1)), Indent(level) + "]")
    case Tuple(_) =>
      Close(Prepend("{\n", RenderChildren(n, 0, level + 1)), Indent(level) + "}")
    case Foreign(_) =>
      Emit("", KeyError(TypeOf(n)))
  }

  /** What the loop over the children of `n` writes from index `i` on, each
      child followed by its separator; the first failing child stops it. */
  function RenderChildren(n: Node, i: nat, level: int): Emit
    requires i <= |Children(n)|
    decreases n, 0, |Children(n)| - i
  {
    if i == |Children(n)| then
      Emit("", Completed)
    else
      var e := Render(Children(n)[i], level);
      if e.status != Completed then e
      else Prepend(e.text + Separator(n, i), RenderChildren(n, i + 1, level))
  }

  /** One turn of the loop over the children: the child at `i` either
      completes and is followed by its separator, or ends the loop. */
  lemma ChildStep(n: Node, i: nat, level: int, written: string)
    requires i < |Children(n)|
    ensures var e := Render(Children(n)[i], level);
      Prepend(written, RenderChildren(n, i, level))
      == if e.status == Completed
         then Prepend(written + e.text + Separator(n, i), RenderChildren(n, i + 1, level))
         else Emit(written + e.text, e.status)
  {
    var e := Render(Children(n)[i], level);
    if e.status == Completed {
      var rest := RenderChildren(n, i + 1, level);
      assert written + (e.text + Separator(n, i) + rest.text)
          == written + e.text + Separator(n, i) + rest.text;
    }
  }

  // ---------------------------------------------------------------------------
  // Properties of the layout
  // ---------------------------------------------------------------------------

  /** `",\n".join(parts)`. */
  function Join(parts: seq<string>): string
    requires |parts| > 0
  {
    if |parts| == 1 then parts[0]
    else Join(parts[..|parts| - 1]) + ",\n" + parts[|parts| - 1]
  }

  /** The block of lines between a container's opening and its closing text:
      the parts joined by `,\n` and ended by `\n`, or nothing at all. */
  function Block(parts: seq<string>): string {
    if parts == [] then "" else Join(parts) + "\n"
  }

  /** The texts of the children of `n`, each rendered at `level`. */
  function ChildTexts(n: Node, level: int): seq<string> {
    seq(|Children(n)|, i requires 0 <= i < |Children(n)| => Render(Children(n)[i], level).text)
  }

  predicate ChildrenComplete(n: Node, level: int) {
    forall i :: 0 <= i < |Children(n)| ==> Render(Children(n)[i], level).status == Completed
  }

  lemma {:induction false} JoinCons(a: string, parts: seq<string>)
    requires |parts| > 0
    ensures Join([a] + parts) == a + ",\n" + Join(parts)
    decreases |parts|
  {
    var all := [a] + parts;
    if |parts| > 1 {
      assert all[..|all| - 1] == [a] + parts[..|parts| - 1];
      JoinCons(a, parts[..|parts| - 1]);
    }
  }

  /** A block with one more part in front: the new part is followed by `\n`
      when it is the only one and by `,\n` otherwise. */
  lemma BlockCons(first: string, rest: seq<string>)
    ensures Block([first] + rest) == first + (if rest == [] then "\n" else ",\n") + Block(rest)
  {
    if rest == [] {
      assert [first] + rest == [first];
    } else {
      JoinCons(first, rest);
    }
  }

  /** When every child completes, the loop writes the children's texts joined
      by `,\n`, the last one followed by `\n`. */
  lemma {:induction false} ChildrenLayout(n: Node, i: nat, level: int)
    requires i <= |Children(n)|
    requires ChildrenComplete(n, level)
    ensures RenderChildren(n, i, level) == Emit(Block(ChildTexts(n, level)[i..]), Completed)
    decreases |Children(n)| - i
  {
    if i < |Children(n)| {
      var texts := ChildTexts(n, level);
      var e := Render(Children(n)[i], level);
      assert e.status == Completed && e.text == texts[i];
      ChildrenLayout(n, i + 1, level);
      assert texts[i..] == [texts[i]] + texts[i + 1..];
      BlockCons(texts[i], texts[i + 1..]);
      assert Separator(n, i) == if texts[i + 1..] == [] then "\n" else ",\n";
    }
  }

  /** The whole output of a result record, a list or a tuple whose children
      all complete: its opening line, the block of children one level deeper,
      and for a list or a tuple the closing bracket at the container's own
      indentation. An empty container writes nothing between the two. */
  lemma ContainerLayout(n: Node, level: int)
    requires ChildrenComplete(n, level + 1)
    ensures n.ResultRecord? ==>
      Render(n, level) == Emit("^" + n.resultClass + (if |n.results| > 0 then "," else "") + "\n"
                               + Block(ChildTexts(n, level + 1)), Completed)
    ensures n.List? ==>
      Render(n, level) == Emit("[\n" + Block(ChildTexts(n, level + 1)) + Indent(level) + "]", Completed)
    ensures n.Tuple? ==>
      Render(n, level) == Emit("{\n" + Block(ChildTexts(n, level + 1)) + Indent(level) + "}", Completed)
  {
    ChildrenLayout(n, 0, level + 1);
    assert ChildTexts(n, level + 1)[0..] == ChildTexts(n, level + 1);
  }

  /** The type name of the first node, in visiting order, that has no handler. */
  function FirstUnregistered(n: Node): Option<string>
    decreases n, 1
  {
    match n
    case Foreign(t) => Some(t)
    case CString(_) => None
    case Value(inner) => FirstUnregistered(inner)
    case Result(_, value) => FirstUnregistered(value)
    case _ => FirstUnregisteredFrom(n, 0)
  }

  function FirstUnregisteredFrom(n: Node, i: nat): Option<string>
    requires i <= |Children(n)|
    decreases n, 0, |Children(n)| - i
  {
    if i == |Children(n)| then None
    else if FirstUnregistered(Children(n)[i]).Some? then FirstUnregistered(Children(n)[i])
    else FirstUnregisteredFrom(n, i + 1)
  }

  function StatusOf(missing: Option<string>): Status {
    if missing.None? then Completed else KeyError(OtherType(missing.value))
  }

  /** A visit completes if and only if every node it reaches has a handler;
      otherwise it raises `KeyError` for the first node that has none. */
  lemma {:induction false} RenderStatus(n: Node, level: int)
    ensures Render(n, level).status == StatusOf(FirstUnregistered(n))
    decreases n, 1
  {
    match n
    case Foreign(_) =>
    case CString(_) =>
    case Value(inner) => RenderStatus(inner, level);
    case Result(_, value) => RenderStatus(value, level);
    case ResultRecord(_, _) => RenderChildrenStatus(n, 0, level + 1);
    case List(_) => RenderChildrenStatus(n, 0, level + 1);
    case Tuple(_) => RenderChildrenStatus(n, 0, level + 1);
  }

  lemma {:induction false} RenderChildrenStatus(n: Node, i: nat, level: int)
    requires i <= |Children(n)|
    ensures RenderChildren(n, i, level).status == StatusOf(FirstUnregisteredFrom(n, i))
    decreases n, 0, |Children(n)| - i
  {
    if i < |Children(n)| {
      RenderStatus(Children(n)[i], level);
      RenderChildrenStatus(n, i + 1, level);
    }
  }

  // ---------------------------------------------------------------------------
  // The pretty-printer
  // ---------------------------------------------------------------------------

  /** Writes a tree to `out` in the layout of `Render`. Every handler leaves
      the indenter where it found it, whether the visit completes or raises. */
  class PrettyPrintVisitor {
    var out: seq<char>
    const indent: Indenter

    /** The indentation never goes below zero: every `with` block that raised
        the level has lowered it again, and no more. */
    predicate Valid()
      reads indent
    {
      indent.level >= 0
    }

    constructor ()
      ensures out == [] && fresh(indent) && indent.level == 0
      ensures Valid()
    {
      out := [];
      indent := new Indenter();
    }

    method Visit(n: Node) returns (status: Status)
      modifies this, indent
      requires Valid()
      ensures Valid()
      decreases n, 3
      ensures indent.level == old(indent.level)
      ensures out == old(out) + Render(n, old(indent.level)).text
      ensures status == Render(n, old(indent.level)).status
    {
      var t := TypeOf(n);
      if t !in VisitFns {
        return KeyError(t);
      }
      DispatchExact(n);
      match VisitFns[t]
      case ResultRecordHandler => status := VisitResultRecord(n);
      case ResultHandler => status := VisitResult(n);
      case ValueHandler => status := VisitValue(n);
      case CStringHandler => status := VisitCString(n);
      case ListHandler => status := VisitList(n);
      case TupleHandler => status := VisitTuple(n);
    }

    method VisitResultRecord(n: Node) returns (status: Status)
      requires n.ResultRecord?
      modifies this, indent
      requires Valid()
      ensures Valid()
      decreases n, 2
      ensures indent.level == old(indent.level)
      ensures out == old(out) + "^" + n.resultClass + (if |n.results| > 0 then "," else "") + "\n"
                    + RenderChildren(n, 0, old(indent.level) + 1).text
      ensures status == RenderChildren(n, 0, old(indent.level) + 1).status
      ensures out == old(out) + Render(n, old(indent.level)).text
      ensures status == Render(n, old(indent.level)).status
    {
      var maybeComma := if |n.results| > 0 then "," else "";
      out := out + "^" + n.resultClass + maybeComma + "\n";
      status := VisitChildren(n);
    }

    method VisitResult(n: Node) returns (status: Status)
      requires n.Result?
      modifies this, indent
      requires Valid()
      ensures Valid()
      decreases n, 2
      ensures indent.level == old(indent.level)
      ensures out == old(out) + Indent(old(indent.level)) + n.name + " = "
                    + Render(n.value, old(indent.level)).text
      ensures status == Render(n.value, old(indent.level)).status
      ensures out == old(out) + Render(n, old(indent.level)).text
      ensures status == Render(n, old(indent.level)).status
    {
      var ind := indent.Call();
      out := out + ind + n.name + " = ";
      status := Visit(n.value);
    }

    method VisitValue(n: Node) returns (status: Status)
      requires n.Value?
      modifies this, indent
      requires Valid()
      ensures Valid()
      decreases n, 2
      ensures indent.level == old(indent.level)
      ensures out == old(out) + Render(n.inner, old(indent.level)).text
      ensures status == Render(n.inner, old(indent.level)).status
      ensures out == old(out) + Render(n, old(indent.level)).text
      ensures status == Render(n, old(indent.level)).status
    {
      status := Visit(n.inner);
    }

    method VisitCString(n: Node) returns (status: Status)
      requires n.CString?
      modifies this
      requires Valid()
      ensures Valid()
      decreases n, 2
      ensures out == old(out) + "\"" + n.text + "\""
      ensures status == Completed
      ensures out == old(out) + Render(n, old(indent.level)).text
    {
      out := out + "\"" + n.text + "\"";
      status := Completed;
    }

    method VisitList(n: Node) returns (status: Status)
      requires n.List?
      modifies this, indent
      requires Valid()
      ensures Valid()
      decreases n, 2
      ensures indent.level == old(indent.level)
      ensures out == old(out) + Render(n, old(indent.level)).text
      ensures status == Render(n, old(indent.level)).status
    {
      ghost var level := indent.level;
      ghost var head := out + "[\n";
      out := out + "[\n";
      status := VisitChildren(n);
      ghost var block := RenderChildren(n, 0, level + 1);
      assert Render(n, level) == Close(Prepend("[\n", block), Indent(level) + "]");
      if status == Completed {
        var ind := indent.Call();
        out := out + ind;
        out := out + "]";
        assert out == head + block.text + (Indent(level) + "]");
      }
    }

    method VisitTuple(n: Node) returns (status: Status)
      requires n.Tuple?
      modifies this, indent
      requires Valid()
      ensures Valid()
      decreases n, 2
      ensures indent.level == old(indent.level)
      ensures out == old(out) + Render(n, old(indent.level)).text
      ensures status == Render(n, old(indent.level)).status
    {
      ghost var level := indent.level;
      ghost var head := out + "{\n";
      out := out + "{\n";
      status := VisitChildren(n);
      ghost var block := RenderChildren(n, 0, level + 1);
      assert Render(n, level) == Close(Prepend("{\n", block), Indent(level) + "}");
      if status == Completed {
        var ind := indent.Call();
        out := out + ind;
        out := out + "}";
        assert out == head + block.text + (Indent(level) + "}");
      }
    }

    /** The `with self._indent:` block of a result record, a list or a tuple:
        visit each child one level deeper and write its separator, `,\n`
        after all but the last and `\n` after the last. A failing child ends
        the loop, and the indenter is lowered on that path too. */
    method VisitChildren(n: Node) returns (status: Status)
      modifies this, indent
      requires Valid()
      ensures Valid()
      decreases n, 1
      ensures indent.level == old(indent.level)
      ensures out == old(out) + RenderChildren(n, 0, old(indent.level) + 1).text
      ensures status == RenderChildren(n, 0, old(indent.level) + 1).status
    {
      indent.Enter();
      ghost var level := indent.level;
      ghost var goal := Prepend(out, RenderChildren(n, 0, level));
      var children := Children(n);
      status := Completed;
      var i := 0;
      while i < |children| && status == Completed
        invariant 0 <= i <= |children|
        invariant indent.level == level >= 1
        invariant status == Completed ==> goal == Prepend(out, RenderChildren(n, i, level))
        invariant status != Completed ==> goal == Emit(out, status)
        decreases |children| - i
      {
        ChildStep(n, i, level, out);
        status := Visit(children[i]);
        if status == Completed {
          if i == |children| - 1 {
            out := out + "\n";
          } else {
            out := out + ",\n";
          }
        }
        i := i + 1;
      }
      indent.Exit();
    }
  }

  /** A fresh printer visiting one tree: it starts at level 0, writes the
      rendering at level 0, and is back at level 0 afterwards. */
  method PrettyPrint(n: Node) returns (text: string, status: Status, finalLevel: int)
    ensures text == Render(n, 0).text
    ensures status == Render(n, 0).status
    ensures finalLevel == 0
  {
    var printer := new PrettyPrintVisitor();
    status := printer.Visit(n);
    text := printer.out;
    finalLevel := printer.indent.level;
  }
}

/** The syntax-tree nodes the visitors walk.

    The parser that builds these trees is not part of this model; the fields are
    exactly the attributes the visitors read: `result_class` and `results` of a
    result record, `variable.name` and `value` of a result, `value` of a value
    wrapper and of a c-string, and `elements` of a list or a tuple. */
module Syntax {

  /** A node of the tree. Python does not constrain what a container holds, so
      every child is again a `Node`. `Foreign` stands for an object of any type
      other than the six node classes; the visitors have no handler for it. */
  datatype Node =
    | ResultRecord(resultClass: string, results: seq<Node>)
    | Result(name: string, value: Node)
    | Value(inner: Node)
    | CString(text: string)
    | List(elements: seq<Node>)
    | Tuple(elements: seq<Node>)
    | Foreign(typeName: string)

  /** The runtime type of a node, the key of the visitors' dispatch table. */
  datatype NodeType =
    | ResultRecordType
    | ResultType
    | ValueType
    | CStringType
    | ListType
    | TupleType
    | OtherType(name: string)

  function TypeOf(n: Node): NodeType {
    match n
    case ResultRecord(_, _) => ResultRecordType
    case Result(_, _) => ResultType
    case Value(_) => ValueType
    case CString(_) => CStringType
    case List(_) => ListType
    case Tuple(_) => TupleType
    case Foreign(t) => OtherType(t)
  }

  /** The children a container visits in a loop, in order: the results of a
      result record, the elements of a list or a tuple; none for other nodes. */
  function Children(n: Node): (kids: seq<Node>)
    ensures forall i :: 0 <= i < |kids| ==> kids[i] < n
  {
    match n
    case ResultRecord(_, rs) => rs
    case List(es) => es
    case Tuple(es) => es
    case _ => []
  }
}

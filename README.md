# pygdbmi visitors and record objects, in Dafny

This project models two parts of pygdbmi, a library for GDB's machine interface
(GDB/MI) output.

- The visitors (`pygdbmi/visitors.py`). `BaseVisitor` dispatches on the runtime
  type of a syntax-tree node through its `_visit_fns` table. Its default
  handlers do nothing. `PrettyPrintVisitor` writes a tree to an output sink in
  the GDB/MI surface syntax. It keeps one indentation counter, the `Indenter`,
  which goes up on entry to every `with` block and down on every exit from it.
- The semantic record objects (`pygdbmi/objects.py`). These are the result,
  stream, exec, status and notify async records and the `StopReason`
  enumeration.

Files:

- `syntax.dfy` (module `Syntax`): the tree the visitors walk, `Node`. It has one
  constructor per node class the visitors register: ResultRecord, Result, Value,
  CString, List and Tuple. Its fields are the attributes the visitors read. One
  more constructor, `Foreign`, stands for an object of any other type.
- `visitors.dfy` (module `Visitors`): the dispatch table `VisitFns`, the
  `BaseVisitor`, `Indenter` and `PrettyPrintVisitor` classes, the
  specification `Render(node, level)` of what a visit writes, and the lemmas
  about that layout. The printer keeps its sink as an append-only `out: seq<char>`
  field. Each of its methods is proved to append exactly `Render(...).text`, to
  end with the status `Render` predicts, and to leave the indenter at the level
  where it found it. This holds on the `KeyError` path too. The printer's `Valid` predicate says the level is never negative; the
  constructor establishes it and every visit method keeps it.
- `objects.dfy` (module `Objects`): the records as nested datatypes, the
  `StopReason` values, `AllThreadsStopped`, and the class hierarchy (`Base` and
  `Mro`), which is used to state which category each record belongs to.
- `wrappers.dfy` (module `Wrappers`): `Option`.

Layout facts of the code that the model keeps:

- `objects.py` declares ten notify async records (`pygdbmi/objects.py:154-266`):
  thread group added, removed, started and exited; thread created, exited and
  selected; record started and stopped; and cmd-param changed. All ten are
  modelled.
- `visit_result_record` writes `^class`, then `,` only when there are results,
  then a newline, and then each result on its own indented line
  (`pygdbmi/visitors.py:111-123`). This is not the one-line `^class,results`
  form of the "GDB/MI Output Syntax" section of the GDB manual; the model
  follows the code.
- Only a `Result` writes indentation. Bare values inside a list start at
  column 0, but the list's closing bracket is indented. The model keeps this.
- A c-string is written between quotes exactly as it is, without escaping
  anything again.

## Model

| member | source | states |
|---|---|---|
| `Visitors.DispatchExact` | pygdbmi/visitors.py:57-67 | The type of a node is in the dispatch table if and only if the node is one of the six node kinds. When it is, the table gives the handler written for that kind. |
| `Visitors.BaseVisitor.Visit` | pygdbmi/visitors.py:66-85 | A plain `BaseVisitor` changes no state, because its handlers are no-ops. Its visit completes for the six registered types and raises `KeyError(type)` for any other type. |
| `Visitors.Indenter.constructor` | pygdbmi/visitors.py:91-92 | A new indenter starts at level 0. |
| `Visitors.Indenter.Enter` | pygdbmi/visitors.py:94-95 | `__enter__` raises the level by one. |
| `Visitors.Indenter.Exit` | pygdbmi/visitors.py:97-98 | `__exit__` lowers the level by one. |
| `Visitors.Indenter.Call` | pygdbmi/visitors.py:100-101 | Calling the indenter returns `Indent(level)` and changes nothing. |
| `Visitors.Indent` | pygdbmi/visitors.py:100-101 | The indentation at `level` has length `2*level`. It is empty for a level of 0 or less, as Python's `'  ' * k` is. |
| `Visitors.IndentIsTwoSpacesPerLevel` | pygdbmi/visitors.py:100-101 | Every character of `Indent(level)` is a space. Together with `Indent`'s contract, the indentation is exactly `'  ' * level`. |
| `Visitors.ChildStep` | pygdbmi/visitors.py:118-123 | One turn of a container's loop: either the child completes and its separator follows, or the child's failure ends the loop after the text it wrote. |
| `Visitors.ChildrenLayout` | pygdbmi/visitors.py:138-143 | When every child completes, the loop writes the children's texts joined by `,\n`, with the last one followed by `\n`. For no children it writes nothing. |
| `Visitors.ContainerLayout` | pygdbmi/visitors.py:111-157 | A result record writes `^` + class, then `,` if and only if it has results, then `\n`, then its children's block one level deeper. A list writes `[\n`, its block, and the restored indent + `]`. A tuple does the same with `{` and `}`. |
| `Visitors.RenderStatus` | pygdbmi/visitors.py:66-67 | A visit completes if and only if no node it reaches has an unregistered type. Otherwise it raises `KeyError` for the first such node in visiting order. |
| `Visitors.RenderChildrenStatus` | pygdbmi/visitors.py:117-123 | The children's loop stops with the error of the first child whose subtree holds an unregistered node, and completes when there is none. |
| `Visitors.PrettyPrintVisitor.constructor` | pygdbmi/visitors.py:103-106 | A new printer has an empty sink and a fresh indenter at level 0, so its level is not negative (`Valid`). |
| `Visitors.PrettyPrintVisitor.Visit` | pygdbmi/visitors.py:66-67 | Dispatches through `VisitFns`, raises `KeyError` for an unregistered type, appends `Render(n, level)` to the sink, and restores the indent level. Every visit method requires and keeps a non-negative level (`Valid`). |
| `Visitors.PrettyPrintVisitor.VisitResultRecord` | pygdbmi/visitors.py:111-123 | Appends `^` + class + (`,` if and only if there are results) + `\n`, then the children at level + 1. The level is restored. |
| `Visitors.PrettyPrintVisitor.VisitResult` | pygdbmi/visitors.py:125-127 | Appends the current indent + name + ` = `, then the value's rendering at the same level. |
| `Visitors.PrettyPrintVisitor.VisitValue` | pygdbmi/visitors.py:129-130 | A value wrapper writes exactly what its inner node writes. |
| `Visitors.PrettyPrintVisitor.VisitCString` | pygdbmi/visitors.py:132-133 | Appends the text between double quotes, verbatim. |
| `Visitors.PrettyPrintVisitor.VisitList` | pygdbmi/visitors.py:135-145 | Appends `[\n`, the elements one level deeper, and then, only if they completed, the restored indent + `]`. The level is restored on both paths. |
| `Visitors.PrettyPrintVisitor.VisitTuple` | pygdbmi/visitors.py:147-157 | Appends `{\n`, the elements one level deeper, and then, only if they completed, the restored indent + `}`. The level is restored on both paths. |
| `Visitors.PrettyPrintVisitor.VisitChildren` | pygdbmi/visitors.py:137-143 | The `with self._indent:` loop raises the level, writes each child followed by `,\n` (or `\n` after the last), stops at a failing child, and lowers the level again on every path. Inside the block the level is at least 1, so it never goes negative. |
| `Visitors.PrettyPrint` | pygdbmi/visitors.py:103-106 | A fresh printer visiting one tree writes `Render(n, 0)` with its status, and returns its final level, which is 0 again. |
| `Objects.StopReasonValue` | pygdbmi/objects.py:105-124 | Every member's value is below 18. |
| `Objects.StopReasonMembers` | pygdbmi/objects.py:105-124 | There are exactly 18 members. The member at position `i` in declaration order has value `i`, and every member appears at the position of its value. |
| `Objects.StopReasonOf` | pygdbmi/objects.py:105-124 | `StopReason(v)` finds a member if and only if `0 <= v < 18` (otherwise Python raises `ValueError`), and the member found has the value asked for. |
| `Objects.StopReasonRoundTrip` | pygdbmi/objects.py:105-124 | `StopReason(value(r)) == r` for every member `r`. |
| `Objects.StopReasonValuesDistinct` | pygdbmi/objects.py:105 | Two members have the same value if and only if they are the same member (`@enum.unique`). |
| `Objects.AllThreadsStopped` | pygdbmi/objects.py:146-147 | `all_threads_stopped()` holds only when the stored ids are the string `'all'`; for a list, `None` or an integer it is false. |
| `Objects.AllThreadsStoppedOnlyForSentinel` | pygdbmi/objects.py:146-147 | `all_threads_stopped()` is true if and only if the stored ids are the string `'all'`. It is false for any explicit list, including an empty one, and for any other string. |
| `Objects.PropertiesReturnArguments` | pygdbmi/objects.py:38-266 | Every property returns the argument its constructor stored, for example `msg`/`code`, the stream `text`, the four fields of a stopped record, and the fields of each notify variant. |
| `Objects.MroFollowsBase` | pygdbmi/objects.py:26-255 | Each class's resolution order starts at the class, follows the base named in each class statement, and ends at a class that derives from `object`. |
| `Objects.CategoryMembership` | pygdbmi/objects.py:26-255 | `isinstance` against the declared hierarchy agrees with the datatype nesting. Running and Stopped are exec async records, the ten notify variants are notify async records, the four result records are result records, and the stream records are stream records. |

## Left out

- The parser module (`pygdbmi.parser`) is not part of this model. That covers line scanning, escape decoding, record classification, building records from a syntax tree, and mapping wire strings to `StopReason`. The node datatype keeps only the fields the visitors read. So the claim that printed output parses back to the same tree is not modelled.
- The commented-out `GenerateObjectsVisitor` is a string literal, not code, and is not modelled.
- The `_indent` method of `PrettyPrintVisitor` is shadowed by the instance attribute of the same name, so it is never called. It is not modelled.
- Output I/O: the `outfile` sink (by default `sys.stdout`) is the `out` field, which starts empty and is only ever appended to.
- Bare instances of the base classes are not modelled: `ResultRecord()`, `StreamRecord(text)` (which stores `text` and exposes it, `pygdbmi/objects.py:56-62`), `AsyncRecord()`, `ExecAsyncOutput()` and `NotifyAsyncOutput()`. Only the concrete subclasses are datatype constructors. The base classes are kept as classes in `PyClass` for the category statements. `StatusAsyncOutput` has no subclasses and is modelled as a record of its own.
- Python's `enum` machinery beyond the member set, the values and value lookup (names, iteration, aliases) is not modelled. No stop-reason wire strings are modelled, because the object model holds none.
- The record fields hold any Python object. The model restricts them to `PyValue` (None, strings, integers, lists), which is enough to state the `'all'` comparison. The `reason` of a stopped record is restricted further, to a `StopReason` member, although `StoppedAsyncOutput.__init__` stores whatever it is given (`pygdbmi/objects.py:128-129`).
- Python's dynamic attribute access on arbitrary objects is not modelled. A node of an unregistered type is modelled only as `Foreign`, whose visit raises `KeyError`.

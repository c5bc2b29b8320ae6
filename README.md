# skydoc `attr` stand-in, modelled in Dafny

Skydoc generates documentation for Bazel rules. To read a rule-definition
file without running Bazel, it puts a stub `attr` module in place of
Bazel's own (`skydoc/stubs/attr.py`). Each factory there (`attr.bool`,
`attr.label_list`, …) returns an `AttrDescriptor`. The descriptor records
the attribute's kind, its default rendered as text, its mandatory flag and
its doc string. Its name stays empty until the generator assigns it. The
comparator `attr_compare` then sorts descriptors into documentation order.
Well-known names (`name`, `deps`, `src`, …) come first, by a fixed table of
negative weights. All other names follow in plain string order.

This project models that file:

- `wrappers.dfy`: `Option`. The descriptor's `default` is absent (`None`) or text.
- `py_values.dfy`: `PyValues.Value`, the Python values that can be passed as a default.
- `build_proto.dfy`: `BuildProto.AttributeType`, the `build_pb2.Attribute` kind enumeration.
- `py_strings.dfy`: `PyStrings.LexLess`, Python's `<` on `str`: lexicographic by code
  point, with a proper prefix first. The file proves that this is a strict total order.
  It also proves that it agrees with the textbook definition of lexicographic order.
- `attr.dfy`: module `Attr`, the file itself. It holds `Strcmp`, the class
  `AttrDescriptor` (fields, the `AttributeOrdering` table, `ComparePriority`) and
  `AttrCompare`. It also holds the thirteen factories and the loop that renders
  list-of-label defaults.
- `attr_ordering.dfy`: module `AttrOrdering`, facts about the comparator. It is a strict
  total order on names, and the table orders the well-known names in a fixed way. Sorting
  gives one result whatever the algorithm. The example `deps, name, srcs, foo` sorts to
  `name, deps, srcs, foo`.
- `attr_examples.dfy`: a client that calls every factory with no arguments. It renders a
  label and a label-list default. It names two descriptors after construction and compares them.

`AttrDescriptor` is a class because the generator assigns `name` and `doc`
after construction. The factories are therefore methods that allocate a
fresh descriptor. Each states every field of the result. Python's `repr` is
library code that is not modelled. Every factory takes it as a parameter
`repr: Value -> string`, and the contracts are stated in terms of it. The
Python field `type` is called `kind` here, because `type` is a Dafny keyword.

The comparator is fully determined by the names of the two descriptors.
Descriptors with the same name compare equal whatever their kind, default
or doc. `attr_compare` returns 0 exactly when the names are equal, so it
is a total order on names, not only a strict weak order on descriptors.
The table is written with `srcs` fourth, but its weight -86 puts it last
among the well-known names, after `hdrs` (-90).

## Model

| member | source | states |
|---|---|---|
| `PyStrings.LexLessIrreflexive` | skydoc/stubs/attr.py:20-23 | no string is `<` itself |
| `PyStrings.LexLessAsymmetric` | skydoc/stubs/attr.py:20-23 | `a < b` and `b < a` never both hold, so `strcmp` never has two answers |
| `PyStrings.LexLessTransitive` | skydoc/stubs/attr.py:20-23 | `<` on strings is transitive |
| `PyStrings.LexLessConnected` | skydoc/stubs/attr.py:20-24 | two different strings are ordered one way or the other, so `strcmp`'s last branch is reached only for equal strings |
| `PyStrings.LexLessIsLexBefore` | skydoc/stubs/attr.py:20-23 | the recursive `<` agrees in both directions with the textbook definition: proper prefix, or smaller character at the first difference |
| `Attr.Strcmp` | skydoc/stubs/attr.py:19-25 | result is 1 exactly when `s1 > s2`, -1 exactly when `s1 < s2`, 0 exactly when the strings are equal |
| `AttrOrdering.StrcmpReflexive` | skydoc/stubs/attr.py:19-25 | `strcmp(s, s) == 0` |
| `AttrOrdering.StrcmpAntisymmetric` | skydoc/stubs/attr.py:19-25 | `strcmp(a, b) == -strcmp(b, a)`, and the result is one of -1, 0, 1 |
| `Attr.AttrDescriptor.constructor` | skydoc/stubs/attr.py:51-73 | every field takes its argument; with no arguments the kind is UNKNOWN, no default, not mandatory, empty doc and name |
| `Attr.AttrDescriptor.ComparePriority` | skydoc/stubs/attr.py:75-79 | the table weight for the ten listed names, 0 for every other name (the empty name included); never positive; negative exactly for listed names |
| `Attr.AttrCompare` | skydoc/stubs/attr.py:28-34 | a lower priority gives -1 and a higher one 1, whatever the names; equal priorities fall back to `strcmp` on the names; 0 exactly when the names are equal |
| `AttrOrdering.AttrCompareOnlyNames` | skydoc/stubs/attr.py:28-34 | the result depends on the two names only, not on kind, default, mandatory or doc |
| `AttrOrdering.AttrCompareAntisymmetric` | skydoc/stubs/attr.py:28-34 | `attr_compare(a, b) == -attr_compare(b, a)` |
| `AttrOrdering.AttrCompareTransitive` | skydoc/stubs/attr.py:28-34 | "sorts before" is transitive |
| `AttrOrdering.AttrCompareTransitiveNonStrict` | skydoc/stubs/attr.py:28-34 | "sorts no later than" is transitive |
| `AttrOrdering.AttrCompareTotal` | skydoc/stubs/attr.py:28-34 | descriptors with different names are never tied: one sorts before the other |
| `AttrOrdering.ListedNamesOrderedByTable` | skydoc/stubs/attr.py:38-49 | the ten listed names have distinct weights, so two listed names are ordered by the table alone |
| `AttrOrdering.WellKnownOrderIsTable` | skydoc/stubs/attr.py:38-49 | the table lists exactly the names name, deps, src, data, resource, resources, out, outs, hdrs, srcs |
| `AttrOrdering.NeighboursSorted` | skydoc/stubs/attr.py:28-34 | a sequence whose neighbours are in comparator order is sorted throughout |
| `AttrOrdering.WellKnownNamesFirst` | skydoc/stubs/attr.py:38-49 | name < deps < src < data < resource < resources < out < outs < hdrs < srcs < any unlisted name |
| `AttrOrdering.UnlistedNamesLexicographic` | skydoc/stubs/attr.py:28-34 | unlisted names compare as plain strings: the empty name comes first among them, and `bar` comes before `foo` |
| `AttrOrdering.SortedHeadsAgree` | skydoc/stubs/attr.py:28-34 | two sorted arrangements of the same names start with the same name |
| `AttrOrdering.SortedOrderIsUnique` | skydoc/stubs/attr.py:28-34 | two sorted arrangements of the same names list them in the same order, so the documentation order does not depend on the sorting algorithm |
| `AttrOrdering.ExampleOrderIsSorted` | skydoc/stubs/attr.py:38-49 | descriptors named name, deps, srcs, foo in that order are sorted |
| `AttrOrdering.SortedExample` | skydoc/stubs/attr.py:38-49 | every sorted arrangement of descriptors named deps, name, srcs, foo is name, deps, srcs, foo |
| `Attr.RenderedLabels` | skydoc/stubs/attr.py:123-125 | one rendered `str` per element of the default, `repr` of that element, same length and same order |
| `Attr.RenderLabels` | skydoc/stubs/attr.py:143-145 | the append loop builds exactly the element-wise rendering of the default |
| `Attr.RenderOptional` | skydoc/stubs/attr.py:107-108 | an absent default stays absent and any other default is rendered once |
| `Attr.Bool` | skydoc/stubs/attr.py:82-84 | fresh descriptor of kind BOOLEAN, default `repr(default)`, mandatory and doc copied, empty name |
| `Attr.Int` | skydoc/stubs/attr.py:87-88 | fresh descriptor of kind INTEGER, default `repr(default)`, mandatory and doc copied, empty name; `values` unused |
| `Attr.IntList` | skydoc/stubs/attr.py:91-93 | fresh descriptor of kind INTEGER_LIST, default `repr(default)`, mandatory and doc copied, empty name; emptiness flags unused |
| `Attr.Label` | skydoc/stubs/attr.py:96-109 | fresh descriptor of kind LABEL; a `None` default stays `None`, any other is `repr(default)`; mandatory and doc copied, empty name; the other flags unused |
| `Attr.LabelList` | skydoc/stubs/attr.py:112-127 | fresh descriptor of kind LABEL_LIST whose default is `repr` of the list of element renderings; mandatory and doc copied, empty name; the other flags unused |
| `Attr.License` | skydoc/stubs/attr.py:130-133 | fresh descriptor of kind LICENSE; a `None` default stays `None`, any other is `repr(default)`; mandatory and doc copied, empty name |
| `Attr.Output` | skydoc/stubs/attr.py:136-139 | fresh descriptor of kind OUTPUT; a `None` default stays `None`, any other is `repr(default)`; mandatory and doc copied, empty name |
| `Attr.OutputList` | skydoc/stubs/attr.py:142-147 | fresh descriptor of kind OUTPUT_LIST whose default is `repr` of the list of element renderings; mandatory and doc copied, empty name |
| `Attr.String` | skydoc/stubs/attr.py:150-151 | fresh descriptor of kind STRING, default `repr(default)`, mandatory and doc copied, empty name; `values` unused |
| `Attr.StringDict` | skydoc/stubs/attr.py:154-160 | fresh descriptor of kind STRING_DICT, default `repr(default)`, mandatory and doc copied, empty name |
| `Attr.StringList` | skydoc/stubs/attr.py:163-169 | fresh descriptor of kind STRING_LIST, default `repr(default)`, mandatory and doc copied, empty name |
| `Attr.StringListDict` | skydoc/stubs/attr.py:172-178 | fresh descriptor of kind STRING_LIST_DICT, default `repr(default)`, mandatory and doc copied, empty name |
| `Attr.LabelKeyedStringDict` | skydoc/stubs/attr.py:180-187 | fresh descriptor of kind LABEL_KEYED_STRING_DICT, default `repr(default)`, mandatory and doc copied, empty name |

## Left out

- The generated protocol-buffer module `build_pb2` (imported at skydoc/stubs/attr.py:16) is not part of this model. Only its `Attribute` enumeration appears, as `BuildProto.AttributeType`.
- The text that Python's `repr` produces is library behaviour. It is a parameter of every factory, and only structural facts about it are proved: what is rendered, how often and in what order.
- `PyValues.Value` covers None, bool, int, str, list and dict. Other objects that Bazel accepts as defaults, such as `Label(...)` instances or `select(...)`, are not modelled.
- Attr.LabelList, Attr.OutputList: the default is a sequence of values. Python iterates any iterable here (a dict's keys, a string's characters), and only lists are modelled.
- Attr.AttrDescriptor.constructor: the Python constructor stores any default value. The model narrows it to `None` or text, which is all that any factory passes.
- `PyStrings.LexLess` orders Unicode code points, as Python 3 `str` does. Python 2 byte strings compare byte by byte. Both orders are lexicographic, and the ordering results do not depend on which one is used.
- `default != None` is modelled as structural inequality with `PyNone`. Python objects with a custom `__eq__` are not modelled.
- The parameters that are accepted but never read (`values`, `executable`, `allow_files`, `allow_single_file`, `providers`, `allow_rules`, `single_file`, `cfg`, `aspects`, `flags`, `non_empty`, `allow_empty`) are kept in the factory signatures as `Value` parameters. They appear in no contract.
- Python's shared mutable default arguments (`[]`, `{}`) are never mutated in this file. Here each default is a fresh value.
- The caller that assigns `name` and `doc`, sorts with `attr_compare` and renders the output is not part of this model. No sorting code exists in this file. The ordering lemmas state what any correct sort produces.

/** Skydoc's stand-in for Bazel's `attr` module (skydoc/stubs/attr.py): one
    factory per attribute kind that builds an `AttrDescriptor`, and the
    comparator that sorts descriptors into documentation order.

    Python's `repr` is not modelled: every factory takes it as the parameter
    `repr`. Parameters that the source accepts but never reads are kept in
    the factories' signatures and play no part in their contracts. */
module Attr {
  import opened Wrappers
  import opened PyValues
  import opened PyStrings
  import BuildProto

  /** Three-way string comparison: 1 when `s1 > s2`, -1 when `s1 < s2`,
      0 otherwise. Python's `<` and `>` on `str` are `LexLess`. */
  function Strcmp(s1: string, s2: string): (r: int)
    ensures r == 1 <==> LexLess(s2, s1)
    ensures r == -1 <==> LexLess(s1, s2)
    ensures r == 0 <==> s1 == s2
  {
    LexLessAsymmetric(s1, s2);
    LexLessConnected(s1, s2);
    LexLessIrreflexive(s1);
    if LexLess(s2, s1) then 1
    else if LexLess(s1, s2) then -1
    else 0
  }

  /** One declared attribute of a rule. The factories below fill every
      field but `name`; the documentation generator assigns `name` (and may
      overwrite `doc`) afterwards. */
  class AttrDescriptor {
    var kind: BuildProto.AttributeType
    var default: Option<string>
    var mandatory: bool
    var doc: string
    var name: string

    /** Sort weights of well-known attribute names: more negative sorts
        earlier. The entries keep the source's order; `srcs` is fourth but
        weighs -86, after `hdrs`. */
    static const AttributeOrdering: map<string, int> := map[
      "name" := -99,
      "deps" := -98,
      "src" := -97,
      "srcs" := -86,
      "data" := -95,
      "resource" := -94,
      "resources" := -93,
      "out" := -92,
      "outs" := -91,
      "hdrs" := -90
    ]

    constructor (kind: BuildProto.AttributeType := BuildProto.AttributeType.Unknown,
                 default: Option<string> := None,
                 mandatory: bool := false,
                 doc: string := "",
                 name: string := "")
      ensures this.kind == kind && this.default == default
      ensures this.mandatory == mandatory && this.doc == doc && this.name == name
    {
      this.kind := kind;
      this.default := default;
      this.mandatory := mandatory;
      this.doc := doc;
      this.name := name;
    }

    /** The table weight of a listed name, 0 for every other name (the
        empty name included); never positive. */
    function ComparePriority(): (p: int)
      reads this
      ensures p <= 0
      ensures p < 0 <==> name in AttributeOrdering
      ensures name in AttributeOrdering ==> p == AttributeOrdering[name]
    {
      if name in AttributeOrdering then AttributeOrdering[name] else 0
    }
  }

  /** The documentation order: by priority first, by name second. Only the
      names of the two descriptors matter. */
  function AttrCompare(a: AttrDescriptor, b: AttrDescriptor): (r: int)
    reads a, b
    ensures a.ComparePriority() < b.ComparePriority() ==> r == -1
    ensures a.ComparePriority() > b.ComparePriority() ==> r == 1
    ensures a.ComparePriority() == b.ComparePriority() ==> r == Strcmp(a.name, b.name)
    ensures r == 0 <==> a.name == b.name
  {
    if a.ComparePriority() > b.ComparePriority() then 1
    else if a.ComparePriority() < b.ComparePriority() then -1
    else Strcmp(a.name, b.name)
  }

  // Rendering of list-of-label defaults

  /** Each element rendered on its own, as a Python `str`, in input order. */
  function RenderedLabels(repr: Value -> string, labels: seq<Value>): (r: seq<Value>)
    ensures |r| == |labels|
    ensures forall i :: 0 <= i < |labels| ==> r[i] == PyStr(repr(labels[i]))
  {
    if labels == [] then [] else [PyStr(repr(labels[0]))] + RenderedLabels(repr, labels[1..])
  }

  /** The loop shared by `label_list` and `output_list`: append the `repr`
      of every element of the default to a fresh list. */
  method RenderLabels(repr: Value -> string, labels: seq<Value>) returns (defaultVal: seq<Value>)
    ensures defaultVal == RenderedLabels(repr, labels)
  {
    defaultVal := [];
    for i := 0 to |labels|
      invariant |defaultVal| == i
      invariant forall k :: 0 <= k < i ==> defaultVal[k] == PyStr(repr(labels[k]))
    {
      defaultVal := defaultVal + [PyStr(repr(labels[i]))];
    }
  }

  /** `label`, `license` and `output` keep an absent default absent and
      render any other default once. */
  function RenderOptional(repr: Value -> string, default: Value): (r: Option<string>)
    ensures r.None? <==> default == PyNone
    ensures r.Some? ==> r.value == repr(default)
  {
    if default != PyNone then Some(repr(default)) else None
  }

  // The factories, one per attribute kind

  method Bool(repr: Value -> string, default: Value := PyBool(false), mandatory: bool := false,
              doc: string := "")
    returns (d: AttrDescriptor)
    ensures fresh(d)
    ensures d.kind == BuildProto.AttributeType.Boolean && d.default == Some(repr(default))
    ensures d.mandatory == mandatory && d.doc == doc && d.name == ""
  {
    d := new AttrDescriptor(BuildProto.AttributeType.Boolean, default := Some(repr(default)),
                            mandatory := mandatory, doc := doc);
  }

  method Int(repr: Value -> string, default: Value := PyInt(0), mandatory: bool := false,
             values: Value := PyList([]), doc: string := "")
    returns (d: AttrDescriptor)
    ensures fresh(d)
    ensures d.kind == BuildProto.AttributeType.Integer && d.default == Some(repr(default))
    ensures d.mandatory == mandatory && d.doc == doc && d.name == ""
  {
    d := new AttrDescriptor(BuildProto.AttributeType.Integer, Some(repr(default)), mandatory,
                            doc := doc);
  }

  method IntList(repr: Value -> string, default: Value := PyList([]), mandatory: bool := false,
                 nonEmpty: Value := PyBool(false), allowEmpty: Value := PyBool(true),
                 doc: string := "")
    returns (d: AttrDescriptor)
    ensures fresh(d)
    ensures d.kind == BuildProto.AttributeType.IntegerList && d.default == Some(repr(default))
    ensures d.mandatory == mandatory && d.doc == doc && d.name == ""
  {
    d := new AttrDescriptor(BuildProto.AttributeType.IntegerList, Some(repr(default)),
                            mandatory, doc);
  }

  method Label(repr: Value -> string, default: Value := PyNone,
               executable: Value := PyBool(false), allowFiles: Value := PyBool(false),
               allowSingleFile: Value := PyBool(false), mandatory: bool := false,
               providers: Value := PyList([]), allowRules: Value := PyNone,
               singleFile: Value := PyBool(false), cfg: Value := PyNone,
               aspects: Value := PyList([]), doc: string := "")
    returns (d: AttrDescriptor)
    ensures fresh(d)
    ensures d.kind == BuildProto.AttributeType.Label
    ensures d.default == (if default == PyNone then None else Some(repr(default)))
    ensures d.mandatory == mandatory && d.doc == doc && d.name == ""
  {
    var rendered := RenderOptional(repr, default);
    d := new AttrDescriptor(BuildProto.AttributeType.Label, rendered, mandatory, doc);
  }

  method LabelList(repr: Value -> string, default: seq<Value> := [],
                   allowFiles: Value := PyBool(false), allowRules: Value := PyNone,
                   providers: Value := PyList([]), flags: Value := PyList([]),
                   mandatory: bool := false, nonEmpty: Value := PyBool(false),
                   allowEmpty: Value := PyBool(true), cfg: Value := PyNone,
                   aspects: Value := PyList([]), doc: string := "")
    returns (d: AttrDescriptor)
    ensures fresh(d)
    ensures d.kind == BuildProto.AttributeType.LabelList
    ensures d.default == Some(repr(PyList(RenderedLabels(repr, default))))
    ensures d.mandatory == mandatory && d.doc == doc && d.name == ""
  {
    var defaultVal := RenderLabels(repr, default);
    d := new AttrDescriptor(BuildProto.AttributeType.LabelList, Some(repr(PyList(defaultVal))),
                            mandatory, doc);
  }

  method License(repr: Value -> string, default: Value := PyNone, mandatory: bool := false,
                 doc: string := "")
    returns (d: AttrDescriptor)
    ensures fresh(d)
    ensures d.kind == BuildProto.AttributeType.License
    ensures d.default == (if default == PyNone then None else Some(repr(default)))
    ensures d.mandatory == mandatory && d.doc == doc && d.name == ""
  {
    var rendered := RenderOptional(repr, default);
    d := new AttrDescriptor(BuildProto.AttributeType.License, rendered, mandatory, doc);
  }

  method Output(repr: Value -> string, default: Value := PyNone, mandatory: bool := false,
                doc: string := "")
    returns (d: AttrDescriptor)
    ensures fresh(d)
    ensures d.kind == BuildProto.AttributeType.Output
    ensures d.default == (if default == PyNone then None else Some(repr(default)))
    ensures d.mandatory == mandatory && d.doc == doc && d.name == ""
  {
    var rendered := RenderOptional(repr, default);
    d := new AttrDescriptor(BuildProto.AttributeType.Output, rendered, mandatory, doc);
  }

  method OutputList(repr: Value -> string, default: seq<Value> := [], mandatory: bool := false,
                    nonEmpty: Value := PyBool(false), allowEmpty: Value := PyBool(true),
                    doc: string := "")
    returns (d: AttrDescriptor)
    ensures fresh(d)
    ensures d.kind == BuildProto.AttributeType.OutputList
    ensures d.default == Some(repr(PyList(RenderedLabels(repr, default))))
    ensures d.mandatory == mandatory && d.doc == doc && d.name == ""
  {
    var defaultVal := RenderLabels(repr, default);
    d := new AttrDescriptor(BuildProto.AttributeType.OutputList, Some(repr(PyList(defaultVal))),
                            mandatory, doc);
  }

  method String(repr: Value -> string, default: Value := PyStr(""), mandatory: bool := false,
                values: Value := PyList([]), doc: string := "")
    returns (d: AttrDescriptor)
    ensures fresh(d)
    ensures d.kind == BuildProto.AttributeType.String && d.default == Some(repr(default))
    ensures d.mandatory == mandatory && d.doc == doc && d.name == ""
  {
    d := new AttrDescriptor(BuildProto.AttributeType.String, Some(repr(default)), mandatory, doc);
  }

  method StringDict(repr: Value -> string, default: Value := PyDict([]), mandatory: bool := false,
                    nonEmpty: Value := PyBool(false), allowEmpty: Value := PyBool(true),
                    doc: string := "")
    returns (d: AttrDescriptor)
    ensures fresh(d)
    ensures d.kind == BuildProto.AttributeType.StringDict && d.default == Some(repr(default))
    ensures d.mandatory == mandatory && d.doc == doc && d.name == ""
  {
    d := new AttrDescriptor(BuildProto.AttributeType.StringDict, Some(repr(default)),
                            mandatory, doc);
  }

  method StringList(repr: Value -> string, default: Value := PyList([]), mandatory: bool := false,
                    nonEmpty: Value := PyBool(false), allowEmpty: Value := PyBool(true),
                    doc: string := "")
    returns (d: AttrDescriptor)
    ensures fresh(d)
    ensures d.kind == BuildProto.AttributeType.StringList && d.default == Some(repr(default))
    ensures d.mandatory == mandatory && d.doc == doc && d.name == ""
  {
    d := new AttrDescriptor(BuildProto.AttributeType.StringList, Some(repr(default)),
                            mandatory, doc);
  }

  method StringListDict(repr: Value -> string, default: Value := PyDict([]),
                        mandatory: bool := false, nonEmpty: Value := PyBool(false),
                        allowEmpty: Value := PyBool(true), doc: string := "")
    returns (d: AttrDescriptor)
    ensures fresh(d)
    ensures d.kind == BuildProto.AttributeType.StringListDict && d.default == Some(repr(default))
    ensures d.mandatory == mandatory && d.doc == doc && d.name == ""
  {
    d := new AttrDescriptor(BuildProto.AttributeType.StringListDict, Some(repr(default)),
                            mandatory, doc);
  }

  method LabelKeyedStringDict(repr: Value -> string, default: Value := PyDict([]),
                              mandatory: bool := false, allowFiles: Value := PyBool(false),
                              nonEmpty: Value := PyBool(false), allowEmpty: Value := PyBool(true),
                              doc: string := "")
    returns (d: AttrDescriptor)
    ensures fresh(d)
    ensures d.kind == BuildProto.AttributeType.LabelKeyedStringDict
    ensures d.default == Some(repr(default))
    ensures d.mandatory == mandatory && d.doc == doc && d.name == ""
  {
    d := new AttrDescriptor(BuildProto.AttributeType.LabelKeyedStringDict, Some(repr(default)),
                            mandatory, doc);
  }
}

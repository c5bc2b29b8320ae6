/** A client of the `attr` stand-in, written the way skydoc uses it: build
    descriptors with the factories, assign their names afterwards, compare
    them. Everything asserted here follows from the factories' and the
    comparator's contracts alone. */
module AttrExamples {
  import opened Wrappers
  import opened PyValues
  import opened Attr
  import BuildProto

  /** Optional, undocumented and not yet named. */
  ghost predicate Blank(d: AttrDescriptor)
    reads d
  {
    !d.mandatory && d.doc == "" && d.name == ""
  }

  /** Called with no arguments, every factory gives an optional, undocumented
      and unnamed descriptor; `label`, `license` and `output` have no default. */
  method NoArgumentFactories(repr: Value -> string)
  {
    var b := Bool(repr);
    var i := Int(repr);
    var il := IntList(repr);
    var l := Label(repr);
    var ll := LabelList(repr);
    var li := License(repr);
    var o := Output(repr);
    var ol := OutputList(repr);
    var s := String(repr);
    var sd := StringDict(repr);
    var sl := StringList(repr);
    var sld := StringListDict(repr);
    var lksd := LabelKeyedStringDict(repr);
    assert Blank(b) && Blank(i) && Blank(il) && Blank(l) && Blank(ll) && Blank(li) && Blank(o);
    assert Blank(ol) && Blank(s) && Blank(sd) && Blank(sl) && Blank(sld) && Blank(lksd);
    assert l.default == None && li.default == None && o.default == None;
    assert b.default == Some(repr(PyBool(false))) && i.default == Some(repr(PyInt(0)));
    assert s.default == Some(repr(PyStr(""))) && sd.default == Some(repr(PyDict([])));
    assert ll.default == Some(repr(PyList([]))) && ol.default == Some(repr(PyList([])));
  }

  /** A label default is rendered once; a label-list default is rendered
      element by element, in order, and then as a whole. */
  method RenderedDefaults(repr: Value -> string)
  {
    var l := Label(repr, default := PyStr("//x:y"));
    assert l.kind == BuildProto.AttributeType.Label && l.default == Some(repr(PyStr("//x:y")));
    var ll := LabelList(repr, default := [PyStr("//a"), PyStr("//b")], mandatory := true);
    var rendered := RenderedLabels(repr, [PyStr("//a"), PyStr("//b")]);
    assert rendered == [PyStr(repr(PyStr("//a"))), PyStr(repr(PyStr("//b")))];
    assert ll.default == Some(repr(PyList(rendered))) && ll.mandatory;
  }

  /** The generator names descriptors after construction; the comparator
      then puts `name` before `deps` whichever was declared first. */
  method NamedLater(repr: Value -> string)
  {
    var deps := LabelList(repr, doc := "Dependencies.");
    var name := String(repr);
    deps.name := "deps";
    name.name := "name";
    assert AttrCompare(name, deps) == -1 && AttrCompare(deps, name) == 1;
    assert deps.doc == "Dependencies." && deps.kind == BuildProto.AttributeType.LabelList;
  }
}

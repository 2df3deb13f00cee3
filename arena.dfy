/** The arena baseline: a `TypeSystem` owns an append-only arena of wrappers;
    every annotation allocates one more wrapper, none is ever removed or
    changed, and equal labels are not shared. */
module Arena {
  import opened Host

  /** `Wrapper { value: *const String, type_name: String }`, with the two
      `Object` operations. */
  datatype Wrapper = Wrapper(value: Text, typeName: string)
  {
    function TypeName(): string { typeName }

    /** Dereferences the stored raw address: the original value itself. */
    function AsString(): Text { value }
  }

  class TypeSystem {
    /** The arena, in allocation order. */
    var wrappers: seq<Wrapper>

    /** `TypeSystem::new`: an empty arena. */
    constructor ()
      ensures wrappers == []
    {
      wrappers := [];
    }

    /** Allocates one wrapper at the end of the arena and returns it; the
        slot it occupies is the old length of the arena. */
    method Annotate(input: Text, typeName: string) returns (w: Wrapper)
      modifies this
      ensures wrappers == old(wrappers) + [w]
      ensures w.TypeName() == typeName
      ensures w.AsString() == input
    {
      w := Wrapper(input, typeName);
      wrappers := wrappers + [w];
    }
  }

  /** The repository's test: annotating one value as "Widget" and then as
      "Gadget" leaves two wrappers side by side, each reporting its own label
      and both returning the original value. */
  method WidgetGadget(input: Text) returns (label1: string, label2: string, value1: Text, value2: Text)
    ensures label1 == "Widget" && label2 == "Gadget"
    ensures value1 == input && value2 == input
  {
    var ts := new TypeSystem();
    var annotated1 := ts.Annotate(input, "Widget");
    var annotated2 := ts.Annotate(input, "Gadget");
    assert ts.wrappers == [annotated1, annotated2];
    label1, label2 := ts.wrappers[0].TypeName(), ts.wrappers[1].TypeName();
    value1, value2 := ts.wrappers[0].AsString(), ts.wrappers[1].AsString();
  }

  /** No deduplication: the same value under the same label twice takes two
      slots of the arena, which hold equal wrappers. */
  method SameLabelTwice(input: Text, typeName: string) returns (slots: nat, alike: bool)
    ensures slots == 2
    ensures alike
  {
    var ts := new TypeSystem();
    var annotated1 := ts.Annotate(input, typeName);
    var annotated2 := ts.Annotate(input, typeName);
    slots := |ts.wrappers|;
    alike := ts.wrappers[0] == ts.wrappers[1];
  }
}

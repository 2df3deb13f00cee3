/** The leaking baseline: every annotation boxes a fresh wrapper that borrows
    the value and owns a copy of the label, and leaks it, so no state is kept
    between calls. */
module Leaking {
  import opened Host

  /** `Wrapper { value: &String, type_name: String }`, with the two
      `Object` operations. */
  datatype Wrapper = Wrapper(value: Text, typeName: string)
  {
    function TypeName(): string { typeName }

    function AsString(): Text { value }
  }

  /** The handle reports the label it was given and hands back the very
      reference it was given. */
  function Annotate(input: Text, typeName: string): (w: Wrapper)
    ensures w.TypeName() == typeName
    ensures w.AsString() == input
  {
    Wrapper(input, typeName)
  }

  /** The repository's test: one value annotated as "Widget" and as "Gadget"
      gives two distinct handles, each with its own label, both returning the
      original value. */
  lemma WidgetGadget(input: Text)
    ensures Annotate(input, "Widget") != Annotate(input, "Gadget")
    ensures Annotate(input, "Widget").TypeName() == "Widget"
    ensures Annotate(input, "Gadget").TypeName() == "Gadget"
    ensures Annotate(input, "Widget").AsString() == input
    ensures Annotate(input, "Gadget").AsString() == input
  {
  }
}

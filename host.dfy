/** The value every mechanism annotates: a `String` owned by the caller.
    None of the mechanisms copies it or takes it over; they only hold its
    address, which is modelled here as a reference to a `Text` object, so that
    "the same value, not a copy" is reference equality. */
module Host {

  class Text {
    /** The characters of the string; the mechanisms never read them. */
    const contents: string

    constructor (contents: string)
      ensures this.contents == contents
    {
      this.contents := contents;
    }
  }
}

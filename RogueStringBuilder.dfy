/** The string builder, as far as the type's default intrinsics use it: an
    append-only character sink. Only its declarations are part of this model,
    so the inline buffer, the capacity and the growth into an external array
    are not represented; `contents` is the text written so far. */
module RogueStringBuilder {
  import opened CStrings

  class StringBuilder {
    var contents: seq<char>

    /** RogueStringBuilder_init: a builder starts out empty. */
    constructor Init()
      ensures contents == []
    {
      contents := [];
    }

    /** RogueStringBuilder_print_character: appends one character. */
    method PrintCharacter(value: char)
      modifies this
      ensures contents == old(contents) + [value]
    {
      contents := contents + [value];
    }

    /** RogueStringBuilder_print_c_string: appends the characters of a C string
        up to its terminator. */
    method PrintCString(value: seq<char>)
      modifies this
      ensures contents == old(contents) + CStringText(value)
    {
      contents := contents + CStringText(value);
    }
  }
}

/** NUL-terminated C strings, seen as character sequences. `strlen`, `strcpy`
    and the string builder's `print_c_string` all stop at the first NUL. */
module CStrings {

  const NUL: char := '\0'

  /** The characters of s before its first NUL (all of s if it has none). */
  function CStringText(s: seq<char>): (r: seq<char>)
    ensures NUL !in r
    ensures r <= s
    ensures |r| < |s| ==> s[|r|] == NUL
  {
    if s == [] || s[0] == NUL then [] else [s[0]] + CStringText(s[1..])
  }

  /** A sequence with no NUL in it is its own C-string text. */
  lemma {:induction false} CStringTextOfText(s: seq<char>)
    requires NUL !in s
    ensures CStringText(s) == s
  {
    if s != [] {
      CStringTextOfText(s[1..]);
    }
  }

  /** Copying a C string (strcpy) and reading it back gives the same text. */
  lemma CStringTextIdempotent(s: seq<char>)
    ensures CStringText(CStringText(s)) == CStringText(s)
  {
    CStringTextOfText(CStringText(s));
  }
}

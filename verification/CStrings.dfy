/** NUL-terminated strings as the C code sees them. */
module CStrings {

  // The characters of a C string before its terminator.
  type CString = s: string | '\0' !in s witness ""

  // What `s[i]` reads in C: the terminator sits at index |s|.
  function At(s: string, i: nat): char
    requires i <= |s|
  {
    if i < |s| then s[i] else '\0'
  }

  datatype Option<+T> = None | Some(value: T)

  // A FILE opened for writing, as the sequence of characters written to it.
  class OutputStream {
    var written: string

    constructor ()
      ensures written == ""
    {
      written := "";
    }

    method Write(s: string)
      modifies this
      ensures written == old(written) + s
    {
      written := written + s;
    }
  }
}

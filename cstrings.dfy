/** C strings. A C string is the run of characters before its terminating
    NUL, so it is modelled as a `string` that holds no NUL; `strlen` is then
    its length. A buffer is read back as a C string by `Denoted`. */
module CStrings {

  const Nul: char := '\0'

  /** A NUL-free sequence of characters: the contents of a C string. */
  type CStr = s: string | Nul !in s

  /** The C string a buffer holds: its characters up to, not including, the
      first NUL (all of them when there is none). */
  function Denoted(buf: seq<char>): (s: CStr)
    ensures |s| <= |buf| && s == buf[..|s|]
    ensures |s| < |buf| ==> buf[|s|] == Nul
  {
    if buf == [] || buf[0] == Nul then [] else [buf[0]] + Denoted(buf[1..])
  }

  /** A buffer that holds `s` followed by a NUL denotes `s`, whatever follows. */
  lemma {:induction false} DenotedTerminated(s: CStr, rest: seq<char>)
    ensures Denoted(s + [Nul] + rest) == s
  {
    if s != [] {
      assert (s + [Nul] + rest)[1..] == s[1..] + [Nul] + rest;
      DenotedTerminated(s[1..], rest);
    }
  }
}

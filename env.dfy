/** `alloc_env`: look up a required environment variable and return a fresh
    buffer holding its value followed by a suffix, or end the process.
    The environment is a map from names to values; whether `malloc` fails is
    a parameter; the log line and `exit(EXIT_FAILURE)` become a distinguished
    outcome that carries no buffer. */
module Env {
  import opened CStrings

  /** The process environment as `getenv` sees it. */
  type Environment = map<CStr, CStr>

  /** Why the process exits with `EXIT_FAILURE`. */
  datatype Fatal = NotSet(name: CStr) | MallocFailed

  /** What `alloc_env` leads to: the process exits, or the caller owns a buffer. */
  datatype Outcome = Exit(reason: Fatal) | Buffer(buf: array<char>)

  /** `strncpy(dst + off, src, n)`: copy the first `n` characters of `src`,
      padding with NUL where `src` is shorter; nothing else in `dst` changes. */
  method StrNCopy(dst: array<char>, off: nat, src: CStr, n: nat)
    requires off + n <= dst.Length
    modifies dst
    ensures forall i :: 0 <= i < n ==> dst[off + i] == if i < |src| then src[i] else Nul
    ensures forall i :: 0 <= i < dst.Length && !(off <= i < off + n) ==> dst[i] == old(dst[i])
  {
    var i := 0;
    while i < n
      invariant 0 <= i <= n
      invariant forall k :: 0 <= k < i ==> dst[off + k] == if k < |src| then src[k] else Nul
      invariant forall k :: 0 <= k < dst.Length && !(off <= k < off + i) ==> dst[k] == old(dst[k])
    {
      dst[off + i] := if i < |src| then src[i] else Nul;
      i := i + 1;
    }
  }

  /** `strcpy(dst + off, src)`: copy `src` and its terminating NUL; nothing
      else in `dst` changes. */
  method StrCopy(dst: array<char>, off: nat, src: CStr)
    requires off + |src| + 1 <= dst.Length
    modifies dst
    ensures dst[off..off + |src| + 1] == src + [Nul]
    ensures forall i :: 0 <= i < dst.Length && !(off <= i <= off + |src|) ==> dst[i] == old(dst[i])
  {
    var i := 0;
    while i < |src|
      invariant 0 <= i <= |src|
      invariant dst[off..off + i] == src[..i]
      invariant forall k :: 0 <= k < dst.Length && !(off <= k < off + i) ==> dst[k] == old(dst[k])
    {
      dst[off + i] := src[i];
      i := i + 1;
    }
    dst[off + |src|] := Nul;
  }

  /** `alloc_env(var, suffix)` in environment `env`, where `mallocFails` says
      whether the allocation of `|value| + |suffix| + 1` characters fails.
      A missing variable or a failed allocation ends the process; otherwise the
      new buffer holds the value, then the suffix, then a NUL. */
  method AllocEnv(env: Environment, name: CStr, suffix: CStr, mallocFails: bool)
    returns (out: Outcome)
    ensures name !in env ==> out == Exit(NotSet(name))
    ensures name in env && mallocFails ==> out == Exit(MallocFailed)
    ensures name in env && !mallocFails ==>
      && out.Buffer?
      && fresh(out.buf)
      && out.buf.Length == |env[name]| + |suffix| + 1
      && out.buf[..] == env[name] + suffix + [Nul]
  {
    if name !in env {
      return Exit(NotSet(name));
    }
    var value := env[name];
    var varlen := |value|;
    if mallocFails {
      return Exit(MallocFailed);
    }
    var buf := new char[varlen + |suffix| + 1];
    StrNCopy(buf, 0, value, varlen);
    StrCopy(buf, varlen, suffix);
    assert buf[..varlen] == value;
    assert buf[varlen..] == suffix + [Nul];
    assert buf[..] == buf[..varlen] + buf[varlen..];
    return Buffer(buf);
  }

  /** The C string that `alloc_env` hands back, read from the buffer up to its
      NUL, is the value with the suffix appended. */
  lemma AllocatedStringIsValueThenSuffix(env: Environment, name: CStr, suffix: CStr, buf: seq<char>)
    requires name in env
    requires buf == env[name] + suffix + [Nul]
    ensures Denoted(buf) == env[name] + suffix
    ensures |Denoted(buf)| == |buf| - 1
  {
    DenotedTerminated(env[name] + suffix, []);
  }
}

/** Vocabulary shared by every part of the model: streams, bytes, opaque
    operating-system errors, and the "keep a bounded prefix" rule that both the
    shared budget and the unbudgeted collector apply to captured output. */
module Basics {
  datatype Option<+T> = None | Some(value: T)

  datatype Result<+T, +E> = Ok(value: T) | Err(error: E)

  datatype Stream = Stdout | Stderr {
    function Other(): Stream {
      if Stdout? then Stderr else Stdout
    }
  }

  type Byte = x: int | 0 <= x < 256

  type Path = string

  /** Durations and instants are counted in nanoseconds. */
  type Duration = nat

  const MILLISECOND: Duration := 1_000_000

  /** The only facts about an operating-system error that the runner inspects. */
  datatype ErrorKind = Interrupted | WouldBlock | BrokenPipe | NoSuchProcess | NoPendingIo | NotFound | OtherKind

  /** One operating-system error; `id` tells apart errors of the same kind. */
  datatype IoError = IoError(id: nat, kind: ErrorKind)

  datatype TimeError = TimeError(id: nat)

  datatype ExitStatus = ExitStatus(code: int)

  datatype CapturedOutput = CapturedOutput(bytes: seq<Byte>, truncated: bool, complete: bool)

  datatype CapturedPair = CapturedPair(stdout: CapturedOutput, stderr: CapturedOutput) {
    function Get(s: Stream): CapturedOutput {
      if s.Stdout? then stdout else stderr
    }
  }

  function Min(a: nat, b: nat): nat {
    if a <= b then a else b
  }

  function SaturatingSub(a: nat, b: nat): nat {
    if a <= b then 0 else a - b
  }

  /** What a stream with retention cap `cap` must keep of all its bytes `data`. */
  function Retained(data: seq<Byte>, cap: Option<nat>): seq<Byte> {
    match cap
    case None => data
    case Some(max) => data[..Min(max, |data|)]
  }

  predicate Overflows(data: seq<Byte>, cap: Option<nat>) {
    cap.Some? && |data| > cap.value
  }

  function Capture(data: seq<Byte>, cap: Option<nat>, complete: bool): CapturedOutput {
    CapturedOutput(Retained(data, cap), Overflows(data, cap), complete)
  }

  /** The incremental rule the code runs on every chunk. */
  function KeepBytes(bytes: seq<Byte>, chunk: seq<Byte>, cap: Option<nat>): seq<Byte> {
    match cap
    case None => bytes + chunk
    case Some(max) => bytes + chunk[..Min(|chunk|, SaturatingSub(max, |bytes|))]
  }

  predicate Drops(bytes: seq<Byte>, chunk: seq<Byte>, cap: Option<nat>) {
    cap.Some? && |chunk| > SaturatingSub(cap.value, |bytes|)
  }

  /** Retention keeps the longest prefix that the cap allows, and "overflows" means
      exactly that something was dropped. */
  lemma RetainedIsLongestPrefix(data: seq<Byte>, cap: Option<nat>, prefix: seq<Byte>)
    requires prefix <= data && (cap.Some? ==> |prefix| <= cap.value)
    ensures prefix <= Retained(data, cap) <= data
    ensures cap.Some? ==> |Retained(data, cap)| <= cap.value
    ensures Overflows(data, cap) <==> Retained(data, cap) != data
  {
  }

  /** Chunking does not matter: the incremental rule computes the prefix of the
      concatenation, and the sticky flag is exactly "more bytes than the cap". */
  lemma KeepingIsPrefixOfWhole(data: seq<Byte>, chunk: seq<Byte>, cap: Option<nat>)
    ensures KeepBytes(Retained(data, cap), chunk, cap) == Retained(data + chunk, cap)
    ensures Overflows(data, cap) || Drops(Retained(data, cap), chunk, cap) <==> Overflows(data + chunk, cap)
  {
    if cap.Some? {
      var kept := Min(cap.value, |data|);
      assert (data + chunk)[..kept] == data[..kept];
      if cap.value >= |data| {
        var extra := Min(|chunk|, cap.value - |data|);
        assert (data + chunk)[..|data| + extra] == data + chunk[..extra];
      } else {
        assert chunk[..0] == [];
      }
    }
  }
}

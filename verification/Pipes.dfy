/** A child's output pipe as an arbitrary finite script of chunks and faults. */
module Pipes {
  import opened Basics

  datatype PipeEvent = Chunk(bytes: seq<Byte>) | Fault(error: IoError)

  /** What a read of at most `max` bytes returns; no bytes means end of file. */
  function Answer(script: seq<PipeEvent>, max: nat): (answer: Result<seq<Byte>, IoError>)
    ensures answer.Ok? ==> |answer.value| <= max
  {
    if script == [] then Ok([])
    else match script[0]
      case Chunk(bytes) => Ok(bytes[..Min(max, |bytes|)])
      case Fault(error) => Err(error)
  }

  function Rest(script: seq<PipeEvent>, max: nat): seq<PipeEvent> {
    if script == [] then []
    else match script[0]
      case Chunk(bytes) => if max < |bytes| then [Chunk(bytes[max..])] + script[1..] else script[1..]
      case Fault(_) => script[1..]
  }

  /** Reads still possible before the script is exhausted. */
  function Length(script: seq<PipeEvent>): nat {
    if script == [] then 0
    else (match script[0] case Chunk(bytes) => 1 + |bytes| case Fault(_) => 1) + Length(script[1..])
  }

  lemma ReadingShortens(script: seq<PipeEvent>, max: nat)
    requires script != [] && max > 0
    ensures Length(Rest(script, max)) < Length(script)
  {
    if script[0].Chunk? && max < |script[0].bytes| {
      assert Rest(script, max)[1..] == script[1..];
    }
  }

  class PipeReader {
    var script: seq<PipeEvent>

    constructor (script: seq<PipeEvent>)
      ensures this.script == script
    {
      this.script := script;
    }

    method Read(max: nat) returns (answer: Result<seq<Byte>, IoError>)
      modifies this
      ensures answer == Answer(old(script), max)
      ensures script == Rest(old(script), max)
    {
      if script == [] {
        return Ok([]);
      }
      match script[0] {
        case Chunk(bytes) =>
          answer := Ok(bytes[..Min(max, |bytes|)]);
          script := if max < |bytes| then [Chunk(bytes[max..])] + script[1..] else script[1..];
        case Fault(error) =>
          answer := Err(error);
          script := script[1..];
      }
    }
  }
}

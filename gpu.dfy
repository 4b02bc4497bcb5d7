/** The part of the GPU backend the core relies on: a buffer is a fixed-length
    sequence of elements, created with initial contents and later overwritten
    from offset 0 through the queue, under the validation rules the WebGPU
    specification gives for `GPUQueue.writeBuffer`. */
module Gpu {

  /** Usage flags of a buffer (a bit set in the backend). */
  datatype BufferUsage =
    | MapRead | MapWrite | CopySrc | CopyDst | Index | Vertex
    | Uniform | Storage | Indirect | QueryResolve

  /** A device buffer, as a value. `faulted` records that a write overran the
      buffer: the backend reports that as a validation error and performs no
      copy. */
  datatype DeviceBuffer<T> = DeviceBuffer(contents: seq<T>, usage: set<BufferUsage>, faulted: bool)

  /** `create_buffer_init`: a buffer exactly as long as the data, holding it. */
  function CreateInit<T>(data: seq<T>, usage: set<BufferUsage>): (b: DeviceBuffer<T>)
    ensures |b.contents| == |data| && b.contents[..|data|] == data
    ensures b.usage == usage && !b.faulted
  {
    DeviceBuffer(data, usage, false)
  }

  /** `create_buffer`: a buffer of the given length, every element `fill`
      (the backend zero-initialises). */
  function CreateFilled<T>(length: nat, fill: T, usage: set<BufferUsage>): (b: DeviceBuffer<T>)
    ensures |b.contents| == length
    ensures forall i :: 0 <= i < length ==> b.contents[i] == fill
    ensures b.usage == usage && !b.faulted
  {
    DeviceBuffer(seq(length, _ => fill), usage, false)
  }

  /** `queue.write_buffer` is accepted only for a buffer created with
      `CopyDst` usage and a range inside the buffer. */
  predicate WriteAccepted<T>(b: DeviceBuffer<T>, data: seq<T>)
  {
    CopyDst in b.usage && |data| <= |b.contents|
  }

  /** `queue.write_buffer(buffer, 0, data)`: the first `|data|` elements are
      replaced and the rest kept; a refused write copies nothing and is
      reported as a validation error. */
  function WriteAt0<T>(b: DeviceBuffer<T>, data: seq<T>): (r: DeviceBuffer<T>)
    ensures |r.contents| == |b.contents| && r.usage == b.usage
    ensures WriteAccepted(b, data) ==>
              r.contents[..|data|] == data && r.contents[|data|..] == b.contents[|data|..] &&
              r.faulted == b.faulted
    ensures !WriteAccepted(b, data) ==> r.contents == b.contents && r.faulted
  {
    if WriteAccepted(b, data) then b.(contents := data + b.contents[|data|..])
    else b.(faulted := true)
  }
}

/** The buffer allocator of the GPU backend: a by-value builder that
    describes a buffer, and `Buffer`, which remembers how many bytes it holds
    (`size`) and how many it believes it may hold (`capacity`). */
module Allocator {
  import opened Common
  import opened Gpu

  const DEFAULT_SIZE: nat := 5096

  /** The builder: every setter returns an updated copy. */
  datatype BufferAllocator = BufferAllocator(
    usage: set<BufferUsage>,
    mappedAtCreation: bool,
    size: nat,
    tag: Option<string>,
    data: Option<seq<byte>>)

  /** Vertex usage and copy destination, not mapped, 5096 bytes, no label,
      no initial data. */
  function Default(): (a: BufferAllocator)
    ensures a.usage == {Vertex, CopyDst} && !a.mappedAtCreation && a.size == DEFAULT_SIZE
    ensures a.tag == None && a.data == None
  {
    BufferAllocator({Vertex, CopyDst}, false, DEFAULT_SIZE, None, None)
  }

  function WithUsage(a: BufferAllocator, usage: set<BufferUsage>): (r: BufferAllocator)
    ensures r.usage == usage && r.(usage := a.usage) == a
  {
    a.(usage := usage)
  }

  function WithMappedAtCreation(a: BufferAllocator, mapped: bool): (r: BufferAllocator)
    ensures r.mappedAtCreation == mapped && r.(mappedAtCreation := a.mappedAtCreation) == a
  {
    a.(mappedAtCreation := mapped)
  }

  function WithSize(a: BufferAllocator, size: nat): (r: BufferAllocator)
    ensures r.size == size && r.(size := a.size) == a
  {
    a.(size := size)
  }

  function WithLabel(a: BufferAllocator, tag: string): (r: BufferAllocator)
    ensures r.tag == Some(tag) && r.(tag := a.tag) == a
  {
    a.(tag := Some(tag))
  }

  function WithData(a: BufferAllocator, data: seq<byte>): (r: BufferAllocator)
    ensures r.data == Some(data) && r.(data := a.data) == a
  {
    a.(data := Some(data))
  }

  /** `allocate_buffer`: with data, a buffer holding exactly the data (the
      configured size is ignored); without, a zeroed buffer of the configured
      size. */
  function AllocateBuffer(a: BufferAllocator): (b: DeviceBuffer<byte>)
    ensures b.usage == a.usage && !b.faulted
    ensures a.data.Some? ==> b.contents == a.data.value
    ensures a.data.None? ==> |b.contents| == a.size && forall i :: 0 <= i < a.size ==> b.contents[i] == 0
  {
    match a.data
    case Some(data) => CreateInit(data, a.usage)
    case None => CreateFilled(a.size, 0, a.usage)
  }

  /** The state of a `Buffer` besides its usage. */
  datatype BufferState = BufferState(buffer: DeviceBuffer<byte>, size: nat, capacity: nat)

  /** `allocate`: the size is the data length (0 without data), the capacity
      is the configured size. */
  function Allocated(a: BufferAllocator): BufferState
  {
    BufferState(AllocateBuffer(a), if a.data.Some? then |a.data.value| else 0, a.size)
  }

  /** `Buffer::write` as written: data larger than the capacity goes to a
      fresh buffer of twice its length, which is then dropped; the stored
      buffer is left as it was. */
  function Written(s: BufferState, usage: set<BufferUsage>, data: seq<byte>): (r: BufferState)
    ensures r.size == |data| <= r.capacity && s.capacity <= r.capacity
    ensures r.capacity != s.capacity <==> |data| > s.capacity
    ensures |data| > s.capacity ==> r.capacity == 2 * |data| && r.buffer == s.buffer
    ensures |data| <= s.capacity ==> r.buffer == WriteAt0(s.buffer, data)
  {
    if |data| > s.capacity then
      var capacity := |data| * 2;
      var _ := WriteAt0(AllocateBuffer(WithUsage(WithSize(Default(), capacity), usage)), data);
      BufferState(s.buffer, |data|, capacity)
    else
      BufferState(WriteAt0(s.buffer, data), |data|, s.capacity)
  }

  /** `Buffer::write` with the fresh buffer kept. */
  function WrittenStored(s: BufferState, usage: set<BufferUsage>, data: seq<byte>): (r: BufferState)
    ensures r.size == |data| <= r.capacity && s.capacity <= r.capacity
  {
    if |data| > s.capacity then
      var capacity := |data| * 2;
      var grown := WriteAt0(AllocateBuffer(WithUsage(WithSize(Default(), capacity), usage)), data);
      BufferState(grown, |data|, capacity)
    else
      BufferState(WriteAt0(s.buffer, data), |data|, s.capacity)
  }

  /** `buffer()`: the bytes `[0, size)` of the stored buffer. wgpu refuses
      an empty slice as well as one past the end; both are `None`. */
  function Visible(s: BufferState): Option<seq<byte>>
  {
    if 0 < s.size <= |s.buffer.contents| then Some(s.buffer.contents[..s.size]) else None
  }

  /** A state whose stored buffer really has room for `capacity` bytes and
      accepts writes. */
  predicate Backed(s: BufferState, usage: set<BufferUsage>)
  {
    CopyDst in usage && s.buffer.usage == usage && s.size <= s.capacity <= |s.buffer.contents|
  }

  class Buffer {
    var buffer: DeviceBuffer<byte>
    var size: nat
    var capacity: nat
    const usage: set<BufferUsage>

    /** `Buffer::new`. */
    constructor (buffer: DeviceBuffer<byte>, size: nat, capacity: nat, usage: set<BufferUsage>)
      ensures this.buffer == buffer && this.size == size && this.capacity == capacity && this.usage == usage
    {
      this.buffer := buffer;
      this.size := size;
      this.capacity := capacity;
      this.usage := usage;
    }

    function State(): BufferState
      reads this
    {
      BufferState(buffer, size, capacity)
    }

    /** `Buffer::write`. */
    method Write(data: seq<byte>)
      modifies this
      ensures State() == Written(old(State()), usage, data)
    {
      var len := |data|;
      if len > capacity {
        var newCapacity := len * 2;
        var grown := AllocateBuffer(WithUsage(WithSize(Default(), newCapacity), usage));
        grown := WriteAt0(grown, data);
        capacity := newCapacity;
        size := len;
      } else {
        buffer := WriteAt0(buffer, data);
        size := len;
      }
    }

    /** `Buffer::write` with the grown buffer stored. */
    method WriteStored(data: seq<byte>)
      modifies this
      ensures State() == WrittenStored(old(State()), usage, data)
    {
      var len := |data|;
      if len > capacity {
        var newCapacity := len * 2;
        var grown := AllocateBuffer(WithUsage(WithSize(Default(), newCapacity), usage));
        buffer := WriteAt0(grown, data);
        capacity := newCapacity;
        size := len;
      } else {
        buffer := WriteAt0(buffer, data);
        size := len;
      }
    }

    /** `Buffer::buffer`: `None` when `size` is 0 (a buffer allocated without
        data) or lies past the end of the stored buffer. */
    function Slice(): (r: Option<seq<byte>>)
      reads this
      ensures r.Some? <==> 0 < size <= |buffer.contents|
      ensures r.Some? ==> |r.value| == size && r.value == buffer.contents[..size]
    {
      Visible(State())
    }
  }

  /** `BufferAllocator::allocate`. */
  method Allocate(a: BufferAllocator) returns (b: Buffer)
    ensures fresh(b) && b.State() == Allocated(a) && b.usage == a.usage
  {
    var buffer := AllocateBuffer(a);
    var size := if a.data.Some? then |a.data.value| else 0;
    b := new Buffer(buffer, size, a.size, a.usage);
  }

  /** A freshly allocated buffer is backed exactly when its usage allows
      writes and, if data was given, the configured size equals its length;
      data longer than the configured size gives `size > capacity`. */
  lemma AllocatedBackedIff(a: BufferAllocator)
    ensures Backed(Allocated(a), a.usage) <==>
            CopyDst in a.usage && (a.data.Some? ==> a.size == |a.data.value|)
    ensures a.data.Some? && |a.data.value| > a.size ==> Allocated(a).size > Allocated(a).capacity
  {
  }

  /** With the grown buffer stored, every write keeps the state backed and
      makes exactly the written bytes visible (an empty write leaves nothing
      to slice), without a validation error. */
  lemma WrittenStoredShowsData(s: BufferState, usage: set<BufferUsage>, data: seq<byte>)
    requires Backed(s, usage)
    ensures var r := WrittenStored(s, usage, data);
            Backed(r, usage) && r.buffer.faulted == (s.buffer.faulted && |data| <= s.capacity)
    ensures var r := WrittenStored(s, usage, data);
            (|data| > 0 ==> Visible(r) == Some(data)) && (|data| == 0 ==> Visible(r) == None)
  {
    var r := WrittenStored(s, usage, data);
    assert r.buffer.contents[..|data|] == data;
  }

  /** The default buffer (5096 zero bytes) written with 5097 bytes: the
      capacity becomes 10194 and the size 5097, but the stored buffer still
      holds the 5096 zero bytes, so `buffer()` has no slice to give; a later
      write of 6000 bytes, within the recorded capacity, overruns the stored
      buffer and is refused. */
  lemma GrowthLosesData()
    ensures var s0 := Allocated(Default());
            var s1 := Written(s0, {Vertex, CopyDst}, seq(5097, _ => 1));
            var s2 := Written(s1, {Vertex, CopyDst}, seq(6000, _ => 1));
            s1.capacity == 10194 && s1.size == 5097 && s1.buffer == s0.buffer &&
            s1.buffer.contents == seq(5096, _ => 0) && Visible(s1) == None &&
            s2.capacity == 10194 && s2.buffer.faulted
  {
  }
}

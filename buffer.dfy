/** The parts of `GL::BufferHandle` that do more than declare an OpenGL entry
    point: the `Range` record, the overloads that take a `Range` and forward
    its offset and size, and the static templates `bindRanges` and `bindBases`,
    which unzip their input into parallel arrays before one bulk call.

    Every entry point whose body lives in the driver (the explicit-argument
    `write`, `read`, `mapRange` and `bindRange`, and the private `s_bindRange`
    and `s_bindBases`) is an abstract sink: a constructor of `Call` that
    records the arguments it receives. */
module Buffers {

  /** A `GLuint` object name or binding index. */
  type Name = nat

  /** A host address (`const void *` / `void *`); only passed along. */
  type Ptr = nat

  /** The `AccessFlags` bitfield, passed through unchanged. */
  type AccessBits = nat

  /** `GLsizei`, a signed 32-bit integer. */
  newtype Sizei = x: int | -0x8000_0000 <= x < 0x8000_0000

  const MaxSizei: int := 0x7fff_ffff

  datatype IndexedTarget = AtomicCounter | TransformFeedback | Uniform | ShaderStorage

  /** A buffer handle; `getName()` is its `name`. */
  datatype BufferHandle = BufferHandle(name: Name)

  /** `BufferHandle::Range`, a memory range within a buffer (`GLintptr offset`,
      `GLsizeiptr size`); both members default to 0. */
  datatype Range = Range(offset: int := 0, size: int := 0)

  /** A call into the driver, with the arguments it was given. */
  datatype Call =
    | Write(buffer: BufferHandle, offset: int, size: int, data: Ptr)
    | Read(buffer: BufferHandle, offset: int, size: int, data: Ptr)
    | MapRange(buffer: BufferHandle, offset: int, length: int, access: AccessBits)
    | BindRange(buffer: BufferHandle, target: IndexedTarget, index: Name, offset: int, size: int)
    | SBindRange(target: IndexedTarget, firstBinding: Name, count: Sizei,
                 buffers: seq<Name>, offsets: seq<int>, sizes: seq<int>)
    | SBindBases(target: IndexedTarget, firstBinding: Name, count: Sizei, buffers: seq<Name>)

  /** A default-constructed `Range` is the empty range at offset 0. */
  lemma DefaultRangeIsEmpty()
    ensures Range().offset == 0 && Range().size == 0
  {
  }

  /** `write(Range, data)`: forwards to `write(offset, size, data)`. */
  function WriteRange(buffer: BufferHandle, range: Range, data: Ptr): (c: Call)
    ensures c.Write? && c.buffer == buffer && c.data == data
    ensures c.offset == range.offset && c.size == range.size
  {
    Write(buffer, range.offset, range.size, data)
  }

  /** `read(Range, data)`: forwards to `read(offset, size, data)`. */
  function ReadRange(buffer: BufferHandle, range: Range, data: Ptr): (c: Call)
    ensures c.Read? && c.buffer == buffer && c.data == data
    ensures c.offset == range.offset && c.size == range.size
  {
    Read(buffer, range.offset, range.size, data)
  }

  /** `mapRange(Range, access)`: forwards to `mapRange(offset, length, access)`,
      the range's size becoming the mapped length. */
  function MapRangeOf(buffer: BufferHandle, range: Range, access: AccessBits): (c: Call)
    ensures c.MapRange? && c.buffer == buffer && c.access == access
    ensures c.offset == range.offset && c.length == range.size
  {
    MapRange(buffer, range.offset, range.size, access)
  }

  /** `bindRange(target, index, Range)`: forwards to
      `bindRange(target, index, offset, size)`. */
  function BindRangeOf(buffer: BufferHandle, target: IndexedTarget, index: Name, range: Range): (c: Call)
    ensures c.BindRange? && c.buffer == buffer && c.target == target && c.index == index
    ensures c.offset == range.offset && c.size == range.size
  {
    BindRange(buffer, target, index, range.offset, range.size)
  }

  /** A `Range` overload and the explicit-argument call with the same offset
      and size make the same call, and distinct ranges make distinct calls: the
      forwarding neither loses nor swaps the offset and the size. */
  lemma RangeOverloadsForward(buffer: BufferHandle, r1: Range, r2: Range, data: Ptr,
                              access: AccessBits, target: IndexedTarget, index: Name)
    ensures WriteRange(buffer, r1, data) == Write(buffer, r1.offset, r1.size, data)
    ensures ReadRange(buffer, r1, data) == Read(buffer, r1.offset, r1.size, data)
    ensures MapRangeOf(buffer, r1, access) == MapRange(buffer, r1.offset, r1.size, access)
    ensures BindRangeOf(buffer, target, index, r1) == BindRange(buffer, target, index, r1.offset, r1.size)
    ensures WriteRange(buffer, r1, data) == WriteRange(buffer, r2, data) <==> r1 == r2
    ensures ReadRange(buffer, r1, data) == ReadRange(buffer, r2, data) <==> r1 == r2
    ensures MapRangeOf(buffer, r1, access) == MapRangeOf(buffer, r2, access) <==> r1 == r2
    ensures BindRangeOf(buffer, target, index, r1) == BindRangeOf(buffer, target, index, r2) <==> r1 == r2
  {
  }

  /** The (buffer, range) pairs that three parallel arrays describe, the
      inverse of the unzipping in `BindRanges`. The ensures clauses only
      characterize the comprehension, element by element. */
  function Zip(buffers: seq<Name>, offsets: seq<int>, sizes: seq<int>): (r: seq<(BufferHandle, Range)>)
    requires |buffers| == |offsets| == |sizes|
    ensures |r| == |buffers|
    ensures forall i :: 0 <= i < |r| ==> r[i].0.name == buffers[i] && r[i].1 == Range(offsets[i], sizes[i])
  {
    seq(|buffers|, i requires 0 <= i < |buffers| => (BufferHandle(buffers[i]), Range(offsets[i], sizes[i])))
  }

  /** `bindRanges(target, first_binding, begin, end)`: unzips the pairs into
      the arrays `buffers`, `offsets` and `sizes`, counting them, and hands
      all of it to `s_bindRange`. */
  method BindRanges(target: IndexedTarget, firstBinding: Name, items: seq<(BufferHandle, Range)>)
    returns (call: Call)
    requires |items| <= MaxSizei
    ensures call.SBindRange? && call.target == target && call.firstBinding == firstBinding
    ensures call.count as int == |items|
    ensures |call.buffers| == |call.offsets| == |call.sizes| == |items|
    ensures forall i :: 0 <= i < |items| ==>
              && call.buffers[i] == items[i].0.name
              && call.offsets[i] == items[i].1.offset
              && call.sizes[i] == items[i].1.size
    ensures Zip(call.buffers, call.offsets, call.sizes) == items
  {
    var buffers: seq<Name> := [];
    var offsets: seq<int> := [];
    var sizes: seq<int> := [];
    var count: Sizei := 0;
    var iter := 0;
    while iter != |items|
      invariant 0 <= iter <= |items|
      invariant count as int == iter == |buffers| == |offsets| == |sizes|
      invariant forall i :: 0 <= i < iter ==>
                  && buffers[i] == items[i].0.name
                  && offsets[i] == items[i].1.offset
                  && sizes[i] == items[i].1.size
    {
      var (buffer, range) := items[iter];
      iter := iter + 1;
      buffers := buffers + [buffer.name];
      offsets := offsets + [range.offset];
      sizes := sizes + [range.size];
      count := count + 1;
    }
    call := SBindRange(target, firstBinding, count, buffers, offsets, sizes);
    assert Zip(buffers, offsets, sizes) == items;
  }

  /** `bindBases(target, first_binding, begin, end)`: collects the names of
      the handles into `buffers`, counting them, and hands them to
      `s_bindBases`. */
  method BindBases(target: IndexedTarget, firstBinding: Name, handles: seq<BufferHandle>)
    returns (call: Call)
    requires |handles| <= MaxSizei
    ensures call.SBindBases? && call.target == target && call.firstBinding == firstBinding
    ensures call.count as int == |handles| == |call.buffers|
    ensures forall i :: 0 <= i < |handles| ==> call.buffers[i] == handles[i].name
    ensures seq(|call.buffers|, i requires 0 <= i < |call.buffers| => BufferHandle(call.buffers[i])) == handles
  {
    var buffers: seq<Name> := [];
    var count: Sizei := 0;
    var iter := 0;
    while iter != |handles|
      invariant 0 <= iter <= |handles|
      invariant count as int == iter == |buffers|
      invariant forall i :: 0 <= i < iter ==> buffers[i] == handles[i].name
    {
      buffers := buffers + [handles[iter].name];
      iter := iter + 1;
      count := count + 1;
    }
    call := SBindBases(target, firstBinding, count, buffers);
  }
}

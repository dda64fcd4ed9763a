# glutils: the ownership guard and buffer bulk binding, in Dafny

glutils is a thin C++ wrapper around OpenGL. Almost all of it forwards to
OpenGL entry points. Two parts have behaviour of their own, and this project
models those two and proves properties about them.

- `guard.dfy` (module `Guards`) models `GL::Guard<HandleType>`. This RAII guard
  owns one OpenGL object name and destroys it when the guard is reset,
  move-assigned over or destroyed, like `std::unique_ptr`. `Guard` is a class
  whose one mutable field, `handle`, stands for `m_handle`. The null name 0
  stands for `HandleType()`. `HandleType::create` and `HandleType::destroy` are
  calls into the driver. Class `Driver` models them:
  - `Create` hands out a non-null name it never handed out before. Unlike
    OpenGL, it never hands out a deleted name again, so each name stands for
    one object.
  - `Destroy` appends its argument to a ghost destroy log.
  The driver also keeps a ghost ledger, `owner`, that records which guard owns
  each live name. The guard's invariant `Valid()` says two things:
  - The guard is empty, or it is the only owner of a name that was created and
    not yet destroyed.
  - The driver's destroy log never holds a non-null name twice.

  Every guard operation preserves the driver's `Valid()`. Every guard operation except
  the destructor `Dispose` also preserves the guard's `Valid()`: after
  `Dispose` the guard no longer owns its name. `Adopt` and `Reset` require the
  name they are given to be free. Under these rules, no sequence of creates,
  moves, releases, resets and destructions destroys a name twice.
- `buffer.dfy` (module `Buffers`) models these parts of `GL::BufferHandle`:
  - the `Range` record;
  - the four overloads that take a `Range` and forward its offset and size;
  - the static templates `bindRanges` and `bindBases`, which unzip their input
    into parallel arrays before one bulk call into the driver.

  A driver entry point whose body is not in the header is an abstract sink: a
  constructor of the datatype `Call` that records the arguments it was given.
  This covers `write`, `read`, `mapRange` and `bindRange` with explicit
  arguments, and the private `s_bindRange` and `s_bindBases`.

The C++ input iterator range becomes a `seq`. Each `std::vector` that the loops
fill with `emplace_back` becomes a `seq` local that the loop extends. The
`GLsizei count` is a 32-bit signed newtype.

## Model

| member | source | states |
|---|---|---|
| `Guards.DestroyedOnceAppend` | include/glutils/guard.hpp:80-84 | Destroying a name keeps the destroy log free of double destruction exactly when that name is null or not yet destroyed (both directions) |
| `Guards.Driver.Create` | include/glutils/guard.hpp:18-19 | `HandleType::create(args...)`, called by the creating constructor (declared for buffers at buffer.hpp:17), returns a non-null name it never returned before, logs it as created and leaves the destroy log and the owner ledger as they were |
| `Guards.Driver.Destroy` | include/glutils/guard.hpp:29 | `HandleType::destroy(h)`, called by the destructor and by `reset` at guard.hpp:82 (declared for buffers at buffer.hpp:19), appends exactly `h` to the destroy log |
| `Guards.Guard.Create` | include/glutils/guard.hpp:17-20 | The creating constructor holds a freshly created non-null name, becomes its only owner and destroys nothing |
| `Guards.Guard.Adopt` | include/glutils/guard.hpp:22-24 | Constructing from an existing name holds exactly that name and creates and destroys nothing |
| `Guards.Guard.Move` | include/glutils/guard.hpp:32-37 | The move constructor holds `other`'s former name and leaves `other` holding null. Nothing is created or destroyed, and the ledger moves ownership from `other` to the new guard |
| `Guards.Guard.GetHandle` | include/glutils/guard.hpp:51-53 | `getHandle()` returns the held name and changes nothing |
| `Guards.Guard.Deref` | include/glutils/guard.hpp:55-57 | `operator*` returns the held name and changes nothing |
| `Guards.Guard.Release` | include/glutils/guard.hpp:63-73 | `release()` returns exactly the name held before and leaves the guard holding null. The destroy log is unchanged, and the returned name is left live and unowned |
| `Guards.Guard.Reset` | include/glutils/guard.hpp:75-84 | `reset(h)` appends exactly the old name to the destroy log, once, even when it is null, and then holds `h`. The invariant, and with it destroy-at-most-once, is preserved |
| `Guards.Guard.MoveAssign` | include/glutils/guard.hpp:39-49 | Move assignment destroys this guard's old name, then holds `other`'s former name and leaves `other` holding null, and returns this guard. A self-move keeps the name and destroys only the null name |
| `Guards.Guard.Dispose` | include/glutils/guard.hpp:26-30 | The destructor appends exactly the held name to the destroy log, and the driver's invariant (no name destroyed twice) still holds |
| `Guards.CreateThenMove` | include/glutils/guard.hpp:17-37 | A guard emptied by a move construction destroys only the null name when it is destroyed, and the moved-into guard still owns the fresh name |
| `Guards.MoveAssignThenDrop` | include/glutils/guard.hpp:22-49 | Moving a name into an empty guard by move assignment, then destroying the moved-from guard, destroys only null names. The name lives on in the new guard |
| `Guards.HandOff` | include/glutils/guard.hpp:8-49 | A name created by one guard and then moved through two more guards appears in the destroy log exactly once after all three guards are destroyed |
| `Buffers.DefaultRangeIsEmpty` | include/glutils/buffer.hpp:21-26 | A default `Range` has offset 0 and size 0 |
| `Buffers.WriteRange` | include/glutils/buffer.hpp:216-217 | `write(Range, data)` makes the `write` call with the range's offset then its size, and the same buffer and data |
| `Buffers.ReadRange` | include/glutils/buffer.hpp:228-229 | `read(Range, data)` makes the `read` call with the range's offset then its size, and the same buffer and data |
| `Buffers.MapRangeOf` | include/glutils/buffer.hpp:251-255 | `mapRange(Range, access)` makes the `mapRange` call with the range's offset, its size as the length, and the same access flags |
| `Buffers.BindRangeOf` | include/glutils/buffer.hpp:279-282 | `bindRange(target, index, Range)` makes the `bindRange` call with the same target and index, then the range's offset and size |
| `Buffers.RangeOverloadsForward` | include/glutils/buffer.hpp:214-282 | Each `Range` overload makes the same call as the explicit-argument version given the same offset and size. Two overload calls agree exactly when their ranges agree |
| `Buffers.BindRanges` | include/glutils/buffer.hpp:293-312 | `bindRanges` calls `s_bindRange` once, with the same target and first binding. `count` equals the number of input pairs, and `buffers`, `offsets` and `sizes` each have `count` entries. Entry i of each holds the i-th pair's name, offset and size, in input order, and zipping the three arrays gives back the input |
| `Buffers.BindBases` | include/glutils/buffer.hpp:314-329 | `bindBases` calls `s_bindBases` once, with the same target and first binding. `count` equals the number of input handles, and entry i of `buffers` is the i-th handle's name, in order |

## Left out

- `Guards.Guard.Adopt`: requires `driver.Free(h)`, meaning `h` is null, or live and owned by no guard. The C++ constructor accepts any handle. Giving it a name that another guard owns or that was already destroyed leads to a second destroy, which is the same misuse as building two `std::unique_ptr`s from one pointer. The model states the contract under which the guard keeps its promise.
- `Guards.Guard.Reset`: requires `driver.Free(h)`, for the same reason. The case where `h` equals the held non-null name (`reset(getHandle())`) is therefore excluded. The C++ code destroys that name and then goes on holding it, so the destructor would destroy it a second time.
- `Guards.Guard.MoveAssign`: requires both guards to use the same driver. The C++ code has one global driver per handle type.
- `operator->` is not modelled as a separate member. It returns the address of `m_handle`, and Dafny has no address-of operator. Reading through that pointer gives the held name, which `GetHandle` and `Deref` model.
- `Guards.Driver.Create`: never hands out a name that was destroyed before. OpenGL may do so: a deleted name becomes unused, and a later create can return it. So in a correct program the real destroy log can hold one name twice, once for each object. `DestroyedOnce` stands for "no object is destroyed twice" only because of this choice. Logging (name, creation index) pairs would lift it.
- `Guards.Driver.Create`: the name allocation is an abstraction of the OpenGL driver (a counter). The real `HandleType::create` is in a source file that is not part of this model. It can also take constructor arguments (the variadic `Args...`), which this model drops.
- The driver's ledger (`created`, `destroyed`, `owner`) is ghost state. It stands for what the OpenGL driver knows and has no counterpart in the C++ guard.
- The destructor is a method, `Dispose`, that callers invoke. Dafny has no destructors, and a guard object stays allocated after `Dispose`.
- `Buffers.BindRanges` and `Buffers.BindBases` require at most 2^31-1 input elements. `count` is a signed 32-bit `GLsizei`, and incrementing it past that value is undefined behaviour in C++.
- Everything whose body lives in the OpenGL driver or in a source file that is not part of this model is left out, or kept only as a `Call` sink. This covers buffer creation and destruction, the parameter queries and accessors, `allocate` and `allocateImmutable`, the explicit-argument `write`, `read`, `map`, `mapRange`, `unmap`, `bindBase`, `bindRange` and `copy`, and `s_bindRange` and `s_bindBases`. Their meaning is defined by the OpenGL 4.6 Core Profile specification.
- The `operator|` and `operator&` overloads on `AccessFlags` and `StorageFlags` are only declared in the header, so their bit algebra is not modelled. Access flags are passed through as an uninterpreted number.
- The numeric values of the enums (`Parameter`, `AccessMode`, `AccessFlags`, `Usage`, `StorageFlags`, `IndexedTarget`) are OpenGL registry constants with no behaviour. `IndexedTarget` is a plain enumeration here.
- `include/glutils/vertex_array.hpp` is not part of this model. Every member in it only forwards to a `glVertexArray*` call.
- `Object<HandleType>` and `Handle` (object.hpp and handle.hpp) are not part of this model. A buffer handle is its name, and `getName()` is that name.
- The template and iterator generality is dropped. The input iterator range is a sequence, and a name is an unbounded natural number rather than a 32-bit `GLuint`.

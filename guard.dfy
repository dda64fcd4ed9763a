/** The RAII ownership guard `GL::Guard<HandleType>`: a guard holds at most one
    OpenGL object name and destroys it when it is reset, move-assigned over or
    disposed of, like `std::unique_ptr`.

    `HandleType::create` and `HandleType::destroy` are calls into the OpenGL
    driver. They are modelled by `Driver`, which hands out names it never
    handed out before and keeps a log of every name created and destroyed.
    OpenGL may hand out a deleted name again; this driver does not, so each
    name stands for one object and a name destroyed twice is an object
    destroyed twice.
    The driver also keeps a ghost ledger of which guard owns which name, so
    that "a name has exactly one owner and is destroyed at most once" can be
    stated as an object invariant. */
module Guards {

  /** An OpenGL object name. `Null` (0) is the value of `HandleType()`. */
  type Handle = nat

  const Null: Handle := 0

  /** No non-null name occurs twice in a destroy log (destroying 0 is allowed
      any number of times, as OpenGL silently ignores it). */
  ghost predicate DestroyedOnce(log: seq<Handle>)
  {
    forall i, j :: 0 <= i < j < |log| && log[i] == log[j] ==> log[i] == Null
  }

  /** Appending `h` to a log keeps it free of double destruction exactly when
      `h` is null or has not been destroyed yet. */
  lemma DestroyedOnceAppend(log: seq<Handle>, h: Handle)
    ensures DestroyedOnce(log + [h]) <==> DestroyedOnce(log) && (h == Null || h !in log)
  {
    var log' := log + [h];
    assert forall i :: 0 <= i < |log| ==> log'[i] == log[i];
    if h != Null && h in log {
      var i :| 0 <= i < |log| && log[i] == h;
      assert log'[i] == log'[|log|] && log'[i] != Null;
    }
  }

  /** The owner ledger after `g` takes `h` (taking the null name records nothing). */
  ghost function Claim(owner: map<Handle, Guard>, h: Handle, g: Guard): map<Handle, Guard>
  {
    if h == Null then owner else owner[h := g]
  }

  /** The OpenGL driver as far as the guard sees it: `create` and `destroy`. */
  class Driver {
    /** Every name handed out so far is below `next`. */
    var next: Handle
    ghost var created: seq<Handle>
    ghost var destroyed: seq<Handle>
    /** Which guard owns each live name that some guard holds. */
    ghost var owner: map<Handle, Guard>

    ghost predicate Valid()
      reads this
    {
      && Null < next
      && (forall h :: h in created ==> Null < h < next)
      && (forall h :: h in destroyed && h != Null ==> h in created)
      && DestroyedOnce(destroyed)
      && (forall h :: h in owner ==> h != Null && h in created && h !in destroyed)
    }

    /** A name a guard may take ownership of: null, or created, not yet
        destroyed and owned by no guard. */
    ghost predicate Free(h: Handle)
      reads this
    {
      h == Null || (h in created && h !in destroyed && h !in owner)
    }

    constructor ()
      ensures Valid()
      ensures created == [] && destroyed == [] && owner == map[]
    {
      next := 1;
      created := [];
      destroyed := [];
      owner := map[];
    }

    /** `HandleType::create()`: a non-null name never handed out before. */
    method Create() returns (h: Handle)
      requires Valid()
      modifies this`next, this`created
      ensures Valid()
      ensures h != Null && h !in old(created) && h !in destroyed && h !in owner
      ensures created == old(created) + [h]
    {
      h := next;
      next := next + 1;
      created := created + [h];
    }

    /** `HandleType::destroy(h)`: recorded in the destroy log. */
    method Destroy(h: Handle)
      modifies this`destroyed
      ensures destroyed == old(destroyed) + [h]
    {
      destroyed := destroyed + [h];
    }
  }

  /** `GL::Guard<HandleType>`, whose single field is `m_handle`. */
  class Guard {
    const driver: Driver
    var handle: Handle

    /** The guard is empty, or it is the sole owner of a live name. */
    ghost predicate Valid()
      reads this, driver
    {
      && driver.Valid()
      && (handle != Null ==> handle in driver.owner && driver.owner[handle] == this)
    }

    /** Creating constructor: takes ownership of a freshly created object. */
    constructor Create(d: Driver)
      requires d.Valid()
      modifies d`next, d`created, d`owner
      ensures Valid() && driver == d
      ensures handle != Null && handle !in old(d.created)
      ensures d.created == old(d.created) + [handle]
      ensures d.destroyed == old(d.destroyed)
      ensures d.owner == Claim(old(d.owner), handle, this)
    {
      driver := d;
      var h := d.Create();
      handle := h;
      new;
      d.owner := Claim(d.owner, h, this);
    }

    /** Constructor for an existing object: holds exactly `h`, creates and
        destroys nothing. */
    constructor Adopt(d: Driver, h: Handle)
      requires d.Valid() && d.Free(h)
      modifies d`owner
      ensures Valid() && driver == d && handle == h
      ensures d.created == old(d.created) && d.destroyed == old(d.destroyed)
      ensures d.owner == Claim(old(d.owner), h, this)
    {
      driver := d;
      handle := h;
      new;
      d.owner := Claim(d.owner, h, this);
    }

    /** Move constructor: takes `other`'s name, leaving `other` empty; nothing
        is created or destroyed. */
    constructor Move(other: Guard)
      requires other.Valid()
      modifies other`handle, other.driver`owner
      ensures Valid() && other.Valid() && driver == other.driver
      ensures handle == old(other.handle) && other.handle == Null
      ensures driver.created == old(other.driver.created) && driver.destroyed == old(other.driver.destroyed)
      ensures driver.owner == Claim(old(other.driver.owner) - {handle}, handle, this)
    {
      driver := other.driver;
      var h := other.Release();
      handle := h;
      new;
      driver.owner := Claim(driver.owner, h, this);
    }

    /** `getHandle()`: the held name; changes nothing. */
    method GetHandle() returns (h: Handle)
      ensures h == handle
    {
      h := handle;
    }

    /** `operator*`: the same as `getHandle()`. */
    method Deref() returns (h: Handle)
      ensures h == handle
    {
      h := GetHandle();
    }

    /** `release()`: gives up ownership without destroying anything and
        returns the name held before; the guard is left empty. */
    method Release() returns (h: Handle)
      requires Valid()
      modifies this`handle, driver`owner
      ensures Valid() && driver.Free(h)
      ensures h == old(handle) && handle == Null
      ensures driver.created == old(driver.created) && driver.destroyed == old(driver.destroyed)
      ensures driver.owner == old(driver.owner) - {h}
    {
      h := handle;
      handle := Null;
      driver.owner := driver.owner - {h};
    }

    /** `reset(h)`: destroys the name held before, once, even when it is null,
        and then holds `h`. */
    method Reset(h: Handle)
      requires Valid() && driver.Free(h)
      modifies this`handle, driver`destroyed, driver`owner
      ensures Valid() && handle == h
      ensures driver.destroyed == old(driver.destroyed) + [old(handle)]
      ensures driver.owner == Claim(old(driver.owner) - {old(handle)}, h, this)
    {
      DestroyedOnceAppend(driver.destroyed, handle);
      driver.Destroy(handle);
      driver.owner := driver.owner - {handle};
      handle := h;
      driver.owner := Claim(driver.owner, h, this);
    }

    /** Move assignment `*this = std::move(other)`: destroys the name this
        guard held and takes `other`'s, leaving `other` empty, and returns this
        guard. A self-move keeps the name and destroys only the null name. */
    method MoveAssign(other: Guard) returns (self: Guard)
      requires Valid() && other.Valid() && other.driver == driver
      modifies this`handle, other`handle, driver`destroyed, driver`owner
      ensures self == this
      ensures Valid() && other.Valid()
      ensures handle == old(other.handle)
      ensures other != this ==> other.handle == Null
      ensures driver.destroyed == old(driver.destroyed) + [if other == this then Null else old(handle)]
      ensures driver.owner
           == Claim(old(driver.owner) - {old(handle), old(other.handle)}, old(other.handle), this)
    {
      var h := other.Release();
      Reset(h);
      self := this;
    }

    /** The destructor: destroys the held name, which is null after a release
        or a move-out. */
    method Dispose()
      requires Valid()
      modifies driver`destroyed, driver`owner
      ensures driver.Valid()
      ensures driver.destroyed == old(driver.destroyed) + [handle]
      ensures driver.owner == old(driver.owner) - {handle}
    {
      DestroyedOnceAppend(driver.destroyed, handle);
      driver.Destroy(handle);
      driver.owner := driver.owner - {handle};
    }
  }

  /** A guard that takes a freshly created name and then gives it up by a
      move construction is left empty: destroying it destroys only the null
      name, and the name lives on in the guard moved into. */
  method CreateThenMove(d: Driver) returns (b: Guard)
    requires d.Valid()
    modifies d`next, d`created, d`destroyed, d`owner
    ensures fresh(b) && b.Valid() && b.driver == d
    ensures b.handle != Null && b.handle in d.created && b.handle !in old(d.created)
    ensures d.destroyed == old(d.destroyed) + [Null]
  {
    var a := new Guard.Create(d);
    b := new Guard.Move(a);
    a.Dispose();
  }

  /** Moving the name of `b` into a new empty guard by move assignment
      destroys only null names: the empty guard's own, and `b`'s once it is
      destroyed after the move. */
  method MoveAssignThenDrop(b: Guard) returns (c: Guard)
    requires b.Valid()
    modifies b`handle, b.driver`destroyed, b.driver`owner
    ensures fresh(c) && c.Valid() && c.driver == b.driver && c.handle == old(b.handle)
    ensures c.driver.destroyed == old(b.driver.destroyed) + [Null, Null]
  {
    c := new Guard.Adopt(b.driver, Null);
    assert b.Valid();
    var self := c.MoveAssign(b);
    b.Dispose();
  }

  /** A name created by one guard, moved into a second by move construction
      and from there into a third by move assignment is destroyed exactly once
      when all three guards are destroyed; the two guards left empty destroy
      only the null name. */
  method HandOff(d: Driver) returns (h: Handle)
    requires d.Valid()
    modifies d`next, d`created, d`destroyed, d`owner
    ensures d.Valid() && h != Null && h in d.created && h !in old(d.created)
    ensures d.destroyed == old(d.destroyed) + [Null, Null, Null, h]
    ensures multiset(d.destroyed)[h] == 1
  {
    ghost var log := d.destroyed;
    var b := CreateThenMove(d);
    h := b.handle;
    assert h !in log;
    var c := MoveAssignThenDrop(b);
    c.Dispose();
    assert d.destroyed == log + [Null, Null, Null, h];
  }
}

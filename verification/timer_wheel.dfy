/** The timer wheel shared by the cluster server and the TCP server handler. */
module TimerWheels {

  /** The contents of a wheel: one set of keys per slot, and the two slot pointers. */
  datatype Wheel<T> = Wheel(data: seq<set<T>>, read: nat, write: nat) {

    /** The write pointer stays one slot behind the read pointer, around the ring. */
    ghost predicate Ok() {
      && read < |data|
      && write == if read == 0 then |data| - 1 else read - 1
    }

    function Next(slot: nat): nat {
      if slot + 1 == |data| then 0 else slot + 1
    }

    function Inserted(key: T): Wheel<T>
      requires write < |data|
    {
      this.(data := data[write := data[write] + {key}])
    }

    function Removed(key: T, slot: nat): Wheel<T>
      requires slot < |data|
    {
      this.(data := data[slot := data[slot] - {key}])
    }

    /** The wheel after one expiration; the keys of slot `read` are the ones that expire. */
    function Turned(): Wheel<T>
      requires read < |data|
    {
      Wheel(data[read := {}], Next(read), Next(write))
    }

    /** How many expirations ago `slot` was the write slot. */
    function Age(slot: nat): (a: nat)
      requires Ok() && slot < |data|
      ensures a < |data|
    {
      if slot <= write then write - slot else write + |data| - slot
    }
  }

  function EmptyWheel<T>(size: nat): Wheel<T>
    requires size >= 1
  {
    Wheel(seq(size, _ => {}), 0, size - 1)
  }

  lemma NextIsModular<T>(w: Wheel<T>, slot: nat)
    requires slot < |w.data|
    ensures w.Next(slot) == (slot + 1) % |w.data|
  {
  }

  /** Turning the wheel makes every slot one expiration older, except the slot just emptied,
      which becomes the new write slot. */
  lemma TurnedAges<T>(w: Wheel<T>, slot: nat)
    requires w.Ok() && slot < |w.data|
    ensures w.Turned().Ok()
    ensures slot == w.read <==> w.Age(slot) == |w.data| - 1
    ensures w.Turned().Age(slot) == if slot == w.read then 0 else w.Age(slot) + 1
  {
  }

  class TimerWheel<T(==)> {
    const size: nat
    var data: seq<set<T>>
    var currentRead: nat
    var currentWrite: nat

    function Value(): Wheel<T>
      reads this
    {
      Wheel(data, currentRead, currentWrite)
    }

    ghost predicate Valid()
      reads this
    {
      size == |data| && Value().Ok()
    }

    constructor (size: nat)
      requires size >= 1
      ensures Valid() && this.size == size
      ensures Value() == EmptyWheel(size)
    {
      var slots: seq<set<T>> := [];
      for i := 0 to size
        invariant slots == seq(i, _ => {})
      {
        slots := slots + [{}];
      }
      this.size := size;
      data := slots;
      currentRead := 0;
      currentWrite := size - 1;
    }

    /** Insert into the current write slot; the slot is returned for a later `Remove`. */
    method Insert(key: T) returns (slot: nat)
      requires Valid()
      modifies this
      ensures Valid()
      ensures slot == old(currentWrite) && Value() == old(Value()).Inserted(key)
    {
      data := data[currentWrite := data[currentWrite] + {key}];
      slot := currentWrite;
    }

    method Remove(key: T, slot: nat)
      requires Valid() && slot < size
      modifies this
      ensures Valid()
      ensures Value() == old(Value()).Removed(key, slot)
    {
      data := data[slot := data[slot] - {key}];
    }

    /** Push an empty slot, swap it into the read position, and advance both pointers. */
    method Expire() returns (expired: set<T>)
      requires Valid()
      modifies this
      ensures Valid()
      ensures expired == old(data[currentRead]) && Value() == old(Value()).Turned()
    {
      var grown := data + [{}];
      expired := grown[currentRead];
      data := grown[currentRead := grown[|grown| - 1]][..|grown| - 1];
      assert data == old(data)[currentRead := {}];
      UpdatePointers();
    }

    method UpdatePointers()
      requires Valid()
      modifies this`currentRead, this`currentWrite
      ensures Valid()
      ensures currentRead == Value().Next(old(currentRead))
      ensures currentWrite == Value().Next(old(currentWrite))
    {
      NextIsModular(Value(), currentRead);
      NextIsModular(Value(), currentWrite);
      currentWrite := (currentWrite + 1) % size;
      currentRead := (currentRead + 1) % size;
    }
  }
}

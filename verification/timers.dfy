/** The timer wheel refines a plain set of (key, deadline) pairs, where deadlines count
    expirations: a key inserted after `now` expirations is due at expiration `now + size`. */
module Timers {
  import opened TimerWheels

  datatype Timers<T(==)> = Timers(size: nat, now: nat, due: set<(T, nat)>)

  /** `n` modulo `size`, by repeated subtraction. */
  function Wrap(n: nat, size: nat): (r: nat)
    requires size >= 1
    ensures r < size
  {
    if n < size then n else Wrap(n - size, size)
  }

  /** The slot that expiration number `deadline` (counting from 1) empties. */
  function SlotOf(deadline: nat, size: nat): (slot: nat)
    requires deadline >= 1 && size >= 1
  {
    Wrap(deadline - 1, size)
  }

  datatype Op<T> = Insert(key: T) | Remove(key: T, slot: nat) | Expire

  ghost predicate Legal<T>(op: Op<T>, size: nat) {
    op.Remove? ==> op.slot < size
  }

  /** One operation on the wheel, and what it returns when it is an expiration. */
  function WheelStep<T>(w: Wheel<T>, op: Op<T>): (Wheel<T>, seq<set<T>>)
    requires w.Ok() && Legal(op, |w.data|)
  {
    match op
    case Insert(key) => (w.Inserted(key), [])
    case Remove(key, slot) => (w.Removed(key, slot), [])
    case Expire => (w.Turned(), [w.data[w.read]])
  }

  /** The same operation on the set of pairs. */
  ghost function TimersStep<T>(t: Timers<T>, op: Op<T>): (Timers<T>, seq<set<T>>)
    requires t.size >= 1
  {
    match op
    case Insert(key) => (t.(due := t.due + {(key, t.now + t.size)}), [])
    case Remove(key, slot) =>
      (t.(due := set p | p in t.due && !(p.0 == key && p.1 >= 1 && SlotOf(p.1, t.size) == slot)), [])
    case Expire =>
      (t.(now := t.now + 1, due := set p | p in t.due && p.1 != t.now + 1),
       [set p | p in t.due && p.1 == t.now + 1 :: p.0])
  }

  function WheelRun<T>(w: Wheel<T>, ops: seq<Op<T>>): (r: (Wheel<T>, seq<set<T>>))
    requires w.Ok() && forall op | op in ops :: Legal(op, |w.data|)
    ensures r.0.Ok() && |r.0.data| == |w.data|
    decreases ops
  {
    if ops == [] then (w, [])
    else
      var (w1, out1) := WheelStep(w, ops[0]);
      var (w2, out2) := WheelRun(w1, ops[1..]);
      (w2, out1 + out2)
  }

  ghost function TimersRun<T>(t: Timers<T>, ops: seq<Op<T>>): (r: (Timers<T>, seq<set<T>>))
    requires t.size >= 1
    ensures r.0.size == t.size
    decreases ops
  {
    if ops == [] then (t, [])
    else
      var (t1, out1) := TimersStep(t, ops[0]);
      var (t2, out2) := TimersRun(t1, ops[1..]);
      (t2, out1 + out2)
  }

  /** `w` holds exactly the timers of `t`: a pair is pending when its deadline lies within the
      next `size` expirations and its key sits in the slot of that deadline. */
  ghost predicate Represents<T(!new)>(w: Wheel<T>, t: Timers<T>) {
    && w.Ok()
    && t.size == |w.data|
    && w.read == Wrap(t.now, t.size)
    && forall key, d: nat :: (key, d) in t.due <==>
         t.now < d <= t.now + t.size && key in w.data[SlotOf(d, t.size)]
  }

  lemma {:induction false} WrapSuccessor(n: nat, size: nat)
    requires size >= 1
    ensures Wrap(n + 1, size) == if Wrap(n, size) + 1 == size then 0 else Wrap(n, size) + 1
  {
    if n >= size {
      WrapSuccessor(n - size, size);
    }
  }

  /** Numbers less than `size` apart wrap to different slots. */
  lemma {:induction false} WrapInjective(a: nat, b: nat, size: nat)
    requires size >= 1 && a <= b < a + size && Wrap(a, size) == Wrap(b, size)
    ensures a == b
  {
    if a >= size {
      WrapInjective(a - size, b - size, size);
    }
  }

  /** Deadlines that are pending at the same time fall into different slots. */
  lemma PendingSlotsDiffer(now: nat, size: nat, d: nat, e: nat)
    requires size >= 1 && now < d <= now + size && now < e <= now + size
    requires SlotOf(d, size) == SlotOf(e, size)
    ensures d == e
  {
    if d <= e {
      WrapInjective(d - 1, e - 1, size);
    } else {
      WrapInjective(e - 1, d - 1, size);
    }
  }

  /** An insertion is due after `size` expirations, and lands in the slot the wheel writes. */
  lemma WriteSlot<T(!new)>(w: Wheel<T>, t: Timers<T>)
    requires Represents(w, t)
    ensures SlotOf(t.now + t.size, t.size) == w.write
    ensures SlotOf(t.now + 1, t.size) == w.read
  {
    WrapSuccessor(t.now + t.size - 1, t.size);
  }

  lemma InsertRefines<T(!new)>(w: Wheel<T>, t: Timers<T>, key: T)
    requires Represents(w, t)
    ensures Represents(w.Inserted(key), TimersStep(t, Insert(key)).0)
  {
    WriteSlot(w, t);
    var w', t' := w.Inserted(key), TimersStep(t, Insert(key)).0;
    forall k, d: nat
      ensures (k, d) in t'.due <==>
        t'.now < d <= t'.now + t'.size && k in w'.data[SlotOf(d, t'.size)]
    {
      if t.now < d <= t.now + t.size && SlotOf(d, t.size) == w.write {
        PendingSlotsDiffer(t.now, t.size, d, t.now + t.size);
      }
      assert (k, d) in t'.due <==> (k, d) in t.due || (k == key && d == t.now + t.size);
    }
  }

  lemma RemoveRefines<T(!new)>(w: Wheel<T>, t: Timers<T>, key: T, slot: nat)
    requires Represents(w, t) && slot < |w.data|
    ensures Represents(w.Removed(key, slot), TimersStep(t, Remove(key, slot)).0)
  {
  }

  lemma ExpireRefines<T(!new)>(w: Wheel<T>, t: Timers<T>)
    requires Represents(w, t)
    ensures Represents(w.Turned(), TimersStep(t, Expire).0)
    ensures [w.data[w.read]] == TimersStep(t, Expire).1
  {
    WriteSlot(w, t);
    WrapSuccessor(t.now, t.size);
    var w', t' := w.Turned(), TimersStep(t, Expire).0;
    forall k, d: nat
      ensures (k, d) in t'.due <==>
        t'.now < d <= t'.now + t'.size && k in w'.data[SlotOf(d, t'.size)]
    {
      if t.now < d <= t.now + t.size && SlotOf(d, t.size) == w.read {
        PendingSlotsDiffer(t.now, t.size, d, t.now + 1);
      }
    }
    var fired := TimersStep(t, Expire).1[0];
    forall k ensures k in w.data[w.read] <==> k in fired {
      assert k in w.data[w.read] <==> (k, t.now + 1) in t.due;
      if (k, t.now + 1) in t.due {
        assert (k, t.now + 1).0 in fired;
      }
    }
    assert w.data[w.read] == fired;
  }

  /** Any sequence of operations on a wheel of any size returns what the same operations on the
      set of (key, deadline) pairs return, and leaves the two in correspondence. */
  lemma {:induction false} WheelRefinesTimers<T(!new)>(w: Wheel<T>, t: Timers<T>, ops: seq<Op<T>>)
    requires Represents(w, t)
    requires forall op | op in ops :: Legal(op, |w.data|)
    ensures WheelRun(w, ops).1 == TimersRun(t, ops).1
    ensures Represents(WheelRun(w, ops).0, TimersRun(t, ops).0)
    decreases ops
  {
    if ops != [] {
      var op := ops[0];
      assert op in ops && Legal(op, |w.data|);
      match op {
        case Insert(key) => InsertRefines(w, t, key);
        case Remove(key, slot) => RemoveRefines(w, t, key, slot);
        case Expire => ExpireRefines(w, t);
      }
      WheelRefinesTimers(WheelStep(w, op).0, TimersStep(t, op).0, ops[1..]);
    }
  }

  /** A new wheel represents the empty set of timers. */
  lemma NewWheelIsEmpty<T(!new)>(size: nat)
    requires size >= 1
    ensures Represents(EmptyWheel<T>(size), Timers(size, 0, {}))
  {
    var w := EmptyWheel<T>(size);
    forall key, d: nat | d >= 1 ensures key !in w.data[SlotOf(d, size)] {
      assert SlotOf(d, size) < size;
    }
  }

  ghost predicate Mentions<T>(op: Op<T>, key: T) {
    !op.Expire? && op.key == key
  }

  ghost predicate OnlyDueAt<T(!new)>(t: Timers<T>, key: T, deadline: nat) {
    forall d: nat :: (key, d) in t.due <==> d == deadline
  }

  ghost predicate NotDue<T(!new)>(t: Timers<T>, key: T) {
    forall d: nat :: (key, d) !in t.due
  }

  /** Operations on other keys leave the deadlines of `key` as they are, until one passes. */
  lemma OtherKeysKept<T(!new)>(t: Timers<T>, op: Op<T>, key: T, d: nat)
    requires t.size >= 1 && !Mentions(op, key)
    ensures (key, d) in TimersStep(t, op).0.due <==>
              (key, d) in t.due && !(op.Expire? && d == t.now + 1)
  {
  }

  lemma {:induction false} NeverFires<T(!new)>(t: Timers<T>, key: T, ops: seq<Op<T>>)
    requires t.size >= 1 && NotDue(t, key)
    requires forall op | op in ops :: !Mentions(op, key)
    ensures forall j | 0 <= j < |TimersRun(t, ops).1| :: key !in TimersRun(t, ops).1[j]
    decreases ops
  {
    if ops != [] {
      var (t', out) := TimersStep(t, ops[0]);
      forall d: nat ensures (key, d) !in t'.due {
        OtherKeysKept(t, ops[0], key, d);
      }
      if ops[0].Expire? {
        assert key !in out[0];
      }
      NeverFires(t', key, ops[1..]);
    }
  }

  lemma {:induction false} FiresOnce<T(!new)>(t: Timers<T>, key: T, deadline: nat, ops: seq<Op<T>>)
    requires t.size >= 1 && OnlyDueAt(t, key, deadline) && t.now < deadline
    requires forall op | op in ops :: !Mentions(op, key)
    ensures forall j | 0 <= j < |TimersRun(t, ops).1| ::
              key in TimersRun(t, ops).1[j] <==> j == deadline - t.now - 1
    decreases ops
  {
    if ops != [] {
      var (t', out) := TimersStep(t, ops[0]);
      var rest := ops[1..];
      forall d: nat
        ensures (key, d) in t'.due <==> d == deadline && !(ops[0].Expire? && d == t.now + 1)
      {
        OtherKeysKept(t, ops[0], key, d);
      }
      if ops[0].Expire? {
        assert (key, deadline) in t.due;
        if t.now + 1 == deadline {
          assert (key, deadline).0 in out[0];
          NeverFires(t', key, rest);
        } else {
          assert key !in out[0];
          FiresOnce(t', key, deadline, rest);
        }
      } else {
        FiresOnce(t', key, deadline, rest);
      }
    }
  }

  /** A key inserted once and not removed is returned by exactly one expiration: number `size`
      after the insertion, no earlier one and no later one. */
  lemma InsertedKeyFiresOnce<T(!new)>(w: Wheel<T>, t: Timers<T>, key: T, ops: seq<Op<T>>)
    requires Represents(w, t)
    requires forall i | 0 <= i < |w.data| :: key !in w.data[i]
    requires forall op | op in ops :: Legal(op, |w.data|) && !Mentions(op, key)
    ensures forall j | 0 <= j < |WheelRun(w.Inserted(key), ops).1| ::
              key in WheelRun(w.Inserted(key), ops).1[j] <==> j == |w.data| - 1
  {
    var t' := TimersStep(t, Insert(key)).0;
    InsertRefines(w, t, key);
    forall d: nat ensures (key, d) in t'.due <==> d == t.now + t.size {
      assert (key, d) !in t.due;
    }
    WheelRefinesTimers(w.Inserted(key), t', ops);
    FiresOnce(t', key, t.now + t.size, ops);
  }

  /** A key removed from its slot is never returned, unless it is inserted again. */
  lemma RemovedKeyNeverFires<T(!new)>(w: Wheel<T>, t: Timers<T>, key: T, slot: nat, ops: seq<Op<T>>)
    requires Represents(w, t) && slot < |w.data|
    requires forall i | 0 <= i < |w.data| :: key in w.data[i] ==> i == slot
    requires forall op | op in ops :: Legal(op, |w.data|) && !Mentions(op, key)
    ensures forall j | 0 <= j < |WheelRun(w.Removed(key, slot), ops).1| ::
              key !in WheelRun(w.Removed(key, slot), ops).1[j]
  {
    var t' := TimersStep(t, Remove(key, slot)).0;
    RemoveRefines(w, t, key, slot);
    WheelRefinesTimers(w.Removed(key, slot), t', ops);
    NeverFires(t', key, ops);
  }

  // Times in milliseconds: expiration number i happens at time i * period.

  /** When expiration `j` after the insertion happens, counted from 0: `t.now` have happened before. */
  function FiringTime<T>(t: Timers<T>, j: nat, period: nat): nat {
    (t.now + 1 + j) * period
  }

  lemma WaitInPeriods(period: nat, slots: nat, now: nat, setAt: nat)
    requires slots >= 1 && now * period <= setAt <= (now + 1) * period
    ensures (slots - 1) * period <= (now + slots) * period - setAt <= slots * period
  {
    assert (now + slots) * period == now * period + slots * period;
    assert (now + 1) * period == now * period + period;
    assert (slots - 1) * period == slots * period - period;
  }

  /** A key inserted at time `setAt` and then left alone: the one expiration that returns it happens at
      least one period short of a full turn of the wheel after that, and at most a full turn. */
  lemma FiresInTime<T(!new)>(w: Wheel<T>, t: Timers<T>, key: T, ops: seq<Op<T>>, j: nat, period: nat, setAt: nat)
    requires Represents(w, t)
    requires forall i | 0 <= i < |w.data| :: key !in w.data[i]
    requires forall op | op in ops :: Legal(op, |w.data|) && !Mentions(op, key)
    requires j < |WheelRun(w.Inserted(key), ops).1| && key in WheelRun(w.Inserted(key), ops).1[j]
    requires t.now * period <= setAt <= (t.now + 1) * period
    ensures (|w.data| - 1) * period <= FiringTime(t, j, period) - setAt <= |w.data| * period
  {
    InsertedKeyFiresOnce(w, t, key, ops);
    assert j == |w.data| - 1;
    WaitInPeriods(period, |w.data|, t.now, setAt);
  }

  const TIMER_WHEEL_SLOTS: nat := 10
  const CLUSTER_TICK_TIME: nat := 1000
  const CLUSTER_REQUEST_TIMEOUT: nat := 5000

  /** The TCP handler's wheels: one slot more than 10, turned every `timeout / 10`. A timer fires later than
      `timeout - 10` ms and within 1.1 timeouts; never early when 10 divides the timeout. */
  lemma ServiceTimeoutAccuracy<T(!new)>(timeout: nat, w: Wheel<T>, t: Timers<T>, key: T, ops: seq<Op<T>>, j: nat,
      setAt: nat)
    requires timeout >= 10 && Represents(w, t) && |w.data| == TIMER_WHEEL_SLOTS + 1
    requires forall i | 0 <= i < |w.data| :: key !in w.data[i]
    requires forall op | op in ops :: Legal(op, |w.data|) && !Mentions(op, key)
    requires j < |WheelRun(w.Inserted(key), ops).1| && key in WheelRun(w.Inserted(key), ops).1[j]
    requires t.now * (timeout / TIMER_WHEEL_SLOTS) <= setAt <= (t.now + 1) * (timeout / TIMER_WHEEL_SLOTS)
    ensures var wait := FiringTime(t, j, timeout / TIMER_WHEEL_SLOTS) - setAt;
            && timeout - 10 < wait
            && 10 * wait <= 11 * timeout
            && (timeout % 10 == 0 ==> timeout <= wait)
  {
    FiresInTime(w, t, key, ops, j, timeout / TIMER_WHEEL_SLOTS, setAt);
    hide Represents, WheelRun, Legal, Mentions;
  }

  /** The cluster server's wheel: a connection times out 4 to 5 seconds after its timer was last set. */
  lemma ClusterTimeoutAccuracy<T(!new)>(w: Wheel<T>, t: Timers<T>, key: T, ops: seq<Op<T>>, j: nat, setAt: nat)
    requires Represents(w, t) && |w.data| == CLUSTER_REQUEST_TIMEOUT / CLUSTER_TICK_TIME
    requires forall i | 0 <= i < |w.data| :: key !in w.data[i]
    requires forall op | op in ops :: Legal(op, |w.data|) && !Mentions(op, key)
    requires j < |WheelRun(w.Inserted(key), ops).1| && key in WheelRun(w.Inserted(key), ops).1[j]
    requires t.now * CLUSTER_TICK_TIME <= setAt <= (t.now + 1) * CLUSTER_TICK_TIME
    ensures 4000 <= FiringTime(t, j, CLUSTER_TICK_TIME) - setAt <= 5000
  {
    FiresInTime(w, t, key, ops, j, CLUSTER_TICK_TIME, setAt);
    hide Represents, WheelRun, Legal, Mentions;
  }
}

/** Keys of the durable message queues, whose sorted order is the order of acceptance (AgentBase.ts). */
module QueueKeys {
  import opened Basics
  import opened OrderedStore

  const ZERO := 0x30
  const DOT: Point := 0x2E
  const TIME_DIGITS := 14
  const SEQUENCE_DIGITS := 6
  const CLAIM_ATTEMPTS := 1000

  function Pow10(w: nat): nat { if w == 0 then 1 else 10 * Pow10(w - 1) }

  function Digits(n: nat): (w: nat)
    ensures w >= 1
  { if n < 10 then 1 else 1 + Digits(n / 10) }

  /** The last `w` decimal digits of `n`. */
  function Fixed(n: nat, w: nat): (k: Key)
    ensures |k| == w && forall i :: 0 <= i < w ==> ZERO <= k[i] < ZERO + 10
  {
    if w == 0 then [] else Fixed(n / 10, w - 1) + [ZERO + n % 10]
  }

  /** The decimal text of `n`, padded with zeros to at least `w` digits. */
  function Padded(n: nat, w: nat): Key { Fixed(n, Max(w, Digits(n))) }

  function Number(digits: Key): nat {
    if digits == [] then 0
    else Number(digits[..|digits| - 1]) * 10 + (if digits[|digits| - 1] < ZERO then 0 else digits[|digits| - 1] - ZERO)
  }

  lemma {:induction false} DigitsBound(n: nat)
    ensures n < Pow10(Digits(n))
    ensures n >= 10 ==> Pow10(Digits(n) - 1) <= n
  {
    if n >= 10 { DigitsBound(n / 10); }
  }

  lemma {:induction false} PowGrows(a: nat, b: nat)
    requires a <= b
    ensures 1 <= Pow10(a) <= Pow10(b)
  {
    if a < b { PowGrows(a, b - 1); } else if a > 0 { PowGrows(a - 1, b - 1); }
  }

  lemma {:induction false} NumberOfFixed(n: nat, w: nat)
    requires n < Pow10(w)
    ensures Number(Fixed(n, w)) == n
  {
    if w > 0 {
      NumberOfFixed(n / 10, w - 1);
      assert Fixed(n, w)[..w - 1] == Fixed(n / 10, w - 1);
    }
  }

  lemma {:induction false} NumberOfPadded(n: nat, w: nat)
    ensures Number(Padded(n, w)) == n
  {
    DigitsBound(n);
    PowGrows(Digits(n), Max(w, Digits(n)));
    NumberOfFixed(n, Max(w, Digits(n)));
  }

  // ----- Keys -----

  predicate AllDigits(k: Key) { k != [] && forall i :: 0 <= i < |k| ==> ZERO <= k[i] < ZERO + 10 }

  function QueueKey(prefix: Key, slot: Key, sequence: nat): Key {
    prefix + slot + [DOT] + Padded(sequence, SEQUENCE_DIGITS)
  }

  /** The part before the first dot. */
  function Slot(text: Key): Key {
    if text == [] || text[0] == DOT then [] else [text[0]] + Slot(text[1..])
  }

  function Time(now: nat): Key { Padded(now, TIME_DIGITS) }

  /** The key after the last one the queue holds, read back from the text of that key. */
  function NextKey(prefix: Key, last: Option<Key>, now: nat): Key {
    if last.None? || |last.value| < |prefix| then QueueKey(prefix, Time(now), 0)
    else
      var text := last.value[|prefix|..];
      var slot := Slot(text);
      if Less(slot, Time(now)) || |text| <= |slot| then QueueKey(prefix, Time(now), 0)
      else QueueKey(prefix, slot, Number(text[|slot| + 1..]) + 1)
  }

  lemma {:induction false} SlotIsRead(slot: Key, rest: Key)
    requires forall i :: 0 <= i < |slot| ==> ZERO <= slot[i]
    ensures Slot(slot + [DOT] + rest) == slot
  {
    if slot != [] {
      assert (slot + [DOT] + rest)[1..] == slot[1..] + [DOT] + rest;
      SlotIsRead(slot[1..], rest);
    }
  }

  /** Slot and sequence survive being written into a key and read back. */
  lemma {:induction false} NextAfter(prefix: Key, slot: Key, n: nat, now: nat)
    requires AllDigits(slot)
    ensures NextKey(prefix, Some(QueueKey(prefix, slot, n)), now)
         == if Less(slot, Time(now)) then QueueKey(prefix, Time(now), 0) else QueueKey(prefix, slot, n + 1)
  {
    var text := slot + [DOT] + Padded(n, SEQUENCE_DIGITS);
    assert QueueKey(prefix, slot, n) == prefix + text;
    assert QueueKey(prefix, slot, n)[|prefix|..] == text;
    SlotIsRead(slot, Padded(n, SEQUENCE_DIGITS));
    assert text[|slot| + 1..] == Padded(n, SEQUENCE_DIGITS);
    NumberOfPadded(n, SEQUENCE_DIGITS);
  }

  // ----- Order -----

  lemma {:induction false} LessExtends(a: Key, b: Key, x: Key, y: Key)
    requires |a| == |b| && Less(a, b)
    ensures Less(a + x, b + y)
  {
    assert (a + x)[1..] == a[1..] + x && (b + y)[1..] == b[1..] + y;
    if a[0] == b[0] { LessExtends(a[1..], b[1..], x, y); }
  }

  lemma {:induction false} FixedLess(n: nat, m: nat, w: nat)
    requires n < m < Pow10(w)
    ensures Less(Fixed(n, w), Fixed(m, w))
  {
    if w > 0 {
      if n / 10 == m / 10 {
        var p := Fixed(n / 10, w - 1);
        LessAfterPrefix(p, [ZERO + n % 10], [ZERO + m % 10]);
      } else {
        FixedLess(n / 10, m / 10, w - 1);
        LessExtends(Fixed(n / 10, w - 1), Fixed(m / 10, w - 1), [ZERO + n % 10], [ZERO + m % 10]);
      }
    }
  }

  lemma {:induction false} PowerStartsWithOne(w: nat)
    ensures Fixed(Pow10(w), w + 1)[0] == ZERO + 1
  {
    if w > 0 {
      PowerStartsWithOne(w - 1);
      assert Pow10(w) / 10 == Pow10(w - 1);
      assert Fixed(Pow10(w), w + 1)[0] == Fixed(Pow10(w - 1), w)[0];
    }
  }

  lemma {:induction false} NinesStartWithNine(w: nat)
    requires w >= 1
    ensures Pow10(w) >= 1 && Fixed(Pow10(w) - 1, w)[0] == ZERO + 9
  {
    PowGrows(0, w);
    if w > 1 {
      NinesStartWithNine(w - 1);
      assert (Pow10(w) - 1) / 10 == Pow10(w - 1) - 1;
      assert Fixed(Pow10(w) - 1, w)[0] == Fixed(Pow10(w - 1) - 1, w - 1)[0];
    }
  }

  /** `n` is the last number its width can hold: 999999, 9999999 and so on. */
  predicate Full(n: nat) { Digits(n) >= SEQUENCE_DIGITS && n + 1 == Pow10(Digits(n)) }

  lemma {:induction false} DigitsOfNext(n: nat)
    ensures Digits(n + 1) == if n + 1 == Pow10(Digits(n)) then Digits(n) + 1 else Digits(n)
  {
    DigitsBound(n);
    if n >= 10 {
      if n % 10 == 9 {
        assert (n + 1) / 10 == n / 10 + 1;
        DigitsOfNext(n / 10);
        assert Pow10(Digits(n)) == 10 * Pow10(Digits(n / 10));
      } else {
        assert (n + 1) / 10 == n / 10;
        assert Pow10(Digits(n)) == 10 * Pow10(Digits(n / 10));
      }
    }
  }

  /** The next sequence number sorts after this one except where its text grows by a digit. */
  lemma {:induction false} SequenceOrder(n: nat)
    ensures Less(Padded(n, SEQUENCE_DIGITS), Padded(n + 1, SEQUENCE_DIGITS)) <==> !Full(n)
    ensures Full(n) ==> Less(Padded(n + 1, SEQUENCE_DIGITS), Padded(n, SEQUENCE_DIGITS))
  {
    var w := Max(SEQUENCE_DIGITS, Digits(n));
    DigitsBound(n);
    DigitsBound(n + 1);
    DigitsOfNext(n);
    if Full(n) {
      PowerStartsWithOne(w);
      NinesStartWithNine(w);
    } else {
      PowGrows(Digits(n + 1), w);
      FixedLess(n, n + 1, w);
    }
    LessIsTotal(Padded(n, SEQUENCE_DIGITS), Padded(n + 1, SEQUENCE_DIGITS));
  }

  lemma {:induction false} LaterSlot(a: Key, b: Key, x: Key, y: Key)
    requires AllDigits(b) && Less(a, b)
    ensures Less(a + [DOT] + x, b + [DOT] + y)
  {
    if a == [] {
      assert a + [DOT] + x == [DOT] + x;
    } else {
      assert (a + [DOT] + x)[1..] == a[1..] + [DOT] + x && (b + [DOT] + y)[1..] == b[1..] + [DOT] + y;
      if a[0] == b[0] {
        LaterSlot(a[1..], b[1..], x, y);
      }
    }
  }

  /** A new key sorts after the last one, whatever the clock says, exactly when the clock has passed the
      last key's slot or that slot's sequence is not at the end of its width. */
  lemma {:induction false} NextKeyIsLaterIff(prefix: Key, slot: Key, n: nat, now: nat)
    requires AllDigits(slot)
    ensures var last := QueueKey(prefix, slot, n);
            Less(last, NextKey(prefix, Some(last), now)) <==> Less(slot, Time(now)) || !Full(n)
  {
    NextAfter(prefix, slot, n, now);
    KeyParts(prefix, slot, n);
    hide *;
    var s, t := slot + [DOT] + Padded(n, SEQUENCE_DIGITS), slot + [DOT] + Padded(n + 1, SEQUENCE_DIGITS);
    if Less(slot, Time(now)) {
      var later := Time(now) + [DOT] + Padded(0, SEQUENCE_DIGITS);
      KeyParts(prefix, Time(now), 0);
      LaterSlot(slot, Time(now), Padded(n, SEQUENCE_DIGITS), Padded(0, SEQUENCE_DIGITS));
      LessAfterPrefix(prefix, s, later);
    } else {
      KeyParts(prefix, slot, n + 1);
      LessAfterPrefix(prefix, s, t);
      LessAfterPrefix(slot + [DOT], Padded(n, SEQUENCE_DIGITS), Padded(n + 1, SEQUENCE_DIGITS));
      SequenceOrder(n);
    }
  }

  lemma {:induction false} KeyParts(prefix: Key, slot: Key, n: nat)
    ensures QueueKey(prefix, slot, n) == prefix + (slot + [DOT] + Padded(n, SEQUENCE_DIGITS))
  {
  }

  // ----- Queues -----

  datatype Entry = Entry(slot: Key, sequence: nat)

  function Text(prefix: Key, e: Entry): Key { QueueKey(prefix, e.slot, e.sequence) }

  /** A message is accepted at some reading of the clock, or the entry at an index leaves the queue. */
  datatype Event = Accept(now: nat) | Leave(index: nat)

  /** The entry whose key sorts last, which is what reading the store's tail finds. */
  function Tail(prefix: Key, queue: seq<Entry>): (tail: Entry)
    requires queue != []
    ensures tail in queue
  {
    if |queue| == 1 then queue[0]
    else
      var rest := Tail(prefix, queue[1..]);
      if Less(Text(prefix, rest), Text(prefix, queue[0])) then queue[0] else rest
  }

  function NextEntry(last: Entry, now: nat): Entry {
    if Less(last.slot, Time(now)) then Entry(Time(now), 0) else Entry(last.slot, last.sequence + 1)
  }

  function NewEntry(prefix: Key, queue: seq<Entry>, now: nat): Entry {
    if queue == [] then Entry(Time(now), 0) else NextEntry(Tail(prefix, queue), now)
  }

  /** The queue in order of acceptance. */
  function After(prefix: Key, queue: seq<Entry>, e: Event): seq<Entry> {
    match e
    case Accept(now) => queue + [NewEntry(prefix, queue, now)]
    case Leave(i) => if i < |queue| then queue[..i] + queue[i + 1..] else queue
  }

  function AfterAll(prefix: Key, queue: seq<Entry>, events: seq<Event>): seq<Entry>
    decreases |events|
  {
    if events == [] then queue else AfterAll(prefix, After(prefix, queue, events[0]), events[1..])
  }

  predicate GoodSlots(queue: seq<Entry>) { forall i :: 0 <= i < |queue| ==> AllDigits(queue[i].slot) }

  predicate InKeyOrder(prefix: Key, queue: seq<Entry>) {
    forall i, j :: 0 <= i < j < |queue| ==> Less(Text(prefix, queue[i]), Text(prefix, queue[j]))
  }

  lemma {:induction false} TailIsLargest(prefix: Key, queue: seq<Entry>)
    requires queue != []
    ensures forall e :: e in queue ==> !Less(Text(prefix, Tail(prefix, queue)), Text(prefix, e))
    decreases |queue|
  {
    LessIsTotal(Text(prefix, queue[0]), Text(prefix, queue[0]));
    if |queue| > 1 {
      var rest := Tail(prefix, queue[1..]);
      TailIsLargest(prefix, queue[1..]);
      forall e | e in queue ensures !Less(Text(prefix, Tail(prefix, queue)), Text(prefix, e)) {
        if e != queue[0] {
          assert e in queue[1..];
          if Less(Text(prefix, rest), Text(prefix, queue[0])) && Less(Text(prefix, queue[0]), Text(prefix, e)) {
            LessIsTransitive(Text(prefix, rest), Text(prefix, queue[0]), Text(prefix, e));
          }
        }
      }
    }
  }

  /** While the keys are in order of acceptance the tail is the entry accepted last. */
  lemma {:induction false} TailIsLast(prefix: Key, queue: seq<Entry>)
    requires queue != [] && InKeyOrder(prefix, queue)
    ensures Tail(prefix, queue) == queue[|queue| - 1]
  {
    var tail, last := Tail(prefix, queue), queue[|queue| - 1];
    assert forall k :: 0 <= k < |queue| - 1 ==> Less(Text(prefix, queue[k]), Text(prefix, last));
    var i :| 0 <= i < |queue| && queue[i] == tail;
    assert last in queue;
    TailIsLargest(prefix, queue);
  }

  /** The new entry's key is the one computed from the text of the last key in the store. */
  lemma {:induction false} AcceptIsNextKey(prefix: Key, queue: seq<Entry>, now: nat)
    requires GoodSlots(queue)
    ensures Text(prefix, NewEntry(prefix, queue, now))
         == NextKey(prefix, if queue == [] then None else Some(Text(prefix, Tail(prefix, queue))), now)
    ensures AllDigits(NewEntry(prefix, queue, now).slot)
  {
    if queue != [] {
      var last := Tail(prefix, queue);
      assert AllDigits(last.slot);
      NextAfter(prefix, last.slot, last.sequence, now);
    }
  }

  /** The clock has passed the last key's slot, or that slot's sequence is not at the end of its width. */
  predicate Room(prefix: Key, queue: seq<Entry>, now: nat) {
    queue == [] || Less(Tail(prefix, queue).slot, Time(now)) || !Full(Tail(prefix, queue).sequence)
  }

  lemma {:induction false} AcceptKeepsOrderIff(prefix: Key, queue: seq<Entry>, now: nat)
    requires GoodSlots(queue) && InKeyOrder(prefix, queue)
    ensures GoodSlots(After(prefix, queue, Accept(now)))
    ensures InKeyOrder(prefix, After(prefix, queue, Accept(now))) <==> Room(prefix, queue, now)
  {
    AcceptIsNextKey(prefix, queue, now);
    var next := After(prefix, queue, Accept(now));
    if queue != [] {
      var last, new_ := queue[|queue| - 1], NewEntry(prefix, queue, now);
      TailIsLast(prefix, queue);
      NextKeyIsLaterIff(prefix, last.slot, last.sequence, now);
      assert next[|queue| - 1] == last && next[|queue|] == new_;
      if Less(Text(prefix, last), Text(prefix, new_)) {
        LastIsLater(prefix, queue, new_);
      }
    }
  }

  lemma {:induction false} LastIsLater(prefix: Key, queue: seq<Entry>, new_: Entry)
    requires queue != [] && InKeyOrder(prefix, queue)
    requires Less(Text(prefix, queue[|queue| - 1]), Text(prefix, new_))
    ensures InKeyOrder(prefix, queue + [new_])
  {
    var last := queue[|queue| - 1];
    forall i | 0 <= i < |queue| ensures Less(Text(prefix, queue[i]), Text(prefix, new_)) {
      if i < |queue| - 1 { LessIsTransitive(Text(prefix, queue[i]), Text(prefix, last), Text(prefix, new_)); }
    }
  }

  lemma {:induction false} LeaveKeepsOrder(prefix: Key, queue: seq<Entry>, i: nat)
    requires GoodSlots(queue) && InKeyOrder(prefix, queue)
    ensures GoodSlots(After(prefix, queue, Leave(i))) && InKeyOrder(prefix, After(prefix, queue, Leave(i)))
  {
  }

  predicate AlwaysRoom(prefix: Key, queue: seq<Entry>, events: seq<Event>)
    decreases |events|
  {
    events != [] ==>
      (events[0].Accept? ==> Room(prefix, queue, events[0].now))
      && AlwaysRoom(prefix, After(prefix, queue, events[0]), events[1..])
  }

  predicate AlwaysInKeyOrder(prefix: Key, queue: seq<Entry>, events: seq<Event>)
    decreases |events|
  {
    InKeyOrder(prefix, queue)
    && (events != [] ==> AlwaysInKeyOrder(prefix, After(prefix, queue, events[0]), events[1..]))
  }

  /** Over any run and any readings of the clock, the key order is the order of acceptance throughout, so that
      reading the sorted queue back gives it, exactly when no message is accepted in the slot of a last key
      whose sequence is at the end of its width. How many messages were accepted in all does not matter. */
  lemma {:induction false} KeyOrderIsAcceptanceOrderIff(prefix: Key, queue: seq<Entry>, events: seq<Event>)
    requires GoodSlots(queue) && InKeyOrder(prefix, queue)
    ensures AlwaysInKeyOrder(prefix, queue, events) <==> AlwaysRoom(prefix, queue, events)
    decreases |events|
  {
    hide After;
    hide InKeyOrder;
    hide Room;
    hide GoodSlots;
    if events != [] {
      var next := After(prefix, queue, events[0]);
      match events[0] {
        case Accept(now) => AcceptKeepsOrderIff(prefix, queue, now);
        case Leave(i) => LeaveKeepsOrder(prefix, queue, i);
      }
      if InKeyOrder(prefix, next) {
        KeyOrderIsAcceptanceOrderIff(prefix, next, events[1..]);
      } else {
        NotAlways(prefix, next, events[1..]);
      }
    }
  }

  lemma {:induction false} NotAlways(prefix: Key, queue: seq<Entry>, events: seq<Event>)
    requires !InKeyOrder(prefix, queue)
    ensures !AlwaysInKeyOrder(prefix, queue, events)
  {
  }

  /** Below the last six-digit number there is always room. */
  lemma {:induction false} SmallHasRoom(prefix: Key, queue: seq<Entry>, now: nat)
    requires forall e :: e in queue ==> e.sequence < 999999
    ensures Room(prefix, queue, now)
  {
    if queue != [] { SmallIsNotFull(Tail(prefix, queue).sequence); }
  }

  lemma {:induction false} SmallIsNotFull(n: nat)
    requires n < 999999
    ensures !Full(n)
  {
    DigitsBound(n);
    if Digits(n) >= SEQUENCE_DIGITS {
      PowGrows(6, Digits(n));
      assert Pow10(6) == 10 * 10 * Pow10(4) && Pow10(4) == 10 * 10 * Pow10(2) && Pow10(2) == 10 * 10 * Pow10(0);
    }
  }

  // ----- Without room -----

  function Times(e: Entry, count: nat): seq<Entry> { seq(count, i => e) }

  function AcceptsAt(clock: seq<nat>): seq<Event> {
    seq(|clock|, i requires 0 <= i < |clock| => Accept(clock[i]))
  }

  lemma {:induction false} TailStays(prefix: Key, queue: seq<Entry>, new_: Entry)
    requires queue != [] && Less(Text(prefix, new_), Text(prefix, Tail(prefix, queue)))
    ensures Tail(prefix, queue + [new_]) == Tail(prefix, queue)
    decreases |queue|
  {
    LessIsTotal(Text(prefix, new_), Text(prefix, Tail(prefix, queue)));
    var more := queue + [new_];
    if |queue| == 1 {
      assert more[1..] == [new_] && Tail(prefix, [new_]) == new_;
    } else {
      var head, rest := queue[0], Tail(prefix, queue[1..]);
      assert more[0] == head && more[1..] == queue[1..] + [new_];
      if Less(Text(prefix, new_), Text(prefix, rest)) {
        TailStays(prefix, queue[1..], new_);
      } else {
        TailAmongSmaller(prefix, queue[1..], new_, head);
      }
    }
  }

  /** Entries that all sort before `head` have a tail that does. */
  lemma {:induction false} TailAmongSmaller(prefix: Key, rest: seq<Entry>, new_: Entry, head: Entry)
    requires rest != [] && Less(Text(prefix, Tail(prefix, rest)), Text(prefix, head))
    requires Less(Text(prefix, new_), Text(prefix, head))
    ensures Less(Text(prefix, Tail(prefix, rest + [new_])), Text(prefix, head))
  {
    var tail := Tail(prefix, rest + [new_]);
    if tail in rest {
      TailIsLargest(prefix, rest);
      var t := Tail(prefix, rest);
      LessIsTotal(Text(prefix, tail), Text(prefix, t));
      if Less(Text(prefix, tail), Text(prefix, t)) {
        LessIsTransitive(Text(prefix, tail), Text(prefix, t), Text(prefix, head));
      }
    }
  }

  lemma {:induction false} NextWithoutRoom(prefix: Key, queue: seq<Entry>, now: nat)
    requires GoodSlots(queue) && !Room(prefix, queue, now)
    ensures var last := Tail(prefix, queue);
            var next := Entry(last.slot, last.sequence + 1);
            && NewEntry(prefix, queue, now) == next
            && Less(Text(prefix, next), Text(prefix, last)) && Tail(prefix, queue + [next]) == last
  {
    var last := Tail(prefix, queue);
    var next := Entry(last.slot, last.sequence + 1);
    assert AllDigits(last.slot);
    KeyParts(prefix, last.slot, last.sequence);
    KeyParts(prefix, last.slot, last.sequence + 1);
    SequenceOrder(last.sequence);
    var s, t := Padded(last.sequence, SEQUENCE_DIGITS), Padded(last.sequence + 1, SEQUENCE_DIGITS);
    LessAfterPrefix(prefix, last.slot + [DOT] + t, last.slot + [DOT] + s);
    LessAfterPrefix(last.slot + [DOT], t, s);
    TailStays(prefix, queue, next);
  }

  lemma {:induction false} AcceptFirst(prefix: Key, queue: seq<Entry>, clock: seq<nat>)
    requires clock != []
    ensures AfterAll(prefix, queue, AcceptsAt(clock))
         == AfterAll(prefix, queue + [NewEntry(prefix, queue, clock[0])], AcceptsAt(clock[1..]))
  {
    hide NewEntry;
    assert AcceptsAt(clock)[0] == Accept(clock[0]);
    assert AcceptsAt(clock)[1..] == AcceptsAt(clock[1..]);
  }

  lemma {:induction false} TimesStep(queue: seq<Entry>, e: Entry, count: nat)
    ensures queue + Times(e, 0) == queue
    ensures count > 0 ==> queue + Times(e, count) == queue + [e] + Times(e, count - 1)
  {
  }

  lemma {:induction false} StillNoRoom(prefix: Key, queue: seq<Entry>, more: seq<Entry>, now: nat)
    requires queue != [] && more != [] && Tail(prefix, more) == Tail(prefix, queue)
    ensures Room(prefix, more, now) <==> Room(prefix, queue, now)
  {
  }

  /** Once a slot's sequence is at the end of its width, every further message accepted before the clock
      passes that slot is given one and the same key, which sorts before the last one: the first of them
      takes it, and an acceptance that writes without checking overwrites it. */
  lemma {:induction false} KeysRepeatWithoutRoom(prefix: Key, queue: seq<Entry>, clock: seq<nat>)
    requires GoodSlots(queue) && queue != []
    requires forall i :: 0 <= i < |clock| ==> !Room(prefix, queue, clock[i])
    ensures var last := Tail(prefix, queue);
            var next := Entry(last.slot, last.sequence + 1);
            && AfterAll(prefix, queue, AcceptsAt(clock)) == queue + Times(next, |clock|)
            && (clock != [] ==> Less(Text(prefix, next), Text(prefix, last)))
    decreases |clock|
  {
    hide Room;
    hide AcceptsAt;
    hide Times;
    hide NewEntry;
    hide Tail;
    hide Text;
    var next := Entry(Tail(prefix, queue).slot, Tail(prefix, queue).sequence + 1);
    TimesStep(queue, next, |clock|);
    if clock == [] {
      NothingAccepted(prefix, queue);
    } else {
      NextWithoutRoom(prefix, queue, clock[0]);
      var more := queue + [next];
      AcceptFirst(prefix, queue, clock);
      forall i | 0 <= i < |clock[1..]| ensures !Room(prefix, more, clock[1..][i]) {
        StillNoRoom(prefix, queue, more, clock[i + 1]);
      }
      NextIsGood(queue, Tail(prefix, queue), next);
      KeysRepeatWithoutRoom(prefix, more, clock[1..]);
    }
  }

  lemma {:induction false} NextIsGood(queue: seq<Entry>, last: Entry, next: Entry)
    requires GoodSlots(queue) && last in queue && next.slot == last.slot
    ensures GoodSlots(queue + [next])
  {
  }

  lemma {:induction false} NothingAccepted(prefix: Key, queue: seq<Entry>)
    ensures AfterAll(prefix, queue, AcceptsAt([])) == queue
  {
  }

  /** The first entries of a slot. */
  function Opening(slot: Key, count: nat): seq<Entry> {
    seq(count, i requires 0 <= i < count => Entry(slot, i))
  }

  lemma {:induction false} OpeningHasRoom(prefix: Key, now: nat, count: nat)
    requires count < 1000000 && InKeyOrder(prefix, Opening(Time(now), count))
    ensures Room(prefix, Opening(Time(now), count), now)
  {
    hide Full;
    if count > 0 {
      TailIsLast(prefix, Opening(Time(now), count));
      SmallIsNotFull(count - 1);
    }
  }

  lemma {:induction false} OpeningInOrder(prefix: Key, now: nat, count: nat)
    requires count <= 1000000
    ensures GoodSlots(Opening(Time(now), count)) && InKeyOrder(prefix, Opening(Time(now), count))
    decreases count
  {
    hide Room;
    hide Full;
    hide Tail;
    hide Text;
    hide NewEntry;
    if count > 0 {
      OpeningInOrder(prefix, now, count - 1);
      OpeningGrows(prefix, now, count - 1);
      OpeningHasRoom(prefix, now, count - 1);
      AcceptKeepsOrderIff(prefix, Opening(Time(now), count - 1), now);
    }
  }

  lemma {:induction false} OpeningGrows(prefix: Key, now: nat, count: nat)
    requires InKeyOrder(prefix, Opening(Time(now), count))
    ensures Opening(Time(now), count) + [NewEntry(prefix, Opening(Time(now), count), now)]
         == Opening(Time(now), count + 1)
  {
    LessIsTotal(Time(now), Time(now));
    var queue := Opening(Time(now), count);
    if count > 0 {
      TailIsLast(prefix, queue);
    }
    hide InKeyOrder;
    hide Tail;
    assert NewEntry(prefix, queue, now) == Entry(Time(now), count);
  }

  lemma {:induction false} CountsUp(prefix: Key, now: nat, done: nat, clock: seq<nat>)
    requires done + |clock| <= 1000000
    requires forall i :: 0 <= i < |clock| ==> clock[i] == now
    ensures AfterAll(prefix, Opening(Time(now), done), AcceptsAt(clock)) == Opening(Time(now), done + |clock|)
    decreases |clock|
  {
    hide NewEntry;
    hide AcceptsAt;
    hide Opening;
    if clock == [] {
      NothingAccepted(prefix, Opening(Time(now), done));
    } else {
      OpeningInOrder(prefix, now, done);
      OpeningGrows(prefix, now, done);
      AcceptFirst(prefix, Opening(Time(now), done), clock);
      CountsUp(prefix, now, done + 1, clock[1..]);
    }
  }

  /** A million messages in one slot have distinct keys in order; all that follow in it share a single key,
      which sorts before the millionth. */
  lemma {:induction false} KeysRepeatAfterMillion(prefix: Key, now: nat, clock: seq<nat>, more: seq<nat>)
    requires |clock| == 1000000 && forall i :: 0 <= i < |clock| ==> clock[i] == now
    requires forall i :: 0 <= i < |more| ==> !Less(Time(now), Time(more[i]))
    ensures var million := AfterAll(prefix, [], AcceptsAt(clock));
            && million == Opening(Time(now), 1000000) && InKeyOrder(prefix, million)
            && AfterAll(prefix, million, AcceptsAt(more)) == million + Times(Entry(Time(now), 1000000), |more|)
            && (more != [] ==> Less(Text(prefix, Entry(Time(now), 1000000)), Text(prefix, Entry(Time(now), 999999))))
  {
    hide Full;
    hide AcceptsAt;
    hide AfterAll;
    hide Times;
    hide Text;
    var million := Opening(Time(now), 1000000);
    assert Opening(Time(now), 0) == [];
    CountsUp(prefix, now, 0, clock);
    OpeningInOrder(prefix, now, 1000000);
    TailIsLast(prefix, million);
    MillionIsFull();
    KeysRepeatWithoutRoom(prefix, million, more);
  }

  lemma {:induction false} MillionIsFull()
    ensures Full(999999)
  {
    assert Pow10(6) == 1000000 by {
      assert Pow10(6) == 10 * 10 * Pow10(4) && Pow10(4) == 10 * 10 * Pow10(2) && Pow10(2) == 10 * 10 * Pow10(0);
    }
    assert Digits(999999) == 6 by {
      assert Digits(999999) == 1 + Digits(99999) && Digits(99999) == 1 + Digits(9999);
      assert Digits(9999) == 1 + Digits(999) && Digits(999) == 1 + Digits(99) && Digits(99) == 1 + Digits(9);
    }
  }

  // ----- Claiming -----

  predicate TakenAt(prefix: Key, slot: Key, taken: set<Key>, sequence: nat) {
    QueueKey(prefix, slot, sequence) in taken
  }

  /** Steps past taken keys to the first free one; `None` after a thousand collisions. */
  method ClaimQueueKey(prefix: Key, slot: Key, start: nat, taken: set<Key>) returns (claimed: Option<Entry>)
    ensures claimed.Some? ==>
              && claimed.value.slot == slot
              && start <= claimed.value.sequence < start + CLAIM_ATTEMPTS
              && !TakenAt(prefix, slot, taken, claimed.value.sequence)
              && forall n :: start <= n < claimed.value.sequence ==> TakenAt(prefix, slot, taken, n)
    ensures claimed.None? ==> forall n :: start <= n < start + CLAIM_ATTEMPTS ==> TakenAt(prefix, slot, taken, n)
  {
    var attempt := 0;
    while attempt < CLAIM_ATTEMPTS
      invariant 0 <= attempt <= CLAIM_ATTEMPTS
      invariant forall n :: start <= n < start + attempt ==> TakenAt(prefix, slot, taken, n)
    {
      if !TakenAt(prefix, slot, taken, start + attempt) {
        return Some(Entry(slot, start + attempt));
      }
      attempt := attempt + 1;
    }
    return None;
  }
}

/** What carries the chat's messages: the slots in shared memory of task2.c and the queue of task1.c.
    Both do what the chat's steps say of them. */
module Transports {
  import opened Chat
  import opened Filtering

  /** A slot keeps the message that it last held; `sent` says whether that is still to be read. */
  datatype Slot = Slot(sent: bool, message: Message)

  datatype Reply = Error | Received(message: Message)

  function Content(slot: Slot): multiset<Message> {
    if slot.sent then multiset{slot.message} else multiset{}
  }

  /** The unread messages among the first `n` slots. */
  function BagTo(slots: seq<Slot>, n: nat): multiset<Message>
    requires n <= |slots|
  {
    if n == 0 then multiset{} else BagTo(slots, n - 1) + Content(slots[n - 1])
  }

  function Bag(slots: seq<Slot>): multiset<Message> {
    BagTo(slots, |slots|)
  }

  lemma {:induction false} BagToSame(a: seq<Slot>, b: seq<Slot>, n: nat)
    requires n <= |a| && n <= |b| && forall k :: 0 <= k < n ==> a[k] == b[k]
    ensures BagTo(a, n) == BagTo(b, n)
  {
    if n == 0 {
    } else {
      BagToSame(a, b, n - 1);
    }
  }

  lemma {:induction false} BagToUpdate(slots: seq<Slot>, i: nat, x: Slot, n: nat)
    requires i < n <= |slots|
    ensures BagTo(slots[i := x], n) + Content(slots[i]) == BagTo(slots, n) + Content(x)
  {
    var after := slots[i := x];
    var last := Content(slots[n - 1]);
    if i < n - 1 {
      BagToUpdate(slots, i, x, n - 1);
      SwapLast(BagTo(after, n - 1), BagTo(slots, n - 1), last, Content(slots[i]), Content(x));
    } else {
      BagToSame(after, slots, i);
      Exchange(BagTo(slots, i), Content(x), last);
    }
  }

  lemma SwapLast(a: multiset<Message>, b: multiset<Message>, last: multiset<Message>, y: multiset<Message>,
                 z: multiset<Message>)
    requires a + y == b + z
    ensures a + last + y == b + last + z
  {
    Exchange(a, last, y);
    Exchange(b, last, z);
  }

  lemma Exchange(a: multiset<Message>, b: multiset<Message>, c: multiset<Message>)
    ensures a + b + c == a + c + b
  {
  }

  predicate Unread(slot: Slot, m: Message) {
    slot.sent && slot.message == m
  }

  lemma {:induction false} InBag(slots: seq<Slot>, n: nat, m: Message, k: nat)
    requires k < n <= |slots| && Unread(slots[k], m)
    ensures m in BagTo(slots, n)
  {
    if k == n - 1 {
    } else {
      InBag(slots, n - 1, m, k);
    }
  }

  lemma {:induction false} FromBag(slots: seq<Slot>, n: nat, m: Message) returns (k: nat)
    requires n <= |slots| && m in BagTo(slots, n)
    ensures k < n && Unread(slots[k], m)
  {
    if Unread(slots[n - 1], m) {
      k := n - 1;
    } else {
      assert m !in Content(slots[n - 1]);
      k := FromBag(slots, n - 1, m);
    }
  }

  /** Taking one of the messages of a bag out of a sequence. */
  lemma RemoveFromOrder(order: seq<Message>, m: Message) returns (k: nat)
    requires m in multiset(order)
    ensures k < |order| && order[k] == m
    ensures multiset(Without(order, k)) == multiset(order) - multiset{m}
  {
    assert m in order;
    k :| k < |order| && order[k] == m;
    assert order == order[..k] + ([m] + order[k + 1..]);
  }

  lemma FillSlot(slots: seq<Slot>, i: nat, m: Message)
    requires i < |slots| && !slots[i].sent
    ensures Bag(slots[i := Slot(true, m)]) == Bag(slots) + multiset{m}
  {
    BagToUpdate(slots, i, Slot(true, m), |slots|);
  }

  lemma EmptySlot(slots: seq<Slot>, i: nat, m: Message)
    requires i < |slots| && slots[i] == Slot(true, m)
    ensures m in Bag(slots)
    ensures Bag(slots[i := Slot(false, m)]) == Bag(slots) - multiset{m}
  {
    InBag(slots, |slots|, m, i);
    BagToUpdate(slots, i, Slot(false, m), |slots|);
    Cancel(Bag(slots[i := Slot(false, m)]), m, Bag(slots));
  }

  lemma Cancel(a: multiset<Message>, m: Message, b: multiset<Message>)
    requires a + multiset{m} == b
    ensures a == b - multiset{m}
  {
  }

  /** The shared memory of task2.c: slots in no particular order, behind one mutex. */
  class Mailbox {
    var slots: array<Slot>
    var mutex: nat
    ghost var order: seq<Message>   // the unread messages, oldest first

    ghost predicate Tied()
      reads this, slots
    {
      multiset(order) == Bag(slots[..])
    }

    ghost predicate Valid()
      reads this, slots
    {
      mutex == 1 && Tied()
    }

    /** Every slot is marked empty before the mutex is opened. */
    constructor (size: nat, blank: Message)
      ensures Valid() && order == [] && fresh(slots) && slots.Length == size
    {
      slots := new Slot[size](_ => Slot(false, blank));
      mutex := 0;
      order := [];
      new;
      EmptyBag(slots[..], slots.Length);
      mutex := 1;
    }

    /** The search loop of `write_message`. */
    method FindEmpty() returns (i: nat)
      ensures i <= slots.Length && (i < slots.Length ==> !slots[i].sent) && forall j :: 0 <= j < i ==> slots[j].sent
    {
      i := 0;
      while i < slots.Length && slots[i].sent
        invariant i <= slots.Length && forall j :: 0 <= j < i ==> slots[j].sent
      {
        i := i + 1;
      }
    }

    /** The search loop of `read_message`. */
    method FindUnread(mtype: int) returns (i: nat)
      ensures i <= slots.Length
      ensures i < slots.Length ==> slots[i].sent && slots[i].message.mtype == mtype
      ensures forall j :: 0 <= j < i ==> !(slots[j].sent && slots[j].message.mtype == mtype)
    {
      i := 0;
      while i < slots.Length && !(slots[i].sent && slots[i].message.mtype == mtype)
        invariant i <= slots.Length
        invariant forall j :: 0 <= j < i ==> !(slots[j].sent && slots[j].message.mtype == mtype)
      {
        i := i + 1;
      }
    }

    /** `write_message`: the first empty slot takes the message.  With none the writer is lost and the mutex
        stays closed. */
    method WriteMessage(m: Message) returns (lost: bool, ghost at: nat)
      requires Valid()
      modifies this, slots
      ensures Tied() && slots == old(slots)
      ensures lost <==> forall i :: 0 <= i < slots.Length ==> old(slots[..])[i].sent
      ensures lost ==> mutex == 0 && order == old(order) && slots[..] == old(slots[..])
      ensures !lost ==> Valid() && order == Apply(old(order), Put(m))
      ensures !lost ==> at < slots.Length && slots[..] == old(slots[..])[at := Slot(true, m)]
      ensures !lost ==> !old(slots[..])[at].sent && forall j :: 0 <= j < at ==> old(slots[..])[j].sent
    {
      hide Bag;
      mutex := mutex - 1;
      var i := FindEmpty();
      at, lost := i, i == slots.Length;
      if lost {
        return;
      }
      FillSlot(slots[..], i, m);
      slots[i] := Slot(true, m);
      assert slots[..] == old(slots[..])[i := Slot(true, m)];
      order := order + [m];
      mutex := mutex + 1;
    }

    /** `read_message`: the first slot with an unread message of the type is emptied; an error exactly when
        there is none. */
    method ReadMessage(mtype: int) returns (reply: Reply, ghost pick: Pick, ghost at: nat)
      requires Valid()
      modifies this, slots
      ensures Valid() && slots == old(slots)
      ensures var op := Receive(old(order), false, mtype, pick);
              && op != Blocked && order == Apply(old(order), op)
              && (reply == Error <==> op == Keep) && (op.Get? ==> reply == Received(op.m))
      ensures at <= slots.Length
      ensures forall j :: 0 <= j < at ==> !(old(slots[..])[j].sent && old(slots[..])[j].message.mtype == mtype)
      ensures if at == slots.Length then reply == Error && slots[..] == old(slots[..])
              else reply.Received? && reply.message.mtype == mtype && old(slots[..])[at] == Slot(true, reply.message)
                   && slots[..] == old(slots[..])[at := Slot(false, reply.message)]
    {
      mutex := mutex - 1;
      var i := FindUnread(mtype);
      at := i;
      if i < slots.Length {
        var m;
        m, pick := Empty(i);
        reply := Received(m);
      } else {
        NoneUnread(slots[..], mtype, order);
        reply, pick := Error, Nothing;
      }
      mutex := mutex + 1;
    }

    /** The part of `read_message` that copies a message out of its slot. */
    method Empty(i: nat) returns (m: Message, ghost pick: Pick)
      requires Tied() && i < slots.Length && slots[i].sent
      modifies this`order, slots
      ensures Tied() && old(slots[..])[i] == Slot(true, m) && slots[..] == old(slots[..])[i := Slot(false, m)]
      ensures pick.At? && pick.index < |old(order)| && old(order)[pick.index] == m
      ensures order == Without(old(order), pick.index)
    {
      m := slots[i].message;
      EmptySlot(slots[..], i, m);
      ghost var k := RemoveFromOrder(order, m);
      slots[i] := Slot(false, m);
      assert slots[..] == old(slots[..])[i := Slot(false, m)];
      order, pick := Without(order, k), At(k);
    }
  }

  lemma NoneUnread(slots: seq<Slot>, mtype: int, order: seq<Message>)
    requires multiset(order) == Bag(slots)
    requires forall j :: 0 <= j < |slots| ==> !(slots[j].sent && slots[j].message.mtype == mtype)
    ensures forall k :: 0 <= k < |order| ==> order[k].mtype != mtype
  {
    forall k | 0 <= k < |order| ensures order[k].mtype != mtype {
      assert order[k] in multiset(order);
      var j := FromBag(slots, |slots|, order[k]);
    }
  }

  lemma {:induction false} EmptyBag(slots: seq<Slot>, n: nat)
    requires n <= |slots| && forall k :: 0 <= k < n ==> !slots[k].sent
    ensures BagTo(slots, n) == multiset{}
  {
    if n == 0 {
    } else {
      EmptyBag(slots, n - 1);
    }
  }

  /** The message queue of task1.c. */
  class Queue {
    var messages: seq<Message>

    constructor ()
      ensures messages == []
    {
      messages := [];
    }

    /** `send_message`, which does not wait: with no room in the queue it reports an error. */
    method SendMessage(m: Message, room: bool) returns (sent: bool)
      modifies this
      ensures sent == room && messages == Apply(old(messages), Send(m, room))
    {
      if room {
        messages := messages + [m];
      }
      sent := room;
    }

    /** `receive_message`: the first message of the type, or an error when there is none. */
    method ReceiveMessage(mtype: int) returns (reply: Reply, ghost pick: Pick)
      modifies this
      ensures var op := Receive(old(messages), true, mtype, pick);
              && op != Blocked && messages == Apply(old(messages), op)
              && (reply == Error <==> op == Keep) && (op.Get? ==> reply == Received(op.m))
    {
      var k := 0;
      while k < |messages| && messages[k].mtype != mtype
        invariant 0 <= k <= |messages|
        invariant forall j :: 0 <= j < k ==> messages[j].mtype != mtype
      {
        k := k + 1;
      }
      if k == |messages| {
        return Error, Nothing;
      }
      reply, pick := Received(messages[k]), At(k);
      messages := Without(messages, k);
    }
  }
}

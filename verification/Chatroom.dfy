/** The chat in place: the id pool as an array, the messages under way, the server and the clients.  Each
    method is one statement of task1.c and of task2.c. */
module Chatroom {
  import opened Chat
  import opened Numerals

  class Room {
    const fifo: bool
    const lossless: bool
    var box: seq<Message>
    var pool: array<bool>
    var server: Server
    var lastName: string
    var clients: seq<Client>
    var past: History               // history, which also numbers the posts

    ghost function Model(): State
      reads this, pool
    {
      State(fifo, lossless, box, pool[..], server, lastName, clients, past)
    }

    ghost predicate Valid()
      reads this, pool
    {
      Inv(Model())
    }

    constructor (fifo: bool, lossless: bool, maxClients: nat, names: seq<string>)
      ensures Valid() && Init(Model()) && fresh(pool)
      ensures this.fifo == fifo && this.lossless == lossless && pool.Length == maxClients && |clients| == |names|
    {
      this.fifo, this.lossless := fifo, lossless;
      box, server, lastName := [], Command, "";
      pool := new bool[maxClients](_ => false);
      clients := seq(|names|, c requires 0 <= c < |names| => Client.Client(Entry, names[c], -1, false, [], []));
      past := History([], [], [], seq(maxClients, _ => []), multiset{}, multiset{}, 0);
      new;
      InitInv(Model());
    }

    // -------------------------------------------------------------------------------------------
    // The transport
    // -------------------------------------------------------------------------------------------

    /** Takes the message that the transport picked. */
    method Take(mtype: int, pick: Pick) returns (op: Op)
      requires Available(box, fifo, mtype, pick)
      modifies this`box
      ensures op == Receive(old(box), fifo, mtype, pick) && box == Apply(old(box), op)
    {
      if pick.At? {
        op := Get(pick.index, box[pick.index]);
        box := box[..pick.index] + box[pick.index + 1..];
      } else {
        op := Keep;
      }
    }

    method Post(m: Message, ok: bool) returns (op: Op)
      modifies this`box
      ensures op == Send(m, ok) && box == Apply(old(box), op)
    {
      if ok {
        box := box + [m];
      }
      op := Send(m, ok);
    }

    // -------------------------------------------------------------------------------------------
    // The server
    // -------------------------------------------------------------------------------------------

    method ReadCommand(quit: bool)
      requires Valid() && server == Command
      modifies this`server
      ensures Valid() && Model() == ServerStep(old(Model()), Nothing, true, quit, "")
    {
      hide Inv;
      ServerInv(Model(), Nothing, true, quit, "");
      server := if quit then Closing(0) else Register;
    }

    method ReceiveRegistration(pick: Pick)
      requires Valid() && server == Register && Available(box, fifo, ID_REQUEST, pick)
      modifies this`server, this`box
      ensures Valid() && Model() == ServerStep(old(Model()), pick, true, false, "")
    {
      hide Inv;
      ServerInv(Model(), pick, true, false, "");
      var op := Take(ID_REQUEST, pick);
      server := if op.Get? then Assign(op.m.name) else Collect;
    }

    /** The search for a free id, which is taken at once. */
    method AssignId()
      requires Valid() && server.Assign?
      modifies this`server, this`past, pool
      ensures Valid() && Model() == ServerStep(old(Model()), Nothing, true, false, "")
    {
      hide Inv;
      ServerInv(Model(), Nothing, true, false, "");
      var i := 0;
      while i < pool.Length && pool[i]
        invariant i <= pool.Length && forall j :: 0 <= j < i ==> pool[j]
      {
        i := i + 1;
      }
      assert i == FirstFree(pool[..]);
      past := ServerPast(past, pool[..], server, Keep);
      if i < pool.Length {
        pool[i] := true;
        assert pool[..] == old(pool[..])[i := true];
        server := Approve(i, server.name);
      } else {
        server := Collect;
      }
    }

    method SendApproval(ok: bool)
      requires Valid() && server.Approve? && (lossless ==> ok)
      modifies this`server, this`box, this`past
      ensures Valid() && Model() == ServerStep(old(Model()), Nothing, ok, false, "")
    {
      hide Inv;
      ServerInv(Model(), Nothing, ok, false, "");
      var op := Post(IdSet(pool.Length, server.id), ok);
      past := ServerPast(past, pool[..], server, op);
      server := if ok then Announce(0, server.id, server.name) else Collect;
    }

    method AnnounceNext(ok: bool)
      requires Valid() && server.Announce? && (lossless ==> ok)
      modifies this`server, this`box
      ensures Valid() && Model() == ServerStep(old(Model()), Nothing, ok, false, "")
    {
      hide Inv;
      ServerInv(Model(), Nothing, ok, false, "");
      var j := server.next;
      if j < pool.Length {
        if j != server.id && pool[j] {
          var _ := Post(Notice(pool.Length, j, Joined, SERVER_NAME, server.name), ok);
        }
        server := Announce(j + 1, server.id, server.name);
      } else {
        server := Collect;
      }
    }

    method ReceivePost(pick: Pick, garbage: string)
      requires Valid() && server == Collect && Available(box, fifo, POST_REQUEST, pick)
      modifies this`server, this`box, this`lastName, this`past
      ensures Valid() && Model() == ServerStep(old(Model()), pick, true, false, garbage)
    {
      hide Inv;
      ServerInv(Model(), pick, true, false, garbage);
      var op := Take(POST_REQUEST, pick);
      past := ServerPast(past, pool[..], server, op);
      if op.Get? {
        server, lastName := Relay(0, op.m), op.m.name;
      } else {
        server, lastName := Dismiss, garbage;
      }
    }

    /** One round of the loop that sends copies of a post to the taken ids. */
    method RelayNext(ok: bool)
      requires Valid() && server.Relay? && (lossless ==> ok)
      modifies this`server, this`box, this`past
      ensures Valid() && Model() == ServerStep(old(Model()), Nothing, ok, false, "")
    {
      hide Inv;
      ServerInv(Model(), Nothing, ok, false, "");
      var i, m := server.next, server.post;
      var op := Keep;
      if i < pool.Length && m.id != i && pool[i] {
        op := Post(CopyTo(pool.Length, i, m, |past.log| - 1), ok);
      }
      assert op == ServerOp(old(Model()), Nothing, ok) && box == Apply(old(box), op);
      past := ServerPast(past, pool[..], server, op);
      server := if i < pool.Length then Relay(i + 1, m) else Dismiss;
    }

    method ReceiveLeave(pick: Pick)
      requires Valid() && server == Dismiss && Available(box, fifo, OUT_CHAT, pick)
      modifies this`server, this`box
      ensures Valid() && Model() == ServerStep(old(Model()), pick, true, false, "")
    {
      hide Inv;
      ServerInv(Model(), pick, true, false, "");
      var op := Take(OUT_CHAT, pick);
      server := if op.Get? then Release(op.m.id, op.m.text) else Command;
    }

    method ReleaseId()
      requires Valid() && server.Release?
      modifies this`server, pool
      ensures Valid() && Model() == ServerStep(old(Model()), Nothing, true, false, "")
    {
      ServerInv(Model(), Nothing, true, false, "");
      assert GoodServer(pool.Length, server);
      pool[server.freed] := false;
      assert pool[..] == old(pool[..])[old(server.freed) := false];
      server := Farewell(0, server.text);
    }

    /** One round of the loop that tells the taken ids who left. */
    method FarewellNext(ok: bool)
      requires Valid() && server.Farewell? && (lossless ==> ok)
      modifies this`server, this`box
      ensures Valid() && Model() == ServerStep(old(Model()), Nothing, ok, false, "")
    {
      hide Inv;
      ServerInv(Model(), Nothing, ok, false, "");
      var i, text := server.next, server.text;
      if i < pool.Length && pool[i] {
        var _ := Post(Notice(pool.Length, i, Left, lastName, text), ok);
      }
      server := if i < pool.Length then Farewell(i + 1, text) else Command;
    }

    /** One round of the loop that tells the taken ids that the server stops. */
    method ClosingNext(ok: bool)
      requires Valid() && server.Closing? && (lossless ==> ok)
      modifies this`server, this`box
      ensures Valid() && Model() == ServerStep(old(Model()), Nothing, ok, false, "")
    {
      hide Inv;
      ServerInv(Model(), Nothing, ok, false, "");
      var i := server.next;
      if i < pool.Length && pool[i] {
        var _ := Post(Notice(pool.Length, i, Left, SERVER_NAME, "end job"), ok);
      }
      server := if i < pool.Length then Closing(i + 1) else Closed;
    }

    // -------------------------------------------------------------------------------------------
    // Client `c`
    // -------------------------------------------------------------------------------------------

    /** The top of the loop: an interrupt ends it; a client without an id asks for one, then looks for it. */
    method ClientEntry(c: nat, pick: Pick, ok: bool, stop: bool)
      requires Valid() && c < |clients| && clients[c].pc == Entry && (lossless ==> ok)
      requires clients[c].id == -1 && clients[c].waiting && !stop ==> Available(box, fifo, ID_SET, pick)
      modifies this`clients, this`box
      ensures Valid() && Model() == ClientStep(old(Model()), c, pick, ok, stop, Silence)
    {
      hide Inv;
      ClientInv(Model(), c, pick, ok, stop, Silence);
      var x := clients[c];
      if stop {
        x := x.(pc := if x.id == -1 then Gone else Leaving);
      } else if x.id != -1 {
        x := x.(pc := Drain);
      } else if !x.waiting {
        var _ := Post(Message(ID_REQUEST, Joined, x.name, x.id, x.name, 0), ok);
        x := x.(waiting := ok);
      } else {
        var op := Take(ID_SET, pick);
        if op.Get? {
          x := x.(id := Atoi(op.m.text), pc := Drain);
        }
      }
      clients := clients[c := x];
    }

    /** One round of the loop that reads messages until there is none. */
    method ClientDrain(c: nat, pick: Pick, stop: bool)
      requires Valid() && c < |clients| && clients[c].pc == Drain
      requires !stop ==> Available(box, fifo, SetAddressee(clients[c].id), pick)
      modifies this`clients, this`box, this`past
      ensures Valid() && Model() == ClientStep(old(Model()), c, pick, true, stop, Silence)
    {
      hide Inv;
      ClientInv(Model(), c, pick, true, stop, Silence);
      var x := clients[c];
      var op := Keep;
      if !stop {
        op := Take(SetAddressee(x.id), pick);
      }
      past := ClientPast(past, x, op);
      x := Read(x, op, stop);
      clients := clients[c := x];
    }

    /** What a client does with a message, or with the lack of one. */
    static method Read(before: Client, op: Op, ghost stop: bool) returns (x: Client)
      requires before.pc == Drain
      ensures x == ClientAfter(before, op, stop, Silence)
    {
      x := before;
      if !op.Get? {
        x := x.(pc := Input);
      } else if op.m.kind == Said {
        x := x.(shown := x.shown + [op.m]);
      } else if op.m.kind == Left && op.m.name == SERVER_NAME {
        x := x.(pc := Ejected);
      }
    }

    method ClientInput(c: nat, typed: Typed, ok: bool)
      requires Valid() && c < |clients| && clients[c].pc == Input && (lossless ==> ok)
      modifies this`clients, this`box, this`past
      ensures Valid() && Model() == ClientStep(old(Model()), c, Nothing, ok, false, typed)
    {
      hide Inv;
      ClientInv(Model(), c, Nothing, ok, false, typed);
      var x := clients[c];
      if typed == Quit {
        x := x.(pc := Leaving);
      } else if typed.Text? {
        var op := Post(Message(POST_REQUEST, Said, x.name, x.id, typed.text, c), ok);
        past := ClientPast(past, x, op);
        x := x.(pc := Entry, said := if ok then x.said + [typed.text] else x.said);
      } else {
        x := x.(pc := Entry);
      }
      assert x == ClientStep(old(Model()), c, Nothing, ok, false, typed).clients[c];
      clients := clients[c := x];
    }

    method ClientLeaves(c: nat, ok: bool)
      requires Valid() && c < |clients| && clients[c].pc == Leaving && (lossless ==> ok)
      modifies this`clients, this`box, this`past
      ensures Valid() && Model() == ClientStep(old(Model()), c, Nothing, ok, false, Silence)
    {
      hide Inv;
      ClientInv(Model(), c, Nothing, ok, false, Silence);
      var x := clients[c];
      var op := Post(Message(OUT_CHAT, Left, x.name, x.id, x.name, 0), ok);
      past := ClientPast(past, x, op);
      clients := clients[c := x.(pc := Gone)];
    }
  }
}

/** What the queue adapter remembers about its deliveries: for each job, the
    receipt handle of the latest one. */
module Receipts {
  import opened Wrappers

  type Handle = nat

  datatype Message = Message(body: string, handle: Handle)

  /** The receipts after recording one response, in order; a message with an
      empty body is ignored. */
  function Recorded(receipts: map<string, Handle>, ms: seq<Message>): map<string, Handle> {
    if ms == [] then receipts
    else
      var last := ms[|ms| - 1];
      var before := Recorded(receipts, ms[..|ms| - 1]);
      if last.body == "" then before else before[last.body := last.handle]
  }

  /** The deliveries one response yields. */
  function Bodies(ms: seq<Message>): seq<string> {
    if ms == [] then []
    else
      var last := ms[|ms| - 1];
      var before := Bodies(ms[..|ms| - 1]);
      if last.body == "" then before else before + [last.body]
  }

  /** The deliveries of a response are its bodies in order, without the empty
      ones. */
  lemma {:induction false} BodiesInOrder(ms: seq<Message>, more: seq<Message>)
    ensures Bodies(ms + more) == Bodies(ms) + Bodies(more)
    ensures forall m: Message :: Bodies([m]) == if m.body == "" then [] else [m.body]
  {
    forall m: Message ensures Bodies([m]) == if m.body == "" then [] else [m.body] {
      assert [m][..0] == [];
    }
    if more == [] {
      assert ms + more == ms;
    } else {
      assert (ms + more)[..|ms| + |more| - 1] == ms + more[..|more| - 1];
      BodiesInOrder(ms, more[..|more| - 1]);
    }
  }

  // ------------------------------------------------------------- history

  datatype ReceiptEvent = Received(message: Message) | Taken(id: string)

  function Replayed(h: seq<ReceiptEvent>): map<string, Handle> {
    if h == [] then map[]
    else
      var before := Replayed(h[..|h| - 1]);
      match h[|h| - 1]
      case Received(m) => if m.body == "" then before else before[m.body := m.handle]
      case Taken(id) => before - {id}
  }

  /** The latest delivery of a job that nobody has settled, found by looking
      back: a later take hides everything before it, and so does a later
      receive. A message with an empty body never counts. */
  function LatestUntaken(h: seq<ReceiptEvent>, id: string): Option<Handle> {
    if h == [] then None
    else
      match h[|h| - 1]
      case Received(m) =>
        if m.body == id && id != "" then Some(m.handle) else LatestUntaken(h[..|h| - 1], id)
      case Taken(other) =>
        if other == id then None else LatestUntaken(h[..|h| - 1], id)
  }

  /** The receipts hold exactly the latest untaken handle of every job. */
  lemma {:induction false} ReceiptsAreLatest(h: seq<ReceiptEvent>, id: string)
    ensures (id in Replayed(h)) == LatestUntaken(h, id).Some?
    ensures id in Replayed(h) ==> Replayed(h)[id] == LatestUntaken(h, id).value
  {
    if h != [] {
      ReceiptsAreLatest(h[..|h| - 1], id);
    }
  }

  // The handles given out by takes, oldest first.
  function Spent(h: seq<ReceiptEvent>): seq<Handle> {
    if h == [] then []
    else
      var before := Spent(h[..|h| - 1]);
      match h[|h| - 1]
      case Received(_) => before
      case Taken(id) =>
        var receipts := Replayed(h[..|h| - 1]);
        if id in receipts then before + [receipts[id]] else before
  }

  // Every receive comes with a handle of its own.
  predicate FreshHandles(h: seq<ReceiptEvent>) {
    forall i, k :: 0 <= i < k < |h| && h[i].Received? && h[k].Received? ==>
      h[i].message.handle != h[k].message.handle
  }

  predicate WasReceived(h: seq<ReceiptEvent>, handle: Handle) {
    exists i :: 0 <= i < |h| && h[i].Received? && h[i].message.handle == handle
  }

  // What is known about the receipts and the spent handles together: each
  // handle is in at most one place.
  ghost predicate Separated(h: seq<ReceiptEvent>) {
    var receipts, spent := Replayed(h), Spent(h);
    && (forall id :: id in receipts ==> WasReceived(h, receipts[id]))
    && (forall k :: 0 <= k < |spent| ==> WasReceived(h, spent[k]))
    && (forall a, b :: a in receipts && b in receipts && a != b ==> receipts[a] != receipts[b])
    && (forall id, k :: id in receipts && 0 <= k < |spent| ==> receipts[id] != spent[k])
    && (forall i, k :: 0 <= i < k < |spent| ==> spent[i] != spent[k])
  }

  lemma {:induction false} HandlesSeparated(h: seq<ReceiptEvent>)
    requires FreshHandles(h)
    ensures Separated(h)
  {
    if h != [] {
      var before := h[..|h| - 1];
      HandlesSeparated(before);
      forall handle | WasReceived(before, handle) ensures WasReceived(h, handle) {
        var i :| 0 <= i < |before| && before[i].Received? && before[i].message.handle == handle;
        assert h[i] == before[i];
      }
      if h[|h| - 1].Received? {
        var latest := h[|h| - 1].message.handle;
        assert !WasReceived(before, latest);
        assert WasReceived(h, latest);
      }
    }
  }

  /** No handle is used to settle a message more than once. */
  lemma HandleSettledOnce(h: seq<ReceiptEvent>, i: nat, k: nat)
    requires FreshHandles(h) && i < k < |Spent(h)|
    ensures Spent(h)[i] != Spent(h)[k]
  {
    HandlesSeparated(h);
  }

  lemma TakeReplayed(h: seq<ReceiptEvent>, id: string)
    ensures Replayed(h + [Taken(id)]) == Replayed(h) - {id}
  {
    assert (h + [Taken(id)])[..|h|] == h;
  }

  function Receives(ms: seq<Message>): seq<ReceiptEvent> {
    seq(|ms|, i requires 0 <= i < |ms| => Received(ms[i]))
  }

  // Receiving gives no handle out.
  lemma {:induction false} ReceivesSpendNothing(h: seq<ReceiptEvent>, ms: seq<Message>)
    ensures Spent(h + Receives(ms)) == Spent(h)
  {
    if ms == [] {
      assert h + Receives(ms) == h;
    } else {
      var init := ms[..|ms| - 1];
      ReceivesSpendNothing(h, init);
      assert (h + Receives(ms))[..|h| + |ms| - 1] == h + Receives(init);
    }
  }

  // A take gives out the latest untaken handle, if there is one.
  lemma TakeSpends(h: seq<ReceiptEvent>, id: string)
    ensures Spent(h + [Taken(id)]) ==
            Spent(h) + if LatestUntaken(h, id).Some? then [LatestUntaken(h, id).value] else []
  {
    ReceiptsAreLatest(h, id);
    assert (h + [Taken(id)])[..|h|] == h;
  }

  // Recording a response is replaying its receives.
  lemma {:induction false} RecordedIsReplayed(h: seq<ReceiptEvent>, ms: seq<Message>)
    ensures Replayed(h + Receives(ms)) == Recorded(Replayed(h), ms)
  {
    if ms == [] {
      assert h + Receives(ms) == h;
    } else {
      var init := ms[..|ms| - 1];
      RecordedIsReplayed(h, init);
      assert (h + Receives(ms))[..|h| + |ms| - 1] == h + Receives(init);
    }
  }
}

/** The queue adapter: its receipt map, guarded by a mutex, so that each method
    below is atomic. */
module SqsQueue {
  import opened Wrappers
  import opened Receipts

  datatype BrokerCall = DeleteMessage(handle: Handle) | MakeVisible(handle: Handle)

  // The handle a settle call was made with.
  function HandleOf(c: BrokerCall): Handle {
    match c
    case DeleteMessage(handle) => handle
    case MakeVisible(handle) => handle
  }

  function HandlesOf(calls: seq<BrokerCall>): seq<Handle> {
    seq(|calls|, i requires 0 <= i < |calls| => HandleOf(calls[i]))
  }

  /** The broker client: the settle calls made through it, oldest first. */
  class Client {
    var calls: seq<BrokerCall>

    constructor ()
      ensures calls == []
    {
      calls := [];
    }

    method Call(c: BrokerCall, fails: bool) returns (failed: bool)
      modifies this
      ensures calls == old(calls) + [c] && failed == fails
    {
      calls := calls + [c];
      failed := fails;
    }
  }

  class Queue {
    const client: Client
    var receipts: map<string, Handle>
    ghost var history: seq<ReceiptEvent>

    // The receipts are those of the history.
    ghost predicate Tracks()
      reads this
    {
      receipts == Replayed(history)
    }

    /** And the settle calls were made with exactly the handles it gave out, in
        order. */
    ghost predicate Valid()
      reads this, client
    {
      Tracks() && HandlesOf(client.calls) == Spent(history)
    }

    /** However receives, acks and nacks follow each other, with a handle of its
        own for every receive no handle settles a message twice. */
    lemma SettledOnce()
      requires Valid() && FreshHandles(history)
      ensures forall i, k :: 0 <= i < k < |client.calls| ==>
                HandleOf(client.calls[i]) != HandleOf(client.calls[k])
    {
      forall i, k | 0 <= i < k < |client.calls|
        ensures HandleOf(client.calls[i]) != HandleOf(client.calls[k])
      {
        HandleSettledOnce(history, i, k);
        assert HandlesOf(client.calls)[i] != HandlesOf(client.calls)[k];
      }
    }

    constructor (client: Client)
      requires client.calls == []
      ensures Valid() && this.client == client && receipts == map[] && history == []
    {
      this.client := client;
      receipts := map[];
      history := [];
    }

    /** Records the receipt of every message of one response, latest last, and
        yields a delivery for each one that names a job. */
    method Record(messages: seq<Message>) returns (deliveries: seq<string>)
      requires Valid()
      modifies this
      ensures Valid() && client.calls == old(client.calls)
      ensures history == old(history) + Receives(messages)
      ensures receipts == Recorded(old(receipts), messages)
      ensures deliveries == Bodies(messages)
    {
      deliveries := [];
      var i := 0;
      while i < |messages|
        invariant 0 <= i <= |messages|
        invariant receipts == Recorded(old(receipts), messages[..i])
        invariant deliveries == Bodies(messages[..i])
        invariant history == old(history)
      {
        assert messages[..i + 1][..i] == messages[..i];
        var msg := messages[i];
        if msg.body != "" {
          receipts := receipts[msg.body := msg.handle];
          deliveries := deliveries + [msg.body];
        }
        i := i + 1;
      }
      assert messages[..i] == messages;
      RecordedIsReplayed(history, messages);
      ReceivesSpendNothing(history, messages);
      history := history + Receives(messages);
    }

    /** Removes and returns the handle of the latest delivery of a job that has
        not been settled. */
    method TakeReceipt(id: string) returns (handle: Option<Handle>)
      requires Tracks()
      modifies this
      ensures Tracks()
      ensures history == old(history) + [Taken(id)]
      ensures handle == LatestUntaken(old(history), id)
      ensures receipts == old(receipts) - {id}
    {
      ReceiptsAreLatest(history, id);
      TakeReplayed(history, id);
      handle := None;
      if id in receipts {
        handle := Some(receipts[id]);
      }
      receipts := receipts - {id};
      history := history + [Taken(id)];
    }

    /** Deletes the message of the latest unsettled delivery; a job with none is
        someone else's to settle, and no call is made. */
    method Ack(id: string, fails: bool) returns (failed: bool)
      requires Valid()
      modifies this, client
      ensures Valid() && history == old(history) + [Taken(id)]
      ensures receipts == old(receipts) - {id}
      ensures var handle := LatestUntaken(old(history), id);
              if handle.Some? then
                client.calls == old(client.calls) + [DeleteMessage(handle.value)] && failed == fails
              else
                client.calls == old(client.calls) && !failed
    {
      TakeSpends(history, id);
      var handle := TakeReceipt(id);
      if handle.None? {
        return false;
      }
      failed := client.Call(DeleteMessage(handle.value), fails);
    }

    /** Returns the message of the latest unsettled delivery to the queue. */
    method Nack(id: string, fails: bool) returns (failed: bool)
      requires Valid()
      modifies this, client
      ensures Valid() && history == old(history) + [Taken(id)]
      ensures receipts == old(receipts) - {id}
      ensures var handle := LatestUntaken(old(history), id);
              if handle.Some? then
                client.calls == old(client.calls) + [MakeVisible(handle.value)] && failed == fails
              else
                client.calls == old(client.calls) && !failed
    {
      TakeSpends(history, id);
      var handle := TakeReceipt(id);
      if handle.None? {
        return false;
      }
      failed := client.Call(MakeVisible(handle.value), fails);
    }
  }
}

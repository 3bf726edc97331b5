/**
 * The long-poll step of the client (`LineClient.long_poll`): one fetched
 * batch of operations is applied to the revision cursor and the
 * conversation store, strictly in the order received.
 */
module Sync {
  import opened Wrappers
  import opened LineTypes
  import opened ConversationStore

  /** What `long_poll` reads and writes: the revision cursor `_rev` and the conversation store. */
  datatype SyncState = SyncState(rev: int, conversations: Store)

  /** The state after a batch and the events yielded while applying it. */
  datatype Batch = Batch(state: SyncState, events: seq<Event>)

  /** The state after one call of `long_poll`, and what the call yields or raises. */
  datatype PollResult = PollResult(state: SyncState, outcome: Result<seq<Event>, LineError>)

  /** Python's `max` on two integers. */
  function Max(a: int, b: int): int
  {
    if a >= b then a else b
  }

  /** One pass of the loop body of `long_poll` for one operation. */
  function Step(s: SyncState, op: Operation, recent: History): Batch
  {
    var rev := Max(op.revision, s.rev);
    match op.kind
    case EndOfOperation => Batch(SyncState(rev, s.conversations), [])
    case SendMessage(m) =>
      Batch(SyncState(rev, Added(s.conversations, m.to, m, recent)), [Event(EVENT_NEW_MESSAGE, m.to, m)])
    case ReceiveMessage(m) =>
      Batch(SyncState(rev, Added(s.conversations, m.frm, m, recent)), [Event(EVENT_NEW_MESSAGE, m.frm, m)])
    case ReceiveMessageReceipt => Batch(SyncState(rev, s.conversations), [])
    case Unhandled(_) => Batch(SyncState(rev, s.conversations), [])
  }

  /** The loop of `long_poll` over a whole batch: the batch without its last operation, then that one. */
  function ProcessAll(s: SyncState, ops: seq<Operation>, recent: History): Batch
    decreases |ops|
  {
    if ops == [] then Batch(s, [])
    else
      var before := ProcessAll(s, ops[..|ops| - 1], recent);
      var last := Step(before.state, ops[|ops| - 1], recent);
      Batch(last.state, before.events + last.events)
  }

  /**
   * `long_poll` as a whole: the fetch outcome decides whether the batch is
   * applied. A timeout (EOF) and a `TalkException` other than code 8 yield
   * nothing and change nothing; code 8 raises "logged in on another machine".
   */
  function Poll(s: SyncState, fetched: FetchResult, recent: History): (r: PollResult)
    ensures !fetched.Fetched? ==> r.state == s
    ensures r.outcome.Failure? <==> fetched.TalkFailure? && fetched.code == SESSION_SUPERSEDED
    ensures r.outcome.Failure? ==> r.outcome.error == LoggedInElsewhere
    ensures !fetched.Fetched? && r.outcome.Success? ==> r.outcome.value == []
    ensures fetched.Fetched? ==> r.outcome == Success(MessageEvents(fetched.ops))
    ensures fetched.Fetched? ==> IsMaxRevision(r.state.rev, s.rev, fetched.ops)
    ensures fetched.Fetched? ==> r.state.conversations.Keys == s.conversations.Keys + Touched(fetched.ops)
    ensures fetched.Fetched? ==> forall g :: g in s.conversations && g !in Touched(fetched.ops) ==>
      r.state.conversations[g] == s.conversations[g]
    ensures fetched.Fetched? ==> forall g :: g in s.conversations ==>
      r.state.conversations[g] == MsgsFor(g, fetched.ops) + s.conversations[g]
  {
    match fetched
    case EndOfStream => PollResult(s, Success([]))
    case TalkFailure(code, _) =>
      if code == SESSION_SUPERSEDED then PollResult(s, Failure(LoggedInElsewhere))
      else PollResult(s, Success([]))
    case Fetched(ops) =>
      RevisionIsMax(s, ops, recent);
      EventsInOrder(s, ops, recent);
      OnlyTouchedChange(s, ops, recent);
      forall g | g in s.conversations
        ensures ProcessAll(s, ops, recent).state.conversations[g] == MsgsFor(g, ops) + s.conversations[g]
      {
        ExistingConversation(s, ops, recent, g);
      }
      var b := ProcessAll(s, ops, recent);
      PollResult(b.state, Success(b.events))
  }

  // ---------------------------------------------------------------------
  // Reference definitions, stated from the operations alone

  /** The event a single operation stands for: one per message operation, none otherwise. */
  function EventsOf(op: Operation): seq<Event>
  {
    if op.kind.IsMessage() then [Event(EVENT_NEW_MESSAGE, op.kind.Key(), op.kind.message)] else []
  }

  /** The events of a batch, one per message operation, in the order of the operations. */
  function MessageEvents(ops: seq<Operation>): seq<Event>
  {
    if ops == [] then [] else EventsOf(ops[0]) + MessageEvents(ops[1..])
  }

  /** The conversations a batch's message operations are keyed by. */
  function Touched(ops: seq<Operation>): set<Mid>
  {
    set op | op in ops && op.kind.IsMessage() :: op.kind.Key()
  }

  /** The message an operation adds to conversation g, if any. */
  function MessagesFor(g: Mid, op: Operation): seq<Message>
  {
    if op.kind.IsMessage() && op.kind.Key() == g then [op.kind.message] else []
  }

  /** The messages a batch's operations key to conversation g, most recent (latest) first. */
  function MsgsFor(g: Mid, ops: seq<Operation>): seq<Message>
  {
    if ops == [] then [] else MsgsFor(g, ops[1..]) + MessagesFor(g, ops[0])
  }

  /** r is the maximum of r0 and every revision in ops. */
  ghost predicate IsMaxRevision(r: int, r0: int, ops: seq<Operation>)
  {
    && r0 <= r
    && (forall i :: 0 <= i < |ops| ==> ops[i].revision <= r)
    && (r == r0 || exists i :: 0 <= i < |ops| && ops[i].revision == r)
  }

  // ---------------------------------------------------------------------
  // Properties of a processed batch

  /**
   * After a batch the cursor is the maximum of its initial value and every
   * operation's revision, whatever the order the revisions arrive in.
   */
  lemma {:induction false} RevisionIsMax(s: SyncState, ops: seq<Operation>, recent: History)
    ensures IsMaxRevision(ProcessAll(s, ops, recent).state.rev, s.rev, ops)
  {
    if ops != [] {
      var init := ops[..|ops| - 1];
      var last := ops[|ops| - 1];
      RevisionIsMax(s, init, recent);
      var mid := ProcessAll(s, init, recent).state.rev;
      var r := ProcessAll(s, ops, recent).state.rev;
      assert r == Max(last.revision, mid);
      forall i | 0 <= i < |ops|
        ensures ops[i].revision <= r
      {
        if i < |init| {
          assert ops[i] == init[i];
        }
      }
      if r != s.rev {
        if r == last.revision {
          assert ops[|ops| - 1].revision == r;
        } else {
          assert r == mid && mid != s.rev;
          var i :| 0 <= i < |init| && init[i].revision == mid;
          assert ops[i].revision == r;
        }
      }
    }
  }

  /** The cursor never decreases while a batch is applied: a longer prefix never leaves it lower. */
  lemma {:induction false} RevisionMonotone(s: SyncState, ops: seq<Operation>, recent: History, i: nat, j: nat)
    requires i <= j <= |ops|
    ensures ProcessAll(s, ops[..i], recent).state.rev <= ProcessAll(s, ops[..j], recent).state.rev
  {
    if i < j {
      RevisionMonotone(s, ops, recent, i, j - 1);
      assert ops[..j][..j - 1] == ops[..j - 1];
    }
  }

  lemma {:induction false} MessageEventsAppend(ops: seq<Operation>, op: Operation)
    ensures MessageEvents(ops + [op]) == MessageEvents(ops) + EventsOf(op)
  {
    if ops != [] {
      assert (ops + [op])[1..] == ops[1..] + [op];
      MessageEventsAppend(ops[1..], op);
    }
  }

  /**
   * The events of a batch are exactly one `(EVENT_NEW_MESSAGE, conversation,
   * message)` per message operation, in the order the operations came.
   */
  lemma {:induction false} EventsInOrder(s: SyncState, ops: seq<Operation>, recent: History)
    ensures ProcessAll(s, ops, recent).events == MessageEvents(ops)
  {
    if ops != [] {
      var init := ops[..|ops| - 1];
      EventsInOrder(s, init, recent);
      assert ops == init + [ops[|ops| - 1]];
      MessageEventsAppend(init, ops[|ops| - 1]);
    }
  }

  /**
   * A batch creates exactly the conversations its message operations name and
   * leaves every conversation it does not name as it was.
   */
  lemma {:induction false} OnlyTouchedChange(s: SyncState, ops: seq<Operation>, recent: History)
    ensures ProcessAll(s, ops, recent).state.conversations.Keys == s.conversations.Keys + Touched(ops)
    ensures forall g :: g in s.conversations && g !in Touched(ops) ==>
      ProcessAll(s, ops, recent).state.conversations[g] == s.conversations[g]
  {
    if ops != [] {
      var init := ops[..|ops| - 1];
      var last := ops[|ops| - 1];
      OnlyTouchedChange(s, init, recent);
      assert ops == init + [last];
      assert Touched(ops) == Touched(init) + (if last.kind.IsMessage() then {last.kind.Key()} else {});
    }
  }

  lemma {:induction false} MsgsForAppend(g: Mid, ops: seq<Operation>, op: Operation)
    ensures MsgsFor(g, ops + [op]) == MessagesFor(g, op) + MsgsFor(g, ops)
  {
    if ops != [] {
      assert (ops + [op])[1..] == ops[1..] + [op];
      MsgsForAppend(g, ops[1..], op);
    }
  }

  /** Applying a + b is applying a, then b from the state a leaves. */
  lemma {:induction false} ProcessAllSplit(s: SyncState, a: seq<Operation>, b: seq<Operation>, recent: History)
    ensures var first := ProcessAll(s, a, recent);
      var second := ProcessAll(first.state, b, recent);
      ProcessAll(s, a + b, recent) == Batch(second.state, first.events + second.events)
    decreases |b|
  {
    if b == [] {
      assert a + b == a;
    } else {
      var init := b[..|b| - 1];
      ProcessAllSplit(s, a, init, recent);
      assert (a + b)[..|a + b| - 1] == a + init;
      assert (a + b)[|a + b| - 1] == b[|b| - 1];
    }
  }

  /**
   * A conversation that exists before the batch ends up holding every message
   * the batch keys to it, latest first, in front of its old buffer.
   */
  lemma {:induction false} ExistingConversation(s: SyncState, ops: seq<Operation>, recent: History, g: Mid)
    requires g in s.conversations
    ensures g in ProcessAll(s, ops, recent).state.conversations
    ensures ProcessAll(s, ops, recent).state.conversations[g] == MsgsFor(g, ops) + s.conversations[g]
  {
    if ops != [] {
      var init := ops[..|ops| - 1];
      var last := ops[|ops| - 1];
      ExistingConversation(s, init, recent, g);
      assert ops == init + [last];
      MsgsForAppend(g, init, last);
    }
  }

  /**
   * A conversation first named by operation op of the batch holds, afterwards,
   * the 20-message fetch and, in front of it, the later messages keyed to it;
   * the message of op is not prepended, so it is in the buffer only if the
   * fetch returns it.
   */
  lemma UnseenConversation(s: SyncState, pre: seq<Operation>, op: Operation, post: seq<Operation>, recent: History)
    requires op.kind.IsMessage()
    requires op.kind.Key() !in s.conversations && op.kind.Key() !in Touched(pre)
    ensures op.kind.Key() in ProcessAll(s, pre + [op] + post, recent).state.conversations
    ensures ProcessAll(s, pre + [op] + post, recent).state.conversations[op.kind.Key()]
      == MsgsFor(op.kind.Key(), post) + recent(op.kind.Key(), NEW_CONVERSATION_HISTORY)
  {
    var g := op.kind.Key();
    ProcessAllSplit(s, pre + [op], post, recent);
    assert (pre + [op])[..|pre + [op]| - 1] == pre;
    OnlyTouchedChange(s, pre, recent);
    var seeded := ProcessAll(s, pre + [op], recent).state;
    assert seeded.conversations[g] == recent(g, NEW_CONVERSATION_HISTORY);
    ExistingConversation(seeded, post, recent, g);
  }

  /**
   * A batch with no message operation (only `END_OF_OPERATION`, read receipts
   * or unknown kinds) yields no event and leaves the store as it was; only the
   * cursor may advance. This covers repeating such an operation any number of times.
   */
  lemma {:induction false} IgnoredOpsOnlyAdvance(s: SyncState, ops: seq<Operation>, recent: History)
    requires forall i :: 0 <= i < |ops| ==> !ops[i].kind.IsMessage()
    ensures ProcessAll(s, ops, recent).state.conversations == s.conversations
    ensures ProcessAll(s, ops, recent).events == []
  {
    if ops != [] {
      IgnoredOpsOnlyAdvance(s, ops[..|ops| - 1], recent);
    }
  }

  /**
   * Revisions 5, 3, 7 in that order leave the cursor at 7, and the events come
   * out in operation order, not sorted by revision.
   */
  lemma OutOfOrderRevisions(s: SyncState, m1: Message, m2: Message, m3: Message, recent: History)
    requires s.rev <= 7
    ensures var b := ProcessAll(s, [Operation(5, ReceiveMessage(m1)), Operation(3, SendMessage(m2)), Operation(7, ReceiveMessage(m3))], recent);
      b.state.rev == 7 &&
      b.events == [Event(EVENT_NEW_MESSAGE, m1.frm, m1), Event(EVENT_NEW_MESSAGE, m2.to, m2), Event(EVENT_NEW_MESSAGE, m3.frm, m3)]
  {
    var ops := [Operation(5, ReceiveMessage(m1)), Operation(3, SendMessage(m2)), Operation(7, ReceiveMessage(m3))];
    RevisionIsMax(s, ops, recent);
    assert ops[2].revision == 7;
    EventsInOrder(s, ops, recent);
    assert ops[1..] == [ops[1], ops[2]] && ops[1..][1..] == [ops[2]] && ops[1..][1..][1..] == [];
    assert MessageEvents(ops[1..][1..]) == EventsOf(ops[2]);
    assert MessageEvents(ops[1..]) == EventsOf(ops[1]) + EventsOf(ops[2]);
  }
}

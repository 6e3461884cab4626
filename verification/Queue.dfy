/** The bounded work queue with one consumer that puts failed requests back: pkg/manager/manager.go */
module Queue {
  import opened Records

  const CHANNEL_SIZE := 100
  const MAX_RETRIES := 3

  datatype Item = Item(id: nat, retries: nat)

  /** What the consumer is doing. */
  datatype Consumer = Idle | Processing(item: Item) | Resending(item: Item)

  /** `attempts` counts how often a request has been processed; `succeeded` and `dropped` are where it
      can end.  The three are not kept by the program. */
  datatype State = State(
    queue: seq<Item>,
    consumer: Consumer,
    accepted: set<nat>,
    succeeded: set<nat>,
    dropped: set<nat>,
    attempts: map<nat, nat>)

  /** What one processed attempt comes to. */
  datatype Result = Success | Failure | Unsupported

  datatype Event =
    | Add(id: nat)
    | Take
    | Process(result: Result)
    | Resend

  const EMPTY := State([], Idle, {}, {}, {}, map[])

  /** A send on a full channel waits; until there is room it is not a step. */
  predicate Enabled(s: State, e: Event) {
    match e
    case Add(id) => |s.queue| < CHANNEL_SIZE && id !in s.accepted
    case Take => s.consumer.Idle? && s.queue != []
    case Process(_) => s.consumer.Processing? && s.consumer.item.id in s.attempts
    case Resend => s.consumer.Resending? && |s.queue| < CHANNEL_SIZE
  }

  function Apply(s: State, e: Event): State
    requires Enabled(s, e)
  {
    match e
    case Add(id) =>
      s.(queue := s.queue + [Item(id, 0)], accepted := s.accepted + {id}, attempts := s.attempts[id := 0])
    case Take =>
      s.(queue := s.queue[1..], consumer := Processing(s.queue[0]))
    case Process(result) =>
      var item := s.consumer.item;
      var counted := s.(attempts := s.attempts[item.id := s.attempts[item.id] + 1]);
      (match result
       case Success => counted.(consumer := Idle, succeeded := s.succeeded + {item.id})
       case Unsupported => counted.(consumer := Idle, dropped := s.dropped + {item.id})
       case Failure =>
         if item.retries < MAX_RETRIES then counted.(consumer := Resending(Item(item.id, item.retries + 1)))
         else counted.(consumer := Idle, dropped := s.dropped + {item.id}))
    case Resend =>
      s.(queue := s.queue + [s.consumer.item], consumer := Idle)
  }

  /** Where a run ends; None when it takes a step that is not enabled. */
  function Run(s: State, events: seq<Event>): Option<State> {
    if events == [] then Some(s)
    else
      var before := Run(s, events[..|events| - 1]);
      var e := events[|events| - 1];
      if before.Some? && Enabled(before.value, e) then Some(Apply(before.value, e)) else None
  }

  lemma RunOneMore(s: State, events: seq<Event>, e: Event)
    ensures Run(s, events + [e]) ==
            var before := Run(s, events);
            if before.Some? && Enabled(before.value, e) then Some(Apply(before.value, e)) else None
  {
    assert (events + [e])[..|events|] == events;
  }

  lemma RunOne(s: State, e: Event)
    ensures Run(s, [e]) == if Enabled(s, e) then Some(Apply(s, e)) else None
  {
    RunOneMore(s, [], e);
    assert [] + [e] == [e];
  }

  /** What the consumer has in hand. */
  function InHand(s: State): seq<Item> {
    match s.consumer
    case Idle => []
    case Processing(item) => [item]
    case Resending(item) => [item]
  }

  /** How often a request occurs in a list. */
  function Count(items: seq<Item>, id: nat): nat {
    if items == [] then 0
    else Count(items[..|items| - 1], id) + if items[|items| - 1].id == id then 1 else 0
  }

  /** In how many places a request is. */
  function Places(s: State, id: nat): nat {
    Count(s.queue, id) + Count(InHand(s), id)
    + (if id in s.succeeded then 1 else 0) + (if id in s.dropped then 1 else 0)
  }

  predicate Counted(s: State, items: seq<Item>) {
    forall i :: 0 <= i < |items| ==>
      items[i].id in s.attempts && s.attempts[items[i].id] == items[i].retries <= MAX_RETRIES
  }

  /** Every accepted request is in exactly one place, and its attempts are what its retries say. */
  ghost predicate Inv(s: State) {
    && |s.queue| <= CHANNEL_SIZE
    && (forall id: nat :: Places(s, id) == if id in s.accepted then 1 else 0)
    && s.attempts.Keys == s.accepted
    && Counted(s, s.queue) && Counted(s, InHand(s))
    && (forall id :: id in s.succeeded || id in s.dropped ==> id in s.attempts && 1 <= s.attempts[id] <= MAX_RETRIES + 1)
  }

  lemma CountAppend(items: seq<Item>, item: Item, id: nat)
    ensures Count(items + [item], id) == Count(items, id) + if item.id == id then 1 else 0
  {
    assert (items + [item])[..|items|] == items;
  }

  lemma {:induction false} CountHead(items: seq<Item>, id: nat)
    requires items != []
    ensures Count(items, id) == Count(items[1..], id) + if items[0].id == id then 1 else 0
  {
    if |items| > 1 {
      CountHead(items[..|items| - 1], id);
      assert items[1..][..|items| - 2] == items[..|items| - 1][1..];
    }
  }

  lemma {:induction false} CountMember(items: seq<Item>, i: nat)
    requires i < |items|
    ensures Count(items, items[i].id) >= 1
  {
    if i < |items| - 1 {
      CountMember(items[..|items| - 1], i);
    }
  }

  lemma {:induction false} CountIsMember(items: seq<Item>, id: nat) returns (i: nat)
    requires Count(items, id) >= 1
    ensures i < |items| && items[i].id == id
  {
    if items[|items| - 1].id == id {
      i := |items| - 1;
    } else {
      i := CountIsMember(items[..|items| - 1], id);
    }
  }

  lemma StepMovesRequests(s: State, e: Event, id: nat)
    requires Inv(s) && Enabled(s, e)
    ensures Places(Apply(s, e), id) == if id in Apply(s, e).accepted then 1 else 0
  {
    assert Places(s, id) == if id in s.accepted then 1 else 0;
    match e
    case Add(new_) =>
      CountAppend(s.queue, Item(new_, 0), id);
    case Take =>
      CountHead(s.queue, id);
    case Process(result) =>
      ProcessMovesRequest(s, result, id);
    case Resend =>
      CountAppend(s.queue, s.consumer.item, id);
  }

  lemma ProcessMovesRequest(s: State, result: Result, id: nat)
    requires Enabled(s, Process(result)) && Places(s, id) <= 1
    ensures Places(Apply(s, Process(result)), id) == Places(s, id)
  {
    var item := s.consumer.item;
    assert InHand(s) == [item];
    CountOne(item, id);
    CountOne(Item(item.id, item.retries + 1), id);
  }

  lemma CountOne(item: Item, id: nat)
    ensures Count([item], id) == if item.id == id then 1 else 0
  {
    assert [item][..0] == [];
  }

  lemma StepKeepsCounts(s: State, e: Event)
    requires Inv(s) && Enabled(s, e)
    ensures var s' := Apply(s, e); Counted(s', s'.queue) && Counted(s', InHand(s'))
  {
    if e.Process? {
      var id := s.consumer.item.id;
      assert InHand(s) == [s.consumer.item];
      forall i | 0 <= i < |s.queue| ensures s.queue[i].id != id {
        CountMember(s.queue, i);
        assert Places(s, id) <= 1;
      }
      assert s.consumer.item == InHand(s)[0];
    }
  }

  lemma StepKeepsInv(s: State, e: Event)
    requires Inv(s) && Enabled(s, e)
    ensures Inv(Apply(s, e))
  {
    var s' := Apply(s, e);
    forall id: nat ensures Places(s', id) == if id in s'.accepted then 1 else 0 {
      StepMovesRequests(s, e, id);
    }
    StepKeepsCounts(s, e);
    StepKeepsBounds(s, e);
  }

  lemma StepKeepsBounds(s: State, e: Event)
    requires Inv(s) && Enabled(s, e)
    ensures var s' := Apply(s, e);
            && |s'.queue| <= CHANNEL_SIZE && s'.attempts.Keys == s'.accepted
            && (forall id :: id in s'.succeeded || id in s'.dropped ==> id in s'.attempts && 1 <= s'.attempts[id] <= MAX_RETRIES + 1)
  {
    if e.Process? {
      assert s.consumer.item == InHand(s)[0];
      assert Places(s, s.consumer.item.id) <= 1;
    } else if e.Add? {
      assert Places(s, e.id) == 0;
    }
  }

  /** In every run from the empty queue each accepted request is queued, in hand, succeeded or dropped,
      and exactly one of these; and none is processed more often than the retry limit allows. */
  lemma {:induction false} EveryRunConserves(events: seq<Event>)
    requires Run(EMPTY, events).Some?
    ensures var s := Run(EMPTY, events).value;
            && Inv(s)
            && (forall id :: id in s.attempts ==> s.attempts[id] <= MAX_RETRIES + 1)
  {
    if events != [] {
      var front := events[..|events| - 1];
      EveryRunConserves(front);
      StepKeepsInv(Run(EMPTY, front).value, events[|events| - 1]);
    }
    AttemptsBounded(Run(EMPTY, events).value);
  }

  lemma AttemptsBounded(s: State)
    requires Inv(s)
    ensures forall id :: id in s.attempts ==> s.attempts[id] <= MAX_RETRIES + 1
  {
    forall id | id in s.attempts ensures s.attempts[id] <= MAX_RETRIES + 1 {
      assert Places(s, id) == 1;
      if Count(s.queue, id) >= 1 {
        var i := CountIsMember(s.queue, id);
      } else if Count(InHand(s), id) >= 1 {
        var i := CountIsMember(InHand(s), id);
      }
    }
  }

  /** In a run without unsupported requests a request is given up after exactly four failed attempts, and one that
      is neither done nor given up has had at most three. */
  lemma {:induction false} DroppedAfterFour(events: seq<Event>)
    requires Run(EMPTY, events).Some?
    requires forall i :: 0 <= i < |events| ==> events[i] != Process(Unsupported)
    ensures var s := Run(EMPTY, events).value;
            && Inv(s)
            && (forall id :: id in s.dropped ==> id in s.attempts && s.attempts[id] == 4)
            && (forall id :: id in s.accepted && id !in s.succeeded && id !in s.dropped ==> s.attempts[id] <= 3)
  {
    EveryRunConserves(events);
    if events != [] {
      var front, e := events[..|events| - 1], events[|events| - 1];
      DroppedAfterFour(front);
      EveryRunConserves(front);
      StepKeepsDropped(Run(EMPTY, front).value, e);
    }
    OpenHaveRetries(Run(EMPTY, events).value);
  }

  lemma StepKeepsDropped(s: State, e: Event)
    requires Inv(s) && Enabled(s, e) && e != Process(Unsupported)
    requires forall id :: id in s.dropped ==> id in s.attempts && s.attempts[id] == 4
    ensures var s' := Apply(s, e); forall id :: id in s'.dropped ==> id in s'.attempts && s'.attempts[id] == 4
  {
    if e.Process? {
      var item := s.consumer.item;
      assert InHand(s) == [item] && item == InHand(s)[0];
      assert Places(s, item.id) <= 1;
      assert Count([item], item.id) == 1;
    }
    if e.Add? {
      assert Places(s, e.id) == 0;
    }
  }

  lemma OpenHaveRetries(s: State)
    requires Inv(s)
    ensures forall id :: id in s.accepted && id !in s.succeeded && id !in s.dropped ==> s.attempts[id] <= 3
  {
    forall id | id in s.accepted && id !in s.succeeded && id !in s.dropped ensures s.attempts[id] <= 3 {
      assert Places(s, id) == 1;
      if Count(s.queue, id) >= 1 {
        var i := CountIsMember(s.queue, id);
      } else {
        var i := CountIsMember(InHand(s), id);
      }
    }
  }

  /** The attempts a list of requests may still get. */
  function Left(items: seq<Item>): int {
    if items == [] then 0
    else Left(items[..|items| - 1]) + (MAX_RETRIES + 1 - items[|items| - 1].retries)
  }

  function Budget(s: State): int {
    Left(s.queue) + Left(InHand(s))
  }

  lemma LeftAppend(items: seq<Item>, item: Item)
    ensures Left(items + [item]) == Left(items) + (MAX_RETRIES + 1 - item.retries)
  {
    assert (items + [item])[..|items|] == items;
  }

  lemma {:induction false} LeftHead(items: seq<Item>)
    requires items != []
    ensures Left(items) == (MAX_RETRIES + 1 - items[0].retries) + Left(items[1..])
  {
    if |items| > 1 {
      LeftHead(items[..|items| - 1]);
      assert items[1..][..|items| - 2] == items[..|items| - 1][1..];
    }
  }

  /** Every processed attempt costs at least one, moving a request costs nothing. */
  lemma StepSpendsBudget(s: State, e: Event)
    requires Inv(s) && Enabled(s, e)
    ensures var s' := Apply(s, e);
            match e
            case Add(_) => Budget(s') == Budget(s) + MAX_RETRIES + 1
            case Take => Budget(s') == Budget(s)
            case Process(_) => Budget(s') < Budget(s)
            case Resend => Budget(s') == Budget(s)
  {
    match e
    case Add(id) => LeftAppend(s.queue, Item(id, 0));
    case Take => LeftHead(s.queue);
    case Process(_) => assert Left(InHand(s)) == MAX_RETRIES + 1 - s.consumer.item.retries;
    case Resend => LeftAppend(s.queue, s.consumer.item);
  }

  function Adds(events: seq<Event>): nat {
    if events == [] then 0 else Adds(events[..|events| - 1]) + if events[|events| - 1].Add? then 1 else 0
  }

  function Processed(events: seq<Event>): nat {
    if events == [] then 0 else Processed(events[..|events| - 1]) + if events[|events| - 1].Process? then 1 else 0
  }

  lemma {:induction false} LeftNotNegative(s: State, items: seq<Item>)
    requires Counted(s, items)
    ensures Left(items) >= 0
  {
    if items != [] {
      LeftNotNegative(s, items[..|items| - 1]);
    }
  }

  /** The work of a run is bounded by what was put in: four attempts a request at most, all told. */
  lemma {:induction false} WorkIsBounded(events: seq<Event>)
    requires Run(EMPTY, events).Some?
    ensures Processed(events) + Budget(Run(EMPTY, events).value) <= (MAX_RETRIES + 1) * Adds(events)
    ensures Processed(events) <= (MAX_RETRIES + 1) * Adds(events)
  {
    EveryRunConserves(events);
    var s := Run(EMPTY, events).value;
    LeftNotNegative(s, s.queue);
    LeftNotNegative(s, InHand(s));
    if events != [] {
      var front := events[..|events| - 1];
      WorkIsBounded(front);
      EveryRunConserves(front);
      StepSpendsBudget(Run(EMPTY, front).value, events[|events| - 1]);
    }
  }

  /** The consumer waits for room in the queue only it empties. */
  predicate Stuck(s: State) {
    s.consumer.Resending? && |s.queue| == CHANNEL_SIZE
  }

  /** From there no step is possible, the producers' included. */
  lemma {:induction false} StuckForGood(s: State, events: seq<Event>)
    requires Stuck(s) && Run(s, events).Some?
    ensures events == []
    decreases |events|
  {
    if |events| > 1 {
      StuckForGood(s, events[..|events| - 1]);
    }
  }

  function OutstandingCount(s: State): nat {
    |s.queue| + |InHand(s)|
  }

  /** Every request is added while fewer than `bound` are outstanding. */
  predicate Paced(s: State, events: seq<Event>, bound: nat) {
    forall i :: 0 <= i < |events| && events[i].Add? ==>
      Run(s, events[..i]).Some? ==> OutstandingCount(Run(s, events[..i]).value) < bound
  }

  /** With the channel's capacity for a bound the consumer's own send always finds room. */
  lemma {:induction false} PacedNeverStuck(events: seq<Event>)
    requires Run(EMPTY, events).Some? && Paced(EMPTY, events, CHANNEL_SIZE)
    ensures OutstandingCount(Run(EMPTY, events).value) <= CHANNEL_SIZE
    ensures !Stuck(Run(EMPTY, events).value)
  {
    if events != [] {
      var front := events[..|events| - 1];
      forall i | 0 <= i < |front| && front[i].Add? && Run(EMPTY, front[..i]).Some?
        ensures OutstandingCount(Run(EMPTY, front[..i]).value) < CHANNEL_SIZE
      {
        assert events[..i] == front[..i] && events[i] == front[i];
      }
      PacedNeverStuck(front);
    }
  }

  lemma {:induction false} Fill(s: State, events: seq<Event>, next: nat, n: nat) returns (more: seq<Event>)
    requires Run(EMPTY, events) == Some(s) && |s.queue| + n <= CHANNEL_SIZE
    requires forall id :: id in s.accepted ==> id < next
    ensures Run(EMPTY, more).Some?
    ensures var t := Run(EMPTY, more).value;
            t.consumer == s.consumer && |t.queue| == |s.queue| + n && s.attempts.Keys <= t.attempts.Keys
    decreases n
  {
    if n == 0 {
      more := events;
    } else {
      RunOneMore(EMPTY, events, Add(next));
      more := Fill(Apply(s, Add(next)), events + [Add(next)], next + 1, n - 1);
    }
  }

  /** With one more request than the channel holds the consumer can lock itself out for good: while it
      works on the first, producers fill the channel, and then the attempt fails. */
  lemma OverfullQueueGetsStuck() returns (events: seq<Event>)
    ensures Run(EMPTY, events).Some? && Stuck(Run(EMPTY, events).value)
    ensures OutstandingCount(Run(EMPTY, events).value) == CHANNEL_SIZE + 1
  {
    RunOneMore(EMPTY, [], Add(0));
    RunOneMore(EMPTY, [Add(0)], Take);
    assert [] + [Add(0)] == [Add(0)];
    var start := [Add(0)] + [Take];
    var s := Run(EMPTY, start).value;
    events := Fill(s, start, 1, CHANNEL_SIZE);
    RunOneMore(EMPTY, events, Process(Failure));
    events := events + [Process(Failure)];
  }

  lemma {:induction false} PrefixRuns(s: State, events: seq<Event>, i: nat)
    requires Run(s, events).Some? && i < |events|
    ensures Run(s, events[..i]).Some? && Enabled(Run(s, events[..i]).value, events[i])
  {
    if i < |events| - 1 {
      var front := events[..|events| - 1];
      PrefixRuns(s, front, i);
      assert front[..i] == events[..i] && front[i] == events[i];
    }
  }

  /** A send needs room in the channel, so no run ever exceeds the pace of one more than its capacity. */
  lemma EveryRunIsPaced(events: seq<Event>, bound: nat)
    requires Run(EMPTY, events).Some? && bound > CHANNEL_SIZE
    ensures Paced(EMPTY, events, bound)
  {
    forall i | 0 <= i < |events| && events[i].Add? && Run(EMPTY, events[..i]).Some?
      ensures OutstandingCount(Run(EMPTY, events[..i]).value) < bound
    {
      PrefixRuns(EMPTY, events, i);
    }
  }

  ghost predicate SafePace(bound: nat) {
    forall events :: Run(EMPTY, events).Some? && Paced(EMPTY, events, bound) ==> !Stuck(Run(EMPTY, events).value)
  }

  /** The paces at which the consumer never locks itself out are exactly those within the capacity. */
  lemma SafePaceIff(bound: nat)
    ensures SafePace(bound) <==> bound <= CHANNEL_SIZE
  {
    if bound <= CHANNEL_SIZE {
      forall events | Run(EMPTY, events).Some? && Paced(EMPTY, events, bound)
        ensures !Stuck(Run(EMPTY, events).value)
      {
        assert Paced(EMPTY, events, CHANNEL_SIZE);
        PacedNeverStuck(events);
      }
    } else {
      var events := OverfullQueueGetsStuck();
      EveryRunIsPaced(events, bound);
    }
  }

  class Request {
    const id: nat
    var retires: nat

    constructor (id: nat)
      ensures this.id == id && retires == 0
    {
      this.id := id;
      retires := 0;
    }
  }

  function Items(requests: seq<Request>): (items: seq<Item>)
    reads requests
    ensures |items| == |requests|
  {
    seq(|requests|, i requires 0 <= i < |requests| reads requests => Item(requests[i].id, requests[i].retires))
  }

  class Manager {
    var queue: seq<Request>
    ghost var consumer: Consumer
    ghost var accepted: set<nat>
    ghost var succeeded: set<nat>
    ghost var dropped: set<nat>
    ghost var attempts: map<nat, nat>

    ghost function Snapshot(): State
      reads this, queue
    {
      State(Items(queue), consumer, accepted, succeeded, dropped, attempts)
    }

    constructor ()
      ensures Snapshot() == EMPTY
    {
      queue := [];
      consumer, accepted, succeeded, dropped, attempts := Idle, {}, {}, {}, map[];
    }

    /** addRequest.  On a full channel the sender waits: nothing happens yet. */
    method AddRequest(id: nat) returns (sent: bool)
      requires id !in accepted
      modifies this
      ensures sent == (|old(queue)| < CHANNEL_SIZE)
      ensures Run(old(Snapshot()), if sent then [Add(id)] else []) == Some(Snapshot())
      ensures sent ==> |queue| == |old(queue)| + 1 && queue[..|old(queue)|] == old(queue)
                       && queue[|old(queue)|].id == id && queue[|old(queue)|].retires == 0
      ensures !sent ==> queue == old(queue)
    {
      sent := |queue| < CHANNEL_SIZE;
      if sent {
        ghost var before := Snapshot();
        RunOne(before, Add(id));
        var request := new Request(id);
        queue := queue + [request];
        accepted := accepted + {id};
        attempts := attempts[id := 0];
        assert Snapshot().queue == before.queue + [Item(id, 0)];
      }
    }

    /** The receive in ProcessQueue. */
    method Receive() returns (request: Request)
      requires consumer.Idle? && queue != []
      modifies this
      ensures request == old(queue)[0] && queue == old(queue)[1..]
      ensures consumer == Processing(Item(request.id, request.retires))
      ensures Run(old(Snapshot()), [Take]) == Some(Snapshot())
    {
      ghost var before := Snapshot();
      RunOne(before, Take);
      request := queue[0];
      consumer := Processing(Item(request.id, request.retires));
      queue := queue[1..];
      assert Snapshot().queue == before.queue[1..];
    }

    /** processRequest.  `result` is how the attempt ends.  When the channel is full the request is not
        resent: the consumer waits. */
    method ProcessRequest(request: Request, result: Result) returns (waiting: bool, ghost events: seq<Event>)
      requires consumer == Processing(Item(request.id, request.retires))
      requires request !in queue && request.id in attempts && |queue| <= CHANNEL_SIZE
      modifies this, request
      ensures Run(old(Snapshot()), events) == Some(Snapshot())
      ensures events == if result.Failure? && old(request.retires) < MAX_RETRIES && |old(queue)| < CHANNEL_SIZE
                        then [Process(result), Resend] else [Process(result)]
      ensures waiting == Stuck(Snapshot()) && (waiting <==> !consumer.Idle?)
      ensures request.retires == old(request.retires)
                                 + if result.Failure? && old(request.retires) < MAX_RETRIES then 1 else 0
      ensures result.Success? ==> succeeded == old(succeeded) + {request.id} && dropped == old(dropped) && queue == old(queue)
      ensures result.Unsupported? || (result.Failure? && old(request.retires) >= 3) ==>
                dropped == old(dropped) + {request.id} && succeeded == old(succeeded) && queue == old(queue)
      ensures result.Failure? && old(request.retires) < 3 ==>
                && request.retires == old(request.retires) + 1 && dropped == old(dropped) && succeeded == old(succeeded)
                && queue == (if |old(queue)| < 100 then old(queue) + [request] else old(queue))
    {
      ghost var before := Snapshot();
      events := [Process(result)];
      RunOne(before, Process(result));
      waiting := false;
      attempts := attempts[request.id := attempts[request.id] + 1];
      if result.Unsupported? {
        consumer, dropped := Idle, dropped + {request.id};
      } else if result.Failure? {
        if request.retires < MAX_RETRIES {
          request.retires := request.retires + 1;
          consumer := Resending(Item(request.id, request.retires));
          assert Snapshot() == Apply(before, Process(result));
          RunOneMore(before, events, Resend);
          if |queue| < CHANNEL_SIZE {
            queue := queue + [request];
            assert Snapshot().queue == before.queue + [consumer.item];
            consumer := Idle;
            events := events + [Resend];
          } else {
            waiting := true;
          }
        } else {
          consumer, dropped := Idle, dropped + {request.id};
        }
      } else {
        consumer, succeeded := Idle, succeeded + {request.id};
      }
    }
  }
}

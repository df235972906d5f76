/**
 * The bounded line reader and the bounded writer of runtime_gateway.py. The reader thread, the
 * consumer and `close` interleave in atomic steps; theorems are about every schedule of such steps.
 */
module Pipes {
  const QUEUE_LIMIT := 64

  // ----- the reader as interleaved steps -----------------------------------------------------------------

  /** One result of `readline`: a line, the empty read at the end of the stream, or an exception. */
  datatype Item = Line(text: string) | EndOfStream | ReadError

  /**
   * Where the reader thread stands: at the loop test, inside `readline`, at the loop test of `_put`
   * with an item in hand, inside `queue.put` with that item, or finished.
   */
  datatype Place = AtTop | InRead | AtPut(held: Item) | InPut(held: Item) | Finished

  /** `read`, `consumed` and `dropped` record history; the other fields are the reader's own. */
  datatype State = State(
    stop: bool, place: Place, queue: seq<Item>,
    read: seq<Item>, consumed: seq<Item>, dropped: seq<Item>)

  const START := State(false, AtTop, [], [], [], [])

  datatype Action =
    | Proceed              // the reader thread's next step; a full queue makes `put` time out
    | Arrive(item: Item)   // `readline` returns
    | Take                 // the consumer's `queue.get` succeeds
    | Close                // the stop flag is set

  function Hand(p: Place): seq<Item> {
    match p
    case AtPut(held) => [held]
    case InPut(held) => [held]
    case _ => []
  }

  function AfterPut(held: Item): Place {
    if held.Line? then AtTop else Finished
  }

  function ReaderStep(s: State): State {
    match s.place
    case AtTop => s.(place := if s.stop then Finished else InRead)
    case InRead => s
    case AtPut(held) =>
      if s.stop then s.(place := Finished, dropped := s.dropped + [held]) else s.(place := InPut(held))
    case InPut(held) =>
      if |s.queue| < QUEUE_LIMIT then s.(place := AfterPut(held), queue := s.queue + [held])
      else s.(place := AtPut(held))
    case Finished => s
  }

  /** An action that is not enabled changes nothing. */
  function Next(s: State, a: Action): State {
    match a
    case Proceed => ReaderStep(s)
    case Arrive(item) =>
      if s.place.InRead? then s.(place := AtPut(item), read := s.read + [item]) else s
    case Take =>
      if s.queue != [] then s.(queue := s.queue[1..], consumed := s.consumed + [s.queue[0]]) else s
    case Close => s.(stop := true)
  }

  function Run(schedule: seq<Action>): State {
    if schedule == [] then START else Next(Run(schedule[..|schedule| - 1]), schedule[|schedule| - 1])
  }

  /** What every interleaving keeps. */
  predicate Sound(s: State) {
    && s.read == s.consumed + s.queue + Hand(s.place) + s.dropped
    && |s.queue| <= QUEUE_LIMIT && |s.dropped| <= 1
    && (s.dropped != [] ==> s.stop && s.place == Finished)
    && (forall i :: 0 <= i < |s.read| - 1 ==> s.read[i].Line?)
    && (s.read != [] && !s.read[|s.read| - 1].Line? ==> Hand(s.place) != [] || s.place == Finished)
  }

  lemma TakeKeeps(s: State)
    requires Sound(s) && s.queue != []
    ensures Sound(Next(s, Take))
  {
    assert s.consumed + s.queue == s.consumed + [s.queue[0]] + s.queue[1..];
  }

  lemma StepKeeps(s: State, a: Action)
    requires Sound(s)
    ensures Sound(Next(s, a))
  {
    if a == Take {
      if s.queue != [] {
        TakeKeeps(s);
      }
    } else {
      var s' := Next(s, a);
      if s'.place != s.place {
        HandMoves(s, a);
      }
    }
  }

  /** An item moves from the hand to the queue or is dropped; nothing else is lost or reordered. */
  lemma HandMoves(s: State, a: Action)
    requires Sound(s) && (a.Proceed? || a.Arrive?)
    ensures var s' := Next(s, a); s'.read == s'.consumed + s'.queue + Hand(s'.place) + s'.dropped
  {
    if s.place.AtPut? || s.place.InPut? {
      assert s.dropped == [];
    }
  }

  lemma {:induction false} EveryScheduleIsSound(schedule: seq<Action>)
    ensures Sound(Run(schedule))
  {
    if schedule != [] {
      EveryScheduleIsSound(schedule[..|schedule| - 1]);
      StepKeeps(Run(schedule[..|schedule| - 1]), schedule[|schedule| - 1]);
    }
  }

  /**
   * In every interleaving the consumer sees a prefix of what was read, in order; until `close` nothing
   * is lost; after it at most the one item in hand is, and that item is the last one read.
   */
  lemma NothingIsLostOrReordered(schedule: seq<Action>)
    ensures var s := Run(schedule);
            && s.consumed <= s.read && |s.queue| <= 64
            && (!s.stop ==> s.read == s.consumed + s.queue + Hand(s.place))
            && (s.stop ==> |s.dropped| <= 1 && s.read == s.consumed + s.queue + Hand(s.place) + s.dropped)
  {
    EveryScheduleIsSound(schedule);
    var s := Run(schedule);
    FirstPart(s.consumed, s.queue, Hand(s.place), s.dropped);
  }

  lemma FirstPart(a: seq<Item>, b: seq<Item>, c: seq<Item>, d: seq<Item>)
    ensures a <= a + b + c + d && (d == [] ==> a + b + c + d == a + b + c)
  {
    assert a + b + c + d == a + (b + c + d);
  }

  // ----- what is read arrives ---------------------------------------------------------------------------------

  /** One item through the reader: asked for, returned, put, taken. */
  function OneItem(item: Item): seq<Action> {
    [Proceed, Arrive(item), Proceed, Proceed, Take]
  }

  function AllItems(items: seq<Item>): seq<Action> {
    if items == [] then [] else AllItems(items[..|items| - 1]) + OneItem(items[|items| - 1])
  }

  /** The reader waits for the next line, and everything read so far was consumed. */
  predicate Idle(s: State, items: seq<Item>) {
    !s.stop && s.place == AtTop && s.queue == [] && s.consumed == items
  }

  lemma RunMore(schedule: seq<Action>, a: Action)
    ensures Run(schedule + [a]) == Next(Run(schedule), a)
  {
    assert (schedule + [a])[..|schedule|] == schedule;
  }

  lemma OneItemComesThrough(schedule: seq<Action>, items: seq<Item>, item: Item)
    requires Idle(Run(schedule), items)
    ensures Run(schedule + OneItem(item)).consumed == items + [item]
    ensures item.Line? ==> Idle(Run(schedule + OneItem(item)), items + [item])
    ensures !item.Line? ==> Run(schedule + OneItem(item)).place == Finished
  {
    var s1, s2 := schedule + [Proceed], schedule + [Proceed, Arrive(item)];
    var s3, s4 := s2 + [Proceed], s2 + [Proceed, Proceed];
    RunMore(schedule, Proceed);
    assert s2 == s1 + [Arrive(item)] && s4 == s3 + [Proceed] && schedule + OneItem(item) == s4 + [Take];
    RunMore(s1, Arrive(item));
    RunMore(s2, Proceed);
    RunMore(s3, Proceed);
    RunMore(s4, Take);
  }

  // A consumer that takes each item as it comes gets every line of any stream, in order.
  lemma {:induction false} LinesComeThrough(items: seq<Item>)
    requires forall i :: 0 <= i < |items| ==> items[i].Line?
    ensures Idle(Run(AllItems(items)), items)
  {
    if items != [] {
      var init := items[..|items| - 1];
      LinesComeThrough(init);
      OneItemComesThrough(AllItems(init), init, items[|items| - 1]);
      assert items == init + [items[|items| - 1]];
    }
  }

  // And then the end of the stream, or its error, after which the reader is finished.
  lemma TheEndComesThrough(items: seq<Item>, end: Item)
    requires (forall i :: 0 <= i < |items| ==> items[i].Line?) && !end.Line?
    ensures var s := Run(AllItems(items) + OneItem(end)); s.consumed == items + [end] && s.place == Finished
  {
    LinesComeThrough(items);
    OneItemComesThrough(AllItems(items), items, end);
  }

  // While the reader is open, a full queue delays an item and never loses it: it is put as soon as there is room.
  lemma FullQueueDelays(s: State)
    requires !s.stop && s.place.InPut?
    ensures |s.queue| >= 64 ==> Next(Next(s, Proceed), Proceed) == s
    ensures |s.queue| < 64 ==> Next(s, Proceed).queue == s.queue + [s.place.held]
  {
  }

  /** Steps the reader thread itself can still make once the stop flag is set. */
  function StepsLeft(s: State): nat {
    match s.place
    case InRead => 3
    case InPut(_) => 2
    case AtPut(_) => 1
    case AtTop => 1
    case Finished => 0
  }

  /** Whether one more `readline` can still return. */
  function MayRead(s: State): nat {
    if s.place.InRead? then 1 else 0
  }

  function After(s: State, schedule: seq<Action>): State
    decreases |schedule|
  {
    if schedule == [] then s else After(Next(s, schedule[0]), schedule[1..])
  }

  predicate MovesReader(s: State, a: Action) {
    (a.Proceed? && !s.place.InRead? && !s.place.Finished?) || (a.Arrive? && s.place.InRead?)
  }

  /** After `close` every step of the reader thread brings it closer to its end, and nothing sets it back. */
  lemma CloseEndsTheReader(s: State, a: Action)
    requires s.stop
    ensures Next(s, a).stop
    ensures MovesReader(s, a) ==> StepsLeft(Next(s, a)) < StepsLeft(s)
    ensures !MovesReader(s, a) ==> Next(s, a).place == s.place
    ensures |Next(s, a).read| + MayRead(Next(s, a)) <= |s.read| + MayRead(s) && s.read <= Next(s, a).read
  {
  }

  function ReaderMoves(s: State, schedule: seq<Action>): nat
    decreases |schedule|
  {
    if schedule == [] then 0
    else (if MovesReader(s, schedule[0]) then 1 else 0) + ReaderMoves(Next(s, schedule[0]), schedule[1..])
  }

  /**
   * So after `close` the reader makes at most three more moves, and reads at most one more line: the
   * one it is already waiting for.
   */
  lemma {:induction false} AtMostThreeMovesAfterClose(s: State, schedule: seq<Action>)
    requires s.stop
    ensures ReaderMoves(s, schedule) <= StepsLeft(s) <= 3
    ensures var s' := After(s, schedule); s.read <= s'.read && |s'.read| <= |s.read| + MayRead(s)
    decreases |schedule|
  {
    if schedule != [] {
      CloseEndsTheReader(s, schedule[0]);
      AtMostThreeMovesAfterClose(Next(s, schedule[0]), schedule[1..]);
    }
  }

  // ----- the reader object ---------------------------------------------------------------------------------

  datatype Pending = Got(line: string) | TimedOut | BadRead | TooLong | NotDelimited

  /** The queue and stop flag the two threads share, with each method one atomic step of its thread. */
  class LineReader {
    const maxBytes: nat
    var stop: bool
    var place: Place
    var queue: seq<Item>
    ghost var read: seq<Item>
    ghost var consumed: seq<Item>
    ghost var dropped: seq<Item>

    ghost function Value(): State
      reads this
    {
      State(stop, place, queue, read, consumed, dropped)
    }

    constructor (maxBytes: nat)
      ensures Value() == START && this.maxBytes == maxBytes
    {
      this.maxBytes := maxBytes;
      stop, place, queue := false, AtTop, [];
      read, consumed, dropped := [], [], [];
    }

    method ProceedReader()
      modifies this
      ensures Value() == Next(old(Value()), Proceed)
    {
      match place {
        case AtTop =>
          place := if stop then Finished else InRead;
        case InRead =>
        case AtPut(held) =>
          if stop {
            place := Finished;
            dropped := dropped + [held];
          } else {
            place := InPut(held);
          }
        case InPut(held) =>
          if |queue| < QUEUE_LIMIT {
            queue := queue + [held];
            place := AfterPut(held);
          } else {
            place := AtPut(held);
          }
        case Finished =>
      }
    }

    method ArriveLine(item: Item)
      requires place.InRead?
      modifies this
      ensures Value() == Next(old(Value()), Arrive(item))
    {
      place := AtPut(item);
      read := read + [item];
    }

    /** `next`: one item off the queue, or a timeout; what is not one bounded, terminated line is refused. */
    method NextLine() returns (r: Pending)
      modifies this
      ensures Value() == Next(old(Value()), Take)
      ensures r == if old(queue) == [] then TimedOut else Judged(old(queue)[0], maxBytes)
    {
      if queue == [] {
        return TimedOut;
      }
      r := Judged(queue[0], maxBytes);
      consumed := consumed + [queue[0]];
      queue := queue[1..];
    }

    method CloseReader()
      modifies this
      ensures Value() == Next(old(Value()), Close)
    {
      stop := true;
    }
  }

  function Judged(item: Item, maxBytes: nat): Pending {
    match item
    case ReadError => BadRead
    case EndOfStream => Got("")
    case Line(text) =>
      if |text| > maxBytes then TooLong
      else if text != "" && text[|text| - 1] != '\n' then NotDelimited
      else Got(text)
  }

  // The consumer gets a line if and only if it is within the limit and ends in a newline; the empty read at the
  // end of the stream passes as it is.
  lemma LineIsTakenIff(item: Item, maxBytes: nat, line: string)
    ensures Judged(item, maxBytes) == Got(line)
            <==> (item == EndOfStream && line == "")
                 || (item == Line(line) && |line| <= maxBytes && (line == "" || line[|line| - 1] == '\n'))
    ensures Judged(item, maxBytes) == TooLong <==> item.Line? && |item.text| > maxBytes
  {
  }

  // ----- the writer -----------------------------------------------------------------------------------------

  /** What a stream accepts before a call raises, returns no count, or returns zero or less. */
  function Accepted(results: seq<int>): nat {
    if results == [] || results[0] <= 0 then 0 else results[0] + Accepted(results[1..])
  }

  function Sum(results: seq<int>): int {
    if results == [] then 0 else results[0] + Sum(results[1..])
  }

  /** The first `n` calls accept something, and the next one does not. */
  predicate GoodCalls(results: seq<int>, n: int) {
    0 <= n <= |results| && (forall k :: 0 <= k < n ==> results[k] > 0) && (n < |results| ==> results[n] <= 0)
  }

  // What is accepted is the sum of the counts before the first bad one.
  lemma {:induction false} AcceptedIsSum(results: seq<int>) returns (n: int)
    ensures GoodCalls(results, n) && Accepted(results) == Sum(results[..n])
  {
    n := 0;
    if results != [] && results[0] > 0 {
      var m := AcceptedIsSum(results[1..]);
      n := m + 1;
      assert results[..n][1..] == results[1..][..m];
      assert forall k :: 0 < k < n ==> results[k] == results[1..][k - 1];
    }
  }

  lemma {:induction false} AcceptedMore(results: seq<int>, i: nat)
    requires i <= |results| && (forall k :: 0 <= k < i ==> results[k] > 0)
    ensures Accepted(results) == Accepted(results[..i]) + Accepted(results[i..])
  {
    if i == 0 {
      assert results[0..] == results;
    } else {
      assert results[..i][1..] == results[1..][..i - 1];
      assert results[i..] == results[1..][i - 1..];
      AcceptedMore(results[1..], i - 1);
    }
  }

  /**
   * The write loop over a shrinking view. `results` are the counts the stream returns, ending where a
   * call raises. It succeeds exactly when the counts before the first bad one cover the payload, and
   * the stream always holds a prefix of the payload: never a byte twice, none skipped.
   */
  method WriteAll(payload: seq<char>, results: seq<int>) returns (ok: bool, sink: seq<char>)
    ensures sink <= payload
    ensures ok <==> Accepted(results) >= |payload|
    ensures |sink| == if ok then |payload| else Accepted(results)
  {
    var view := payload;
    sink := [];
    var call := 0;
    while view != []
      invariant sink + view == payload
      invariant call <= |results| && forall k :: 0 <= k < call ==> results[k] > 0
      invariant view != [] ==> |sink| == Accepted(results[..call])
      invariant view == [] ==> Accepted(results[..call]) >= |payload|
      decreases |view|
    {
      AcceptedMore(results, call);
      if call == |results| || results[call] <= 0 {
        ok := false;
        return;
      }
      AcceptedMore(results[..call + 1], call);
      assert results[..call + 1][..call] == results[..call];
      assert results[..call + 1][call..] == [results[call]];
      var n := if results[call] < |view| then results[call] else |view|;
      assert view == view[..n] + view[n..];
      sink := sink + view[..n];
      view := view[n..];
      call := call + 1;
    }
    AcceptedMore(results, call);
    ok := true;
  }
}

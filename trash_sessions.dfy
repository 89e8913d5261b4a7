/*
 * Runs of the block's two callbacks, interleaved with the players' own
 * edits of the slots, in the order the engine makes them, and what a whole
 * run can and cannot do: the container is emptied and the summary sent
 * only on open-to-closed edges, ticks never greet a player, and ticks
 * after a close leave the block alone.
 */
module TrashSessions {
  import opened TutorialTrash

  /**
   * One event on the block: one of its two callbacks, or a player putting a
   * stack into (or taking one out of) a slot. The last is the engine's
   * inventory handling, not the block's own code; a run may hold it at any
   * point, open window or not, which only makes the lemmas over runs
   * stronger.
   */
  datatype Event =
    | Opened(opener: Option<PlayerId>)
    | Ticked(windows: seq<Option<PlayerId>>)
    | Stored(slot: nat, stack: Slot)

  /** A player's write of one slot: it lands in a present container when the slot exists. */
  function StoreSlot(container: Option<seq<Slot>>, slot: nat, stack: Slot): (r: Option<seq<Slot>>)
    ensures container.None? ==> r.None?
    ensures container.Some? ==> r.Some? && |r.value| == |container.value|
    ensures container.Some? && slot < |container.value| ==>
      r.value[slot] == stack &&
      forall i :: 0 <= i < |container.value| && i != slot ==> r.value[i] == container.value[i]
    ensures container.Some? && slot >= |container.value| ==> r == container
  {
    match container
    case None => None
    case Some(slots) => if slot < |slots| then Some(slots[slot := stack]) else container
  }

  function Apply(s: TrashView, c: Event): TrashView
  {
    match c
    case Opened(opener) => OpenStep(s, opener)
    case Ticked(windows) => TickStep(s, windows)
    case Stored(slot, stack) => s.(container := StoreSlot(s.container, slot, stack))
  }

  /** The block after a run of events. */
  function Run(s: TrashView, run: seq<Event>): TrashView
    decreases |run|
  {
    if run == [] then s else Run(Apply(s, run[0]), run[1..])
  }

  /** Ticks of the run at which the container goes from open to closed. */
  function CloseEdges(wasOpen: bool, run: seq<Event>): nat
    decreases |run|
  {
    if run == [] then 0
    else match run[0]
      case Opened(_) => CloseEdges(wasOpen, run[1..])
      case Stored(_, _) => CloseEdges(wasOpen, run[1..])
      case Ticked(windows) =>
        (if wasOpen && |windows| == 0 then 1 else 0) + CloseEdges(|windows| > 0, run[1..])
  }

  /** `onOpen` calls of the run whose opener has a player reference. */
  function Greetings(run: seq<Event>): nat
    decreases |run|
  {
    if run == [] then 0
    else (if run[0].Opened? && run[0].opener.Some? then 1 else 0) + Greetings(run[1..])
  }

  function Summaries(outbox: seq<Message>): nat
    decreases |outbox|
  {
    if outbox == [] then 0
    else Summaries(outbox[..|outbox| - 1]) + (if outbox[|outbox| - 1].StacksDiscarded? then 1 else 0)
  }

  function Notices(outbox: seq<Message>): nat
    decreases |outbox|
  {
    if outbox == [] then 0
    else Notices(outbox[..|outbox| - 1]) + (if outbox[|outbox| - 1].ContainerOpened? then 1 else 0)
  }

  /** A tick with no window open. */
  predicate AllClosedTicks(run: seq<Event>)
  {
    forall i :: 0 <= i < |run| ==> run[i] == Ticked([])
  }

  /**
   * Messages only accumulate; each summary needs its own close edge, and
   * the only greetings are those of `onOpen`: a tick never sends one.
   */
  lemma {:induction false} RunMessages(s: TrashView, run: seq<Event>)
    ensures s.outbox <= Run(s, run).outbox
    ensures Summaries(Run(s, run).outbox) <= Summaries(s.outbox) + CloseEdges(s.wasOpen, run)
    ensures Notices(Run(s, run).outbox) == Notices(s.outbox) + Greetings(run)
    decreases |run|
  {
    if run != [] {
      var t := Apply(s, run[0]);
      RunMessages(t, run[1..]);
      if |t.outbox| == |s.outbox| + 1 {
        assert t.outbox[..|s.outbox|] == s.outbox;
      } else {
        assert t.outbox == s.outbox;
      }
    }
  }

  /** The container after applying only the players' writes of the run. */
  function PlayerWrites(container: Option<seq<Slot>>, run: seq<Event>): Option<seq<Slot>>
    decreases |run|
  {
    if run == [] then container
    else if run[0].Stored? then PlayerWrites(StoreSlot(container, run[0].slot, run[0].stack), run[1..])
    else PlayerWrites(container, run[1..])
  }

  /**
   * Without a close edge the block's own callbacks never touch the slots:
   * the container ends as the players' writes left it.
   */
  lemma {:induction false} NoCloseEdgeKeepsContainer(s: TrashView, run: seq<Event>)
    requires CloseEdges(s.wasOpen, run) == 0
    ensures Run(s, run).container == PlayerWrites(s.container, run)
    decreases |run|
  {
    if run != [] {
      NoCloseEdgeKeepsContainer(Apply(s, run[0]), run[1..]);
    }
  }

  /** Any number of ticks with no window after a close act like the first one alone. */
  lemma {:induction false} ClosedTicksSettle(s: TrashView, run: seq<Event>)
    requires run != [] && AllClosedTicks(run)
    ensures Run(s, run) == TickStep(s, [])
    decreases |run|
  {
    assert run[0] == Ticked([]);
    if |run| > 1 {
      var t := TickStep(s, []);
      ClosedTicksSettle(t, run[1..]);
      assert TickStep(t, []) == t;
    }
  }

  /** A block that is closed and only sees closed ticks never changes. */
  lemma {:induction false} NeverOpenedIsInert(s: TrashView, run: seq<Event>)
    requires !s.wasOpen && AllClosedTicks(run)
    ensures Run(s, run) == s
    decreases |run|
  {
    if run != [] {
      assert run[0] == Ticked([]);
      NeverOpenedIsInert(s, run[1..]);
    }
  }

  /** Running two runs one after the other is running their concatenation. */
  lemma {:induction false} RunConcat(s: TrashView, first: seq<Event>, second: seq<Event>)
    ensures Run(s, first + second) == Run(Run(s, first), second)
    decreases |first|
  {
    if first == [] {
      assert first + second == second;
    } else {
      assert (first + second)[1..] == first[1..] + second;
      RunConcat(Apply(s, first[0]), first[1..], second);
    }
  }

  const Stones: seq<Slot> :=
    [Some(ItemStack("stone", 4)), None, Some(ItemStack("dirt", 1)), Some(ItemStack("log", 9))]

  const Cleared: seq<Slot> := [None, None, None, None]

  /**
   * A fresh block holding three stacks sees one closed tick; viewer 1 opens
   * it, two ticks pass with viewer 1's window open, and a tick finds the
   * window gone: viewer 1 is greeted, then told of three stacks, and the
   * container is emptied.
   */
  lemma FirstSession()
    ensures Run(TrashView(false, None, Some(Stones), []),
                [Ticked([]), Opened(Some(1)), Ticked([Some(1)]), Ticked([Some(1)]), Ticked([])])
         == TrashView(false, None, Some(Cleared), [ContainerOpened(1), StacksDiscarded(1, 3)])
  {
    assert CountStacks(Stones) == 3;
    assert seq(4, _ => None) == Cleared;
  }

  /**
   * Viewer 2 then opens the emptied block, one tick passes with the window
   * open, and a tick finds it gone: viewer 2 is greeted, and as the
   * container is still empty it is neither counted nor cleared and no
   * summary is sent.
   */
  lemma SecondSession(outbox: seq<Message>)
    ensures Run(TrashView(false, None, Some(Cleared), outbox),
                [Opened(Some(2)), Ticked([Some(2)]), Ticked([])])
         == TrashView(false, None, Some(Cleared), outbox + [ContainerOpened(2)])
  {
  }

  /** The two sessions together: one greeting each, one summary, for the first viewer only. */
  lemma TwoSessions()
    ensures Run(TrashView(false, None, Some(Stones), []),
                [Ticked([]), Opened(Some(1)), Ticked([Some(1)]), Ticked([Some(1)]), Ticked([]),
                 Opened(Some(2)), Ticked([Some(2)]), Ticked([])])
         == TrashView(false, None, Some(Cleared),
                      [ContainerOpened(1), StacksDiscarded(1, 3), ContainerOpened(2)])
  {
    var first := [Ticked([]), Opened(Some(1)), Ticked([Some(1)]), Ticked([Some(1)]), Ticked([])];
    var second := [Opened(Some(2)), Ticked([Some(2)]), Ticked([])];
    RunConcat(TrashView(false, None, Some(Stones), []), first, second);
    FirstSession();
    SecondSession([ContainerOpened(1), StacksDiscarded(1, 3)]);
  }

  /**
   * Viewer 2 opens the emptied block and drops a stack into slot 2 while
   * the window is open; the closing tick tells viewer 2 of one stack and
   * empties the container again.
   */
  lemma RefilledSession(outbox: seq<Message>)
    ensures Run(TrashView(false, None, Some(Cleared), outbox),
                [Opened(Some(2)), Ticked([Some(2)]), Stored(2, Some(ItemStack("sand", 16))), Ticked([])])
         == TrashView(false, None, Some(Cleared), outbox + [ContainerOpened(2), StacksDiscarded(2, 1)])
  {
    var refilled: seq<Slot> := [None, None, Some(ItemStack("sand", 16)), None];
    assert Cleared[2 := Some(ItemStack("sand", 16))] == refilled;
    assert StoreSlot(Some(Cleared), 2, Some(ItemStack("sand", 16))) == Some(refilled);
    assert CountStacks(refilled) == 1;
    assert seq(4, _ => None) == Cleared;
  }
}

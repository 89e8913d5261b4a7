/*
 * The "trash" block's container bookkeeping: a block whose inventory is
 * counted, reported to the last viewer and emptied when its window closes.
 *
 * The engine's collaborators are abstracted as plain values:
 *   - a player reference is a PlayerId; a missing reference is None;
 *   - the window map is the sequence of its windows' player references, in
 *     the map's iteration order;
 *   - the item container is an array of optional stacks, or null when the
 *     block has no container;
 *   - a chat message is its recipient plus, for the summary, the count;
 *     messages sent are appended to `outbox`.
 */
module TutorialTrash {

  datatype Option<T> = None | Some(value: T)

  type PlayerId = nat

  datatype ItemStack = ItemStack(itemId: string, quantity: nat)

  /** One container slot: a stack, or null. */
  type Slot = Option<ItemStack>

  /** What the block tells a player. */
  datatype Message =
    | ContainerOpened(recipient: PlayerId)
    | StacksDiscarded(recipient: PlayerId, stackCount: nat)

  /** Largest value of a Java `short`, the type of the slot loop's index. */
  const MaxShort: int := 0x7FFF

  /** Capacity the block is configured with. */
  const TrashCapacity: nat := 27

  /** A Java `short`. */
  newtype Short = x: int | -0x8000 <= x < 0x8000

  /** The container has no stack in any slot. */
  predicate IsEmpty(slots: seq<Slot>)
  {
    forall i :: 0 <= i < |slots| ==> slots[i].None?
  }

  /** Number of non-null slots. */
  function CountStacks(slots: seq<Slot>): (n: nat)
    ensures n <= |slots|
    ensures n == 0 <==> IsEmpty(slots)
    ensures n == |slots| <==> forall i :: 0 <= i < |slots| ==> slots[i].Some?
    decreases |slots|
  {
    if slots == [] then 0
    else
      var init := slots[..|slots| - 1];
      assert forall i :: 0 <= i < |init| ==> init[i] == slots[i];
      CountStacks(init) + (if slots[|slots| - 1].Some? then 1 else 0)
  }

  /** The indices of the non-null slots. */
  function OccupiedIndices(slots: seq<Slot>): set<int>
  {
    set i | 0 <= i < |slots| && slots[i].Some?
  }

  /** The count is the number of occupied indices among 0..capacity-1. */
  lemma {:induction false} CountStacksIsOccupiedIndices(slots: seq<Slot>)
    ensures CountStacks(slots) == |OccupiedIndices(slots)|
    decreases |slots|
  {
    if slots != [] {
      var last := |slots| - 1;
      var init := slots[..last];
      CountStacksIsOccupiedIndices(init);
      if slots[last].Some? {
        assert OccupiedIndices(slots) == OccupiedIndices(init) + {last};
      } else {
        assert OccupiedIndices(slots) == OccupiedIndices(init);
      }
    }
  }

  /** Window `k` is the last one that has a player reference. */
  predicate LastWithRef(windows: seq<Option<PlayerId>>, k: int)
  {
    0 <= k < |windows| && windows[k].Some? && forall j :: k < j < |windows| ==> windows[j].None?
  }

  /**
   * The player reference the window scan leaves behind: the reference of
   * the last window that has one, or `prev` when none has.
   */
  function LastViewer(windows: seq<Option<PlayerId>>, prev: Option<PlayerId>): (r: Option<PlayerId>)
    ensures (forall i :: 0 <= i < |windows| ==> windows[i].None?) ==> r == prev
    ensures (exists i :: 0 <= i < |windows| && windows[i].Some?) ==>
      exists k :: LastWithRef(windows, k) && r == windows[k]
    decreases |windows|
  {
    if windows == [] then prev
    else if windows[|windows| - 1].Some? then
      assert LastWithRef(windows, |windows| - 1);
      windows[|windows| - 1]
    else
      var init := windows[..|windows| - 1];
      assert forall i :: 0 <= i < |init| ==> init[i] == windows[i];
      assert forall k :: LastWithRef(init, k) ==> LastWithRef(windows, k);
      LastViewer(init, prev)
  }

  /** The block's state as a value: the two fields, the container and the messages sent so far. */
  datatype TrashView = TrashView(
    wasOpen: bool,
    lastPlayer: Option<PlayerId>,
    container: Option<seq<Slot>>,
    outbox: seq<Message>)

  /** `onOpen`: remember and greet the opener, when it has a player reference. */
  function OpenStep(s: TrashView, opener: Option<PlayerId>): (r: TrashView)
    ensures r.wasOpen == s.wasOpen && r.container == s.container
    ensures opener.None? ==> r == s
    ensures opener.Some? ==>
      r.lastPlayer == opener && r.outbox == s.outbox + [ContainerOpened(opener.value)]
  {
    match opener
    case None => s
    case Some(p) => s.(lastPlayer := opener, outbox := s.outbox + [ContainerOpened(p)])
  }

  /**
   * `tick`: track the viewer while open; on the open-to-closed edge count
   * the stacks, report them to the last viewer, empty the container and
   * forget the viewer; always remember whether the container is open now.
   */
  function TickStep(s: TrashView, windows: seq<Option<PlayerId>>): (r: TrashView)
    // wasOpen mirrors the window map whatever the branch
    ensures r.wasOpen == (|windows| > 0)
    // while open: the viewer is tracked and nothing else changes
    ensures |windows| > 0 ==>
      r.lastPlayer == LastViewer(windows, s.lastPlayer) &&
      r.container == s.container && r.outbox == s.outbox
    // closed and already closed: the tick does nothing at all
    ensures !s.wasOpen && |windows| == 0 ==> r == s
    // on the close edge: the viewer is forgotten and a present container ends empty
    ensures s.wasOpen && |windows| == 0 ==> r.lastPlayer.None?
    ensures s.container.None? <==> r.container.None?
    ensures s.wasOpen && |windows| == 0 && s.container.Some? ==>
      |r.container.value| == |s.container.value| && IsEmpty(r.container.value)
    // at most one message, a summary, sent only on a close edge with a viewer and stacks
    ensures s.outbox <= r.outbox && |r.outbox| <= |s.outbox| + 1
    ensures |r.outbox| == |s.outbox| + 1 <==>
      s.wasOpen && |windows| == 0 && s.lastPlayer.Some? && s.container.Some? &&
      !IsEmpty(s.container.value)
    ensures |r.outbox| == |s.outbox| + 1 ==>
      r.outbox[|s.outbox|] == StacksDiscarded(s.lastPlayer.value, CountStacks(s.container.value)) &&
      0 < CountStacks(s.container.value) <= |s.container.value|
  {
    var isOpen := |windows| > 0;
    var tracked := if isOpen then LastViewer(windows, s.lastPlayer) else s.lastPlayer;
    if s.wasOpen && !isOpen then
      match s.container
      case Some(slots) =>
        if IsEmpty(slots) then
          TrashView(isOpen, None, s.container, s.outbox)
        else
          var stackCount := CountStacks(slots);
          var report := if tracked.Some? && stackCount > 0
            then [StacksDiscarded(tracked.value, stackCount)] else [];
          TrashView(isOpen, None, Some(seq(|slots|, _ => None)), s.outbox + report)
      case None =>
        TrashView(isOpen, None, None, s.outbox)
    else
      TrashView(isOpen, tracked, s.container, s.outbox)
  }

  /** The window loop of `tick`: every window with a player reference overwrites the tracked one. */
  method ScanWindows(windows: seq<Option<PlayerId>>, lastPlayer: Option<PlayerId>)
    returns (tracked: Option<PlayerId>)
    ensures tracked == LastViewer(windows, lastPlayer)
  {
    tracked := lastPlayer;
    for i := 0 to |windows|
      invariant tracked == LastViewer(windows[..i], lastPlayer)
    {
      var pRef := windows[i];
      if pRef.Some? {
        tracked := pRef;
      }
      assert windows[..i + 1][..i] == windows[..i];
    }
    assert windows[..|windows|] == windows;
  }

  /** The slot loop of `tick`, with its `short` index. */
  method CountNonEmptySlots(container: array<Slot>) returns (stackCount: int)
    requires container.Length <= MaxShort
    ensures stackCount == CountStacks(container[..])
  {
    stackCount := 0;
    var i: Short := 0;
    while (i as int) < container.Length
      invariant 0 <= i as int <= container.Length
      invariant stackCount == CountStacks(container[..i])
    {
      var stack := container[i];
      if stack.Some? {
        stackCount := stackCount + 1;
      }
      assert container[..i + 1][..i] == container[..i];
      i := i + 1;
    }
    assert container[..container.Length] == container[..];
  }

  /** The block state: the two tracking fields, its container and the chat messages it has sent. */
  class TutorialTrashState {
    var lastPlayer: Option<PlayerId>
    var wasOpen: bool
    const container: array?<Slot>
    var outbox: seq<Message>

    /** The slot loop's `short` index can reach the capacity. */
    ghost predicate Valid()
    {
      container != null ==> container.Length <= MaxShort
    }

    function View(): TrashView
      reads this, container
    {
      TrashView(wasOpen, lastPlayer, if container == null then None else Some(container[..]), outbox)
    }

    constructor (container: array?<Slot>)
      requires container != null ==> container.Length <= MaxShort
      ensures Valid() && this.container == container
      ensures View() == TrashView(false, None, if container == null then None else Some(container[..]), [])
    {
      this.container := container;
      lastPlayer := None;
      wasOpen := false;
      outbox := [];
    }

    method OnOpen(opener: Option<PlayerId>)
      requires Valid()
      modifies this
      ensures Valid()
      ensures View() == OpenStep(old(View()), opener)
    {
      if opener.Some? {
        lastPlayer := opener;
        outbox := outbox + [ContainerOpened(opener.value)];
      }
    }

    method Tick(windows: seq<Option<PlayerId>>)
      requires Valid()
      modifies this, container
      ensures Valid()
      ensures View() == TickStep(old(View()), windows)
    {
      var isOpen := |windows| > 0;
      if isOpen {
        lastPlayer := ScanWindows(windows, lastPlayer);
      }
      if wasOpen && !isOpen {
        if container != null {
          var empty := forall i :: 0 <= i < container.Length ==> container[i].None?;
          if !empty {
            var stackCount := CountNonEmptySlots(container);
            if lastPlayer.Some? && stackCount > 0 {
              outbox := outbox + [StacksDiscarded(lastPlayer.value, stackCount)];
            }
            forall i | 0 <= i < container.Length {
              container[i] := None;
            }
            assert container[..] == seq(container.Length, _ => None);
          }
        }
        lastPlayer := None;
      }
      wasOpen := isOpen;
    }
  }

  /** The block as its definition configures it: a container of `TrashCapacity` empty slots. */
  method NewTrashBlock() returns (t: TutorialTrashState)
    ensures fresh(t) && fresh(t.container) && t.Valid()
    ensures t.View() == TrashView(false, None, Some(seq(TrashCapacity, _ => None)), [])
  {
    var slots := new Slot[TrashCapacity](_ => None);
    t := new TutorialTrashState(slots);
    assert slots[..] == seq(TrashCapacity, _ => None);
  }
}

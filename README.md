# Tutorial trash block: container bookkeeping

A model of the "trash" block of the Hytale custom-blocks tutorial plugin:
`TutorialTrashState`, the block state behind an inventory block that acts as
a waste bin. Two engine callbacks drive it:

- `onOpen` remembers the player who opened the container and greets them;
- `tick`, run once per server tick, compares "some window is open now" with
  the `wasOpen` flag kept from the previous tick. While the container is
  open, each window that has a player reference overwrites `lastPlayer` in
  turn; if none has one, `lastPlayer` keeps its value. On the
  open-to-closed edge it counts the non-empty slots, tells `lastPlayer` the
  count (only when there is a player and the count is positive), clears
  the container, and forgets `lastPlayer`. Finally it stores the new
  open flag.

`trash_state.dfy` (module `TutorialTrash`) holds the values and the
specification: `CountStacks` and `LastViewer` for the two loops,
`OpenStep` and `TickStep` for the two callbacks over a value view of the
block (`TrashView`: `wasOpen`, `lastPlayer`, the container's slots or its
absence, and the messages sent). It also holds the imperative block: class
`TutorialTrashState` has the fields `lastPlayer` and `wasOpen`, the
container as an `array?` of optional stacks, and an `outbox` of sent
messages. Its methods `OnOpen` and `Tick` are proved to take `View()`
exactly where `OpenStep` and `TickStep` say. The slot loop, with its Java
`short` index, and the window loop are the read-only methods
`CountNonEmptySlots` and `ScanWindows`, each proved against its
specification function. `clear()` is an in-place `forall` assignment of
null to every slot.

`trash_sessions.dfy` (module `TrashSessions`) runs sequences of events and
proves what holds over a whole run. An event is one of the two callbacks or
a player's write of one slot (the engine's inventory handling, modelled so
that runs can fill the bin); a write may come at any point of a run, which
only makes the lemmas over runs stronger. Summaries never outnumber
the open-to-closed edges. Ticks never send a greeting. Without a close edge
the block never touches the slots: they end as the players' writes left
them. Closed ticks after a close change nothing further. It also proves the
outcome of concrete runs: two sessions in a row, and a session in which a
player refills the emptied bin.

Abstractions. A `PlayerRef` is a `PlayerId`, and a missing one is `None`.
`getWindows()` is the tick's parameter: the sequence of the windows'
player references, in the map's iteration order. `getItemContainer()` is the
`container` field, which may be null. `getCapacity()` is the array's length.
A chat message is just its recipient plus, for the summary, the stack count.

## Model

| member | source | states |
|---|---|---|
| `TutorialTrash.CountStacks` | src/main/java/com/scarforges/tutorialblock/blockstate/TutorialTrashState.java:126-132 | the stack count is at most the capacity; it is 0 exactly when every slot is null, and equals the capacity exactly when every slot holds a stack |
| `TutorialTrash.CountStacksIsOccupiedIndices` | src/main/java/com/scarforges/tutorialblock/blockstate/TutorialTrashState.java:126-132 | the stack count equals the number of indices in 0..capacity-1 whose slot is non-null |
| `TutorialTrash.CountNonEmptySlots` | src/main/java/com/scarforges/tutorialblock/blockstate/TutorialTrashState.java:126-132 | the slot loop, run with a `short` index against a capacity of at most 32767, returns exactly the stack count |
| `TutorialTrash.LastViewer` | src/main/java/com/scarforges/tutorialblock/blockstate/TutorialTrashState.java:110-117 | if some window has a player reference, the result is the reference of the last such window in iteration order; if none has, it is the previous `lastPlayer` |
| `TutorialTrash.ScanWindows` | src/main/java/com/scarforges/tutorialblock/blockstate/TutorialTrashState.java:110-117 | the window loop leaves behind exactly the reference `LastViewer` describes |
| `TutorialTrash.OpenStep` | src/main/java/com/scarforges/tutorialblock/blockstate/TutorialTrashState.java:82-93 | opening with a player reference sets `lastPlayer` to it and sends that player one greeting; without one nothing changes; `wasOpen` and the container are never touched |
| `TutorialTrash.TickStep` | src/main/java/com/scarforges/tutorialblock/blockstate/TutorialTrashState.java:101-153 | afterwards `wasOpen` is "some window is open". While open, `lastPlayer` tracks the viewers and nothing else changes. A closed tick after a closed tick changes nothing. On the close edge, `lastPlayer` becomes null and a present container ends with every slot empty and the same capacity. An absent container stays absent. At most one message is sent: a summary to `lastPlayer` carrying the stack count (between 1 and the capacity). It is sent exactly when the edge is a close edge, `lastPlayer` is set, and the container is present and non-empty |
| `TutorialTrash.TutorialTrashState.constructor` | src/main/java/com/scarforges/tutorialblock/blockstate/TutorialTrashState.java:66-74 | a new block state is closed, has no `lastPlayer` and has sent nothing |
| `TutorialTrash.TutorialTrashState.OnOpen` | src/main/java/com/scarforges/tutorialblock/blockstate/TutorialTrashState.java:82-93 | the block's fields and messages change exactly as `OpenStep` says |
| `TutorialTrash.TutorialTrashState.Tick` | src/main/java/com/scarforges/tutorialblock/blockstate/TutorialTrashState.java:101-153 | the block's fields, container slots and messages change exactly as `TickStep` says, with the container cleared in place |
| `TutorialTrash.NewTrashBlock` | src/main/java/com/scarforges/tutorialblock/blockstate/TutorialTrashState.java:26-27 | the block as configured, with capacity 27, meets the `short` bound and starts closed and empty |
| `TrashSessions.RunMessages` | src/main/java/com/scarforges/tutorialblock/blockstate/TutorialTrashState.java:82-153 | over any run of events, messages only accumulate. The number of summaries added is at most the number of open-to-closed edges. The number of greetings added equals the number of `onOpen` calls that had a player reference, so `tick` never greets anyone |
| `TrashSessions.StoreSlot` | src/main/java/com/scarforges/tutorialblock/blockstate/TutorialTrashState.java:6-7 | a player's write of one slot changes exactly that slot of a present container when the slot exists, and nothing otherwise; an absent container stays absent |
| `TrashSessions.NoCloseEdgeKeepsContainer` | src/main/java/com/scarforges/tutorialblock/blockstate/TutorialTrashState.java:119-150 | over a run with no open-to-closed edge, the container ends exactly as the players' own slot writes, applied in order, leave it: the block's callbacks never touch the slots |
| `TrashSessions.ClosedTicksSettle` | src/main/java/com/scarforges/tutorialblock/blockstate/TutorialTrashState.java:119-152 | any number (at least one) of consecutive ticks with no window has the same effect as the first alone: the close is acted on once |
| `TrashSessions.NeverOpenedIsInert` | src/main/java/com/scarforges/tutorialblock/blockstate/TutorialTrashState.java:119-152 | a closed block that only sees ticks with no window never changes |
| `TrashSessions.FirstSession` | src/main/java/com/scarforges/tutorialblock/blockstate/TutorialTrashState.java:82-153 | on a fresh block holding three stacks: a closed tick, `onOpen` by viewer 1, two ticks with viewer 1's window open, then a tick with no window. The result is a greeting, then one summary of 3 stacks to viewer 1, and a cleared container |
| `TrashSessions.SecondSession` | src/main/java/com/scarforges/tutorialblock/blockstate/TutorialTrashState.java:82-153 | on the emptied block: `onOpen` by viewer 2, one open tick, then a tick with no window. Viewer 2 is greeted; the empty container is neither counted nor cleared and no summary is sent |
| `TrashSessions.TwoSessions` | src/main/java/com/scarforges/tutorialblock/blockstate/TutorialTrashState.java:82-153 | the two sessions in a row: two greetings and one summary, to the first viewer only |
| `TrashSessions.RefilledSession` | src/main/java/com/scarforges/tutorialblock/blockstate/TutorialTrashState.java:82-153 | on the emptied block: `onOpen` by viewer 2, an open tick, viewer 2 drops a stack into slot 2, then a tick with no window. Viewer 2 is greeted, then told of 1 stack, and the container is cleared again |

## Left out

- The `CODEC`, the `Logger` calls and the `Message`/`Color` chat formatting: a message is its recipient and, for the summary, the count.
- The `dt`, `index`, `chunk`, `store` and `commandBuffer` parameters of `tick`: none affects the logic. The `ref`, `world` and `store` parameters of `onOpen`: `ref` and `store` perform the `PlayerRef` lookup, which is engine code; `OnOpen` receives that lookup's result (a `PlayerId`, or `None` when the entity has no `PlayerRef`) in their place.
- The engine base classes `ItemContainerState` and `TickableBlockState`. `getWindows()`, `getItemContainer()`, `getCapacity()`, `isEmpty()` and `clear()` are engine code and are not part of this model. They are abstracted as the tick's window sequence, the container array, its length, "every slot is null" and a null assignment to every slot. If the engine's `isEmpty()` also treated zero-quantity stacks as empty, that difference is not captured.
- The window map's keys (window UUIDs) and its iteration order: the windows are taken in a given order, and `lastPlayer` ends as the last reference in that order, or keeps its value when no window has one.
- Capacities above 32767: there the `short` slot index reaches 32767, `i++` wraps it to -32768, and the loop never ends normally (the first negative index goes to `getItemStack`). The class therefore requires a capacity of at most 32767. The configured capacity is 27.
- The class does not model the players' slot writes as a method: the engine's inventory code writes the container array directly. Runs in `TrashSessions` do interleave them, as `Stored` events, at any point of a run.
- Concurrency: the model assumes both callbacks run on one thread, one at a time, and runs them in sequence.
- `TutorialBlockPlugin.java`, `EnchantTableInteraction.java`, `EnchantTablePanel.java` and `EventActionData.java`: engine registration, a UI page and a codec declaration with no logic of this block's own.
- The model follows the code: `tick` never sends a greeting (only `onOpen` does, and `onOpen` also writes `lastPlayer`). On a close edge an absent or empty container is neither counted nor cleared, and no summary is sent. A count of 0 never reaches the player, because the summary requires `lastPlayer` and a positive count.

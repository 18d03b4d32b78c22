# The `[[` popup menus of the editor plugins

This project models the two keystroke-driven popup controllers of the block
editor's plugins that open a block search when the user types `[[`:

- the **double-link menu** (`DoubleLinkMenu.tsx`). It arms on `[[`, narrows its
  query from the editor's "search slash", and inserts a double link when a
  result is picked. Every closing path goes through one exit, `hideMenu`. That
  exit hides the popup, removes the search slash and releases the scroll lock.
- the **reference menu** (`ReferenceMenu.tsx`). It is the same machine without
  narrowing and without a shared exit. A pick inserts a reference that
  replaces back to offset `-searchText.length - 2` from the caret.

Each component is a `class` whose fields are its React state hooks:
`isShow`, `blockId`, `searchText` and `searchBlocks`. A further field `log`
records, in order, every call the component makes on the editor, the scroll
manager and the block search (`Effect`). Each handler is a method that makes
the component's `set…` writes in source order, so the last write wins. Reads
of `isShow` and `blockId` inside a handler see the values from before the
call, as a React closure does. Each method is proved equal to a pure function
that describes the final value of every field (`OnKeyUp`, `OnKeyDown`,
`OnSelect`, `Hidden`, `Dismissed`, `Closed`). The properties of the menus are
stated on those functions. They are also stated as invariants over any
sequence of events (`Step`, `Run`, `Consistent`).

Inputs the editor supplies become parameters:

- A key-up gets the selection type, the anchor node id (`None` for no anchor
  node), the collapsed flag, the text before the caret and the key.
- For the double-link menu, a key-up also gets the slash text
  `getDoubleLinkSearchSlashText` returns, as a map keyed by the pre-call
  `blockId`. The handler reads it at the end (`DoubleLinkMenu.tsx:124-129`),
  after an arming key-up has already asked for the search slash of that same
  pre-call block to be removed (`DoubleLinkMenu.tsx:88`). The model does not
  relate the two: the map is whatever the editor would answer, so a slash
  query that overrides `' '` when a shown menu re-arms is only as reachable as
  the editor makes it.
- A pick gets the chosen id and the anchor node id current at that moment.
- `QueryBlocks` answers arrive as separate events.

Files:

- `menu_core.dfy` holds the shared vocabulary: state, effects, events, log
  observers, `Ids`, the mount state, the query effect and `handleClose`.
- `double_link_menu.dfy` holds module `DoubleLink`.
- `reference_menu.dfy` holds module `Reference`.

Facts about the code that the model keeps as written:

- The code has no session generation token: a late query answer replaces
  `searchBlocks` whatever the current query is.
- Neither pick handler checks that the anchor block still exists, and the
  insertion is a single editor call with no transaction around it.
- The query texts `'G'` and `' '` are written as the code writes them.
- Cancelling fires on a Backspace key-up after which the text before the
  caret still ends in `[[`. So it fires when the query is deleted back to the
  trigger, not through it.
- The reference menu never narrows its query. Once a block is set, its
  `searchText` is `' '` or `'G'`, so every reference it inserts replaces back
  to offset -3, whatever was typed (`Reference.ReachableInsertsReachBackThree`,
  `Reference.TriggerTypeSelect`).
- The reference menu never releases the scroll lock
  (`Reference.LockNeverReleased`).
- On a Backspace that leaves `[[` before the caret, the reference menu sets `searchText` to
  `'G'` when it was shown. The `'G'` write comes before the trigger test.

## Model

| member | source | states |
|---|---|---|
| MenuCore.Ids | libs/components/editor-plugins/src/menu/double-link-menu/DoubleLinkMenu.tsx:56 | the ids of a search result, in order: same length, i-th id is the i-th block's `id` |
| MenuCore.Mounted | libs/components/editor-plugins/src/menu/double-link-menu/DoubleLinkMenu.tsx:38-53 | after mounting: hidden, no truthy block, empty query, no results, scroll not locked, and the mount query for `''` is the last query |
| MenuCore.RunQueryEffect | libs/components/editor-plugins/src/menu/double-link-menu/DoubleLinkMenu.tsx:51-53 | a change of `searchText` issues exactly one query, for the new text, which becomes the last query; no change issues none; the log gains nothing else; no other field and not the scroll lock change |
| MenuCore.Closed | libs/components/editor-plugins/src/menu/double-link-menu/DoubleLinkMenu.tsx:178-180 | `handleClose` asks for slash removal on `blockId` exactly when `blockId` is truthy, and changes nothing else |
| DoubleLink.Hidden | libs/components/editor-plugins/src/menu/double-link-menu/DoubleLinkMenu.tsx:60-64 | `hideMenu` leaves the popup hidden and the scroll lock released, removes the slash of the current `blockId`, keeps block, query, results and last query |
| DoubleLink.SlashQuery | libs/components/editor-plugins/src/menu/double-link-menu/DoubleLinkMenu.tsx:124-129 | a narrowed query exists exactly when the menu was shown before the call and the slash text of the pre-call `blockId` starts with `[[`; the slash text is then `[[` followed by it |
| DoubleLink.OnKeyUp | libs/components/editor-plugins/src/menu/double-link-menu/DoubleLinkMenu.tsx:66-133 | the gate is `CaretInBlock` (:68-73) and the arming calls are `ArmCalls` (:87-106); gate failed while hidden: nothing changes; Backspace after `[[`: hidden, unlocked, block kept, query not narrowed (`'G'` if it was shown), slash removed; other key after `[[`: shown, block = anchor, slash removal on the OLD block first, locked, query `' '` unless narrowed; a shown menu's slash query overrides `'G'` and `' '`; otherwise visibility, block and lock are unchanged; in each case the log gains exactly the handler's calls (`hideMenu`'s two, or `ArmCalls`) followed by the query effect's one query when the text changed; no trigger, no slash query and no `'G'` to write (gate failed, or menu hidden): nothing at all changes |
| DoubleLink.OnKeyDown | libs/components/editor-plugins/src/menu/double-link-menu/DoubleLinkMenu.tsx:140-147 | Escape, whatever the state, hides, removes the slash on `blockId` and unlocks, keeping block, query and results; any other code changes nothing |
| DoubleLink.OnSelect | libs/components/editor-plugins/src/menu/double-link-menu/DoubleLinkMenu.tsx:164-176 | exactly one `insertDoubleLink(workspace, chosen id, anchor id)` when `blockId` is truthy and none otherwise, then `hideMenu`; block, query and results are kept; a missing anchor node with a truthy `blockId` throws before any effect |
| DoubleLink.EveryCloseReleases | libs/components/editor-plugins/src/menu/double-link-menu/DoubleLinkMenu.tsx:60-64 | every closing path (a Backspace that leaves `[[` before the caret, Escape, click-away, a pick) leaves the popup hidden and the scroll lock released |
| DoubleLink.StepConsistent | libs/components/editor-plugins/src/menu/double-link-menu/DoubleLinkMenu.tsx:104-106 | every event keeps "shown exactly while the scroll lock is held" and "the last query is for the current `searchText`" |
| DoubleLink.RunConsistent | libs/components/editor-plugins/src/menu/double-link-menu/DoubleLinkMenu.tsx:60-64 | the same two facts hold after any sequence of events |
| DoubleLink.ReachableConsistent | libs/components/editor-plugins/src/menu/double-link-menu/DoubleLinkMenu.tsx:38-64 | from mounting on, whatever the events: the popup is shown exactly while scroll is locked, and the last query is for the current text |
| DoubleLink.ArmAfterMount | libs/components/editor-plugins/src/menu/double-link-menu/DoubleLinkMenu.tsx:82-106 | typing `[[` right after mounting opens the menu on the anchor block with query `' '`, after removing the slash of the undefined block, scheduling the slash and locking scroll |
| DoubleLink.TriggerThenEscape | libs/components/editor-plugins/src/menu/double-link-menu/DoubleLinkMenu.tsx:140-147 | `[[` then Escape: the exact effect sequence; the menu is closed and unlocked and nothing is inserted |
| DoubleLink.NarrowThenSelect | libs/components/editor-plugins/src/menu/double-link-menu/DoubleLinkMenu.tsx:124-129 | with slash text `[[foo` the query becomes `foo` with one query issued; a pick then inserts one double link at the block and closes |
| DoubleLink.DoubleLinkMenu.constructor | libs/components/editor-plugins/src/menu/double-link-menu/DoubleLinkMenu.tsx:38-53 | the component starts in the mount state |
| DoubleLink.DoubleLinkMenu.SearchBlockIds | libs/components/editor-plugins/src/menu/double-link-menu/DoubleLinkMenu.tsx:55-58 | `searchBlockIds` has the length of `searchBlocks` and the i-th block's id at i |
| DoubleLink.DoubleLinkMenu.SearchTextEffect | libs/components/editor-plugins/src/menu/double-link-menu/DoubleLinkMenu.tsx:51-53 | the effect run after a handler is `RunQueryEffect` |
| DoubleLink.DoubleLinkMenu.HideMenu | libs/components/editor-plugins/src/menu/double-link-menu/DoubleLinkMenu.tsx:60-64 | its three steps yield `Hidden` of the old state |
| DoubleLink.DoubleLinkMenu.HandleSearch | libs/components/editor-plugins/src/menu/double-link-menu/DoubleLinkMenu.tsx:66-133 | the step-by-step writes with pre-call reads yield `OnKeyUp` of the old state |
| DoubleLink.DoubleLinkMenu.HandleKeyDown | libs/components/editor-plugins/src/menu/double-link-menu/DoubleLinkMenu.tsx:140-147 | yields `OnKeyDown` of the old state |
| DoubleLink.DoubleLinkMenu.HandleClickAway | libs/components/editor-plugins/src/menu/double-link-menu/DoubleLinkMenu.tsx:191 | click-away yields `Hidden` of the old state |
| DoubleLink.DoubleLinkMenu.HandleSelected | libs/components/editor-plugins/src/menu/double-link-menu/DoubleLinkMenu.tsx:164-176 | yields `OnSelect`; `thrown` exactly when it is undefined, and then the state is unchanged |
| DoubleLink.DoubleLinkMenu.HandleClose | libs/components/editor-plugins/src/menu/double-link-menu/DoubleLinkMenu.tsx:178-180 | yields `Closed` of the old state |
| DoubleLink.DoubleLinkMenu.ReceiveResults | libs/components/editor-plugins/src/menu/double-link-menu/DoubleLinkMenu.tsx:52 | a query answer replaces `searchBlocks` wholesale and nothing else |
| Reference.Dismissed | libs/components/editor-plugins/src/menu/reference-menu/ReferenceMenu.tsx:165 | click-away (and Escape) only sets `isShow` false: block, query, results and effects are unchanged |
| Reference.OnKeyUp | libs/components/editor-plugins/src/menu/reference-menu/ReferenceMenu.tsx:61-107 | the gate is `CaretInBlock` (:63-67); gate failed: nothing changes, shown or not; Backspace after `[[`: only hidden (query `'G'` if it was shown), lock untouched; other key after `[[`: shown, block = anchor, query `' '`, one more lock; otherwise a shown menu's query becomes `'G'`; the query is never taken from the typed text; nothing unlocks; the log gains exactly one lock when arming, followed by the query effect's one query when the text changed, and nothing else |
| Reference.OnKeyDown | libs/components/editor-plugins/src/menu/reference-menu/ReferenceMenu.tsx:114-121 | Escape sets `isShow` false and changes nothing else; other codes change nothing; a held lock stays held |
| Reference.ReplaceOffset | libs/components/editor-plugins/src/menu/reference-menu/ReferenceMenu.tsx:145 | the offset is negative and reaches back over the query and the two trigger characters; `ReplaceSpan` states what that span is |
| Reference.ReplaceSpan | libs/components/editor-plugins/src/menu/reference-menu/ReferenceMenu.tsx:145 | when the text before the caret is `[[` followed by the query, offset `-query.length - 2` reaches back exactly to the first `[` |
| Reference.OnSelect | libs/components/editor-plugins/src/menu/reference-menu/ReferenceMenu.tsx:138-150 | one `insertReference(chosen id, anchor id, -(len(searchText)+2))` exactly when `blockId` is truthy, then hidden, keeping block, query and results; lock never released; a missing anchor node with a truthy `blockId` throws before any effect |
| Reference.StepKeepsLock | libs/components/editor-plugins/src/menu/reference-menu/ReferenceMenu.tsx:87 | no event logs an unlock, the lock count never drops, and a held lock stays held |
| Reference.LockNeverReleased | libs/components/editor-plugins/src/menu/reference-menu/ReferenceMenu.tsx:77-87 | the same over any sequence of events |
| Reference.StepConsistent | libs/components/editor-plugins/src/menu/reference-menu/ReferenceMenu.tsx:73-85 | every event keeps: query is `''`, `' '` or `'G'`, never `''` once a block is set, last query is the current text, every reference inserted has offset -3 |
| Reference.RunConsistent | libs/components/editor-plugins/src/menu/reference-menu/ReferenceMenu.tsx:73-85 | the same over any sequence of events |
| Reference.ReachableInsertsReachBackThree | libs/components/editor-plugins/src/menu/reference-menu/ReferenceMenu.tsx:145 | from mounting on, every reference inserted replaces back to offset -3, the query is one of `''`, `' '`, `'G'`, and no unlock is ever issued |
| Reference.ArmAfterMount | libs/components/editor-plugins/src/menu/reference-menu/ReferenceMenu.tsx:77-87 | typing `[[` right after mounting opens the menu on the anchor block with query `' '`, one lock and one query for `' '` |
| Reference.TriggerTypeSelect | libs/components/editor-plugins/src/menu/reference-menu/ReferenceMenu.tsx:73-85 | on an open menu, typing up to `[[foo` then a pick: the query is `'G'` and the reference is inserted with offset -3 although five characters were typed; scroll stays locked |
| Reference.ReferenceMenu.constructor | libs/components/editor-plugins/src/menu/reference-menu/ReferenceMenu.tsx:39-54 | the component starts in the mount state |
| Reference.ReferenceMenu.SearchBlockIds | libs/components/editor-plugins/src/menu/reference-menu/ReferenceMenu.tsx:56-59 | `searchBlockIds` has the length of `searchBlocks` and the i-th block's id at i |
| Reference.ReferenceMenu.SearchTextEffect | libs/components/editor-plugins/src/menu/reference-menu/ReferenceMenu.tsx:52-54 | the effect run after a handler is `RunQueryEffect` |
| Reference.ReferenceMenu.HandleSearch | libs/components/editor-plugins/src/menu/reference-menu/ReferenceMenu.tsx:61-107 | the step-by-step writes with pre-call reads yield `OnKeyUp` of the old state |
| Reference.ReferenceMenu.HandleKeyDown | libs/components/editor-plugins/src/menu/reference-menu/ReferenceMenu.tsx:114-121 | yields `OnKeyDown` of the old state |
| Reference.ReferenceMenu.HandleClickAway | libs/components/editor-plugins/src/menu/reference-menu/ReferenceMenu.tsx:165 | yields `Dismissed` of the old state |
| Reference.ReferenceMenu.HandleSelected | libs/components/editor-plugins/src/menu/reference-menu/ReferenceMenu.tsx:138-150 | yields `OnSelect`; `thrown` exactly when it is undefined, and then the state is unchanged |
| Reference.ReferenceMenu.HandleClose | libs/components/editor-plugins/src/menu/reference-menu/ReferenceMenu.tsx:152-154 | yields `Closed` of the old state |
| Reference.ReferenceMenu.ReceiveResults | libs/components/editor-plugins/src/menu/reference-menu/ReferenceMenu.tsx:53 | a query answer replaces `searchBlocks` wholesale and nothing else |

## Left out

- Popup geometry is not modelled: the bounding-rectangle arithmetic, `setReferenceMenuStyle` and `setAnchorEl`. These are floating-point DOM values used only for presentation.
- The deferred slash placement (`setTimeout` with `selectionToSlateRange`) is recorded as one `ScheduleSlashPlacement(anchor)` entry where it is scheduled. Whether the timer later places a slash depends on helpers that are not part of this model.
- The bodies of `editor.blockHelper`, `scrollManager`, `QueryBlocks` and the `Container` components are not part of this model. Their calls are log entries. The scroll lock is read as "the last lock or unlock call decides", plus a count of lock calls. `DoubleLink.Consistent` ("shown exactly while the scroll lock is held") and the lemmas that carry it, `DoubleLink.StepConsistent`, `DoubleLink.RunConsistent` and `DoubleLink.ReachableConsistent`, hold only under that reading. Under a scroll manager that counts nested locks they would fail. A shown menu that re-arms calls `lock()` again (`DoubleLinkMenu.tsx:106`) while `hideMenu` unlocks once. A click-away on a hidden menu calls `unLock()` (`DoubleLinkMenu.tsx:191`, `:63`) with nothing locked.
- Hook subscription and unsubscription are left out, and so are JSX and the Popper/Grow/Paper rendering. The `handleKeyup` wrapper is folded into `HandleSearch`.
- React rendering is taken as one commit per handler. The `searchText` effect runs once, after the handler, when the final text differs from the pre-call one. Unbatched intermediate renders are not modelled.
- The handlers are `async`, but neither has an `await`. A pick that reads the id of a missing anchor node rejects its promise. The model treats that pick as having no effect.
- DoubleLink.OnSelect: the browser selection passed as the fourth argument of `insertDoubleLink` is not recorded. It is a DOM object.
- Reference.OnSelect: the browser selection passed as the third argument of `insertReference` is not recorded. It is a DOM object.
- Strings are sequences of characters. JavaScript's `length` counts UTF-16 code units, so `ReplaceOffset` differs for characters outside the Basic Multilingual Plane.
- `apps/ligo-virgo/src/pages/workspace/docs/components/toc/TOC.tsx` is not part of this model. It is styling, rendering and asynchronous scrolling, and its data extraction lives in a file that is not shown.
- `libs/components/common/src/lib/text/plugins/PageLink.tsx` is not part of this model. It is a navigation anchor with no logic.

/**
 * Vocabulary shared by the two `[[` popup controllers of the editor plugins:
 * the inputs a handler receives, the calls it makes on the editor (kept as an
 * append-only effect log), and the component state React holds for it.
 */
module MenuCore {

  datatype Option<+T> = None | Some(value: T) {
    function GetOr(default: T): T {
      if Some? then value else default
    }
  }

  type BlockId = string

  /** The two-character sequence that opens a search session. */
  const Trigger: string := "[["

  predicate EndsWithTrigger(s: string) {
    |s| >= 2 && s[|s| - 2..] == Trigger
  }

  predicate StartsWithTrigger(s: string) {
    |s| >= 2 && s[..2] == Trigger
  }

  /** JavaScript truthiness of an optional block id: `undefined` and `""` are falsy. */
  predicate Truthy(id: Option<BlockId>) {
    id.Some? && id.value != ""
  }

  /**
   * What the editor reports at a key-up: the selection type, the anchor node's
   * id (None when there is no anchor node), whether the block helper calls the
   * selection in that block collapsed, and the block text before the caret.
   */
  datatype Selection = Selection(kind: string, anchorNode: Option<BlockId>, collapsed: bool, textBefore: string)

  /** The guard both key-up handlers test first: a collapsed caret inside a block. */
  predicate CaretInBlock(sel: Selection) {
    sel.kind == "Range" && sel.anchorNode.Some? && sel.collapsed
  }

  /** A key-up that passes the guard with the trigger right before the caret and the key Backspace. */
  predicate Cancels(key: string, sel: Selection) {
    CaretInBlock(sel) && EndsWithTrigger(sel.textBefore) && key == "Backspace"
  }

  /** A key-up that passes the guard with the trigger right before the caret and any other key. */
  predicate Arms(key: string, sel: Selection) {
    CaretInBlock(sel) && EndsWithTrigger(sel.textBefore) && key != "Backspace"
  }

  /** One entry of a search result; only `id` is read by the menus. */
  datatype QueryBlock = QueryBlock(id: BlockId, content: string)

  /** The calls the menus make on the editor and on the block search, in order. */
  datatype Effect =
    | Query(text: string)                                  // QueryBlocks(editor, text, callback)
    | RemoveSearchSlash(slashBlock: Option<BlockId>)       // blockHelper.removeSearchSlash
    | RemoveDoubleLinkSearchSlash(slashBlock: Option<BlockId>)
    | ScheduleSlashPlacement(atBlock: BlockId)             // deferred setDoubleLinkSearchSlash
    | LockScroll                                           // scrollManager.lock
    | UnlockScroll                                         // scrollManager.unLock
    | InsertDoubleLink(workspace: string, target: BlockId, atBlock: BlockId)
    | InsertReference(reference: BlockId, atBlock: BlockId, offset: int)

  predicate IsScrollCall(e: Effect) {
    e.LockScroll? || e.UnlockScroll?
  }

  /** The component's state hooks, plus everything it has asked of the editor so far. */
  datatype MenuState = MenuState(
    isShow: bool,
    blockId: Option<BlockId>,
    searchText: string,
    searchBlocks: seq<QueryBlock>,
    log: seq<Effect>)

  /** Inputs that drive a menu: key-up, key-down capture, click-away, a pick, a close request, a query answer. */
  datatype Event =
    | KeyUp(key: string, sel: Selection, slashTexts: map<Option<BlockId>, string>)
    | KeyDown(code: string)
    | ClickAway
    | Select(target: BlockId, anchor: Option<BlockId>)
    | Close
    | Results(blocks: seq<QueryBlock>)

  /** The scroll lock is held when the most recent lock or unlock call was a lock. */
  function ScrollLocked(log: seq<Effect>): bool {
    if log == [] then false
    else if log[|log| - 1].LockScroll? then true
    else if log[|log| - 1].UnlockScroll? then false
    else ScrollLocked(log[..|log| - 1])
  }

  /** The text of the most recent block query, if any. */
  function LastQuery(log: seq<Effect>): Option<string> {
    if log == [] then None
    else if log[|log| - 1].Query? then Some(log[|log| - 1].text)
    else LastQuery(log[..|log| - 1])
  }

  /** How many times `e` occurs in `log`. */
  function Occurrences(log: seq<Effect>, e: Effect): nat {
    if log == [] then 0
    else Occurrences(log[..|log| - 1], e) + (if log[|log| - 1] == e then 1 else 0)
  }

  lemma {:induction false} ScrollLockedAppend(log: seq<Effect>, tail: seq<Effect>)
    requires forall i :: 0 <= i < |tail| ==> !IsScrollCall(tail[i])
    ensures ScrollLocked(log + tail) == ScrollLocked(log)
  {
    if tail != [] {
      var front := tail[..|tail| - 1];
      assert (log + tail)[..|log + tail| - 1] == log + front;
      ScrollLockedAppend(log, front);
    } else {
      assert log + tail == log;
    }
  }

  lemma {:induction false} LastQueryAppend(log: seq<Effect>, tail: seq<Effect>)
    requires forall i :: 0 <= i < |tail| ==> !tail[i].Query?
    ensures LastQuery(log + tail) == LastQuery(log)
  {
    if tail != [] {
      var front := tail[..|tail| - 1];
      assert (log + tail)[..|log + tail| - 1] == log + front;
      LastQueryAppend(log, front);
    } else {
      assert log + tail == log;
    }
  }

  lemma {:induction false} OccurrencesAppend(log: seq<Effect>, tail: seq<Effect>, e: Effect)
    ensures Occurrences(log + tail, e) == Occurrences(log, e) + Occurrences(tail, e)
  {
    if tail != [] {
      var front := tail[..|tail| - 1];
      assert (log + tail)[..|log + tail| - 1] == log + front;
      OccurrencesAppend(log, front, e);
    } else {
      assert log + tail == log;
    }
  }

  lemma OccurrencesSplit(log: seq<Effect>, tail: seq<Effect>)
    ensures forall e: Effect :: Occurrences(log + tail, e) == Occurrences(log, e) + Occurrences(tail, e)
  {
    forall e: Effect
      ensures Occurrences(log + tail, e) == Occurrences(log, e) + Occurrences(tail, e)
    {
      OccurrencesAppend(log, tail, e);
    }
  }

  /** The ids of a search result, in order: the `searchBlockIds` memo of both menus. */
  function Ids(blocks: seq<QueryBlock>): (ids: seq<BlockId>)
    ensures |ids| == |blocks|
    ensures forall i :: 0 <= i < |blocks| ==> ids[i] == blocks[i].id
  {
    if blocks == [] then [] else [blocks[0].id] + Ids(blocks[1..])
  }

  /**
   * The state right after mounting: hidden, no block, empty query, no results,
   * and the one query the `searchText` effect issues on mount.
   */
  function Mounted(): (s: MenuState)
    ensures !s.isShow && !Truthy(s.blockId) && s.searchBlocks == []
    ensures !ScrollLocked(s.log) && LastQuery(s.log) == Some(s.searchText) && s.searchText == ""
  {
    MenuState(false, None, "", [], [Query("")])
  }

  /** The entries the `searchText` effect adds: one query for `current` when it differs from `previous`. */
  function QueryIfChanged(previous: string, current: string): seq<Effect> {
    if previous != current then [Query(current)] else []
  }

  /**
   * The `searchText` effect, run once after a handler's writes have been
   * committed: one query for the new text when it differs from `previous`.
   */
  function RunQueryEffect(previous: string, s: MenuState): (r: MenuState)
    ensures r.isShow == s.isShow && r.blockId == s.blockId && r.searchText == s.searchText
    ensures r.searchBlocks == s.searchBlocks && r.log == s.log + QueryIfChanged(previous, s.searchText)
    ensures LastQuery(r.log) == if previous != s.searchText then Some(s.searchText) else LastQuery(s.log)
    ensures |r.log| == |s.log| + (if previous != s.searchText then 1 else 0)
    ensures ScrollLocked(r.log) == ScrollLocked(s.log)
    ensures forall e: Effect :: !e.Query? ==> Occurrences(r.log, e) == Occurrences(s.log, e)
  {
    if previous != s.searchText then
      ScrollLockedAppend(s.log, [Query(s.searchText)]);
      OccurrencesSplit(s.log, [Query(s.searchText)]);
      s.(log := s.log + [Query(s.searchText)])
    else
      assert s.log + [] == s.log;
      s
  }

  /** `handleClose`: asks for the search slash of `blockId` to be removed when `blockId` is truthy. */
  function Closed(s: MenuState): (r: MenuState)
    ensures r.isShow == s.isShow && r.blockId == s.blockId && r.searchText == s.searchText
    ensures r.searchBlocks == s.searchBlocks
    ensures r.log == s.log + (if Truthy(s.blockId) then [RemoveSearchSlash(s.blockId)] else [])
  {
    if Truthy(s.blockId) then s.(log := s.log + [RemoveSearchSlash(s.blockId)]) else s
  }
}

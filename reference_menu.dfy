/**
 * The reference popup: the same `[[` machine as the double-link menu, but it
 * never narrows its query from the typed text, has no shared exit, and never
 * releases the scroll lock. Picking a result inserts a reference that replaces
 * `searchText.length + 2` characters before the caret.
 */
module Reference {
  import opened MenuCore

  /** Escape and click-away: only `isShow` goes false. */
  function Dismissed(s: MenuState): (r: MenuState)
    ensures !r.isShow
    ensures r.blockId == s.blockId && r.searchText == s.searchText
    ensures r.searchBlocks == s.searchBlocks && r.log == s.log
  {
    s.(isShow := false)
  }

  /**
   * The state after `handleSearch` on a key-up, described by the final value
   * of each state hook (the last write wins) and what the editor was asked.
   */
  function OnKeyUp(s: MenuState, key: string, sel: Selection): (r: MenuState)
    // the guard fails: nothing happens, whether the menu is shown or not
    ensures !CaretInBlock(sel) ==> r == s
    // a Backspace that leaves `[[` before the caret: only hides (after the 'G' a shown menu writes first)
    ensures Cancels(key, sel) ==>
      !r.isShow && r.blockId == s.blockId && r.searchText == (if s.isShow then "G" else s.searchText) &&
      Occurrences(r.log, LockScroll) == Occurrences(s.log, LockScroll) &&
      ScrollLocked(r.log) == ScrollLocked(s.log)
    // any other key after the trigger arms the menu on the anchor block, query ' ', one more lock
    ensures Arms(key, sel) ==>
      r.isShow && r.blockId == sel.anchorNode && r.searchText == " " &&
      ScrollLocked(r.log) && Occurrences(r.log, LockScroll) == Occurrences(s.log, LockScroll) + 1
    // typing after the trigger: a shown menu gets the query 'G', nothing else changes
    ensures CaretInBlock(sel) && !EndsWithTrigger(sel.textBefore) ==>
      r.isShow == s.isShow && r.blockId == s.blockId &&
      r.searchText == (if s.isShow then "G" else s.searchText) &&
      ScrollLocked(r.log) == ScrollLocked(s.log) && Occurrences(r.log, LockScroll) == Occurrences(s.log, LockScroll)
    // the query never comes from the typed text
    ensures r.searchText == s.searchText || r.searchText == " " || r.searchText == "G"
    ensures Occurrences(r.log, UnlockScroll) == Occurrences(s.log, UnlockScroll)
    // the only calls a key-up makes: one lock when it arms, then the query effect
    ensures Arms(key, sel) ==> r.log == s.log + [LockScroll] + QueryIfChanged(s.searchText, r.searchText)
    ensures !Arms(key, sel) ==> r.log == s.log + QueryIfChanged(s.searchText, r.searchText)
    ensures r.searchBlocks == s.searchBlocks && s.log <= r.log
  {
    if !CaretInBlock(sel) then s
    else
      var typed := if s.isShow then "G" else s.searchText;
      if Cancels(key, sel) then
        RunQueryEffect(s.searchText, s.(isShow := false, searchText := typed))
      else if Arms(key, sel) then
        var armed := s.(isShow := true, blockId := sel.anchorNode, searchText := " ", log := s.log + [LockScroll]);
        OccurrencesSplit(s.log, [LockScroll]);
        RunQueryEffect(s.searchText, armed)
      else
        RunQueryEffect(s.searchText, s.(searchText := typed))
  }

  /** `handleKeyDown`: Escape only hides; other keys do nothing. */
  function OnKeyDown(s: MenuState, code: string): (r: MenuState)
    ensures code == "Escape" ==> r == s.(isShow := false)
    ensures code != "Escape" ==> r == s
    ensures ScrollLocked(s.log) ==> ScrollLocked(r.log)
  {
    if code == "Escape" then Dismissed(s) else s
  }

  /**
   * How far back from the caret the inserted reference starts replacing text:
   * the query and the trigger before it (see `ReplaceSpan`).
   */
  function ReplaceOffset(searchText: string): (offset: int)
    ensures offset < 0 && -offset == |Trigger| + |searchText|
  {
    -|searchText| - 2
  }

  /**
   * When the text before the caret is exactly the trigger followed by the
   * query, the offset reaches back to the first character of the trigger.
   */
  lemma ReplaceSpan(before: string, query: string)
    ensures var text := before + Trigger + query;
      0 <= |text| + ReplaceOffset(query) == |before| &&
      text[|text| + ReplaceOffset(query)..] == Trigger + query
  {
    var text := before + Trigger + query;
    assert text == before + (Trigger + query);
  }

  /**
   * `handleSelected`: one reference to `reference` at the anchor block when
   * `blockId` is truthy, replacing back to offset `-searchText.length - 2`;
   * then hide. None when reading the id of a missing anchor node throws.
   */
  function OnSelect(s: MenuState, reference: BlockId, anchor: Option<BlockId>): (r: Option<MenuState>)
    ensures r.None? <==> Truthy(s.blockId) && anchor.None?
    ensures r.Some? ==> !r.value.isShow && r.value.blockId == s.blockId && r.value.searchText == s.searchText
    ensures r.Some? ==> r.value.searchBlocks == s.searchBlocks
    ensures r.Some? && Truthy(s.blockId) ==>
      r.value.log == s.log + [InsertReference(reference, anchor.value, -(|s.searchText| + 2))]
    ensures r.Some? && !Truthy(s.blockId) ==> r.value.log == s.log
    ensures r.Some? ==> (ScrollLocked(s.log) ==> ScrollLocked(r.value.log))
  {
    if !Truthy(s.blockId) then Some(Dismissed(s))
    else if anchor.None? then None
    else
      var inserted := s.log + [InsertReference(reference, anchor.value, ReplaceOffset(s.searchText))];
      ScrollLockedAppend(s.log, [InsertReference(reference, anchor.value, ReplaceOffset(s.searchText))]);
      Some(s.(isShow := false, log := inserted))
  }

  /** One input event; a pick that throws leaves the state as it was. */
  function Step(s: MenuState, e: Event): MenuState {
    match e
    case KeyUp(key, sel, _) => OnKeyUp(s, key, sel)
    case KeyDown(code) => OnKeyDown(s, code)
    case ClickAway => Dismissed(s)
    case Select(reference, anchor) => OnSelect(s, reference, anchor).GetOr(s)
    case Close => Closed(s)
    case Results(blocks) => s.(searchBlocks := blocks)
  }

  function Run(s: MenuState, events: seq<Event>): MenuState
    decreases |events|
  {
    if events == [] then s else Run(Step(s, events[0]), events[1..])
  }

  /** No event releases the scroll lock or takes back a lock. */
  lemma StepKeepsLock(s: MenuState, e: Event)
    ensures var r := Step(s, e);
      Occurrences(r.log, UnlockScroll) == Occurrences(s.log, UnlockScroll) &&
      Occurrences(r.log, LockScroll) >= Occurrences(s.log, LockScroll) &&
      (ScrollLocked(s.log) ==> ScrollLocked(r.log))
  {
    match e
    case KeyUp(key, sel, _) =>
      var r := OnKeyUp(s, key, sel);
      assert Occurrences(r.log, LockScroll) >= Occurrences(s.log, LockScroll);
    case KeyDown(code) =>
    case ClickAway =>
    case Select(reference, anchor) =>
      if Truthy(s.blockId) && anchor.Some? {
        OccurrencesSplit(s.log, [InsertReference(reference, anchor.value, ReplaceOffset(s.searchText))]);
      }
    case Close =>
      if Truthy(s.blockId) {
        OccurrencesSplit(s.log, [RemoveSearchSlash(s.blockId)]);
        ScrollLockedAppend(s.log, [RemoveSearchSlash(s.blockId)]);
      }
    case Results(_) =>
  }

  /** Whatever the events, the lock count only grows, nothing unlocks, and a held lock stays held. */
  lemma {:induction false} LockNeverReleased(s: MenuState, events: seq<Event>)
    ensures var r := Run(s, events);
      Occurrences(r.log, UnlockScroll) == Occurrences(s.log, UnlockScroll) &&
      Occurrences(r.log, LockScroll) >= Occurrences(s.log, LockScroll) &&
      (ScrollLocked(s.log) ==> ScrollLocked(r.log))
    decreases |events|
  {
    if events != [] {
      StepKeepsLock(s, events[0]);
      LockNeverReleased(Step(s, events[0]), events[1..]);
    }
  }

  /** Every reference inserted so far replaces back to offset -3. */
  ghost predicate InsertsReachBackThree(log: seq<Effect>) {
    forall i :: 0 <= i < |log| && log[i].InsertReference? ==> log[i].offset == -3
  }

  /**
   * What holds between events: the query is '', ' ' or 'G', and never ''
   * once a block is set; the last query issued is for the current text; and
   * every reference inserted replaces back to offset -3.
   */
  ghost predicate Consistent(s: MenuState) {
    (s.searchText == "" || s.searchText == " " || s.searchText == "G") &&
    (s.blockId.Some? ==> s.searchText != "") &&
    LastQuery(s.log) == Some(s.searchText) &&
    InsertsReachBackThree(s.log)
  }

  lemma StepConsistent(s: MenuState, e: Event)
    requires Consistent(s)
    ensures Consistent(Step(s, e))
  {
    match e
    case KeyUp(key, sel, _) =>
      if Arms(key, sel) {
        LastQueryAppend(s.log, [LockScroll]);
      }
    case KeyDown(code) =>
    case ClickAway =>
    case Select(reference, anchor) =>
      if Truthy(s.blockId) && anchor.Some? {
        LastQueryAppend(s.log, [InsertReference(reference, anchor.value, ReplaceOffset(s.searchText))]);
      }
    case Close =>
      if Truthy(s.blockId) {
        LastQueryAppend(s.log, [RemoveSearchSlash(s.blockId)]);
      }
    case Results(_) =>
  }

  lemma {:induction false} RunConsistent(s: MenuState, events: seq<Event>)
    requires Consistent(s)
    ensures Consistent(Run(s, events))
    decreases |events|
  {
    if events != [] {
      StepConsistent(s, events[0]);
      RunConsistent(Step(s, events[0]), events[1..]);
    }
  }

  /**
   * From mounting on, whatever was typed: every reference this menu inserts
   * replaces back to offset -3 (the trigger and one character), the query is
   * never taken from the text, and the scroll lock is never released.
   */
  lemma ReachableInsertsReachBackThree(events: seq<Event>)
    ensures var s := Run(Mounted(), events);
      (forall i :: 0 <= i < |s.log| && s.log[i].InsertReference? ==> s.log[i].offset == -3) &&
      (s.searchText == "" || s.searchText == " " || s.searchText == "G") &&
      Occurrences(s.log, UnlockScroll) == 0
  {
    RunConsistent(Mounted(), events);
    LockNeverReleased(Mounted(), events);
  }

  /** Typing `[[` in block `b` right after mounting opens the menu on `b` with the query ' ' and locks scroll. */
  lemma ArmAfterMount(b: BlockId)
    ensures Step(Mounted(), KeyUp("[", Selection("Range", Some(b), true, "[["), map[])) ==
      MenuState(true, Some(b), " ", [], [Query(""), LockScroll, Query(" ")])
  {
    assert EndsWithTrigger("[[");
  }

  /**
   * With the menu open on `b` and the query ' ', typing up to `[[foo` and then
   * picking `t`: the query becomes 'G', not `foo`, so the reference replaces
   * back to offset -3 although the trigger and the typed text span five
   * characters; the scroll lock stays held.
   */
  lemma TriggerTypeSelect(s: MenuState, b: BlockId, t: BlockId)
    requires s.isShow && s.blockId == Some(b) && s.searchText == " " && b != "" && ScrollLocked(s.log)
    ensures var typed := Step(s, KeyUp("o", Selection("Range", Some(b), true, "[[foo"), map[]));
      var picked := Step(typed, Select(t, Some(b)));
      typed.isShow && typed.searchText == "G" && typed.log == s.log + [Query("G")] &&
      picked.log == typed.log + [InsertReference(t, b, -3)] && !picked.isShow && ScrollLocked(picked.log)
  {
    assert !EndsWithTrigger("[[foo");
    var typed := Step(s, KeyUp("o", Selection("Range", Some(b), true, "[[foo"), map[]));
    assert typed.searchText == "G" && ScrollLocked(typed.log);
  }

  /** The component: its state hooks as fields, its handlers as methods. */
  class ReferenceMenu {
    var isShow: bool
    var blockId: Option<BlockId>
    var searchText: string
    var searchBlocks: seq<QueryBlock>
    var log: seq<Effect>

    function Model(): MenuState
      reads this
    {
      MenuState(isShow, blockId, searchText, searchBlocks, log)
    }

    constructor ()
      ensures Model() == Mounted()
    {
      isShow, blockId, searchText, searchBlocks := false, None, "", [];
      log := [Query("")];
    }

    function SearchBlockIds(): (ids: seq<BlockId>)
      reads this
      ensures |ids| == |searchBlocks|
      ensures forall i :: 0 <= i < |ids| ==> ids[i] == searchBlocks[i].id
    {
      Ids(searchBlocks)
    }

    /** The `searchText` effect after a handler that started from `previous`. */
    method SearchTextEffect(previous: string)
      modifies this`log
      ensures Model() == RunQueryEffect(previous, old(Model()))
    {
      if searchText != previous {
        log := log + [Query(searchText)];
      }
    }

    /** `handleSearch` on a key-up; reads of `isShow` see the pre-call value. */
    method HandleSearch(key: string, sel: Selection)
      modifies this
      ensures Model() == OnKeyUp(old(Model()), key, sel)
    {
      var wasShown, previousText := isShow, searchText;
      if sel.kind == "Range" && sel.anchorNode.Some? && sel.collapsed {
        var text := sel.textBefore;
        if wasShown {
          searchText := "G";
        }
        if EndsWithTrigger(text) {
          if key == "Backspace" {
            isShow := false;
            SearchTextEffect(previousText);
            return;
          }
          isShow := true;
          blockId := sel.anchorNode;
          searchText := " ";
          log := log + [LockScroll];
        }
        SearchTextEffect(previousText);
      }
    }

    method HandleKeyDown(code: string)
      modifies this
      ensures Model() == OnKeyDown(old(Model()), code)
    {
      if code == "Escape" {
        isShow := false;
      }
    }

    method HandleClickAway()
      modifies this
      ensures Model() == Dismissed(old(Model()))
    {
      isShow := false;
    }

    /** `handleSelected`; `thrown` reports that `anchorNode.id` failed on a missing anchor node. */
    method HandleSelected(reference: BlockId, anchor: Option<BlockId>) returns (thrown: bool)
      modifies this
      ensures thrown == OnSelect(old(Model()), reference, anchor).None?
      ensures Model() == OnSelect(old(Model()), reference, anchor).GetOr(old(Model()))
    {
      thrown := false;
      if blockId.Some? && blockId.value != "" {
        if anchor.None? {
          thrown := true;
          return;
        }
        log := log + [InsertReference(reference, anchor.value, ReplaceOffset(searchText))];
      }
      isShow := false;
    }

    method HandleClose()
      modifies this
      ensures Model() == Closed(old(Model()))
    {
      if blockId.Some? && blockId.value != "" {
        log := log + [RemoveSearchSlash(blockId)];
      }
    }

    /** The `QueryBlocks` callback: the result replaces `searchBlocks` wholesale. */
    method ReceiveResults(blocks: seq<QueryBlock>)
      modifies this
      ensures Model() == old(Model()).(searchBlocks := blocks)
    {
      searchBlocks := blocks;
    }
  }
}

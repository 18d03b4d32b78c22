/**
 * The double-link popup: typing `[[` in a block opens a block search whose
 * query is read back from the editor's search slash, and picking a result
 * inserts a double link. Every closing path goes through `hideMenu`.
 */
module DoubleLink {
  import opened MenuCore

  /** `hideMenu`: hide, remove the search slash of the current block, release the scroll lock. */
  function Hidden(s: MenuState): (r: MenuState)
    ensures !r.isShow && !ScrollLocked(r.log)
    ensures r.blockId == s.blockId && r.searchText == s.searchText && r.searchBlocks == s.searchBlocks
    ensures r.log == s.log + [RemoveSearchSlash(s.blockId), UnlockScroll]
    ensures LastQuery(r.log) == LastQuery(s.log)
  {
    LastQueryAppend(s.log, [RemoveSearchSlash(s.blockId), UnlockScroll]);
    s.(isShow := false, log := s.log + [RemoveSearchSlash(s.blockId), UnlockScroll])
  }

  /**
   * The query typed after the trigger, as the search slash of the pre-call
   * block reports it: present only when the menu was shown before the key-up
   * and the slash text starts with the trigger.
   */
  function SlashQuery(s: MenuState, slashTexts: map<Option<BlockId>, string>): (q: Option<string>)
    ensures q.Some? <==> s.isShow && s.blockId in slashTexts && StartsWithTrigger(slashTexts[s.blockId])
    ensures q.Some? ==> slashTexts[s.blockId] == Trigger + q.value
  {
    if s.isShow && s.blockId in slashTexts && StartsWithTrigger(slashTexts[s.blockId]) then
      var slash := slashTexts[s.blockId];
      assert slash == slash[..2] + slash[2..];
      Some(slash[2..])
    else None
  }

  /** The entries an arming key-up adds to the log, before the query effect. */
  function ArmCalls(previous: Option<BlockId>, anchor: BlockId): seq<Effect> {
    [RemoveDoubleLinkSearchSlash(previous), ScheduleSlashPlacement(anchor), LockScroll]
  }

  /**
   * The state after `handleSearch` on a key-up, described by the final value
   * of each state hook (the last write wins) and what the editor was asked.
   */
  function OnKeyUp(s: MenuState, key: string, sel: Selection, slashTexts: map<Option<BlockId>, string>): (r: MenuState)
    // guard fails and the menu is hidden: nothing at all happens
    ensures !CaretInBlock(sel) && !s.isShow ==> r == s
    // a Backspace that leaves `[[` before the caret: `hideMenu` and return, no narrowing
    ensures Cancels(key, sel) ==>
      !r.isShow && !ScrollLocked(r.log) && r.blockId == s.blockId &&
      r.searchText == (if s.isShow then "G" else s.searchText) &&
      r.log == s.log + [RemoveSearchSlash(s.blockId), UnlockScroll] + QueryIfChanged(s.searchText, r.searchText)
    // any other key after the trigger arms the menu on the anchor block
    ensures Arms(key, sel) ==>
      r.isShow && r.blockId == sel.anchorNode && ScrollLocked(r.log) &&
      r.log == s.log + ArmCalls(s.blockId, sel.anchorNode.value) + QueryIfChanged(s.searchText, r.searchText)
    ensures Arms(key, sel) && SlashQuery(s, slashTexts).None? ==> r.searchText == " "
    // a menu shown before the key-up takes its query from the slash, overriding 'G' and ' '
    ensures !Cancels(key, sel) && SlashQuery(s, slashTexts).Some? ==> r.searchText == SlashQuery(s, slashTexts).value
    ensures CaretInBlock(sel) && !EndsWithTrigger(sel.textBefore) && s.isShow && SlashQuery(s, slashTexts).None? ==>
      r.searchText == "G"
    // without the trigger, visibility, block and scroll lock stay as they were
    ensures !Cancels(key, sel) && !Arms(key, sel) ==>
      r.isShow == s.isShow && r.blockId == s.blockId && ScrollLocked(r.log) == ScrollLocked(s.log) &&
      r.log == s.log + QueryIfChanged(s.searchText, r.searchText)
    // no trigger, no slash query and no 'G' to write: nothing at all happens
    ensures !Cancels(key, sel) && !Arms(key, sel) && SlashQuery(s, slashTexts).None? && !(CaretInBlock(sel) && s.isShow) ==>
      r == s
    ensures r.searchBlocks == s.searchBlocks && s.log <= r.log
  {
    var q := SlashQuery(s, slashTexts);
    if Cancels(key, sel) then
      RunQueryEffect(s.searchText, Hidden(s.(searchText := if s.isShow then "G" else s.searchText)))
    else if Arms(key, sel) then
      var calls := ArmCalls(s.blockId, sel.anchorNode.value);
      var armed := MenuState(true, sel.anchorNode, q.GetOr(" "), s.searchBlocks, s.log + calls);
      assert ScrollLocked(armed.log);
      RunQueryEffect(s.searchText, armed)
    else
      var typed := if CaretInBlock(sel) && s.isShow then "G" else s.searchText;
      RunQueryEffect(s.searchText, s.(searchText := q.GetOr(typed)))
  }

  /** `handleKeyDown`: Escape always goes through `hideMenu`; other keys do nothing. */
  function OnKeyDown(s: MenuState, code: string): (r: MenuState)
    ensures code == "Escape" ==>
      !r.isShow && !ScrollLocked(r.log) && r.log == s.log + [RemoveSearchSlash(s.blockId), UnlockScroll]
    ensures code == "Escape" ==> r.blockId == s.blockId && r.searchText == s.searchText && r.searchBlocks == s.searchBlocks
    ensures code != "Escape" ==> r == s
  {
    if code == "Escape" then Hidden(s) else s
  }

  /**
   * `handleSelected`: one double link to `target` at the anchor block when
   * `blockId` is truthy, then `hideMenu`. None when reading the id of a missing
   * anchor node throws before anything happens.
   */
  function OnSelect(workspace: string, s: MenuState, target: BlockId, anchor: Option<BlockId>): (r: Option<MenuState>)
    ensures r.None? <==> Truthy(s.blockId) && anchor.None?
    ensures r.Some? ==> !r.value.isShow && !ScrollLocked(r.value.log) && r.value.blockId == s.blockId
    ensures r.Some? ==> r.value.searchText == s.searchText && r.value.searchBlocks == s.searchBlocks
    ensures r.Some? && Truthy(s.blockId) ==>
      r.value.log == s.log + [InsertDoubleLink(workspace, target, anchor.value), RemoveSearchSlash(s.blockId), UnlockScroll]
    ensures r.Some? && !Truthy(s.blockId) ==> r.value.log == s.log + [RemoveSearchSlash(s.blockId), UnlockScroll]
  {
    if !Truthy(s.blockId) then Some(Hidden(s))
    else if anchor.None? then None
    else Some(Hidden(s.(log := s.log + [InsertDoubleLink(workspace, target, anchor.value)])))
  }

  /** One input event; a pick that throws leaves the state as it was. */
  function Step(workspace: string, s: MenuState, e: Event): MenuState {
    match e
    case KeyUp(key, sel, slashTexts) => OnKeyUp(s, key, sel, slashTexts)
    case KeyDown(code) => OnKeyDown(s, code)
    case ClickAway => Hidden(s)
    case Select(target, anchor) => OnSelect(workspace, s, target, anchor).GetOr(s)
    case Close => Closed(s)
    case Results(blocks) => s.(searchBlocks := blocks)
  }

  function Run(workspace: string, s: MenuState, events: seq<Event>): MenuState
    decreases |events|
  {
    if events == [] then s else Run(workspace, Step(workspace, s, events[0]), events[1..])
  }

  /**
   * What holds between events: the popup is shown exactly while the scroll
   * lock is held, and the last query issued is for the current `searchText`.
   */
  ghost predicate Consistent(s: MenuState) {
    (s.isShow <==> ScrollLocked(s.log)) && LastQuery(s.log) == Some(s.searchText)
  }

  lemma StepConsistent(workspace: string, s: MenuState, e: Event)
    requires Consistent(s)
    ensures Consistent(Step(workspace, s, e))
  {
    match e
    case KeyUp(key, sel, slashTexts) =>
      if Arms(key, sel) {
        LastQueryAppend(s.log, ArmCalls(s.blockId, sel.anchorNode.value));
      }
    case KeyDown(code) =>
    case ClickAway =>
    case Select(target, anchor) =>
      if Truthy(s.blockId) && anchor.Some? {
        LastQueryAppend(s.log, [InsertDoubleLink(workspace, target, anchor.value)]);
      }
    case Close =>
      ScrollLockedAppend(s.log, Closed(s).log[|s.log|..]);
      LastQueryAppend(s.log, Closed(s).log[|s.log|..]);
      assert s.log + Closed(s).log[|s.log|..] == Closed(s).log;
    case Results(blocks) =>
  }

  lemma {:induction false} RunConsistent(workspace: string, s: MenuState, events: seq<Event>)
    requires Consistent(s)
    ensures Consistent(Run(workspace, s, events))
    decreases |events|
  {
    if events != [] {
      StepConsistent(workspace, s, events[0]);
      RunConsistent(workspace, Step(workspace, s, events[0]), events[1..]);
    }
  }

  /** The events that close the popup: a Backspace that leaves `[[` before the caret, Escape, click-away and a pick that does not throw. */
  predicate Closes(workspace: string, s: MenuState, e: Event) {
    match e
    case KeyUp(key, sel, _) => Cancels(key, sel)
    case KeyDown(code) => code == "Escape"
    case ClickAway => true
    case Select(target, anchor) => OnSelect(workspace, s, target, anchor).Some?
    case Close => false
    case Results(_) => false
  }

  /** Every closing path runs `hideMenu`: the popup is hidden and the scroll lock released. */
  lemma EveryCloseReleases(workspace: string, s: MenuState, e: Event)
    requires Closes(workspace, s, e)
    ensures var r := Step(workspace, s, e); !r.isShow && !ScrollLocked(r.log)
  {
  }

  /** From mounting on, whatever the events: shown exactly while scroll is locked, and the query is current. */
  lemma ReachableConsistent(workspace: string, events: seq<Event>)
    ensures var s := Run(workspace, Mounted(), events);
      (s.isShow <==> ScrollLocked(s.log)) && LastQuery(s.log) == Some(s.searchText)
  {
    RunConsistent(workspace, Mounted(), events);
  }

  /** Typing `[[` in block `b` right after mounting opens the menu on `b` with the query ' '. */
  lemma ArmAfterMount(workspace: string, b: BlockId)
    ensures Step(workspace, Mounted(), KeyUp("[", Selection("Range", Some(b), true, "[["), map[])) ==
      MenuState(true, Some(b), " ", [], [Query(""), RemoveDoubleLinkSearchSlash(None), ScheduleSlashPlacement(b), LockScroll, Query(" ")])
  {
    assert EndsWithTrigger("[[");
  }

  /**
   * Typing `[[` in block `b` and then pressing Escape: the menu opens on `b`
   * with the query ' ', then closes through `hideMenu`; nothing is inserted.
   */
  lemma TriggerThenEscape(workspace: string, b: BlockId)
    ensures var armed := Step(workspace, Mounted(), KeyUp("[", Selection("Range", Some(b), true, "[["), map[]));
      var closed := Step(workspace, armed, KeyDown("Escape"));
      !closed.isShow && closed.blockId == Some(b) && !ScrollLocked(closed.log) &&
      closed.log == [Query(""), RemoveDoubleLinkSearchSlash(None), ScheduleSlashPlacement(b), LockScroll, Query(" "),
                     RemoveSearchSlash(Some(b)), UnlockScroll]
  {
    ArmAfterMount(workspace, b);
  }

  /**
   * With the menu open on `b` and the search slash of `b` reading `[[foo`, a
   * key-up narrows the query to `foo` and issues one query for it; picking
   * block `t` then inserts one double link to `t` at `b` and closes the menu.
   */
  lemma NarrowThenSelect(workspace: string, b: BlockId, t: BlockId, s: MenuState)
    requires s.isShow && s.blockId == Some(b) && s.searchText == " " && b != ""
    ensures var typed := Step(workspace, s, KeyUp("o", Selection("Range", Some(b), true, "[[foo"), map[Some(b) := "[[foo"]));
      var picked := Step(workspace, typed, Select(t, Some(b)));
      typed.isShow && typed.searchText == "foo" && typed.log == s.log + [Query("foo")] &&
      picked.log == typed.log + [InsertDoubleLink(workspace, t, b), RemoveSearchSlash(Some(b)), UnlockScroll] &&
      !picked.isShow && !ScrollLocked(picked.log)
  {
    var slash: string := "[[foo";
    assert StartsWithTrigger(slash) && slash[2..] == "foo";
    assert !EndsWithTrigger(slash);
  }

  /** The component: its state hooks as fields, its handlers as methods. */
  class DoubleLinkMenu {
    const workspace: string
    var isShow: bool
    var blockId: Option<BlockId>
    var searchText: string
    var searchBlocks: seq<QueryBlock>
    var log: seq<Effect>

    function Model(): MenuState
      reads this
    {
      MenuState(isShow, blockId, searchText, searchBlocks, log)
    }

    constructor (workspace: string)
      ensures this.workspace == workspace && Model() == Mounted()
    {
      this.workspace := workspace;
      isShow, blockId, searchText, searchBlocks := false, None, "", [];
      log := [Query("")];
    }

    function SearchBlockIds(): (ids: seq<BlockId>)
      reads this
      ensures |ids| == |searchBlocks|
      ensures forall i :: 0 <= i < |ids| ==> ids[i] == searchBlocks[i].id
    {
      Ids(searchBlocks)
    }

    /** The `searchText` effect after a handler that started from `previous`. */
    method SearchTextEffect(previous: string)
      modifies this`log
      ensures Model() == RunQueryEffect(previous, old(Model()))
    {
      if searchText != previous {
        log := log + [Query(searchText)];
      }
    }

    method HideMenu()
      modifies this`isShow, this`log
      ensures Model() == Hidden(old(Model()))
    {
      isShow := false;
      log := log + [RemoveSearchSlash(blockId)];
      log := log + [UnlockScroll];
    }

    /** `handleSearch` on a key-up; reads of `isShow` and `blockId` see the pre-call values. */
    method HandleSearch(key: string, sel: Selection, slashTexts: map<Option<BlockId>, string>)
      modifies this
      ensures Model() == OnKeyUp(old(Model()), key, sel, slashTexts)
    {
      var wasShown, previousBlock, previousText := isShow, blockId, searchText;
      if sel.kind == "Range" && sel.anchorNode.Some? && sel.collapsed {
        var text := sel.textBefore;
        if wasShown {
          searchText := "G";
        }
        if EndsWithTrigger(text) {
          if key == "Backspace" {
            HideMenu();
            SearchTextEffect(previousText);
            return;
          }
          blockId := sel.anchorNode;
          log := log + [RemoveDoubleLinkSearchSlash(previousBlock)];
          log := log + [ScheduleSlashPlacement(sel.anchorNode.value)];
          searchText := " ";
          isShow := true;
          log := log + [LockScroll];
        }
      }
      if wasShown && previousBlock in slashTexts {
        var slash := slashTexts[previousBlock];
        if StartsWithTrigger(slash) {
          searchText := slash[2..];
        }
      }
      SearchTextEffect(previousText);
    }

    method HandleKeyDown(code: string)
      modifies this
      ensures Model() == OnKeyDown(old(Model()), code)
    {
      if code == "Escape" {
        HideMenu();
      }
    }

    method HandleClickAway()
      modifies this
      ensures Model() == Hidden(old(Model()))
    {
      HideMenu();
    }

    /** `handleSelected`; `thrown` reports that `anchorNode.id` failed on a missing anchor node. */
    method HandleSelected(target: BlockId, anchor: Option<BlockId>) returns (thrown: bool)
      modifies this
      ensures thrown == OnSelect(workspace, old(Model()), target, anchor).None?
      ensures Model() == OnSelect(workspace, old(Model()), target, anchor).GetOr(old(Model()))
    {
      thrown := false;
      if blockId.Some? && blockId.value != "" {
        if anchor.None? {
          thrown := true;
          return;
        }
        log := log + [InsertDoubleLink(workspace, target, anchor.value)];
      }
      HideMenu();
    }

    method HandleClose()
      modifies this
      ensures Model() == Closed(old(Model()))
    {
      if blockId.Some? && blockId.value != "" {
        log := log + [RemoveSearchSlash(blockId)];
      }
    }

    /** The `QueryBlocks` callback: the result replaces `searchBlocks` wholesale. */
    method ReceiveResults(blocks: seq<QueryBlock>)
      modifies this
      ensures Model() == old(Model()).(searchBlocks := blocks)
    {
      searchBlocks := blocks;
    }
  }
}

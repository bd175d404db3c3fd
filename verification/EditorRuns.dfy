/** Whole runs of the editor session store: every sequence of its actions, with writing to storage failing
    at any of them. */
module EditorRuns {
  import opened Wrappers
  import opened EditorSession
  import Patch

  datatype Action =
    | Open(actor: string, page: string, base: Option<Revision>, server: Document)
    | Edit(ast: Document)
    | Summarize(summary: string)
    | MarkMinor(minor: bool)
    | MarkPublishing(publishing: bool)
    | MeetConflict(current: Option<Revision>, serverAst: Document)
    | Rebase
    | Reset
    | DismissRebased
    | Discard
    | Clear

  // Local storage and the session.
  datatype Store = Store(items: Storage, state: Fields)

  // What a store looks like before its first action.
  predicate Untouched(s: Store) {
    s.state == Fields(None, None, None, None, None, false, "", false, false, None, false)
  }

  // An opening that restores this draft.
  ghost predicate OpensWith(s: Store, a: Action, full: bool, s': Store,
      restore: Restore, draft: Option<Document>, oldBase: Option<Revision>)
    requires a.Open?
  {
    var key := DraftKey(a.actor, a.page, a.base);
    && Recovered(s.items, a.actor, a.page, a.base, restore, draft, oldBase)
    && s'.state == Opening(a.actor, a.page, a.base, a.server, restore, draft, oldBase)
    && OthersKept(s.items, s'.items, a.actor, a.page) && Tidy(s'.items, a.actor, a.page, a.base)
    && (key in s'.items ==> draft.Some? && s'.items[key] == Draft(draft.value))
    && (!full && draft.Some? ==> key in s'.items)
  }

  function Edited(items: Storage, state: Fields, full: bool, ast: Document): Storage {
    if Opened(state) && !full then items[DraftKey(state.actorId.value, state.pageId.value, state.base) := Draft(ast)]
    else items
  }

  // One action; full says that writing to storage fails.
  ghost predicate Next(s: Store, a: Action, full: bool, s': Store) {
    match a
    case Open(_, _, _, _) => exists restore, draft, oldBase :: OpensWith(s, a, full, s', restore, draft, oldBase)
    case Edit(ast) =>
      s'.state == s.state.(ast := Some(ast), dirty := true) && s'.items == Edited(s.items, s.state, full, ast)
    case Summarize(summary) => s' == s.(state := s.state.(summary := summary))
    case MarkMinor(minor) => s' == s.(state := s.state.(minor := minor))
    case MarkPublishing(publishing) => s' == s.(state := s.state.(publishing := publishing))
    case MeetConflict(current, serverAst) =>
      s' == if s.state.conflict.Some? then s
            else s.(state := s.state.(conflict := Some(Conflict(s.state.base, current, serverAst))))
    case Rebase =>
      if s.state.conflict.None? then s' == s
      else
        var c := s.state.conflict.value;
        && s'.state == s.state.(base := c.current, serverAst := Some(c.serverAst), conflict := None, rebased := true)
        && PairMoved(s.items, s'.items, s'.state, if full then None else s'.state.ast)
    case Reset =>
      if s.state.conflict.None? then s' == s
      else
        var c := s.state.conflict.value;
        && s'.state == s.state.(base := c.current, serverAst := Some(c.serverAst), ast := Some(c.serverAst),
                                dirty := false, conflict := None, rebased := false)
        && PairMoved(s.items, s'.items, s'.state, None)
    case DismissRebased => s' == s.(state := s.state.(rebased := false))
    case Discard =>
      && s'.state == s.state.(ast := s.state.serverAst, dirty := false, conflict := None)
      && PairMoved(s.items, s'.items, s'.state, None)
    case Clear => s'.state == s.state && PairMoved(s.items, s'.items, s'.state, None)
  }

  /** Every action of the session is such a step. */
  method Perform(session: Session, a: Action)
    requires session.Valid()
    modifies session
    ensures session.Valid() && session.full == old(session.full)
    ensures Next(old(Store(session.items, session.state)), a, session.full, Store(session.items, session.state))
  {
    match a
    case Open(actor, page, base, server) =>
      ghost var s := Store(session.items, session.state);
      var restore := session.StartSession(actor, page, base, server);
      ghost var s' := Store(session.items, session.state);
      ghost var draft: Option<Document>, oldBase: Option<Revision> :|
        Recovered(s.items, actor, page, base, restore, draft, oldBase)
        && s'.state == Opening(actor, page, base, server, restore, draft, oldBase)
        && (DraftKey(actor, page, base) in s'.items ==>
              draft.Some? && s'.items[DraftKey(actor, page, base)] == Draft(draft.value))
        && (!session.full && draft.Some? ==> DraftKey(actor, page, base) in s'.items);
      assert OpensWith(s, a, session.full, s', restore, draft, oldBase);
    case Edit(ast) => session.SetAst(ast);
    case Summarize(summary) => session.SetSummary(summary);
    case MarkMinor(minor) => session.SetIsMinor(minor);
    case MarkPublishing(publishing) => session.SetPublishing(publishing);
    case MeetConflict(current, serverAst) => session.RecordConflict(current, serverAst);
    case Rebase => session.RebaseToLatest();
    case Reset => session.ResetToServer();
    case DismissRebased => session.ClearRebasedFlag();
    case Discard => session.DiscardDraft();
    case Clear => session.ClearDraft();
  }

  // ---- Runs ----

  datatype Event = Event(action: Action, full: bool)

  ghost predicate Run(stores: seq<Store>, events: seq<Event>) {
    && |stores| == |events| + 1 && Untouched(stores[0])
    && forall i | 0 <= i < |events| :: Next(stores[i], events[i].action, events[i].full, stores[i + 1])
  }

  // The pair's drafts sit under one key, that of the current base.
  ghost predicate OneKey(s: Store) {
    Opened(s.state) ==> Tidy(s.items, s.state.actorId.value, s.state.pageId.value, s.state.base)
  }

  // Content the user has changed is in storage, under the current key.
  predicate Saved(s: Store) {
    Opened(s.state) && s.state.dirty ==>
      var key := DraftKey(s.state.actorId.value, s.state.pageId.value, s.state.base);
      s.state.ast.Some? && key in s.items && s.items[key] == Draft(s.state.ast.value)
  }

  lemma OneKeyStep(s: Store, a: Action, full: bool, s': Store)
    requires OneKey(s) && Next(s, a, full, s')
    ensures OneKey(s')
  {
    if a.Open? {
      var restore, draft, oldBase :| OpensWith(s, a, full, s', restore, draft, oldBase);
    }
  }

  /** In every run the drafts of the open pair sit under the one key of the current base. */
  lemma {:induction false} DraftsStayTidy(stores: seq<Store>, events: seq<Event>, i: nat)
    requires Run(stores, events) && i <= |events|
    ensures OneKey(stores[i])
    decreases i
  {
    if i > 0 {
      DraftsStayTidy(stores, events, i - 1);
      OneKeyStep(stores[i - 1], events[i - 1].action, events[i - 1].full, stores[i]);
    }
  }

  // ---- What may change the user's content ----

  predicate Replaces(a: Action) {
    a.Open? || a.Edit? || a.Reset? || a.Discard?
  }

  lemma ContentStep(s: Store, a: Action, full: bool, s': Store)
    requires Next(s, a, full, s') && !Replaces(a)
    ensures s'.state.ast == s.state.ast && s'.state.dirty == s.state.dirty
    ensures s'.state.actorId == s.state.actorId && s'.state.pageId == s.state.pageId
  {
  }

  /** Through any part of a run without opening, editing, resetting or discarding, the user's content and
      its dirty mark stay, whatever conflicts and rebases come in between. */
  lemma {:induction false} ContentStays(stores: seq<Store>, events: seq<Event>, i: nat, j: nat)
    requires Run(stores, events) && i <= j <= |events|
    requires forall k | i <= k < j :: !Replaces(events[k].action)
    ensures stores[j].state.ast == stores[i].state.ast && stores[j].state.dirty == stores[i].state.dirty
    ensures stores[j].state.actorId == stores[i].state.actorId && stores[j].state.pageId == stores[i].state.pageId
    decreases j
  {
    if i < j {
      ContentStays(stores, events, i, j - 1);
      ContentStep(stores[j - 1], events[j - 1].action, events[j - 1].full, stores[j]);
    }
  }

  // ---- Other pairs ----

  ghost predicate SameEntry(before: Storage, after: Storage, key: string) {
    (key in after <==> key in before) && (key in before ==> after[key] == before[key])
  }

  lemma StepKeepsOthers(s: Store, a: Action, full: bool, s': Store, key: string)
    requires Next(s, a, full, s')
    requires a.Open? ==> !(KeyPrefix(a.actor, a.page) <= key)
    requires Opened(s.state) ==> !(KeyPrefix(s.state.actorId.value, s.state.pageId.value) <= key)
    ensures SameEntry(s.items, s'.items, key)
    ensures s'.state.actorId == (if a.Open? then Some(a.actor) else s.state.actorId)
    ensures s'.state.pageId == (if a.Open? then Some(a.page) else s.state.pageId)
  {
    if a.Open? {
      var restore, draft, oldBase :| OpensWith(s, a, full, s', restore, draft, oldBase);
    } else if a.Edit? && Opened(s.state) {
      assert KeyPrefix(s.state.actorId.value, s.state.pageId.value)
             <= DraftKey(s.state.actorId.value, s.state.pageId.value, s.state.base);
    }
  }

  // The pair a run has open is apart from another pair that it never opens.
  ghost predicate Apart(s: Store, key: string) {
    Opened(s.state) ==> !(KeyPrefix(s.state.actorId.value, s.state.pageId.value) <= key)
  }

  lemma OpeningsApart(actor: string, page: string, actor': string, page': string, base: Option<Revision>)
    requires DotFree(actor) && DotFree(page) && DotFree(actor') && DotFree(page')
    requires actor != actor' || page != page'
    ensures !(KeyPrefix(actor, page) <= DraftKey(actor', page', base))
  {
    if KeyPrefix(actor, page) <= DraftKey(actor', page', base) {
      PairsApart(actor, page, actor', page', RevisionText(base));
    }
  }

  /** A whole run leaves every draft alone whose pair it never opens, so long as IDs hold no dots. */
  lemma {:induction false} OthersUntouched(
    stores: seq<Store>, events: seq<Event>, i: nat, actor: string, page: string, base: Option<Revision>)
    requires Run(stores, events) && i <= |events| && DotFree(actor) && DotFree(page)
    requires forall k | 0 <= k < |events| && events[k].action.Open? ::
      var a := events[k].action;
      DotFree(a.actor) && DotFree(a.page) && (a.actor != actor || a.page != page)
    ensures SameEntry(stores[0].items, stores[i].items, DraftKey(actor, page, base))
    ensures Apart(stores[i], DraftKey(actor, page, base))
    decreases i
  {
    if i > 0 {
      var key, a := DraftKey(actor, page, base), events[i - 1].action;
      OthersUntouched(stores, events, i - 1, actor, page, base);
      if a.Open? {
        OpeningsApart(a.actor, a.page, actor, page, base);
      }
      StepKeepsOthers(stores[i - 1], a, events[i - 1].full, stores[i], key);
    }
  }

  // ---- Nothing the user wrote is lost ----

  lemma SavedStep(s: Store, a: Action, s': Store)
    requires Saved(s) && Next(s, a, false, s') && !a.Clear?
    requires s.state.dirty ==> s.state.ast.Some?
    ensures Saved(s') && (s'.state.dirty ==> s'.state.ast.Some?)
  {
    if a.Open? {
      var restore, draft, oldBase :| OpensWith(s, a, false, s', restore, draft, oldBase);
    }
  }

  /** While storage takes every write and the drafts are not cleared, changed content is always in storage
      under the current key. */
  lemma {:induction false} ChangesAreSaved(stores: seq<Store>, events: seq<Event>, i: nat)
    requires Run(stores, events) && i <= |events|
    requires forall k | 0 <= k < i :: !events[k].full && !events[k].action.Clear?
    ensures Saved(stores[i]) && (stores[i].state.dirty ==> stores[i].state.ast.Some?)
    decreases i
  {
    if i > 0 {
      ChangesAreSaved(stores, events, i - 1);
      SavedStep(stores[i - 1], events[i - 1].action, stores[i]);
    }
  }

  lemma KeysTellBases(actor: string, page: string, a: Option<Revision>, b: Option<Revision>)
    requires a != Some(NO_REVISION) && b != Some(NO_REVISION)
    requires DraftKey(actor, page, a) == DraftKey(actor, page, b)
    ensures a == b
  {
    BaseRoundTrip(actor, page, a);
    BaseRoundTrip(actor, page, b);
  }

  // Opening the pair again on the same storage.
  lemma Reopened(
    s: Store, reloaded: Store, base: Option<Revision>, server: Document, full: bool, s': Store)
    requires OneKey(s) && Saved(s) && Opened(s.state) && s.state.dirty && Patch.ValidForest(s.state.ast.value)
    requires reloaded.items == s.items
    requires Next(reloaded, Open(s.state.actorId.value, s.state.pageId.value, base, server), full, s')
    requires s.state.base != Some(NO_REVISION) && base != Some(NO_REVISION)
    ensures s'.state.ast == s.state.ast && s'.state.dirty && s'.state.base == base
    ensures s'.state.conflict == if base == s.state.base then None else Some(Conflict(s.state.base, base, server))
  {
    var actor, page := s.state.actorId.value, s.state.pageId.value;
    var key := DraftKey(actor, page, s.state.base);
    BaseRoundTrip(actor, page, s.state.base);
    assert OldDraft(s.items, actor, page, key);
    var restore, draft, oldBase :|
      OpensWith(reloaded, Open(actor, page, base, server), full, s', restore, draft, oldBase);
    if base != s.state.base && DraftKey(actor, page, base) in s.items {
      KeysTellBases(actor, page, base, s.state.base);
    }
  }

  /** After any run in which storage took every write and the drafts were not cleared, opening the pair in
      a new session brings the changed content back: as it was when the base is the same, and with a
      conflict between the two bases when the server has moved on. */
  lemma ReopeningRestores(stores: seq<Store>, events: seq<Event>, base: Option<Revision>, server: Document,
      reloaded: Store, full: bool, s': Store)
    requires Run(stores, events) && forall k | 0 <= k < |events| :: !events[k].full && !events[k].action.Clear?
    requires var s := stores[|events|];
      && Opened(s.state) && s.state.dirty && Patch.ValidForest(s.state.ast.GetOr([]))
      && s.state.base != Some(NO_REVISION) && base != Some(NO_REVISION)
      && Untouched(reloaded) && reloaded.items == s.items
      && Next(reloaded, Open(s.state.actorId.value, s.state.pageId.value, base, server), full, s')
    ensures var s := stores[|events|];
      && s'.state.ast == s.state.ast && s'.state.dirty && s'.state.base == base
      && s'.state.conflict == if base == s.state.base then None else Some(Conflict(s.state.base, base, server))
  {
    DraftsStayTidy(stores, events, |events|);
    ChangesAreSaved(stores, events, |events|);
    Reopened(stores[|events|], reloaded, base, server, full, s');
  }
}

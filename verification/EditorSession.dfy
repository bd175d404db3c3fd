/** The editor session store: drafts in local storage, conflicts with a newer server version, and which
    actions may change the user's content. */
module EditorSession {
  import opened Wrappers
  import opened BlockTree
  import Patch

  type Revision = string
  type Document = Forest

  const PREFIX := "anbywiki.editor-draft."
  const NO_REVISION := "none"

  // ---- Draft keys ----

  function KeyPrefix(actor: string, page: string): string {
    PREFIX + actor + "." + page + "."
  }

  function RevisionText(base: Option<Revision>): string {
    base.GetOr(NO_REVISION)
  }

  function DraftKey(actor: string, page: string, base: Option<Revision>): string {
    KeyPrefix(actor, page) + RevisionText(base)
  }

  // The base revision a draft of this actor and page was saved under, from its key.
  function DecodedBase(actor: string, page: string, key: string): Option<Revision>
    requires KeyPrefix(actor, page) <= key
  {
    var suffix := key[|KeyPrefix(actor, page)|..];
    if suffix == NO_REVISION then None else Some(suffix)
  }

  predicate DotFree(s: string) {
    '.' !in s
  }

  /** Decoding a draft's key gives back the base it was saved under. */
  lemma BaseRoundTrip(actor: string, page: string, base: Option<Revision>)
    requires base != Some(NO_REVISION)
    ensures KeyPrefix(actor, page) <= DraftKey(actor, page, base)
    ensures DecodedBase(actor, page, DraftKey(actor, page, base)) == base
  {
  }

  lemma {:induction false} FirstDot(a: string, x: string, b: string, y: string)
    requires DotFree(a) && DotFree(b) && a + "." + x <= b + "." + y
    ensures a == b && x <= y
    decreases |a|
  {
    var left, right := a + "." + x, b + "." + y;
    assert left[0] == right[0];
    assert a != [] ==> left[0] == a[0] && a[0] in a;
    assert b != [] ==> right[0] == b[0] && b[0] in b;
    if a == [] {
      assert left == "." + x && right == "." + y;
      assert left[1..] == x && right[1..] == y;
    } else {
      assert left[1..] == a[1..] + "." + x && right[1..] == b[1..] + "." + y;
      FirstDot(a[1..], x, b[1..], y);
      assert a == [a[0]] + a[1..] && b == [b[0]] + b[1..];
    }
  }

  /** Without dots in actor and page IDs, the keys of two actor and page pairs never share a prefix. */
  lemma PairsApart(actor: string, page: string, actor': string, page': string, rest: string)
    requires DotFree(actor) && DotFree(page) && DotFree(actor') && DotFree(page')
    requires KeyPrefix(actor, page) <= KeyPrefix(actor', page') + rest
    ensures actor == actor' && page == page'
  {
    var x, x' := actor + "." + page + ".", actor' + "." + page' + "." + rest;
    assert KeyPrefix(actor, page) == PREFIX + x;
    assert KeyPrefix(actor', page') + rest == PREFIX + x';
    SameStart(PREFIX, x, x');
    assert x == actor + "." + (page + ".") && x' == actor' + "." + (page' + "." + rest);
    FirstDot(actor, page + ".", actor', page' + "." + rest);
    assert page + "." == page + "." + "";
    FirstDot(page, "", page', rest);
  }

  lemma SameStart(p: string, x: string, y: string)
    requires p + x <= p + y
    ensures x <= y
  {
    assert (p + x)[|p|..] == x && (p + y)[|p|..] == y;
  }

  /** With a dot they may: one pair's drafts then look like the other's. */
  lemma DotsCollide()
    ensures KeyPrefix("a", "b") <= DraftKey("a.b", "c", Some("r"))
  {
    assert DraftKey("a.b", "c", Some("r")) == KeyPrefix("a", "b") + "c.r";
  }

  // ---- The store ----

  // What an entry holds: a saved document, or text that is not one.
  datatype Stored = Draft(ast: Document) | Garbage

  datatype Restore = NoDraft | Fresh | Stale

  datatype Conflict = Conflict(base: Option<Revision>, current: Option<Revision>, serverAst: Document)

  type Storage = map<string, Stored>

  // A draft that can be restored.
  predicate Readable(items: Storage, key: string) {
    key in items && items[key].Draft? && Patch.ValidForest(items[key].ast)
  }

  predicate Truthy(s: Option<string>) {
    s.Some? && s.value != ""
  }

  // The pair's drafts all sit under one key.
  ghost predicate Tidy(items: Storage, actor: string, page: string, base: Option<Revision>) {
    forall key <- items :: KeyPrefix(actor, page) <= key ==> key == DraftKey(actor, page, base)
  }

  // Nothing changed but drafts of this pair.
  ghost predicate OthersKept(before: Storage, after: Storage, actor: string, page: string) {
    forall key :: !(KeyPrefix(actor, page) <= key) ==>
      (key in after <==> key in before) && (key in before ==> after[key] == before[key])
  }

  ghost predicate OldDraft(items: Storage, actor: string, page: string, key: string) {
    key in items && KeyPrefix(actor, page) <= key && Readable(items, key)
  }

  // Which draft is restored: the readable one under the current base; when there is no entry under the
  // current base, any readable older one, with the base it was saved under.
  ghost predicate Recovered(items: Storage, actor: string, page: string, base: Option<Revision>,
      restore: Restore, draft: Option<Document>, oldBase: Option<Revision>)
  {
    var current := DraftKey(actor, page, base);
    match restore
    case Fresh => Readable(items, current) && draft == Some(items[current].ast)
    case Stale =>
      && current !in items
      && exists key :: OldDraft(items, actor, page, key) && draft == Some(items[key].ast)
           && oldBase == DecodedBase(actor, page, key)
    case NoDraft =>
      draft.None? && !Readable(items, current) &&
      (current in items || forall key :: !OldDraft(items, actor, page, key))
  }

  // The pair is left with this one draft under the base's key, or with none.
  ghost predicate Moved(before: Storage, after: Storage, actor: string, page: string,
      draft: Option<Document>, base: Option<Revision>)
  {
    && OthersKept(before, after, actor, page) && Tidy(after, actor, page, base)
    && (DraftKey(actor, page, base) in after <==> draft.Some?)
    && (draft.Some? ==> after[DraftKey(actor, page, base)] == Draft(draft.value))
  }

  datatype Fields = Fields(
    actorId: Option<string>, pageId: Option<string>, base: Option<Revision>,
    serverAst: Option<Document>, ast: Option<Document>, dirty: bool,
    summary: string, minor: bool, publishing: bool,
    conflict: Option<Conflict>, rebased: bool)

  // The session's actor and page, once both are set.
  predicate Opened(s: Fields) {
    Truthy(s.actorId) && Truthy(s.pageId)
  }

  /** No draft of any other actor and page pair is touched, so long as their IDs hold no dots. */
  lemma OtherPairsUntouched(before: Storage, after: Storage, actor: string, page: string,
      actor': string, page': string, base: Option<Revision>)
    requires OthersKept(before, after, actor, page) && (actor != actor' || page != page')
    requires DotFree(actor) && DotFree(page) && DotFree(actor') && DotFree(page')
    ensures var key := DraftKey(actor', page', base);
      (key in after <==> key in before) && (key in before ==> after[key] == before[key])
  {
    var key := DraftKey(actor', page', base);
    if KeyPrefix(actor, page) <= key {
      PairsApart(actor, page, actor', page', RevisionText(base));
    }
  }

  // ---- What the page shows ----

  /** Drafts are stored under actor, page and base revision. */
  lemma KeySays(actor: string, page: string, base: Option<Revision>)
    ensures DraftKey(actor, page, base) ==
      "anbywiki.editor-draft." + actor + "." + page + "." + (if base.Some? then base.value else "none")
  {
  }

  // A saved document that passes the schema; anything else under a key is as good as nothing.
  predicate Usable(items: Storage, key: string) {
    && key in items
    && match items[key]
       case Draft(ast) => Patch.ValidForest(ast)
       case Garbage => false
  }

  ghost predicate HasOlder(items: Storage, actor: string, page: string) {
    exists key <- items :: KeyPrefix(actor, page) <= key && Usable(items, key)
  }

  // What a session opens with: one content, whether it is a draft, and the base that draft is behind on.
  predicate Shows(state: Fields, server: Document, content: Document, isDraft: bool, behind: Option<Conflict>) {
    && state.ast == Some(content) && state.serverAst == Some(server) && state.dirty == isDraft
    && state.conflict == behind
    && state.summary == "" && !state.minor && !state.publishing && !state.rebased
  }

  /** A session opens with the usable draft under the current base. When that entry is there but unusable, or
      no draft of the pair is usable, it opens with the server's content. Otherwise it opens with one of the
      older drafts, in conflict with the server. */
  lemma SessionOpens(items: Storage, actor: string, page: string, base: Option<Revision>, server: Document,
      restore: Restore, draft: Option<Document>, oldBase: Option<Revision>)
    requires Recovered(items, actor, page, base, restore, draft, oldBase)
    ensures
      var state, current := Opening(actor, page, base, server, restore, draft, oldBase), DraftKey(actor, page, base);
      && state.actorId == Some(actor) && state.pageId == Some(page) && state.base == base
      && (restore.Fresh? <==> Usable(items, current))
      && (restore.Stale? <==> current !in items && HasOlder(items, actor, page))
      && (restore.Fresh? ==> Shows(state, server, items[current].ast, true, None))
      && (restore.NoDraft? ==> Shows(state, server, server, false, None))
      && (restore.Stale? ==> exists key <- items ::
            && KeyPrefix(actor, page) <= key && Usable(items, key)
            && Shows(state, server, items[key].ast, true, Some(Conflict(DecodedBase(actor, page, key), base, server))))
  {
    if restore.Stale? {
      var key :| OldDraft(items, actor, page, key) && draft == Some(items[key].ast)
        && oldBase == DecodedBase(actor, page, key);
      assert key in items && Usable(items, key);
    } else if restore.NoDraft? && DraftKey(actor, page, base) !in items {
      forall key <- items ensures !(KeyPrefix(actor, page) <= key && Usable(items, key)) {
        assert !OldDraft(items, actor, page, key);
      }
    }
  }

  /** Drafts are saved only for an actor and a page that are set and not empty. */
  lemma OpenedSays(s: Fields)
    ensures Opened(s) <==> s.actorId.Some? && s.actorId.value != "" && s.pageId.Some? && s.pageId.value != ""
  {
  }

  class Session {
    var items: Storage     // window.localStorage
    var full: bool         // writing to it fails
    var state: Fields

    constructor (items: Storage)
      ensures this.items == items && !Opened(state) && Valid()
    {
      this.items, full := items, false;
      state := Fields(None, None, None, None, None, false, "", false, false, None, false);
    }

    // Every draft of the session's actor and page sits under the key of the current base.
    ghost predicate Valid()
      reads this
    {
      Opened(state) ==> Tidy(items, state.actorId.value, state.pageId.value, state.base)
    }

    // ---- Local storage ----

    method ListDraftKeys(actor: string, page: string) returns (keys: seq<string>)
      ensures forall key :: key in keys <==> key in items && KeyPrefix(actor, page) <= key
    {
      keys := [];
      var left := items.Keys;
      while left != {}
        invariant left <= items.Keys
        invariant forall key :: key in keys <==> key in items.Keys - left && KeyPrefix(actor, page) <= key
        decreases left
      {
        var key :| key in left;
        if KeyPrefix(actor, page) <= key {
          keys := keys + [key];
        }
        left := left - {key};
      }
    }

    method RemoveOtherDrafts(actor: string, page: string, keep: Option<string>)
      modifies `items
      ensures OthersKept(old(items), items, actor, page)
      ensures forall key | KeyPrefix(actor, page) <= key ::
        (key in items <==> key in old(items) && keep == Some(key)) && (key in items ==> items[key] == old(items)[key])
    {
      var keys := ListDraftKeys(actor, page);
      for i := 0 to |keys|
        invariant items.Keys <= old(items).Keys
        invariant forall key <- old(items) :: key in items <==> !(key in keys[..i] && keep != Some(key))
        invariant forall key <- items :: items[key] == old(items)[key]
      {
        if keep != Some(keys[i]) {
          items := items - {keys[i]};
        }
      }
    }

    method SaveDraft(key: string, ast: Document)
      modifies `items
      ensures items == if full then old(items) else old(items)[key := Draft(ast)]
    {
      if !full {
        items := items[key := Draft(ast)];
      }
    }

    // ---- Actions ----

    // Looks for a draft to restore, the one under the current base first.
    method Recover(actor: string, page: string, base: Option<Revision>)
      returns (restore: Restore, draft: Option<Document>, staleBase: Option<Revision>)
      ensures Recovered(items, actor, page, base, restore, draft, staleBase)
    {
      restore, draft, staleBase := NoDraft, None, None;
      var currentKey := DraftKey(actor, page, base);
      var keys := ListDraftKeys(actor, page);
      if currentKey in keys {
        if Readable(items, currentKey) {
          draft, restore := Some(items[currentKey].ast), Fresh;
        }
      } else {
        for i := 0 to |keys|
          invariant forall j | 0 <= j < i :: !Readable(items, keys[j])
        {
          if Readable(items, keys[i]) {
            assert OldDraft(items, actor, page, keys[i]);
            return Stale, Some(items[keys[i]].ast), DecodedBase(actor, page, keys[i]);
          }
        }
      }
    }

    // Leaves the pair with the restored draft under the current base's key, or with none.
    method Consolidate(actor: string, page: string, base: Option<Revision>, draft: Option<Document>)
      requires draft.Some? && DraftKey(actor, page, base) in items ==>
        items[DraftKey(actor, page, base)] == Draft(draft.value)
      modifies `items
      ensures OthersKept(old(items), items, actor, page) && Tidy(items, actor, page, base)
      ensures DraftKey(actor, page, base) in items ==>
        draft.Some? && items[DraftKey(actor, page, base)] == Draft(draft.value)
      ensures !full && draft.Some? ==> DraftKey(actor, page, base) in items
    {
      var currentKey := DraftKey(actor, page, base);
      RemoveOtherDrafts(actor, page, if draft.None? then None else Some(currentKey));
      if draft.Some? {
        SaveDraft(currentKey, draft.value);
      }
    }

    /** Opens a session: restores the draft under the current base, or else any older one as a conflict,
        and keeps no other draft of the pair. */
    method StartSession(actor: string, page: string, base: Option<Revision>, ast: Document) returns (restore: Restore)
      modifies `items, `state
      ensures Valid() && Tidy(items, actor, page, base) && OthersKept(old(items), items, actor, page)
      ensures exists draft, oldBase ::
        && Recovered(old(items), actor, page, base, restore, draft, oldBase)
        && state == Opening(actor, page, base, ast, restore, draft, oldBase)
        && (DraftKey(actor, page, base) in items ==>
              draft.Some? && items[DraftKey(actor, page, base)] == Draft(draft.value))
        && (!full && draft.Some? ==> DraftKey(actor, page, base) in items)
    {
      var draft, oldBase;
      restore, draft, oldBase := Recover(actor, page, base);
      Consolidate(actor, page, base, draft);
      state := Opening(actor, page, base, ast, restore, draft, oldBase);
    }

    method SetAst(ast: Document)
      requires Valid()
      modifies `items, `state
      ensures Valid() && state == old(state).(ast := Some(ast), dirty := true)
      ensures items ==
        if Opened(state) && !full
        then old(items)[DraftKey(state.actorId.value, state.pageId.value, state.base) := Draft(ast)]
        else old(items)
      ensures Opened(state) ==> OthersKept(old(items), items, state.actorId.value, state.pageId.value)
    {
      state := state.(ast := Some(ast), dirty := true);
      if Opened(state) {
        SaveDraft(DraftKey(state.actorId.value, state.pageId.value, state.base), ast);
      }
    }

    method SetSummary(summary: string)
      requires Valid()
      modifies `state
      ensures Valid() && state == old(state).(summary := summary)
    {
      state := state.(summary := summary);
    }

    method SetIsMinor(minor: bool)
      requires Valid()
      modifies `state
      ensures Valid() && state == old(state).(minor := minor)
    {
      state := state.(minor := minor);
    }

    method SetPublishing(publishing: bool)
      requires Valid()
      modifies `state
      ensures Valid() && state == old(state).(publishing := publishing)
    {
      state := state.(publishing := publishing);
    }

    /** The first conflict stays until it is resolved; nothing else changes. */
    method RecordConflict(current: Option<Revision>, serverAst: Document)
      requires Valid()
      modifies `state
      ensures Valid()
      ensures old(state).conflict.Some? ==> state == old(state)
      ensures old(state).conflict.None? ==>
        state == old(state).(conflict := Some(Conflict(old(state).base, current, serverAst)))
    {
      if state.conflict.None? {
        state := state.(conflict := Some(Conflict(state.base, current, serverAst)));
      }
    }

    /** The base moves to the server's version; the user's content and its dirty mark stay, and the draft
        moves to the key of the new base. */
    method RebaseToLatest()
      requires Valid()
      modifies `items, `state
      ensures Valid()
      ensures old(state).conflict.None? ==> state == old(state) && items == old(items)
      ensures old(state).conflict.Some? ==>
        var c := old(state).conflict.value;
        && state == old(state).(base := c.current, serverAst := Some(c.serverAst), conflict := None, rebased := true)
        && PairMoved(old(items), items, state, if full then None else state.ast)
    {
      if state.conflict.None? {
        return;
      }
      var c := state.conflict.value;
      state := state.(base := c.current, serverAst := Some(c.serverAst), conflict := None, rebased := true);
      RemovePairDrafts();
      if Opened(state) && state.ast.Some? {
        SaveDraft(DraftKey(state.actorId.value, state.pageId.value, c.current), state.ast.value);
      }
    }

    /** The user's content and drafts give way to the server's version. */
    method ResetToServer()
      requires Valid()
      modifies `items, `state
      ensures Valid()
      ensures old(state).conflict.None? ==> state == old(state) && items == old(items)
      ensures old(state).conflict.Some? ==>
        var c := old(state).conflict.value;
        && state == old(state).(base := c.current, serverAst := Some(c.serverAst), ast := Some(c.serverAst),
                                dirty := false, conflict := None, rebased := false)
        && PairMoved(old(items), items, state, None)
    {
      if state.conflict.None? {
        return;
      }
      var c := state.conflict.value;
      RemovePairDrafts();
      state := state.(base := c.current, serverAst := Some(c.serverAst), ast := Some(c.serverAst),
                      dirty := false, conflict := None, rebased := false);
    }

    method ClearRebasedFlag()
      requires Valid()
      modifies `state
      ensures Valid() && state == old(state).(rebased := false)
    {
      state := state.(rebased := false);
    }

    method DiscardDraft()
      requires Valid()
      modifies `items, `state
      ensures Valid() && state == old(state).(ast := old(state).serverAst, dirty := false, conflict := None)
      ensures PairMoved(old(items), items, state, None)
    {
      RemovePairDrafts();
      state := state.(ast := state.serverAst, dirty := false, conflict := None);
    }

    method ClearDraft()
      requires Valid()
      modifies `items
      ensures Valid() && PairMoved(old(items), items, state, None)
    {
      RemovePairDrafts();
    }

    method RemovePairDrafts()
      modifies `items
      ensures PairMoved(old(items), items, state, None)
    {
      if Opened(state) {
        RemoveOtherDrafts(state.actorId.value, state.pageId.value, None);
      }
    }
  }

  // The store right after a session is opened.
  function Opening(actor: string, page: string, base: Option<Revision>, ast: Document,
      restore: Restore, draft: Option<Document>, oldBase: Option<Revision>): Fields
  {
    Fields(Some(actor), Some(page), base, Some(ast), if draft.Some? then draft else Some(ast), draft.Some?,
      "", false, false, if restore.Stale? then Some(Conflict(oldBase, base, ast)) else None, false)
  }

  ghost predicate PairMoved(before: Storage, after: Storage, state: Fields, draft: Option<Document>) {
    if Opened(state) then Moved(before, after, state.actorId.value, state.pageId.value, draft, state.base)
    else after == before
  }
}

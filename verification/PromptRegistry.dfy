/** The prompt table and one worker's EnsureActive call on it, undisturbed. */
module PromptRegistry {
  import opened Wrappers
  import opened GoText

  // (prompt_key, version) is unique, so it stands for the row's id.
  datatype Ref = Ref(key: string, version: int)

  datatype PromptError = PromptNotFound | InvalidPrompt | DuplicateVersion

  // The rows after this one is made the active one of its key.
  function Activated(rows: map<Ref, bool>, ref: Ref): map<Ref, bool> {
    map r | r in rows :: if r.key == ref.key then r == ref else rows[r]
  }

  predicate IsActive(rows: map<Ref, bool>, key: string, version: int) {
    Ref(key, version) in rows && rows[Ref(key, version)]
  }

  ghost predicate OneActivePerKey(rows: map<Ref, bool>) {
    forall a, b | a in rows && b in rows && a.key == b.key && rows[a] && rows[b] :: a == b
  }

  // The table after registering a version, if that succeeds.
  function Registered(rows: map<Ref, bool>, key: string, version: int, wellFormed: bool): map<Ref, bool> {
    if Ref(key, version) !in rows && Registrable(key, version, wellFormed) && Ref(TrimSpace(key), version) !in rows
    then rows[Ref(TrimSpace(key), version) := false] else rows
  }

  // The table after an undisturbed EnsureActive.
  function Ensured(rows: map<Ref, bool>, key: string, version: int, wellFormed: bool): map<Ref, bool> {
    if AlreadyActive(rows, key, version) then rows
    else if Available(rows, key, version, wellFormed) then
      Activated(Registered(rows, key, version, wellFormed), Ref(key, version))
    else Registered(rows, key, version, wellFormed)
  }

  predicate AlreadyActive(rows: map<Ref, bool>, key: string, version: int) {
    exists r <- rows :: r.key == key && rows[r] && r.version >= version
  }

  predicate Available(rows: map<Ref, bool>, key: string, version: int, wellFormed: bool) {
    Ref(key, version) in rows || (Registrable(key, version, wellFormed) && TrimSpace(key) == key)
  }

  predicate Registrable(key: string, version: int, wellFormed: bool) {
    TrimSpace(key) != "" && version > 0 && wellFormed
  }

  lemma NoneHigh(rows: map<Ref, bool>, key: string, version: int, active: Result<int, PromptError>)
    requires OneActivePerKey(rows)
    requires active.Ok? ==> IsActive(rows, key, active.value) && active.value < version
    requires active.Err? ==> forall v :: !IsActive(rows, key, v)
    ensures !AlreadyActive(rows, key, version)
  {
    forall x | x in rows && x.key == key && rows[x] ensures x.version < version {
      assert IsActive(rows, key, x.version);
    }
  }

  // After activating it, this row alone is active among those of its key.
  predicate OnlyActive(before: map<Ref, bool>, after: map<Ref, bool>, ref: Ref) {
    && after.Keys == before.Keys
    && forall r <- after :: after[r] <==> if r.key == ref.key then r.version == ref.version else before[r]
  }

  lemma ActivatedSays(rows: map<Ref, bool>, ref: Ref)
    ensures OnlyActive(rows, Activated(rows, ref), ref)
  {
  }

  // A key and version fit to be registered.
  predicate Acceptable(key: string, version: int, wellFormed: bool) {
    TrimSpace(key) != "" && version >= 1 && wellFormed
  }

  /** What an undisturbed call leaves behind. When a version that high is active, nothing changes. When the
      requested one is there, it becomes the active one. When it is not, and can be registered, it is there
      afterwards under the trimmed key, and active only if that is the key itself. */
  lemma EnsuredSays(rows: map<Ref, bool>, key: string, version: int, wellFormed: bool)
    ensures var after, ref, trimmed := Ensured(rows, key, version, wellFormed), Ref(key, version),
                                       Ref(TrimSpace(key), version);
      if exists v :: v >= version && IsActive(rows, key, v) then after == rows
      else if ref in rows then OnlyActive(rows, after, ref)
      else if !Acceptable(key, version, wellFormed) then after == rows
      else if trimmed == ref then OnlyActive(rows[ref := false], after, ref)
      else after == if trimmed in rows then rows else rows[trimmed := false]
    ensures var already := exists v :: v >= version && IsActive(rows, key, v);
      (AlreadyActive(rows, key, version) || Available(rows, key, version, wellFormed)) <==>
        already || Ref(key, version) in rows || (Acceptable(key, version, wellFormed) && TrimSpace(key) == key)
  {
    if AlreadyActive(rows, key, version) {
      var r :| r in rows && r.key == key && rows[r] && r.version >= version;
      assert IsActive(rows, key, r.version);
    }
  }

  /** Where all stored keys are trimmed, the call fails for every key with surrounding blanks, though it
      registers the trimmed key. */
  lemma PaddedKeyFails(rows: map<Ref, bool>, key: string, version: int, wellFormed: bool)
    requires forall r <- rows :: TrimSpace(r.key) == r.key
    requires TrimSpace(key) != key
    ensures !AlreadyActive(rows, key, version) && !Available(rows, key, version, wellFormed)
    ensures Ensured(rows, key, version, wellFormed) ==
      if Registrable(key, version, wellFormed) && Ref(TrimSpace(key), version) !in rows
      then rows[Ref(TrimSpace(key), version) := false] else rows
  {
  }

  /** " k" on an empty table is such a call. */
  lemma PaddedKeyExample()
    ensures !AlreadyActive(map[], " k", 1) && !Available(map[], " k", 1, true)
    ensures Ensured(map[], " k", 1, true) == map[Ref("k", 1) := false]
  {
    assert " k"[1..] == "k" && TrimSpace("k") == "k";
    PaddedKeyFails(map[], " k", 1, true);
  }

  class Repository {
    // Each row with its active flag.
    var rows: map<Ref, bool>

    ghost predicate Valid()
      reads this
    {
      OneActivePerKey(rows)
    }

    constructor ()
      ensures rows == map[] && Valid()
    {
      rows := map[];
    }

    method ActivePrompt(key: string) returns (r: Result<int, PromptError>)
      ensures r.Ok? ==> IsActive(rows, key, r.value)
      ensures r.Err? ==> r.error == PromptNotFound && forall v :: !IsActive(rows, key, v)
    {
      var found := set ref | ref in rows && ref.key == key && rows[ref];
      if found == {} {
        assert forall v :: IsActive(rows, key, v) ==> Ref(key, v) in found;
        return Err(PromptNotFound);
      }
      var ref :| ref in found;
      return Ok(ref.version);
    }

    method InsertPrompt(ref: Ref) returns (ok: bool)
      requires Valid()
      modifies this
      ensures Valid() && ok == (ref !in old(rows))
      ensures rows == if ok then old(rows)[ref := false] else old(rows)
    {
      ok := ref !in rows;
      if ok {
        rows := rows[ref := false];
      }
    }

    /** Two updates in one transaction: clear the key's active flag, then set this row's, or roll back. */
    method ActivatePrompt(ref: Ref, key: string) returns (ok: bool)
      requires Valid()
      modifies this
      ensures Valid() && ok == (ref in old(rows) && ref.key == key)
      ensures rows == if ok then Activated(old(rows), ref) else old(rows)
    {
      var before := rows;
      rows := map r | r in rows :: if r.key == key then false else rows[r];
      if ref in rows && ref.key == key {
        rows := rows[ref := true];
        assert rows == Activated(before, ref);
        return true;
      }
      rows := before;
      return false;
    }

    method ActivatePromptIfNone(ref: Ref, key: string) returns (changed: bool)
      requires Valid()
      modifies this
      ensures Valid()
      ensures changed == (ref in old(rows) && ref.key == key && forall v :: !IsActive(old(rows), key, v))
      ensures rows == if changed then Activated(old(rows), ref) else old(rows)
    {
      var active := ActivePrompt(key);
      changed := active.Err? && ref in rows && ref.key == key;
      if changed {
        ghost var before := rows;
        rows := rows[ref := true];
        assert forall r | r in before && r.key == key :: !IsActive(before, key, r.version) && r == Ref(key, r.version);
        assert rows == Activated(before, ref);
      }
    }

    method Register(key: string, version: int, wellFormed: bool, activate: bool) returns (r: Result<Ref, PromptError>)
      requires Valid()
      modifies this
      ensures Valid()
      ensures r.Ok? <==> Registrable(key, version, wellFormed) && Ref(TrimSpace(key), version) !in old(rows)
      ensures r.Ok? ==> r.value == Ref(TrimSpace(key), version)
      ensures r.Ok? && !activate ==> rows == old(rows)[r.value := false]
      ensures r.Ok? && activate ==> rows == Activated(old(rows)[r.value := false], r.value)
      ensures r.Err? ==> rows == old(rows)
    {
      var trimmed := TrimSpace(key);
      if trimmed == "" || version <= 0 || !wellFormed {
        return Err(InvalidPrompt);
      }
      var ref := Ref(trimmed, version);
      var inserted := InsertPrompt(ref);
      if !inserted {
        return Err(DuplicateVersion);
      }
      if activate {
        var ok := ActivatePrompt(ref, trimmed);
        assert ok;
      }
      return Ok(ref);
    }

    // Finds or registers the requested version.
    method Obtain(key: string, version: int, wellFormed: bool) returns (r: Result<Ref, PromptError>)
      requires Valid()
      modifies this
      ensures Valid() && rows == Registered(old(rows), key, version, wellFormed)
      ensures r.Err? <==> Ref(key, version) !in old(rows) && rows == old(rows)
      ensures r.Ok? ==> r.value in rows
      ensures r.Ok? ==>
        r.value == if Ref(key, version) in old(rows) then Ref(key, version) else Ref(TrimSpace(key), version)
    {
      var ref := Ref(key, version);
      if ref in rows {
        return Ok(ref);
      }
      var registered := Register(key, version, wellFormed, false);
      if registered.Err? {
        // A concurrent worker may have inserted the same version; here there is none.
        if ref in rows {
          return Ok(ref);
        }
        return Err(PromptNotFound);
      }
      return registered;
    }

    // The transaction of EnsureActive.
    method Promote(key: string, version: int, requested: Ref) returns (ok: bool)
      requires Valid() && requested in rows && requested.version == version
      modifies this
      ensures Valid()
      ensures rows ==
        if !AlreadyActive(old(rows), key, version) && requested.key == key then Activated(old(rows), requested)
        else old(rows)
      ensures requested.key == key ==> ok
      ensures requested.key != key && ok && !AlreadyActive(old(rows), key, version) ==>
        forall v :: !IsActive(rows, key, v)
    {
      var active := ActivePrompt(key);
      if active.Ok? && active.value >= version {
        assert Ref(key, active.value) in rows;
        return true;
      }
      NoneHigh(rows, key, version, active);
      if active.Ok? {
        ok := ActivatePrompt(requested, key);
      } else {
        var changed := ActivatePromptIfNone(requested, key);
        ok := true;
      }
    }

    /** Undisturbed, a call succeeds exactly when a version that high is active already or the requested
        one is there or can be registered under this very key. It then returns the key's active version:
        the old one if that was high enough, otherwise the requested one. */
    method EnsureActive(key: string, version: int, wellFormed: bool) returns (r: Result<int, PromptError>)
      requires Valid()
      modifies this
      ensures Valid() && rows == Ensured(old(rows), key, version, wellFormed)
      ensures r.Ok? <==> AlreadyActive(old(rows), key, version) || Available(old(rows), key, version, wellFormed)
      ensures r.Ok? ==> r.value >= version && IsActive(rows, key, r.value)
      ensures r.Ok? && !AlreadyActive(old(rows), key, version) ==> r.value == version
    {
      var active := ActivePrompt(key);
      if active.Ok? && active.value >= version {
        assert Ref(key, active.value) in rows;
        return Ok(active.value);
      }
      ghost var start := rows;
      NoneHigh(start, key, version, active);
      var requested := Obtain(key, version, wellFormed);
      if requested.Err? {
        return Err(PromptNotFound);
      }
      ghost var before := rows;
      assert !AlreadyActive(before, key, version) by {
        assert forall x <- before :: before[x] ==> x in start && start[x];
      }
      var ok := Promote(key, version, requested.value);
      if !ok {
        return Err(PromptNotFound);
      }
      r := ActivePrompt(key);
      if requested.value.key == key {
        assert IsActive(rows, key, version);
        assert r.Ok? && Ref(key, r.value) == Ref(key, version);
      }
    }
  }
}

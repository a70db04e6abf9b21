/** Properties of the blackboard model that relate several calls: where a
    write lands, what it leaves alone, what a later read sees, and how an
    expired parent or a remap affects both. */
module BlackboardProps {
  import opened Results
  import opened SafeAny
  import opened Blackboard

  /** The path of an access depends only on the remap tables and parent
      liveness, not on what the boards store. */
  lemma {:induction false} PathDependsOnShape(c: Chain, d: Chain, i: nat, key: string)
    requires i < |c| && SameShape(c, d)
    ensures Path(c, i, key) == Path(d, i, key)
    decreases |c| - i
  {
    if Forwards(c, i, key) {
      PathDependsOnShape(c, d, i + 1, c[i].remap[key]);
    }
  }

  /** A read depends only on the board it starts at and its ancestors. */
  lemma {:induction false} GetAnyDependsOnAncestors(c: Chain, d: Chain, i: nat, key: string)
    requires i < |c| == |d|
    requires forall j :: i <= j < |c| ==> c[j] == d[j]
    ensures GetAny(c, i, key) == GetAny(d, i, key)
    decreases |c| - i
  {
    if Forwards(c, i, key) {
      GetAnyDependsOnAncestors(c, d, i + 1, c[i].remap[key]);
    }
  }

  /** With no remapping to a live parent and no local entry, `getAny` is null
      and `get(key, value)` answers false, leaving `value` untouched. */
  lemma AbsentKeyReadsNothing(c: Chain, i: nat, key: string, wanted: TypeTag, value: Value)
    requires i < |c| && !Forwards(c, i, key) && key !in c[i].storage
    ensures GetAny(c, i, key) == None
    ensures GetInto(c, i, key, wanted, value) == Ok(Fetched(false, value))
    ensures Get(c, i, key, wanted) == Err(MissingKey(key))
  {
  }

  /** A forwarded read is the parent's read of the external name, whatever
      the local board stores under `key`. */
  lemma ForwardedReadIgnoresLocalStorage(c: Chain, i: nat, key: string, local: map<string, Entry>)
    requires i < |c| && Forwards(c, i, key)
    ensures GetAny(c[i := c[i].(storage := local)], i, key) == GetAny(c, i + 1, c[i].remap[key])
  {
    var d := c[i := c[i].(storage := local)];
    GetAnyDependsOnAncestors(d, c, i + 1, c[i].remap[key]);
  }

  /** A board whose parent has expired reads and writes exactly like a root
      board holding the same storage: its remap table is inert. */
  lemma ExpiredParentActsAsRoot(c: Chain, i: nat, key: string, declared: TypeTag, v: Value)
    requires i < |c| && !c[i].parentAlive
    ensures GetAny(c, i, key) == GetAny([Board(c[i].storage, map[], false)], 0, key)
    ensures var root := Set([Board(c[i].storage, map[], false)], 0, key, declared, v);
            var r := Set(c, i, key, declared, v);
            r.Stored? == root.Stored? &&
            r.chain == c[i := c[i].(storage := root.chain[0].storage)] &&
            (r.Rejected? ==> r.error == root.error)
  {
  }

  /** A write changes no entry off its path: every (board, key) place the
      write does not visit keeps its lookup. */
  lemma {:induction false} SetFrame(c: Chain, i: nat, key: string, declared: TypeTag, v: Value)
    requires i < |c|
    ensures var r := Set(c, i, key, declared, v);
            forall j, k :: 0 <= j < |c| && Hop(j, k) !in Path(c, i, key) ==>
              Lookup(r.chain[j], k) == Lookup(c[j], k)
    decreases |c| - i, 1
  {
    if Forwards(c, i, key) {
      SetFrameForwarded(c, i, key, declared, v);
    } else {
      assert Path(c, i, key) == [Hop(i, key)];
    }
  }

  /** The forwarding case of `SetFrame`: the local placeholder sits on the
      path, and the parent's write keeps everything off the rest of it. */
  lemma {:induction false} SetFrameForwarded(c: Chain, i: nat, key: string, declared: TypeTag, v: Value)
    requires i < |c| && Forwards(c, i, key)
    ensures var r := Set(c, i, key, declared, v);
            forall j, k :: 0 <= j < |c| && Hop(j, k) !in Path(c, i, key) ==>
              Lookup(r.chain[j], k) == Lookup(c[j], k)
    decreases |c| - i, 0
  {
    var b := c[i];
    var ext := b.remap[key];
    var c1 := c[i := b.(storage := b.storage[key := Stamp(b, key, declared)])];
    var r := Set(c1, i + 1, ext, declared, v);
    SetFrame(c1, i + 1, ext, declared, v);
    PathDependsOnShape(c1, c, i + 1, ext);
    var p1 := Path(c, i + 1, ext);
    assert Path(c, i, key) == [Hop(i, key)] + p1;
    assert r.chain[i] == c1[i];
    forall j, k | 0 <= j < |c| && Hop(j, k) !in Path(c, i, key)
      ensures Lookup(r.chain[j], k) == Lookup(c[j], k)
    {
      assert Hop(j, k) != Hop(i, key) && Hop(j, k) !in p1;
    }
  }

  /** Every place a write passes through on its way to the parent keeps its
      existing entry, or gains an empty placeholder locked to the declared type. */
  lemma {:induction false} SetStampsPath(c: Chain, i: nat, key: string, declared: TypeTag, v: Value)
    requires i < |c|
    ensures var r := Set(c, i, key, declared, v);
            var p := Path(c, i, key);
            forall n :: 0 <= n < |p| - 1 ==>
              Lookup(r.chain[p[n].board], p[n].key) == Some(Stamp(c[p[n].board], p[n].key, declared))
    decreases |c| - i
  {
    var r := Set(c, i, key, declared, v);
    var p := Path(c, i, key);
    if Forwards(c, i, key) {
      var b := c[i];
      var ext := b.remap[key];
      var c1 := c[i := b.(storage := b.storage[key := Stamp(b, key, declared)])];
      SetStampsPath(c1, i + 1, ext, declared, v);
      PathDependsOnShape(c1, c, i + 1, ext);
      var p1 := Path(c, i + 1, ext);
      assert p == [Hop(i, key)] + p1;
      forall n | 0 <= n < |p| - 1
        ensures Lookup(r.chain[p[n].board], p[n].key) == Some(Stamp(c[p[n].board], p[n].key, declared))
      {
        if n > 0 {
          assert p[n] == p1[n - 1];
        }
      }
    }
  }

  /** What `set` does at the place it lands: it is rejected exactly when an
      entry exists there whose lock blocks the value; a rejected write leaves
      that entry as it was, and a stored one puts the value there under the
      old lock, or under no lock when the entry is new. */
  ghost predicate LandsAtHome(c: Chain, i: nat, key: string, declared: TypeTag, v: Value)
    requires i < |c|
  {
    var r := Set(c, i, key, declared, v);
    var h := Home(c, i, key);
    var e := Lookup(c[h.board], h.key);
    (r.Rejected? <==> e.Some? && Blocks(e.value.lockedType, declared, v)) &&
    (r.Rejected? ==>
      Lookup(r.chain[h.board], h.key) == e && r.error == TypeLocked(e.value.lockedType.value, declared)) &&
    (r.Stored? ==>
      Lookup(r.chain[h.board], h.key) == Some(Entry(Holding(v), if e.Some? then e.value.lockedType else None)))
  }

  /** A write, however far it is forwarded, behaves at the place it lands
      as `LandsAtHome` describes. */
  lemma {:induction false} SetAtHome(c: Chain, i: nat, key: string, declared: TypeTag, v: Value)
    requires i < |c|
    ensures LandsAtHome(c, i, key, declared, v)
    decreases |c| - i, 1
  {
    if Forwards(c, i, key) {
      SetAtHomeForwarded(c, i, key, declared, v);
    } else {
      assert Home(c, i, key) == Hop(i, key);
    }
  }

  /** The forwarding case of `SetAtHome`: the write lands where the
      parent's write of the external name lands, on a board the local
      placeholder does not touch. */
  lemma {:induction false} SetAtHomeForwarded(c: Chain, i: nat, key: string, declared: TypeTag, v: Value)
    requires i < |c| && Forwards(c, i, key)
    ensures LandsAtHome(c, i, key, declared, v)
    decreases |c| - i, 0
  {
    var b := c[i];
    var ext := b.remap[key];
    var c1 := c[i := b.(storage := b.storage[key := Stamp(b, key, declared)])];
    SetAtHome(c1, i + 1, ext, declared, v);
    PathDependsOnShape(c1, c, i + 1, ext);
    assert Path(c, i, key) == [Hop(i, key)] + Path(c, i + 1, ext);
    var h := Home(c, i, key);
    assert h == Home(c1, i + 1, ext);
    assert c1[h.board] == c[h.board];
    assert Set(c, i, key, declared, v) == Set(c1, i + 1, ext, declared, v);
  }

  /** Round trip: after a write that is not rejected, reading the same key
      on the same board gives back the written value, through `getAny` and
      through both forms of `get`. */
  lemma SetThenGet(c: Chain, i: nat, key: string, declared: TypeTag, v: Value, out: Value)
    requires i < |c| && Set(c, i, key, declared, v).Stored?
    ensures var c' := Set(c, i, key, declared, v).chain;
            GetAny(c', i, key) == Some(Holding(v)) && Get(c', i, key, v.tag) == Ok(v) &&
            GetInto(c', i, key, v.tag, out) == Ok(Fetched(true, v))
  {
    var c' := Set(c, i, key, declared, v).chain;
    SetAtHome(c, i, key, declared, v);
    PathDependsOnShape(c, c', i, key);
  }

  /** A string value is never refused by a type lock, wherever the write lands. */
  lemma StringWriteNeverRejected(c: Chain, i: nat, key: string, declared: TypeTag, v: Value)
    requires i < |c| && v.tag == StringType
    ensures Set(c, i, key, declared, v).Stored?
  {
    SetAtHome(c, i, key, declared, v);
  }

  /** A write whose declared type is the lock at the place it lands is never refused. */
  lemma LockedTypeWriteAccepted(c: Chain, i: nat, key: string, declared: TypeTag, v: Value)
    requires i < |c|
    requires var h := Home(c, i, key);
             h.key in c[h.board].storage ==> c[h.board].storage[h.key].lockedType == Some(declared)
    ensures Set(c, i, key, declared, v).Stored?
  {
    SetAtHome(c, i, key, declared, v);
  }

  /** Repeating a write changes nothing more: the second call returns the
      same hierarchy and the same verdict as the first. */
  lemma {:induction false} SetIdempotent(c: Chain, i: nat, key: string, declared: TypeTag, v: Value)
    requires i < |c|
    ensures var r := Set(c, i, key, declared, v);
            Set(r.chain, i, key, declared, v) == r
    decreases |c| - i
  {
    var r := Set(c, i, key, declared, v);
    var b := c[i];
    if Forwards(c, i, key) {
      var ext := b.remap[key];
      var c1 := c[i := b.(storage := b.storage[key := Stamp(b, key, declared)])];
      SetIdempotent(c1, i + 1, ext, declared, v);
      var b' := r.chain[i];
      assert b' == c1[i];
      assert b'.storage[key := Stamp(b', key, declared)] == b'.storage;
      assert r.chain[i := b'.(storage := b'.storage[key := Stamp(b', key, declared)])] == r.chain;
    } else if key in b.storage {
      var locked := b.storage[key].lockedType;
      if !Blocks(locked, declared, v) {
        var b' := r.chain[i];
        assert b'.storage[key := Entry(Holding(v), locked)] == b'.storage;
        assert r.chain[i := b'] == r.chain;
      }
    } else {
      var b' := r.chain[i];
      assert b'.storage[key := Entry(Holding(v), None)] == b'.storage;
      assert r.chain[i := b'] == r.chain;
    }
  }

  /** A first write on an absent, unremapped key stores the value with no
      type lock, so a following write of any other type is accepted too. */
  lemma FirstWriteDoesNotLock(c: Chain, i: nat, key: string, d1: TypeTag, v1: Value, d2: TypeTag, v2: Value)
    requires i < |c| && !Forwards(c, i, key) && key !in c[i].storage
    ensures var r1 := Set(c, i, key, d1, v1);
            r1.Stored? && Lookup(r1.chain[i], key) == Some(Entry(Holding(v1), None)) &&
            GetAny(r1.chain, i, key) == Some(Holding(v1)) &&
            Set(r1.chain, i, key, d2, v2).Stored?
  {
  }

  /** A write on an existing, unremapped entry fails exactly when a lock
      exists that differs from both the declared and the runtime type and the
      value is no string; a failed write changes nothing, a successful one
      replaces the value and keeps the lock. */
  lemma LocalWriteOnExistingEntry(c: Chain, i: nat, key: string, declared: TypeTag, v: Value)
    requires i < |c| && !Forwards(c, i, key) && key in c[i].storage
    ensures var r := Set(c, i, key, declared, v);
            var locked := c[i].storage[key].lockedType;
            (r.Rejected? <==>
              locked.Some? && locked.value != declared && locked.value != v.tag && v.tag != StringType) &&
            (r.Rejected? ==> r.chain == c) &&
            (r.Stored? ==> r.chain == c[i := c[i].(storage := c[i].storage[key := Entry(Holding(v), locked)])])
  {
  }

  /** A forwarded write leaves an existing local entry untouched, inserts a
      placeholder locked to the declared type when there was none, and then
      proceeds as the parent's write of the external name. */
  lemma ForwardedWrite(c: Chain, i: nat, key: string, declared: TypeTag, v: Value)
    requires i < |c| && Forwards(c, i, key)
    ensures var stamped := if key in c[i].storage then c[i].storage
                           else c[i].storage[key := Entry(Empty, Some(declared))];
            Set(c, i, key, declared, v) == Set(c[i := c[i].(storage := stamped)], i + 1, c[i].remap[key], declared, v)
  {
    if key in c[i].storage {
      assert c[i].storage[key := Stamp(c[i], key, declared)] == c[i].storage;
    }
  }

  /** A fresh board with a live parent and a remap forwards writes: a child
      `C` of root `R`, with `path` remapped to `navigation_path`, stores a
      string written to `path` in `R` under `navigation_path`, where both
      boards then read it. */
  lemma RemappedStringReachesParent(r: Board, s: seq<int>)
    requires r.parentAlive == false
    ensures var child := Create([r])[0].(remap := map["path" := "navigation_path"]);
            var v := Value(StringType, s);
            var out := Set([child, r], 0, "path", StringType, v);
            out.Stored? &&
            Get(out.chain, 1, "navigation_path", StringType) == Ok(v) &&
            Get(out.chain, 0, "path", StringType) == Ok(v) &&
            out.chain[0].storage["path"] == Entry(Empty, Some(StringType))
  {
    var child := Create([r])[0].(remap := map["path" := "navigation_path"]);
    var v := Value(StringType, s);
    SetThenGet([child, r], 0, "path", StringType, v, v);
    SetAtHome([child, r], 0, "path", StringType, v);
    assert Home([child, r], 0, "path") == Hop(1, "navigation_path");
  }
}

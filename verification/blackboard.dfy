/** The scoped key/value store of BehaviorTree.CPP, `BT::Blackboard`.

    A hierarchy of scopes is a `Chain`: board `i` of the chain has board
    `i + 1` as its parent. Each board keeps its own `storage`, a `remap`
    table from its internal key names to its parent's key names, and whether
    the (non-owning) reference to its parent still resolves. Reads and writes
    of a remapped key are forwarded to a live parent; everything else acts on
    the board's own storage. */
module Blackboard {
  import opened Results
  import opened SafeAny

  /** One slot of a board: a possibly empty value and an optional type lock. */
  datatype Entry = Entry(value: Any, lockedType: Option<TypeTag>)

  /** One scope. `parentAlive` is false for a root board and for a board
      whose parent has been destroyed. */
  datatype Board = Board(storage: map<string, Entry>, remap: map<string, string>, parentAlive: bool)

  /** A board followed by its ancestors, nearest first. */
  type Chain = seq<Board>

  /** The failures a read or a write can raise. */
  datatype Error =
    | MissingKey(key: string)
    | BadCast(cause: CastError)
    | TypeLocked(locked: TypeTag, declared: TypeTag)

  /** A place in the hierarchy: a key name on a given board. */
  datatype Hop = Hop(board: nat, key: string)

  /** What `get(key, value)` leaves behind: whether the key was found and
      the (possibly untouched) output variable. */
  datatype Fetched = Fetched(found: bool, value: Value)

  /** The hierarchy after a write, and whether the write threw. A rejected
      write still carries the placeholders inserted on the way up. */
  datatype SetOutcome = Stored(chain: Chain) | Rejected(chain: Chain, error: Error)

  /** Two chains with the same boards, remap tables and parent liveness,
      differing at most in what the boards store. */
  ghost predicate SameShape(c: Chain, d: Chain)
  {
    |c| == |d| &&
    forall j :: 0 <= j < |c| ==> c[j].remap == d[j].remap && c[j].parentAlive == d[j].parentAlive
  }

  /** The entry stored under `key` on board `b`, if any. */
  function Lookup(b: Board, key: string): Option<Entry>
  {
    if key in b.storage then Some(b.storage[key]) else None
  }

  /** Board `i` has a parent whose weak reference still resolves. */
  predicate HasLiveParent(c: Chain, i: nat)
    requires i < |c|
  {
    c[i].parentAlive && i + 1 < |c|
  }

  /** An access to `key` on board `i` is redirected to the parent. */
  predicate Forwards(c: Chain, i: nat, key: string)
    requires i < |c|
  {
    HasLiveParent(c, i) && key in c[i].remap
  }

  /** An access at place `a` is forwarded, and goes on at place `b`. */
  predicate Step(c: Chain, a: Hop, b: Hop)
  {
    a.board < |c| && Forwards(c, a.board, a.key) && b == Hop(a.board + 1, c[a.board].remap[a.key])
  }

  /** The places an access to `key` on board `i` visits: it starts at
      `(i, key)`, moves one board up under the remapped name while the access
      is forwarded, and stops at the first place that is not forwarded. */
  function Path(c: Chain, i: nat, key: string): (p: seq<Hop>)
    requires i < |c|
    ensures 1 <= |p| <= |c| - i && p[0] == Hop(i, key)
    ensures forall n :: 0 <= n < |p| ==> p[n].board == i + n
    ensures forall n, m :: 0 <= n < |p| - 1 && m == n + 1 ==> Step(c, p[n], p[m])
    ensures !Forwards(c, p[|p| - 1].board, p[|p| - 1].key)
    decreases |c| - i
  {
    if Forwards(c, i, key) then [Hop(i, key)] + Path(c, i + 1, c[i].remap[key])
    else [Hop(i, key)]
  }

  /** The place where an access to `key` on board `i` is finally served. */
  function Home(c: Chain, i: nat, key: string): (h: Hop)
    requires i < |c|
    ensures i <= h.board < |c| && !Forwards(c, h.board, h.key)
  {
    var p := Path(c, i, key);
    p[|p| - 1]
  }

  /** The value a board stores at place `h`, as `getAny` hands it out. */
  function ValueAt(c: Chain, h: Hop): Option<Any>
    requires h.board < |c|
  {
    match Lookup(c[h.board], h.key)
    case None => None
    case Some(e) => Some(e.value)
  }

  /** `Blackboard::create(parent)`: a fresh board with no entries and no
      remapping, whose parent is the head of `parent` (none when empty). */
  function Create(parent: Chain): (c: Chain)
    ensures |c| == |parent| + 1 && c[1..] == parent
    ensures HasLiveParent(c, 0) <==> |parent| > 0
    ensures forall key :: GetAny(c, 0, key) == None
    ensures forall key :: !Forwards(c, 0, key)
  {
    [Board(map[], map[], |parent| > 0)] + parent
  }

  /** `getAny(key)`: the value found by following the remapping up through
      live parents; null when the place reached has no entry. The entry's
      value may itself be empty (a placeholder). */
  function GetAny(c: Chain, i: nat, key: string): (r: Option<Any>)
    requires i < |c|
    ensures r == ValueAt(c, Home(c, i, key))
    decreases |c| - i
  {
    if Forwards(c, i, key) then GetAny(c, i + 1, c[i].remap[key])
    else if key in c[i].storage then Some(c[i].storage[key].value)
    else None
  }

  /** `get<T>(key, value)`: reports whether the key was found and, if so,
      overwrites the output with the value cast to `wanted`; the cast may throw. */
  function GetInto(c: Chain, i: nat, key: string, wanted: TypeTag, value: Value): (r: Result<Fetched, Error>)
    requires i < |c|
    ensures r.Ok? ==> (r.value.found <==> GetAny(c, i, key).Some?)
    ensures r.Ok? && !r.value.found ==> r.value.value == value
    ensures r.Ok? && r.value.found ==>
      GetAny(c, i, key) == Some(Holding(r.value.value)) && r.value.value.tag == wanted
    ensures r.Err? <==> GetAny(c, i, key).Some? && TypeOf(GetAny(c, i, key).value) != Some(wanted)
  {
    match GetAny(c, i, key)
    case None => Ok(Fetched(false, value))
    case Some(a) =>
      match Cast(a, wanted)
      case Ok(v) => Ok(Fetched(true, v))
      case Err(e) => Err(BadCast(e))
  }

  /** `get<T>(key)`: the value cast to `wanted`, or a missing-key error. */
  function Get(c: Chain, i: nat, key: string, wanted: TypeTag): (r: Result<Value, Error>)
    requires i < |c|
    ensures r == Err(MissingKey(key)) <==> GetAny(c, i, key).None?
    ensures r.Ok? <==> GetAny(c, i, key).Some? && TypeOf(GetAny(c, i, key).value) == Some(wanted)
    ensures r.Ok? ==> GetAny(c, i, key) == Some(Holding(r.value)) && r.value.tag == wanted
  {
    match GetAny(c, i, key)
    case None => Err(MissingKey(key))
    case Some(a) =>
      match Cast(a, wanted)
      case Ok(v) => Ok(v)
      case Err(e) => Err(BadCast(e))
  }

  /** The type-lock test of `set`: a locked entry refuses a value whose
      declared type and runtime type both differ from the lock, unless the
      value is a string. */
  predicate Blocks(locked: Option<TypeTag>, declared: TypeTag, v: Value)
  {
    locked.Some? && locked.value != declared && locked.value != v.tag && !IsString(Holding(v))
  }

  /** The entry a forwarded write leaves on the board it passes through:
      the existing one, or an empty placeholder locked to the declared type. */
  function Stamp(b: Board, key: string, declared: TypeTag): Entry
  {
    if key in b.storage then b.storage[key] else Entry(Empty, Some(declared))
  }

  /** `set<T>(key, value)` on board `i`, with `declared` standing for
      `typeid(T)` and `v` for the constructed `Any`. */
  function Set(c: Chain, i: nat, key: string, declared: TypeTag, v: Value): (r: SetOutcome)
    requires i < |c|
    ensures SameShape(c, r.chain)
    ensures forall j :: 0 <= j < i ==> r.chain[j] == c[j]
    decreases |c| - i
  {
    var b := c[i];
    if Forwards(c, i, key) then
      var c1 := c[i := b.(storage := b.storage[key := Stamp(b, key, declared)])];
      Set(c1, i + 1, b.remap[key], declared, v)
    else if key in b.storage then
      var locked := b.storage[key].lockedType;
      if Blocks(locked, declared, v) then Rejected(c, TypeLocked(locked.value, declared))
      else Stored(c[i := b.(storage := b.storage[key := Entry(Holding(v), locked)])])
    else
      Stored(c[i := b.(storage := b.storage[key := Entry(Holding(v), None)])])
  }
}

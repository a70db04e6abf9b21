# BehaviorTree.CPP blackboard, modelled in Dafny

This project models `BT::Blackboard`. A blackboard is the scoped key/value store that
behaviour-tree nodes use to share typed data. Each blackboard (a *board*) holds:

- `storage`: a map from key to an `Entry`. An entry is a type-erased value, which may be
  empty, plus an optional locked type.
- `remap`: a table from the board's internal key names to its parent's key names.
- a non-owning reference to a parent board. It either still resolves (`parentAlive`) or not.

A read or a write of a key that is remapped, on a board whose parent is alive, is forwarded
to the parent under the external name. Everything else acts on the board's own storage.

Files:

- `results.dfy` (module `Results`): `Option` and `Result`. They stand in for null pointers
  and for thrown exceptions.
- `safe_any.dfy` (module `SafeAny`): the type-erased `Any` as far as the blackboard uses it.
  That is its runtime type, whether it is a string, and a checked `Cast`.
- `blackboard.dfy` (module `Blackboard`): entries, boards, and the operations `Create`,
  `GetAny`, `GetInto`, `Get` and `Set`. It also defines `Path` and `Home`, the places an
  access visits and the place where it is finally served.
- `blackboard_props.dfy` (module `BlackboardProps`): properties that relate several calls.
  These are where a write lands, what it leaves alone, the read-after-write round trip,
  idempotence, and the effect of an expired parent.

A scope hierarchy is a `Chain`, a `seq<Board>`. The parent of board `i` is board `i + 1`.
Board `i` has a live parent when `parentAlive` holds and a board `i + 1` exists. Every
forwarding step moves one board up, so a walk always ends.

`Set` takes the key and the value. It also takes `declared`, which stands for `typeid(T)`.
The value carries the runtime type of the constructed `Any`. "Is a string" means that this
runtime type is `StringType`. `Set` returns `Stored(chain)` or `Rejected(chain, error)`.
A rejected write still carries a new hierarchy. The C++ code inserts a local placeholder
before it calls `parent->set`, so a placeholder survives when the parent throws.

Three behaviours of the code are easy to miss:

- A forwarded write on a key with no local entry inserts a placeholder locked to the
  declared type `T` (`blackboard.h:126-129`). It is not left unlocked.
- A first write on a new, unremapped key creates the entry with no type lock
  (`blackboard.h:150-152`). So a first write does not fix the key's type.
  `FirstWriteDoesNotLock` states this: a second write of any other type is accepted.
- `getAny` hands out a pointer to the entry's value, and that value may be empty. So a read
  of a placeholder gives `Some(Empty)`, not null. `Get` then fails with a cast error,
  not with a missing-key error.

## Model

| member | source | states |
|---|---|---|
| SafeAny.TypeOf | include/behaviortree_cpp/blackboard.h:142 | definition: `temp.type()`, the held value's tag, none when empty; `Cast`'s contract ties `cast<T>` to it |
| SafeAny.Cast | include/behaviortree_cpp/blackboard.h:91 | `Any::cast<T>` as used by both `get` forms, abstracted to an exact type match: succeeds exactly when the container holds a value of the wanted type and then returns that value; otherwise fails reporting the wanted and the held type (conversions are left out) |
| Blackboard.Blocks | include/behaviortree_cpp/blackboard.h:142 | definition: the line-142 lock test; its effect on `set` is proved by `SetAtHome`, `LocalWriteOnExistingEntry` and `StringWriteNeverRejected` |
| Blackboard.Create | include/behaviortree_cpp/blackboard.h:29-40 | a new board has the given chain as ancestors, has a live parent exactly when one was given, reads nothing under any key, and forwards no key, so writes to it stay local |
| Blackboard.Path | include/behaviortree_cpp/blackboard.h:54-61 | an access starts at its own board and key, moves one board up under the remapped name while the board remaps the key and has a live parent, and stops at the first place that does not forward |
| Blackboard.Home | include/behaviortree_cpp/blackboard.h:54-63 | the place an access is served lies on or above the starting board and is not forwarded further |
| Blackboard.GetAny | include/behaviortree_cpp/blackboard.h:50-80 | `getAny` returns the value stored at the end of the forwarding path, or null when nothing is stored there |
| Blackboard.GetInto | include/behaviortree_cpp/blackboard.h:85-94 | `get(key, value)` reports found exactly when `getAny` is non-null; when not found the output is untouched; when found the output holds the cast value; it throws exactly when the found value is not of the wanted type |
| Blackboard.Get | include/behaviortree_cpp/blackboard.h:99-111 | `get<T>(key)` fails with a missing-key error exactly when `getAny` is null; otherwise it succeeds exactly when the found value has the wanted type, and returns that value |
| Blackboard.Set | include/behaviortree_cpp/blackboard.h:115-154 | a write never changes a remap table or a parent link, and never touches a board below the one it starts on |
| BlackboardProps.PathDependsOnShape | include/behaviortree_cpp/blackboard.h:121-124 | where an access goes depends only on remap tables and parent liveness, not on stored entries |
| BlackboardProps.GetAnyDependsOnAncestors | include/behaviortree_cpp/blackboard.h:54-63 | a read depends only on the board it starts at and its ancestors; boards below the start do not affect it |
| BlackboardProps.AbsentKeyReadsNothing | include/behaviortree_cpp/blackboard.h:86-94 | with no forwarding and no local entry, `getAny` is null, `get(key, value)` returns false with `value` untouched, and `get<T>(key)` reports the missing key |
| BlackboardProps.ForwardedReadIgnoresLocalStorage | include/behaviortree_cpp/blackboard.h:54-61 | a forwarded read equals the parent's read of the external name, whatever the local board stores under the key |
| BlackboardProps.ExpiredParentActsAsRoot | include/behaviortree_cpp/blackboard.h:54-152 | on a board whose parent has expired, reads and writes behave exactly as on a root board with the same storage; the remap table is inert |
| BlackboardProps.SetFrame | include/behaviortree_cpp/blackboard.h:115-154 | a write leaves every entry off its forwarding path as it was, on every board |
| BlackboardProps.SetFrameForwarded | include/behaviortree_cpp/blackboard.h:121-132 | the same frame property for a forwarded write, built from the parent's write |
| BlackboardProps.SetStampsPath | include/behaviortree_cpp/blackboard.h:126-129 | every place a write passes through keeps its existing entry, or gains an empty placeholder locked to the declared type |
| BlackboardProps.SetAtHome | include/behaviortree_cpp/blackboard.h:135-152 | at the place a write lands: rejected exactly when an entry exists whose lock differs from the declared and the runtime type and the value is not a string; a rejection keeps that entry; a stored write puts the value there under the old lock, or none for a new entry |
| BlackboardProps.SetAtHomeForwarded | include/behaviortree_cpp/blackboard.h:121-132 | a forwarded write lands where the parent's write of the external name lands, with the same verdict |
| BlackboardProps.SetThenGet | include/behaviortree_cpp/blackboard.h:115-154 | after an accepted write, reading the same key on the same board returns the written value, through `getAny`, through `get<T>(key)` and through `get(key, value)` with the value's type |
| BlackboardProps.StringWriteNeverRejected | include/behaviortree_cpp/blackboard.h:142 | a string value is accepted whatever lock the target entry carries |
| BlackboardProps.LockedTypeWriteAccepted | include/behaviortree_cpp/blackboard.h:142 | a write whose declared type is the target's lock, or to a target with no entry, is accepted |
| BlackboardProps.SetIdempotent | include/behaviortree_cpp/blackboard.h:115-154 | repeating a write yields the same hierarchy and the same verdict |
| BlackboardProps.FirstWriteDoesNotLock | include/behaviortree_cpp/blackboard.h:150-152 | a first write on an absent, unremapped key stores the value with no lock and is readable; a following write of any type is accepted |
| BlackboardProps.LocalWriteOnExistingEntry | include/behaviortree_cpp/blackboard.h:135-149 | on an existing unremapped entry, a write fails exactly when a lock exists that differs from the declared and runtime types and the value is not a string; a failure changes nothing, a success replaces the value and keeps the lock |
| BlackboardProps.ForwardedWrite | include/behaviortree_cpp/blackboard.h:121-132 | a forwarded write keeps an existing local entry, otherwise inserts an empty placeholder locked to the declared type, then proceeds as the parent's write of the external name |
| BlackboardProps.RemappedStringReachesParent | include/behaviortree_cpp/blackboard.h:121-132 | a child of a root, with `path` remapped to `navigation_path`, stores a string written to `path` in the root; it is readable under both names, and the child keeps a string-locked empty placeholder |

## Left out

- The mutex of each board, and thread safety. The model is sequential; this is concurrency.
- `std::weak_ptr` and `std::shared_ptr` lifetime management. A board's parent link is only
  the `parentAlive` flag, and boards are values, not shared objects.
- Sibling scopes as one shared object. `create(parent)` (`blackboard.h:37-40`) may be called
  many times with the same parent, so the scopes form a tree. Each board's ancestors form a
  finite, acyclic chain: a parent is fixed when its child is created from an existing board
  (`blackboard.h:29-30`), and the link is private (`blackboard.h:187`). Every access touches
  only that chain (`blackboard.h:59`, `75`, `130`), so one `Chain` per access loses nothing.
  Children sharing a parent are chains with a common tail, not one shared object; a write
  through one child read back through its sibling needs that tail carried over by hand.
- `setPortType`, `portType`, `addSubtreeRemapping` and `debugMessage`. Their bodies are not
  part of this model. Boards are built directly with any locks and remap tables.
- `Any::cast`, `Any::isString` and `Any::type` internals (`safe_any.hpp` is not part of this
  model). `Cast` succeeds only on an exact type match. The library's numeric and
  string-to-number conversions are not modelled.
- The text of exception messages and the `demangle` formatting.
- `std::type_info` pointer identity. It is replaced by equality of `TypeTag` values.
- Writes through the pointer returned by `getAny`. The non-const overload
  (`blackboard.h:66-80`) returns a mutable `Any*`, and a caller can overwrite the value through
  it without the type-lock check of `blackboard.h:142`. The model's `GetAny` returns a value, so
  both overloads are one read-only function and such writes are not modelled.

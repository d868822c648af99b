// Publishing a file in a workspace (crates/gobrowse-sandboxd/src/filesystem.rs, `write`, `patch` and `atomic_write`).
// The model follows one name of the workspace and one staged name. Other processes may rename entries onto or away
// from the workspace name before every system call, and every system call may fail: both are written down in a
// script, which is a parameter. SHA-256 is a parameter too. Contents of files are changed by nobody.
module AtomicWrite {
  import opened Basics

  const MAX_FILE_PAYLOAD_BYTES: nat := 256 * 1024

  type Inode = nat

  // `Folder` says whether the tree below holds only entries that may be served. `Special` is everything else, a
  // symbolic link included.
  datatype Node = File(links: nat, bytes: seq<Byte>) | Folder(clean: bool) | Special

  datatype Error = InvalidPath | NotFound | UnsafeEntry | ContainmentFailure | LimitExceeded | Conflict | Io

  // Other processes rename something onto the name, or away from it.
  datatype Rename = Rename(target: Option<Inode>, created: map<Inode, Node>)

  datatype Event = Event(rename: Option<Rename>, fault: bool)

  // What this process did to the workspace name.
  datatype Act = Exchanged(displaced: Inode, placed: Inode) | Placed(inode: Inode) | Quarantined(inode: Inode)

  datatype World = World(
    nodes: map<Inode, Node>,
    mine: Inode,                 // the number the staged file gets
    target: Option<Inode>,       // the workspace name
    staged: Option<Inode>,       // the staged name
    quarantined: Option<Inode>,
    acts: seq<Act>,
    unlinked: set<Inode>,        // what this process unlinked
    script: seq<Event>)

  datatype Outcome = Outcome(world: World, error: Option<Error>)

  // Nothing is staged or unlinked yet, a name leads to an entry, and the number kept for the staged file is free.
  ghost predicate Fresh(w: World) {
    && w.staged == None && w.quarantined == None && w.unlinked == {} && w.mine !in w.nodes
    && (w.target.Some? ==> w.target.value in w.nodes)
  }

  // What the other processes leave alone.
  ghost predicate Follows(before: World, after: World) {
    && after.mine == before.mine && after.staged == before.staged
    && after.quarantined == before.quarantined && after.acts == before.acts && after.unlinked == before.unlinked
    && (before.mine in after.nodes <==> before.mine in before.nodes)
    && forall inode :: inode in before.nodes ==> inode in after.nodes && after.nodes[inode] == before.nodes[inode]
  }

  // ---------------------------------------------------------------------------------------------
  // System calls.

  predicate Faulty(w: World) { w.script != [] && w.script[0].fault }

  // Unlinked, and no other name led to it.
  predicate Nameless(w: World, inode: Inode) {
    inode in w.unlinked && inode in w.nodes && (w.nodes[inode].File? ==> w.nodes[inode].links <= 1)
  }

  // Nobody else can name what is staged or has no name, or take the inode number kept for the staged file.
  function Tick(w: World): (after: World)
    ensures Follows(w, after)
    ensures w.script == [] ==> after == w
  {
    if w.script == [] then w
    else if w.script[0].rename.None? then w.(script := w.script[1..])
    else
      var rename := w.script[0].rename.value;
      var nodes := (rename.created - {w.mine}) + w.nodes;
      var free := rename.target.Some? && rename.target.value in nodes && rename.target != w.staged
        && rename.target != w.quarantined && !Nameless(w, rename.target.value);
      w.(nodes := nodes, target := if free then rename.target else None, script := w.script[1..])
  }

  // openat2 by name, for metadata only: it opens whatever the name leads to, the link itself if that is a link.
  function Opened(w: World, entry: Option<Inode>): Result<Inode, Error> {
    if entry.None? || entry.value !in w.nodes then Err(NotFound) else Ok(entry.value)
  }

  // openat2 and fstat, refused unless the entry is a directory or a file with one name
  function Stated(w: World, entry: Option<Inode>): Result<Inode, Error> {
    match Opened(w, entry)
    case Err(error) => Err(error)
    case Ok(inode) =>
      var node := w.nodes[inode];
      if node.Folder? || (node.File? && node.links == 1) then Ok(inode) else Err(UnsafeEntry)
  }

  predicate IsPlainFile(w: World, inode: Inode) { inode in w.nodes && w.nodes[inode].File? && w.nodes[inode].links == 1 }

  // read_regular
  function Read(w: World, entry: Option<Inode>): Result<seq<Byte>, Error> {
    match Stated(w, entry)
    case Err(error) => Err(error)
    case Ok(inode) =>
      if !w.nodes[inode].File? then Err(UnsafeEntry)
      else if |w.nodes[inode].bytes| > MAX_FILE_PAYLOAD_BYTES then Err(LimitExceeded)
      else Ok(w.nodes[inode].bytes)
  }

  // verify_published, for a file
  function Verified(w: World, entry: Option<Inode>): Option<Error> {
    match Stated(w, entry)
    case Err(error) => Some(error)
    case Ok(inode) => if inode == w.mine && w.nodes[inode].File? then None else Some(UnsafeEntry)
  }

  function Fail(w: World, error: Error): Outcome { Outcome(w, Some(error)) }

  function Done(w: World): Outcome { Outcome(w, None) }

  // ---------------------------------------------------------------------------------------------
  // The steps of atomic_write.

  function CheckTarget(w: World, expected: Option<string>): Outcome {
    var now := Tick(w);
    if Faulty(w) then Fail(now, Io)
    else match Stated(now, now.target)
      case Err(NotFound) => if expected.None? then Done(now) else Fail(now, NotFound)
      case Err(error) => Fail(now, error)
      case Ok(inode) => if now.nodes[inode].File? then Done(now) else Fail(now, UnsafeEntry)
  }

  function CheckDigest(sha: seq<Byte> -> string, w: World, entry: Option<Inode>, expected: string): Option<Error> {
    match Read(w, entry)
    case Err(error) => Some(error)
    case Ok(bytes) => if sha(bytes) != expected then Some(Conflict) else None
  }

  function CheckContent(sha: seq<Byte> -> string, w: World, expected: Option<string>): Outcome {
    if expected.None? then Done(w)
    else
      var now := Tick(w);
      if Faulty(w) then Fail(now, Io) else Outcome(now, CheckDigest(sha, now, now.target, expected.value))
  }

  // target_exists
  predicate SeesTarget(w: World) { !Faulty(w) && Opened(Tick(w), Tick(w).target).Ok? }

  // unlinkat of the staged name
  function Unstaged(w: World): World {
    w.(staged := None, unlinked := if w.staged.Some? then w.unlinked + {w.staged.value} else w.unlinked)
  }

  // create_staged_file: opened, given its mode, written.
  function Stage(w: World, bytes: seq<Byte>): Outcome {
    var free := Tick(w);
    if Faulty(w) then Fail(free, Io)
    else
      var created := free.(nodes := free.nodes[w.mine := File(1, [])], staged := Some(w.mine));
      var moded := Tick(created);
      if Faulty(created) then Fail(moded, Io)
      else
        var written := Tick(moded);
        if Faulty(moded) then Fail(Unstaged(written), Io)
        else Done(written.(nodes := written.nodes[w.mine := File(1, bytes)]))
  }

  // remove_tree_best_effort of the staged name
  function Discard(w: World): World { if Faulty(w) then Tick(w) else Unstaged(Tick(w)) }

  function VerifyStaged(w: World): Outcome {
    var now := Tick(w);
    var error := if Faulty(w) then Some(Io) else Verified(now, now.staged);
    if error.Some? then Outcome(Discard(now), error) else Done(now)
  }

  // renameat2 with RENAME_EXCHANGE
  function Exchange(w: World): Outcome {
    var now := Tick(w);
    if Faulty(w) then Fail(now, Io)
    else if now.target.None? || now.staged.None? then Fail(now, NotFound)
    else Done(now.(target := now.staged, staged := now.target, acts := now.acts + [Exchanged(now.target.value, now.staged.value)]))
  }

  // renameat2 with RENAME_NOREPLACE
  function Place(w: World): Outcome {
    var now := Tick(w);
    if Faulty(w) then Fail(now, Io)
    else if now.target.Some? then Fail(now, Conflict)
    else if now.staged.None? then Fail(now, NotFound)
    else Done(now.(target := now.staged, staged := None, acts := now.acts + [Placed(now.staged.value)]))
  }

  // quarantine_and_remove of the workspace name
  function Quarantine(w: World): Outcome {
    var now := Tick(w);
    if Faulty(w) || now.target.None? then Fail(now, ContainmentFailure)
    else
      var moved := now.(target := None, quarantined := now.target, acts := now.acts + [Quarantined(now.target.value)]);
      var after := Tick(moved);
      if Faulty(moved) then Fail(after, ContainmentFailure) else Done(after.(quarantined := None, unlinked := after.unlinked + {now.target.value}))
  }

  // What the exchange brought out of the workspace.
  function CheckDisplaced(sha: seq<Byte> -> string, w: World, expected: Option<string>): Outcome {
    var now := Tick(w);
    if Faulty(w) then Fail(now, Io)
    else match Stated(now, now.staged)
      case Err(error) => Fail(now, error)
      case Ok(inode) =>
        if !now.nodes[inode].File? then Fail(now, UnsafeEntry)
        else if expected.None? then Done(now)
        else
          var read := Tick(now);
          if Faulty(now) then Fail(read, Io) else Outcome(read, CheckDigest(sha, read, read.staged, expected.value))
  }

  function Validate(sha: seq<Byte> -> string, w: World, expected: Option<string>): Outcome {
    var now := Tick(w);
    if Faulty(w) then Fail(now, Io)
    else
      var error := Verified(now, now.target);
      if error.Some? then Outcome(now, error) else CheckDisplaced(sha, now, expected)
  }

  // validate_named_entry
  predicate Servable(w: World, entry: Option<Inode>) {
    Stated(w, entry).Ok? && (w.nodes[entry.value].Folder? ==> w.nodes[entry.value].clean)
  }

  function RollBack(w: World, error: Error): Outcome {
    var back := Exchange(w);
    var cleared := Discard(back.world);
    if back.error.Some? then Fail(cleared, UnsafeEntry)
    else
      var now := Tick(cleared);
      if !Faulty(cleared) && Servable(now, now.target) then Fail(now, error)
      else
        var contained := Quarantine(now);
        if contained.error.Some? then contained else Fail(contained.world, error)
  }

  function PublishOver(sha: seq<Byte> -> string, w: World, expected: Option<string>): Outcome {
    var swapped := Exchange(w);
    if swapped.error.Some? then Outcome(Discard(swapped.world), swapped.error)
    else
      var checked := Validate(sha, swapped.world, expected);
      if checked.error.Some? then RollBack(checked.world, checked.error.value)
      else
        var removed := Tick(checked.world);
        if Faulty(checked.world) then Fail(removed, Io) else Done(Unstaged(removed))
  }

  function PublishNew(w: World): Outcome {
    var placed := Place(w);
    if placed.error.Some? then Outcome(Discard(placed.world), placed.error)
    else
      var now := Tick(placed.world);
      var error := if Faulty(placed.world) then Some(Io) else Verified(now, now.target);
      if error.None? then Done(now)
      else
        var contained := Quarantine(now);
        if contained.error.Some? then contained else Outcome(contained.world, error)
  }

  // fsync of the parent and of the staging directory
  function Sync(w: World): Outcome {
    var parent := Tick(w);
    if Faulty(w) then Fail(parent, Io)
    else
      var staging := Tick(parent);
      if Faulty(parent) then Fail(staging, Io) else Done(staging)
  }

  function Checks(sha: seq<Byte> -> string, w: World, expected: Option<string>): Outcome {
    var looked := CheckTarget(w, expected);
    if looked.error.Some? then looked else CheckContent(sha, looked.world, expected)
  }

  function Prepare(w: World, bytes: seq<Byte>): Outcome {
    var staged := Stage(Tick(w), bytes);
    if staged.error.Some? then staged else VerifyStaged(staged.world)
  }

  // `resolved` is the error of opening the workspace and the parent directory, if any.
  function WriteAtomically(sha: seq<Byte> -> string, w: World, resolved: Option<Error>, expected: Option<string>, bytes: seq<Byte>): Outcome {
    if |bytes| > MAX_FILE_PAYLOAD_BYTES then Fail(w, LimitExceeded)
    else if resolved.Some? then Outcome(w, resolved)
    else
      var checked := Checks(sha, w, expected);
      if checked.error.Some? then checked
      else
        var present := SeesTarget(checked.world);
        var prepared := Prepare(checked.world, bytes);
        if prepared.error.Some? then prepared
        else
          var published := if present then PublishOver(sha, prepared.world, expected) else PublishNew(prepared.world);
          if published.error.Some? then published else Sync(published.world)
  }

  predicate IsDigest(text: string) {
    |text| == 64 && forall i :: 0 <= i < 64 ==> '0' <= text[i] <= '9' || 'a' <= text[i] <= 'f'
  }

  function Patch(sha: seq<Byte> -> string, w: World, resolved: Option<Error>, expected: string, bytes: seq<Byte>): Outcome {
    if !IsDigest(expected) then Fail(w, InvalidPath) else WriteAtomically(sha, w, resolved, Some(expected), bytes)
  }

  // ---------------------------------------------------------------------------------------------
  // The code, step by step.

  class Volume {
    const sha: seq<Byte> -> string
    const mine: Inode
    var nodes: map<Inode, Node>
    var target: Option<Inode>
    var staged: Option<Inode>
    var quarantined: Option<Inode>
    var acts: seq<Act>
    var unlinked: set<Inode>
    var script: seq<Event>

    function View(): World reads this { World(nodes, mine, target, staged, quarantined, acts, unlinked, script) }

    constructor (sha: seq<Byte> -> string, w: World)
      ensures this.sha == sha && View() == w
    {
      this.sha, mine, nodes, target, staged, quarantined, acts, unlinked, script :=
        sha, w.mine, w.nodes, w.target, w.staged, w.quarantined, w.acts, w.unlinked, w.script;
    }

    // What happens before a system call, and whether the call fails.
    method Await() returns (fault: bool)
      modifies this
      ensures View() == Tick(old(View())) && fault == Faulty(old(View()))
    {
      fault := Faulty(View());
      var now := Tick(View());
      nodes, target, script := now.nodes, now.target, now.script;
    }

    method LookAtTarget(expected: Option<string>) returns (error: Option<Error>)
      modifies this
      ensures Outcome(View(), error) == CheckTarget(old(View()), expected)
    {
      var fault := Await();
      if fault {
        return Some(Io);
      }
      match Stated(View(), target)
      case Ok(inode) => error := if nodes[inode].File? then None else Some(UnsafeEntry);
      case Err(NotFound) => error := if expected.None? then None else Some(Error.NotFound);
      case Err(e) => error := Some(e);
    }

    method LookAtContent(expected: Option<string>) returns (error: Option<Error>)
      modifies this
      ensures Outcome(View(), error) == CheckContent(sha, old(View()), expected)
    {
      if expected.None? {
        return None;
      }
      var fault := Await();
      if fault {
        return Some(Io);
      }
      error := CheckDigest(sha, View(), target, expected.value);
    }

    method UnlinkStaged()
      modifies this`staged, this`unlinked
      ensures View() == Unstaged(old(View()))
    {
      if staged.Some? {
        unlinked := unlinked + {staged.value};
      }
      staged := None;
    }

    method CreateStaged(bytes: seq<Byte>) returns (error: Option<Error>)
      modifies this
      ensures Outcome(View(), error) == Stage(old(View()), bytes)
    {
      var fault := Await();
      if fault {
        return Some(Io);
      }
      nodes, staged := nodes[mine := File(1, [])], Some(mine);
      fault := Await();
      if fault {
        return Some(Io);
      }
      fault := Await();
      if fault {
        UnlinkStaged();
        return Some(Io);
      }
      nodes := nodes[mine := File(1, bytes)];
      error := None;
    }

    method DiscardStaged()
      modifies this
      ensures View() == Discard(old(View()))
    {
      var fault := Await();
      if !fault {
        UnlinkStaged();
      }
    }

    method CheckStaged() returns (error: Option<Error>)
      modifies this
      ensures Outcome(View(), error) == VerifyStaged(old(View()))
    {
      var fault := Await();
      error := if fault then Some(Io) else Verified(View(), staged);
      if error.Some? {
        DiscardStaged();
      }
    }

    method ExchangeNames() returns (error: Option<Error>)
      modifies this
      ensures Outcome(View(), error) == Exchange(old(View()))
    {
      var fault := Await();
      if fault {
        return Some(Io);
      }
      if target.None? || staged.None? {
        return Some(Error.NotFound);
      }
      acts := acts + [Exchanged(target.value, staged.value)];
      target, staged := staged, target;
      error := None;
    }

    method PlaceStaged() returns (error: Option<Error>)
      modifies this
      ensures Outcome(View(), error) == Place(old(View()))
    {
      var fault := Await();
      if fault {
        return Some(Io);
      }
      if target.Some? {
        return Some(Error.Conflict);
      }
      if staged.None? {
        return Some(Error.NotFound);
      }
      acts := acts + [Placed(staged.value)];
      target, staged := staged, None;
      error := None;
    }

    method Contain() returns (error: Option<Error>)
      modifies this
      ensures Outcome(View(), error) == Quarantine(old(View()))
    {
      var fault := Await();
      if fault || target.None? {
        return Some(ContainmentFailure);
      }
      acts := acts + [Quarantined(target.value)];
      var moved := target.value;
      target, quarantined := None, target;
      fault := Await();
      if fault {
        return Some(ContainmentFailure);
      }
      quarantined, unlinked := None, unlinked + {moved};
      error := None;
    }

    method LookAtDisplaced(expected: Option<string>) returns (error: Option<Error>)
      modifies this
      ensures Outcome(View(), error) == CheckDisplaced(sha, old(View()), expected)
    {
      var fault := Await();
      if fault {
        return Some(Io);
      }
      var stated := Stated(View(), staged);
      if stated.Err? {
        return Some(stated.error);
      }
      if !nodes[stated.value].File? {
        return Some(UnsafeEntry);
      }
      if expected.None? {
        return None;
      }
      fault := Await();
      if fault {
        return Some(Io);
      }
      error := CheckDigest(sha, View(), staged, expected.value);
    }

    method ValidateExchange(expected: Option<string>) returns (error: Option<Error>)
      modifies this
      ensures Outcome(View(), error) == Validate(sha, old(View()), expected)
    {
      var fault := Await();
      if fault {
        return Some(Io);
      }
      error := Verified(View(), target);
      if error.None? {
        error := LookAtDisplaced(expected);
      }
    }

    method Restore(cause: Error) returns (error: Option<Error>)
      modifies this
      ensures Outcome(View(), error) == RollBack(old(View()), cause)
    {
      var rollback := ExchangeNames();
      DiscardStaged();
      if rollback.Some? {
        return Some(UnsafeEntry);
      }
      var fault := Await();
      if fault || !Servable(View(), target) {
        error := Contain();
        if error.Some? {
          return error;
        }
      }
      error := Some(cause);
    }

    method ReplaceTarget(expected: Option<string>) returns (error: Option<Error>)
      modifies this
      ensures Outcome(View(), error) == PublishOver(sha, old(View()), expected)
    {
      error := ExchangeNames();
      if error.Some? {
        DiscardStaged();
        return;
      }
      error := ValidateExchange(expected);
      if error.Some? {
        error := Restore(error.value);
        return;
      }
      var fault := Await();
      if fault {
        return Some(Io);
      }
      UnlinkStaged();
    }

    method CreateTarget() returns (error: Option<Error>)
      modifies this
      ensures Outcome(View(), error) == PublishNew(old(View()))
    {
      error := PlaceStaged();
      if error.Some? {
        DiscardStaged();
        return;
      }
      var fault := Await();
      error := if fault then Some(Io) else Verified(View(), target);
      if error.Some? {
        var contained := Contain();
        error := if contained.Some? then contained else error;
      }
    }

    method SyncDirectories() returns (error: Option<Error>)
      modifies this
      ensures Outcome(View(), error) == Sync(old(View()))
    {
      var fault := Await();
      if fault {
        return Some(Io);
      }
      fault := Await();
      error := if fault then Some(Io) else None;
    }

    // The two looks at the target before anything is staged.
    method Look(expected: Option<string>) returns (error: Option<Error>)
      modifies this
      ensures Outcome(View(), error) == Checks(sha, old(View()), expected)
    {
      error := LookAtTarget(expected);
      if error.None? {
        error := LookAtContent(expected);
      }
    }

    method ProbeAndStage(bytes: seq<Byte>) returns (error: Option<Error>, targetExists: bool)
      modifies this
      ensures Outcome(View(), error) == Prepare(old(View()), bytes) && targetExists == SeesTarget(old(View()))
    {
      var fault := Await();
      targetExists := !fault && Opened(View(), target).Ok?;
      error := CreateStaged(bytes);
      if error.None? {
        error := CheckStaged();
      }
    }

    /** atomic_write; the digest of the new content is the answer. */
    method AtomicWrite(resolved: Option<Error>, expected: Option<string>, bytes: seq<Byte>) returns (result: Result<string, Error>)
      modifies this
      ensures var outcome := WriteAtomically(sha, old(View()), resolved, expected, bytes);
        && View() == outcome.world
        && result == if outcome.error.Some? then Err(outcome.error.value) else Ok(sha(bytes))
    {
      hide Tick, Checks, Prepare, PublishOver, PublishNew, Sync, SeesTarget;
      if |bytes| > MAX_FILE_PAYLOAD_BYTES {
        return Err(LimitExceeded);
      }
      if resolved.Some? {
        return Err(resolved.value);
      }
      var error := Look(expected);
      if error.Some? {
        return Err(error.value);
      }
      var targetExists: bool;
      error, targetExists := ProbeAndStage(bytes);
      if error.Some? {
        return Err(error.value);
      }
      if targetExists {
        error := ReplaceTarget(expected);
      } else {
        error := CreateTarget();
      }
      if error.Some? {
        return Err(error.value);
      }
      error := SyncDirectories();
      result := if error.Some? then Err(error.value) else Ok(sha(bytes));
    }

    method PatchFile(resolved: Option<Error>, expected: string, bytes: seq<Byte>) returns (result: Result<string, Error>)
      modifies this
      ensures var outcome := Patch(sha, old(View()), resolved, expected, bytes);
        && View() == outcome.world
        && result == if outcome.error.Some? then Err(outcome.error.value) else Ok(sha(bytes))
    {
      hide WriteAtomically;
      if !IsDigest(expected) {
        return Err(InvalidPath);
      }
      result := AtomicWrite(resolved, Some(expected), bytes);
    }
  }

  // ---------------------------------------------------------------------------------------------
  // Compare and swap.

  predicate Matches(sha: seq<Byte> -> string, w: World, inode: Inode, expected: Option<string>) {
    && IsPlainFile(w, inode)
    && (expected.Some? ==> |w.nodes[inode].bytes| <= MAX_FILE_PAYLOAD_BYTES && sha(w.nodes[inode].bytes) == expected.value)
  }

  lemma {:induction false} ChecksTouchNothing(sha: seq<Byte> -> string, w: World, expected: Option<string>)
    ensures Follows(w, Checks(sha, w, expected).world)
  {
  }

  lemma {:induction false} PreparedIsStaged(w: World, bytes: seq<Byte>)
    requires w.staged == None && w.quarantined == None && w.mine !in w.nodes && Prepare(w, bytes).error.None?
    ensures var now := Prepare(w, bytes).world;
      && now.staged == Some(w.mine) && w.mine in now.nodes && now.nodes[w.mine] == File(1, bytes)
      && now.acts == w.acts && now.mine == w.mine && now.quarantined == None
  {
  }

  lemma {:induction false} AcceptedIsMatched(sha: seq<Byte> -> string, w: World, expected: Option<string>)
    requires w.staged.Some? && Validate(sha, w, expected).error.None?
    ensures var now := Validate(sha, w, expected).world;
      Follows(w, now) && Matches(sha, now, w.staged.value, expected)
  {
  }

  lemma {:induction false} SwappedIsMatched(sha: seq<Byte> -> string, w: World, expected: Option<string>)
    requires w.staged == Some(w.mine) && w.mine in w.nodes && PublishOver(sha, w, expected).error.None?
    ensures var now := PublishOver(sha, w, expected).world;
      && now.mine == w.mine && now.staged == None && w.mine in now.nodes && now.nodes[w.mine] == w.nodes[w.mine]
      && |now.acts| == |w.acts| + 1 && now.acts[..|w.acts|] == w.acts
      && now.acts[|w.acts|].Exchanged? && now.acts[|w.acts|].placed == w.mine
      && Matches(sha, now, now.acts[|w.acts|].displaced, expected)
  {
    hide Tick, Validate, Servable, Discard;
    var swapped := Exchange(w).world;
    AcceptedIsMatched(sha, swapped, expected);
  }

  lemma {:induction false} PlacedIsNew(w: World)
    requires w.staged == Some(w.mine) && w.mine in w.nodes && PublishNew(w).error.None?
    ensures var now := PublishNew(w).world;
      && now.mine == w.mine && now.staged == None && w.mine in now.nodes && now.nodes[w.mine] == w.nodes[w.mine]
      && now.acts == w.acts + [Placed(w.mine)]
  {
  }

  lemma {:induction false} SyncTouchesNothing(w: World)
    ensures Follows(w, Sync(w).world)
  {
    hide Tick;
  }

  // The probe that chooses how to publish, made after the checks.
  predicate FindsTarget(sha: seq<Byte> -> string, w: World, expected: Option<string>) {
    SeesTarget(Checks(sha, w, expected).world)
  }

  /** A success took the name by one exchange, for a plain file with the expected content, exactly when the probe
      found the target; otherwise it took a free name. No other change to the name was made. */
  lemma {:induction false} SuccessIsOneSwap(sha: seq<Byte> -> string, w: World, resolved: Option<Error>, expected: Option<string>, bytes: seq<Byte>)
    requires Fresh(w) && WriteAtomically(sha, w, resolved, expected, bytes).error.None?
    ensures var now := WriteAtomically(sha, w, resolved, expected, bytes).world;
      && now.staged == None && w.mine in now.nodes && now.nodes[w.mine] == File(1, bytes)
      && |now.acts| == |w.acts| + 1 && now.acts[..|w.acts|] == w.acts
      && var act := now.acts[|w.acts|];
        if FindsTarget(sha, w, expected)
        then act.Exchanged? && act.placed == w.mine && Matches(sha, now, act.displaced, expected)
        else act == Placed(w.mine)
  {
    hide Tick, Checks, Prepare, PublishOver, PublishNew, Sync;
    var checked := Checks(sha, w, expected).world;
    ChecksTouchNothing(sha, w, expected);
    PreparedIsStaged(checked, bytes);
    var prepared := Prepare(checked, bytes).world;
    if SeesTarget(checked) {
      SwappedIsMatched(sha, prepared, expected);
      SyncTouchesNothing(PublishOver(sha, prepared, expected).world);
    } else {
      PlacedIsNew(prepared);
      SyncTouchesNothing(PublishNew(prepared).world);
    }
  }

  /** `patch` is a compare-and-swap exactly when the probe found the target. */
  lemma {:induction false} PatchIsCompareAndSwap(sha: seq<Byte> -> string, w: World, resolved: Option<Error>, expected: string, bytes: seq<Byte>)
    requires Fresh(w) && Patch(sha, w, resolved, expected, bytes).error.None?
    ensures var now := Patch(sha, w, resolved, expected, bytes).world;
      && |now.acts| == |w.acts| + 1 && w.mine in now.nodes && now.nodes[w.mine] == File(1, bytes)
      && var act := now.acts[|w.acts|];
        (act.Exchanged? && act.placed == w.mine && IsPlainFile(now, act.displaced) && sha(now.nodes[act.displaced].bytes) == expected) <==>
        FindsTarget(sha, w, Some(expected))
  {
    SuccessIsOneSwap(sha, w, resolved, Some(expected), bytes);
  }

  // The second exchange of an undone one took the new file back, or what another process had put in its place.
  predicate TookBack(acts: seq<Act>, mine: Inode) {
    |acts| >= 2 && acts[0].Exchanged? && acts[0].placed == mine && acts[1] == Exchanged(mine, acts[0].displaced)
  }

  predicate TookAnother(acts: seq<Act>, mine: Inode) {
    && |acts| >= 2 && acts[0].Exchanged? && acts[0].placed == mine
    && acts[1].Exchanged? && acts[1].displaced != mine && acts[1].placed == acts[0].displaced
  }

  // What a refusal, with this error, did to the name.
  ghost predicate Refused(acts: seq<Act>, error: Error, now: World) {
    // nothing
    || acts == []
    // the new file took the name, and the exchange was not undone, or its outcome not confirmed
    || (|acts| == 1 && acts[0].Exchanged? && acts[0].placed == now.mine && error in {UnsafeEntry, Io})
    || (acts == [Placed(now.mine)] && error in {Io, ContainmentFailure})
    // what was displaced is back, and the name may be served or could not be contained
    || (|acts| == 2 && (TookBack(acts, now.mine) || TookAnother(acts, now.mine))
        && (error == ContainmentFailure || Servable(now, now.target)))
    // what has the name in the end was moved out of the workspace
    || (|acts| == 3 && (TookBack(acts, now.mine) || TookAnother(acts, now.mine)) && acts[2].Quarantined?)
    || (|acts| == 2 && acts[0] == Placed(now.mine) && acts[1].Quarantined?)
  }

  // The acts of `now` that `before` had not yet seen.
  ghost predicate Adds(before: World, acts: seq<Act>, now: World) { now.acts == before.acts + acts && now.mine == before.mine }

  lemma {:induction false} ValidateTouchesNothing(sha: seq<Byte> -> string, w: World, expected: Option<string>)
    ensures Follows(w, Validate(sha, w, expected).world)
  {
  }

  lemma {:induction false} RollBackUndoes(w: World, error: Error) returns (acts: seq<Act>)
    ensures var now := RollBack(w, error);
      && now.error.Some? && Adds(w, acts, now.world)
      && (acts == [] ==> now.error == Some(UnsafeEntry))
      && (acts != [] ==> acts[0].Exchanged? && w.staged == Some(acts[0].placed))
      && (|acts| == 1 ==> now.error == Some(ContainmentFailure) || Servable(now.world, now.world.target))
      && (|acts| == 2 ==> acts[1].Quarantined?) && |acts| <= 2
  {
    hide Tick, Servable;
    var back := Exchange(w);
    if back.error.Some? {
      acts := [];
    } else {
      var cleared := Discard(back.world);
      var now := Tick(cleared);
      acts := [Exchanged(Tick(w).target.value, Tick(w).staged.value)];
      if Faulty(cleared) || !Servable(now, now.target) {
        var contained := Quarantine(now);
        if contained.world.acts != now.acts {
          acts := acts + [Quarantined(Tick(now).target.value)];
        }
      }
    }
  }

  lemma {:induction false} ReplacingRefused(sha: seq<Byte> -> string, w: World, expected: Option<string>) returns (acts: seq<Act>)
    requires w.staged == Some(w.mine) && PublishOver(sha, w, expected).error.Some?
    ensures var now := PublishOver(sha, w, expected);
      Adds(w, acts, now.world) && Refused(acts, now.error.value, now.world)
  {
    hide Tick, Servable, Validate, RollBack;
    var swapped := Exchange(w);
    if swapped.error.Some? {
      acts := [];
    } else {
      acts := [Exchanged(Tick(w).target.value, w.mine)];
      var checked := Validate(sha, swapped.world, expected);
      ValidateTouchesNothing(sha, swapped.world, expected);
      if checked.error.Some? {
        var more := RollBackUndoes(checked.world, checked.error.value);
        acts := acts + more;
      }
    }
  }

  lemma {:induction false} CreatingRefused(w: World) returns (acts: seq<Act>)
    requires w.staged == Some(w.mine) && PublishNew(w).error.Some?
    ensures Adds(w, acts, PublishNew(w).world) && Refused(acts, PublishNew(w).error.value, PublishNew(w).world)
    ensures acts != [] ==> acts[0] == Placed(w.mine)
  {
    hide Tick, Servable, Verified;
    var placed := Place(w);
    if placed.error.Some? {
      acts := [];
    } else {
      acts := [Placed(w.mine)];
      var now := Tick(placed.world);
      var contained := Quarantine(now);
      if contained.world.acts != now.acts {
        acts := acts + [Quarantined(Tick(now).target.value)];
      }
    }
  }

  lemma {:induction false} PreparingAddsNothing(w: World, bytes: seq<Byte>)
    ensures Adds(w, [], Prepare(w, bytes).world)
  {
    hide Verified, Tick;
    var probed := Tick(w);
    assert Stage(probed, bytes).world.acts == w.acts && Stage(probed, bytes).world.mine == w.mine;
    assert VerifyStaged(Stage(probed, bytes).world).world.acts == w.acts;
  }

  /** What a refusal did to the name, in order, under any interference and faults: nothing; an exchange or a placement
      that stands; an exchange undone, over the new file or over another process's entry; or one of the last two
      and then the name moved out of the workspace. */
  lemma {:induction false} RefusalIsAccountedFor(
      sha: seq<Byte> -> string, w: World, resolved: Option<Error>, expected: Option<string>, bytes: seq<Byte>) returns (acts: seq<Act>)
    requires Fresh(w) && WriteAtomically(sha, w, resolved, expected, bytes).error.Some?
    ensures var now := WriteAtomically(sha, w, resolved, expected, bytes);
      Adds(w, acts, now.world) && Refused(acts, now.error.value, now.world)
  {
    hide Tick, Checks, Prepare, PublishOver, PublishNew, Servable, SeesTarget;
    acts := [];
    if |bytes| <= MAX_FILE_PAYLOAD_BYTES && resolved.None? {
      ChecksTouchNothing(sha, w, expected);
      var checked := Checks(sha, w, expected);
      PreparingAddsNothing(checked.world, bytes);
      var prepared := Prepare(checked.world, bytes);
      if checked.error.None? && prepared.error.None? {
        PreparedIsStaged(checked.world, bytes);
        acts := PublishingRefused(sha, prepared.world, expected, SeesTarget(checked.world));
      }
    }
  }

  lemma {:induction false} PublishingRefused(sha: seq<Byte> -> string, w: World, expected: Option<string>, present: bool) returns (acts: seq<Act>)
    requires w.staged == Some(w.mine) && w.mine in w.nodes
    ensures var published := if present then PublishOver(sha, w, expected) else PublishNew(w);
      var outcome := if published.error.Some? then published else Sync(published.world);
      outcome.error.Some? ==> Adds(w, acts, outcome.world) && Refused(acts, outcome.error.value, outcome.world)
  {
    hide Tick, PublishOver, PublishNew, Servable;
    var published := if present then PublishOver(sha, w, expected) else PublishNew(w);
    if published.error.Some? {
      if present {
        acts := ReplacingRefused(sha, w, expected);
      } else {
        acts := CreatingRefused(w);
      }
    } else {
      SyncTouchesNothing(published.world);
      if present {
        SwappedIsMatched(sha, w, expected);
        acts := [published.world.acts[|w.acts|]];
        assert published.world.acts == published.world.acts[..|w.acts|] + acts;
      } else {
        PlacedIsNew(w);
        acts := [Placed(w.mine)];
      }
    }
  }

  // ---------------------------------------------------------------------------------------------
  // What a call destroys.

  // A file or folder that could be served, not the new file, which this process unlinked. No entry ever changes, so
  // it could be served when it was taken off the name.
  predicate Lost(w: World, d: Inode) { d != w.mine && d in w.unlinked && Servable(w, Some(d)) }

  // Names lead to entries, different names to different entries, and none to an entry without a name.
  ghost predicate Names(w: World) {
    && Named(w, w.target) && Named(w, w.staged) && Named(w, w.quarantined)
    && (w.target.Some? ==> w.target != w.staged && w.target != w.quarantined)
    && (w.staged.Some? ==> w.staged != w.quarantined)
    && (forall d :: d in w.unlinked ==> d in w.nodes)
  }

  predicate Named(w: World, name: Option<Inode>) { name.Some? ==> name.value in w.nodes && !Nameless(w, name.value) }

  ghost predicate SameLosses(before: World, after: World) {
    && Names(after) && after.mine == before.mine
    && forall d :: Lost(after, d) <==> Lost(before, d)
  }

  // Containment removes a servable entry.
  predicate ContainmentLoses(w: World, d: Inode) {
    var now := Tick(w);
    && !Faulty(w) && now.target == Some(d) && !Faulty(now)
    && d != w.mine && Servable(now, now.target)
  }

  // The exchange back fails, by a fault or as nothing has the name, and the removal of what was displaced works.
  predicate CannotUndo(w: World, d: Inode) {
    && (Faulty(w) || Tick(w).target.None?) && !Faulty(Tick(w))
    && w.staged == Some(d) && d != w.mine && Servable(w, w.staged)
  }

  // Another entry has the name, the exchange back works, and so does the removal.
  predicate UndoesOverAnother(w: World, d: Inode) {
    var now := Tick(w);
    && !Faulty(w) && now.target == Some(d) && !Faulty(now)
    && d != w.mine && Servable(now, now.target)
  }

  // The exchange back works, the check of the name after it fails, and containment loses what then has the name.
  predicate ContainsUndone(w: World, d: Inode) {
    var cleared := Discard(Exchange(w).world);
    && !Faulty(w) && Tick(w).target.Some?
    && (Faulty(cleared) || !Servable(Tick(cleared), Tick(cleared).target))
    && ContainmentLoses(Tick(cleared), d)
  }

  predicate RollBackLoses(w: World, d: Inode) { CannotUndo(w, d) || UndoesOverAnother(w, d) || ContainsUndone(w, d) }

  // The exchange was accepted, and the removal of what it displaced works: the one loss that is asked for.
  predicate Replaces(w: World, d: Inode) { w.staged == Some(d) && !Faulty(w) && d != w.mine && Servable(w, w.staged) }

  // The check after a placement fails, and containment loses what then has the name.
  predicate ContainsPlaced(w: World, d: Inode) {
    (Faulty(w) || Verified(Tick(w), Tick(w).target).Some?) && ContainmentLoses(Tick(w), d)
  }

  predicate PublishingLoses(sha: seq<Byte> -> string, w: World, expected: Option<string>, present: bool, d: Inode) {
    if present then
      && Exchange(w).error.None?
      && var judged := Validate(sha, Exchange(w).world, expected);
        if judged.error.Some? then RollBackLoses(judged.world, d) else Replaces(judged.world, d)
    else Place(w).error.None? && ContainsPlaced(Place(w).world, d)
  }

  // The world in which the call publishes what it staged, if it comes to that.
  function Publishing(sha: seq<Byte> -> string, w: World, resolved: Option<Error>, expected: Option<string>, bytes: seq<Byte>): Option<World> {
    if |bytes| > MAX_FILE_PAYLOAD_BYTES || resolved.Some? then None
    else
      var checked := Checks(sha, w, expected);
      if checked.error.Some? || Prepare(checked.world, bytes).error.Some? then None
      else Some(Prepare(checked.world, bytes).world)
  }

  lemma {:induction false} FreshNames(w: World)
    requires Fresh(w)
    ensures Names(w) && forall d :: !Lost(w, d)
  {
  }

  lemma {:induction false} TickKeeps(w: World)
    requires Names(w)
    ensures SameLosses(w, Tick(w))
  {
  }

  lemma {:induction false} ChecksKeep(sha: seq<Byte> -> string, w: World, expected: Option<string>)
    requires Names(w)
    ensures SameLosses(w, Checks(sha, w, expected).world)
  {
    hide Tick, Lost, Names, Stated, CheckDigest;
    TickKeeps(w);
    TickKeeps(Tick(w));
  }

  lemma {:induction false} ValidateKeeps(sha: seq<Byte> -> string, w: World, expected: Option<string>)
    requires Names(w)
    ensures SameLosses(w, Validate(sha, w, expected).world)
  {
    hide Tick, Lost, Names, Stated, Verified, CheckDigest;
    TickKeeps(w);
    TickKeeps(Tick(w));
    TickKeeps(Tick(Tick(w)));
  }

  lemma {:induction false} SyncKeeps(w: World)
    requires Names(w)
    ensures SameLosses(w, Sync(w).world)
  {
    hide Tick, Lost, Names;
    TickKeeps(w);
    TickKeeps(Tick(w));
  }

  lemma {:induction false} UnstagingLoses(w: World, d: Inode)
    requires Names(w)
    ensures Names(Unstaged(w))
    ensures Lost(Unstaged(w), d) <==> Lost(w, d) || (w.staged == Some(d) && d != w.mine && Servable(w, w.staged))
  {
  }

  lemma {:induction false} DiscardLoses(w: World, d: Inode)
    requires Names(w)
    ensures Names(Discard(w))
    ensures Lost(Discard(w), d) <==> Lost(w, d) || (!Faulty(w) && w.staged == Some(d) && d != w.mine && Servable(w, w.staged))
  {
    TickKeeps(w);
    UnstagingLoses(Tick(w), d);
    hide Tick, Lost, Names, Unstaged;
  }

  lemma {:induction false} ExchangeKeeps(w: World)
    requires Names(w)
    ensures SameLosses(w, Exchange(w).world)
  {
    TickKeeps(w);
    hide Tick;
  }

  lemma {:induction false} PlaceKeeps(w: World)
    requires Names(w)
    ensures SameLosses(w, Place(w).world)
  {
    TickKeeps(w);
    hide Tick;
  }

  lemma {:induction false} ContainmentIsExact(w: World, d: Inode)
    requires Names(w) && w.quarantined.None?
    ensures Names(Quarantine(w).world)
    ensures Lost(Quarantine(w).world, d) <==> Lost(w, d) || ContainmentLoses(w, d)
  {
    TickKeeps(w);
    var now := Tick(w);
    if !Faulty(w) && now.target.Some? {
      var moved := now.(target := None, quarantined := now.target, acts := now.acts + [Quarantined(now.target.value)]);
      assert Names(moved) && (Lost(moved, d) <==> Lost(now, d));
      TickKeeps(moved);
    }
    hide Tick;
  }

  /** A roll back destroys a servable entry in exactly three cases. */
  lemma {:induction false} RollBackIsExact(w: World, error: Error, d: Inode)
    requires Names(w) && w.quarantined.None? && w.staged.Some?
    ensures Names(RollBack(w, error).world)
    ensures Lost(RollBack(w, error).world, d) <==> Lost(w, d) || RollBackLoses(w, d)
  {
    hide Tick, Names, Servable, Lost, Discard, ContainmentLoses;
    var back := Exchange(w);
    ExchangeKeeps(w);
    if back.error.Some? {
      FailedUndoLoses(w, d);
    } else {
      UndoLoses(w, d);
      var cleared := Discard(back.world);
      TickKeeps(cleared);
      ContainmentIsExact(Tick(cleared), d);
    }
  }

  lemma {:induction false} FailedUndoLoses(w: World, d: Inode)
    requires Names(w) && w.staged.Some? && Exchange(w).error.Some?
    ensures Names(Discard(Exchange(w).world))
    ensures Lost(Discard(Exchange(w).world), d) <==> Lost(w, d) || CannotUndo(w, d)
    ensures !UndoesOverAnother(w, d) && !ContainsUndone(w, d)
  {
    TickKeeps(w);
    DiscardLoses(Tick(w), d);
    StagedStaysServable(w);
    hide Tick, Names, Lost, Servable, Discard;
  }

  lemma {:induction false} UndoLoses(w: World, d: Inode)
    requires Names(w) && w.staged.Some? && Exchange(w).error.None?
    ensures var cleared := Discard(Exchange(w).world);
      && Names(cleared) && (Lost(cleared, d) <==> Lost(w, d) || UndoesOverAnother(w, d))
      && cleared.quarantined == w.quarantined
    ensures !CannotUndo(w, d) && !Faulty(w) && Tick(w).target.Some?
  {
    var back := Exchange(w).world;
    ExchangeKeeps(w);
    DiscardLoses(back, d);
    assert back.nodes == Tick(w).nodes && back.script == Tick(w).script && back.staged == Tick(w).target;
    hide Tick, Names, Lost;
  }

  lemma {:induction false} StagedStaysServable(w: World)
    requires Names(w)
    ensures Servable(Tick(w), w.staged) <==> Servable(w, w.staged)
  {
    hide Tick;
  }

  lemma {:induction false} ReplacingIsExact(sha: seq<Byte> -> string, w: World, expected: Option<string>, d: Inode)
    requires Names(w) && w.quarantined.None? && w.staged == Some(w.mine)
    ensures Names(PublishOver(sha, w, expected).world)
    ensures Lost(PublishOver(sha, w, expected).world, d) <==> Lost(w, d) || PublishingLoses(sha, w, expected, true, d)
  {
    hide RollBack, Validate;
    var swapped := Exchange(w);
    ExchangeKeeps(w);
    if swapped.error.Some? {
      DiscardLoses(swapped.world, d);
    } else {
      var judged := Validate(sha, swapped.world, expected);
      ValidateKeeps(sha, swapped.world, expected);
      ValidateTouchesNothing(sha, swapped.world, expected);
      if judged.error.Some? {
        RollBackIsExact(judged.world, judged.error.value, d);
      } else {
        TickKeeps(judged.world);
        UnstagingLoses(Tick(judged.world), d);
      }
    }
    hide Tick, Names, Lost, RollBackLoses;
  }

  lemma {:induction false} CreatingIsExact(sha: seq<Byte> -> string, w: World, expected: Option<string>, d: Inode)
    requires Names(w) && w.quarantined.None? && w.staged == Some(w.mine)
    ensures Names(PublishNew(w).world)
    ensures Lost(PublishNew(w).world, d) <==> Lost(w, d) || PublishingLoses(sha, w, expected, false, d)
  {
    var placed := Place(w);
    PlaceKeeps(w);
    if placed.error.Some? {
      DiscardLoses(placed.world, d);
    } else {
      TickKeeps(placed.world);
      ContainmentIsExact(Tick(placed.world), d);
    }
    hide Tick, Names, Lost, ContainmentLoses;
  }

  lemma {:induction false} PreparingKeeps(w: World, bytes: seq<Byte>)
    requires Names(w) && w.staged.None? && w.quarantined.None? && w.mine !in w.nodes
    ensures SameLosses(w, Prepare(w, bytes).world)
  {
    hide Tick, Names, Lost, Stage, Verified, Servable;
    TickKeeps(w);
    var staged := Stage(Tick(w), bytes);
    StagingKeeps(Tick(w), bytes);
    if staged.error.None? {
      VerifyingKeeps(staged.world);
    }
  }

  lemma {:induction false} VerifyingKeeps(w: World)
    requires Names(w) && w.staged == Some(w.mine)
    ensures SameLosses(w, VerifyStaged(w).world)
  {
    hide Tick, Names, Lost, Verified, Servable;
    TickKeeps(w);
    var now := Tick(w);
    DiscardLoses(now, w.mine);
    forall d ensures Names(Discard(now)) && (Lost(Discard(now), d) <==> Lost(now, d)) {
      DiscardLoses(now, d);
    }
  }

  lemma {:induction false} StagingKeeps(w: World, bytes: seq<Byte>)
    requires Names(w) && w.staged.None? && w.quarantined.None? && w.mine !in w.nodes
    ensures SameLosses(w, Stage(w, bytes).world)
    ensures Stage(w, bytes).error.None? ==> Stage(w, bytes).world.staged == Some(w.mine)
  {
    hide Tick, Names, Lost;
    TickKeeps(w);
    var free := Tick(w);
    if !Faulty(w) {
      CreatingKeeps(free, File(1, []));
      var created := free.(nodes := free.nodes[w.mine := File(1, [])], staged := Some(w.mine));
      TickKeeps(created);
      TickKeeps(Tick(created));
      FillingKeeps(Tick(Tick(created)), bytes);
    }
  }

  // The new file appears under the staged name.
  lemma {:induction false} CreatingKeeps(w: World, file: Node)
    requires Names(w) && w.staged.None? && w.quarantined.None? && w.mine !in w.nodes
    ensures SameLosses(w, w.(nodes := w.nodes[w.mine := file], staged := Some(w.mine)))
  {
  }

  // It is given its content, or removed.
  lemma {:induction false} FillingKeeps(w: World, bytes: seq<Byte>)
    requires Names(w) && w.staged == Some(w.mine) && w.nodes[w.mine] == File(1, [])
    ensures SameLosses(w, Unstaged(w))
    ensures SameLosses(w, w.(nodes := w.nodes[w.mine := File(1, bytes)]))
  {
  }

  /** Under any interference and faults a call destroys a servable entry, other than its own new file, exactly when
      it replaces it as asked, or the roll back of a refused exchange loses it, or containment after a placement. */
  lemma {:induction false} LossIsExact(
      sha: seq<Byte> -> string, w: World, resolved: Option<Error>, expected: Option<string>, bytes: seq<Byte>, d: Inode)
    requires Fresh(w)
    ensures var published := Publishing(sha, w, resolved, expected, bytes);
      Lost(WriteAtomically(sha, w, resolved, expected, bytes).world, d) <==>
      published.Some? && PublishingLoses(sha, published.value, expected, FindsTarget(sha, w, expected), d)
    ensures Names(WriteAtomically(sha, w, resolved, expected, bytes).world)
  {
    FreshNames(w);
    ChecksKeep(sha, w, expected);
    ChecksTouchNothing(sha, w, expected);
    var checked := Checks(sha, w, expected);
    PreparingKeeps(checked.world, bytes);
    hide Tick, Checks, Prepare, PublishOver, PublishNew, Sync, SeesTarget, Lost, Names, PublishingLoses;
    if Publishing(sha, w, resolved, expected, bytes).Some? {
      PreparedIsStaged(checked.world, bytes);
      var prepared := Prepare(checked.world, bytes).world;
      ReplacingIsExact(sha, prepared, expected, d);
      CreatingIsExact(sha, prepared, expected, d);
      var published := if SeesTarget(checked.world) then PublishOver(sha, prepared, expected) else PublishNew(prepared);
      SyncKeeps(published.world);
    }
  }

  // ---------------------------------------------------------------------------------------------
  // Where everything goes that a call takes off the name.

  predicate Takes(act: Act, d: Inode) { (act.Exchanged? && act.displaced == d) || (act.Quarantined? && act.inode == d) }

  predicate PutsBack(act: Act, d: Inode) { (act.Exchanged? && act.placed == d) || (act.Placed? && act.inode == d) }

  // Under one of the private names, or unlinked.
  predicate Kept(w: World, d: Inode) { w.staged == Some(d) || w.quarantined == Some(d) || d in w.unlinked }

  // What was taken off the name since `before` is kept or was put back, and nothing else is kept.
  ghost predicate Accounts(before: World, w: World, d: Inode) {
    && w.mine == before.mine && |before.acts| <= |w.acts|
    && (Kept(w, d) ==> exists i :: |before.acts| <= i < |w.acts| && Takes(w.acts[i], d))
    && (forall i :: |before.acts| <= i < |w.acts| && Takes(w.acts[i], d) ==>
      Kept(w, d) || exists j :: i < j < |w.acts| && PutsBack(w.acts[j], d))
  }

  lemma {:induction false} FollowingAccounts(before: World, w: World, now: World, d: Inode)
    requires Accounts(before, w, d) && now.mine == w.mine && now.acts == w.acts && (Kept(now, d) <==> Kept(w, d))
    ensures Accounts(before, now, d)
  {
  }

  lemma {:induction false} ActingAccounts(before: World, w: World, now: World, act: Act, d: Inode)
    requires Accounts(before, w, d) && now.mine == w.mine && now.acts == w.acts + [act]
    requires Takes(act, d) ==> Kept(now, d)
    requires Kept(w, d) ==> Kept(now, d) || PutsBack(act, d)
    requires Kept(now, d) ==> Kept(w, d) || Takes(act, d)
    ensures Accounts(before, now, d)
  {
    assert now.acts[|w.acts|] == act;
    forall i | |before.acts| <= i < |now.acts| && Takes(now.acts[i], d)
      ensures Kept(now, d) || exists j :: i < j < |now.acts| && PutsBack(now.acts[j], d)
    {
      if i < |w.acts| && !Kept(w, d) {
        assert Takes(w.acts[i], d);
        var j :| i < j < |w.acts| && PutsBack(w.acts[j], d);
        assert now.acts[j] == w.acts[j];
      }
    }
    if Kept(w, d) {
      var i :| |before.acts| <= i < |w.acts| && Takes(w.acts[i], d);
      assert now.acts[i] == w.acts[i];
    }
  }

  lemma {:induction false} ExchangeAccounts(before: World, w: World, d: Inode)
    requires Accounts(before, w, d)
    ensures Accounts(before, Exchange(w).world, d)
  {
    hide Tick, Accounts;
    var now := Tick(w);
    FollowingAccounts(before, w, now, d);
    if Exchange(w).error.None? {
      ActingAccounts(before, now, Exchange(w).world, Exchanged(now.target.value, now.staged.value), d);
    }
  }

  lemma {:induction false} PlaceAccounts(before: World, w: World, d: Inode)
    requires Accounts(before, w, d)
    ensures Accounts(before, Place(w).world, d)
  {
    hide Tick, Accounts;
    var now := Tick(w);
    FollowingAccounts(before, w, now, d);
    if Place(w).error.None? {
      ActingAccounts(before, now, Place(w).world, Placed(now.staged.value), d);
    }
  }

  lemma {:induction false} ContainmentAccounts(before: World, w: World, d: Inode)
    requires Accounts(before, w, d) && w.quarantined.None?
    ensures Accounts(before, Quarantine(w).world, d)
  {
    hide Tick, Accounts;
    var now := Tick(w);
    FollowingAccounts(before, w, now, d);
    if !Faulty(w) && now.target.Some? {
      var act := Quarantined(now.target.value);
      var moved := now.(target := None, quarantined := now.target, acts := now.acts + [act]);
      ActingAccounts(before, now, moved, act, d);
      FollowingAccounts(before, moved, Quarantine(w).world, d);
    }
  }

  lemma {:induction false} DiscardAccounts(before: World, w: World, d: Inode)
    requires Accounts(before, w, d)
    ensures Accounts(before, Discard(w), d) && Discard(w).quarantined == w.quarantined
  {
    hide Tick, Accounts;
    FollowingAccounts(before, w, Discard(w), d);
  }

  lemma {:induction false} RollBackAccounts(before: World, w: World, error: Error, d: Inode)
    requires Accounts(before, w, d) && w.quarantined.None?
    ensures Accounts(before, RollBack(w, error).world, d)
  {
    hide Tick, Accounts, Servable, Discard, Quarantine;
    var back := Exchange(w);
    ExchangeAccounts(before, w, d);
    DiscardAccounts(before, back.world, d);
    var cleared := Discard(back.world);
    FollowingAccounts(before, cleared, Tick(cleared), d);
    ContainmentAccounts(before, Tick(cleared), d);
  }

  lemma {:induction false} ReplacingAccounts(sha: seq<Byte> -> string, before: World, w: World, expected: Option<string>, d: Inode)
    requires Accounts(before, w, d) && w.quarantined.None?
    ensures Accounts(before, PublishOver(sha, w, expected).world, d)
  {
    hide Tick, Accounts, Validate, RollBack, Discard;
    var swapped := Exchange(w);
    ExchangeAccounts(before, w, d);
    DiscardAccounts(before, swapped.world, d);
    var judged := Validate(sha, swapped.world, expected).world;
    ValidateTouchesNothing(sha, swapped.world, expected);
    FollowingAccounts(before, swapped.world, judged, d);
    if swapped.error.None? {
      if Validate(sha, swapped.world, expected).error.Some? {
        RollBackAccounts(before, judged, Validate(sha, swapped.world, expected).error.value, d);
      } else {
        FollowingAccounts(before, judged, PublishOver(sha, w, expected).world, d);
      }
    }
  }

  lemma {:induction false} CreatingAccounts(before: World, w: World, d: Inode)
    requires Accounts(before, w, d) && w.quarantined.None?
    ensures Accounts(before, PublishNew(w).world, d)
  {
    hide Tick, Accounts, Verified, Discard, Quarantine;
    var placed := Place(w).world;
    PlaceAccounts(before, w, d);
    DiscardAccounts(before, placed, d);
    FollowingAccounts(before, placed, Tick(placed), d);
    ContainmentAccounts(before, Tick(placed), d);
  }

  // Until something is published only the new file is staged or unlinked.
  lemma {:induction false} PreparingAccounts(w: World, bytes: seq<Byte>, d: Inode)
    requires w.staged.None? && w.quarantined.None? && w.unlinked == {} && d != w.mine
    ensures !Kept(Prepare(w, bytes).world, d)
  {
    hide Tick, Verified;
    var staged := Stage(Tick(w), bytes);
    assert !Kept(staged.world, d);
    hide Stage;
  }

  /** Under any interference and faults, whatever a call takes off the name, it puts back, keeps under a private name
      or unlinks; it keeps or unlinks nothing else but its new file; and what it unlinked has none of these names,
      unless it has other names too. */
  lemma {:induction false} TakenIsAccountedFor(
      sha: seq<Byte> -> string, w: World, resolved: Option<Error>, expected: Option<string>, bytes: seq<Byte>, d: Inode)
    requires Fresh(w) && d != w.mine
    ensures var now := WriteAtomically(sha, w, resolved, expected, bytes).world;
      && Accounts(w, now, d)
      && (Nameless(now, d) ==> now.target != Some(d) && now.staged != Some(d) && now.quarantined != Some(d))
  {
    LossIsExact(sha, w, resolved, expected, bytes, d);
    ChecksTouchNothing(sha, w, expected);
    var checked := Checks(sha, w, expected);
    FollowingAccounts(w, w, checked.world, d);
    PreparingAccounts(checked.world, bytes, d);
    PreparingAddsNothing(checked.world, bytes);
    var prepared := Prepare(checked.world, bytes);
    FollowingAccounts(w, checked.world, prepared.world, d);
    hide Tick, Checks, Prepare, PublishOver, PublishNew, Sync, SeesTarget, Accounts, PublishingLoses, Publishing;
    if checked.error.None? && prepared.error.None? {
      PreparedIsStaged(checked.world, bytes);
      ReplacingAccounts(sha, w, prepared.world, expected, d);
      CreatingAccounts(w, prepared.world, d);
      var published := if SeesTarget(checked.world) then PublishOver(sha, prepared.world, expected) else PublishNew(prepared.world);
      SyncTouchesNothing(published.world);
      FollowingAccounts(w, published.world, Sync(published.world).world, d);
    }
  }

  const STILL := Event(None, false)

  // Nothing fails, and others rename once: right after a `write` has exchanged or placed its new file. What they put
  // on the name, if anything, is an entry of theirs.
  predicate RenamedAfterPublishing(w: World, rename: Rename) {
    && w.script == [STILL, STILL, STILL, STILL, STILL, STILL, STILL, Event(Some(rename), false)]
    && (rename.target.Some? ==>
      rename.target.value in rename.created && rename.target.value !in w.nodes && rename.target.value != w.mine)
  }

  function StagedStill(w: World, bytes: seq<Byte>, rename: Rename): World {
    w.(nodes := w.nodes[w.mine := File(1, bytes)], staged := Some(w.mine), script := [STILL] + [Event(Some(rename), false)])
  }

  lemma {:induction false} StillTick(w: World)
    requires w.script != [] && w.script[0] == STILL
    ensures Tick(w) == w.(script := w.script[1..]) && !Faulty(w)
  {
  }

  lemma {:induction false} StillPrepare(w: World, bytes: seq<Byte>, script: seq<Event>)
    requires Fresh(w) && w.script == [STILL, STILL, STILL, STILL, STILL] + script
    ensures Prepare(w, bytes) == Done(w.(nodes := w.nodes[w.mine := File(1, bytes)], staged := Some(w.mine), script := script))
  {
    hide Tick, Faulty;
    var created := w.(nodes := w.nodes[w.mine := File(1, [])], staged := Some(w.mine), script := [STILL, STILL, STILL] + script);
    StillTick(w);
    assert w.script[1..] == [STILL, STILL, STILL, STILL] + script;
    var probed := Tick(w);
    StillTick(probed);
    assert probed.script[1..] == [STILL, STILL, STILL] + script;
    StillTick(created);
    assert created.script[1..] == [STILL, STILL] + script;
    StillTick(Tick(created));
    assert Tick(created).script[1..] == [STILL] + script;
    var staged := w.(nodes := w.nodes[w.mine := File(1, bytes)], staged := Some(w.mine), script := [STILL] + script);
    assert created.nodes[w.mine := File(1, bytes)] == staged.nodes;
    assert Stage(probed, bytes) == Done(staged);
    StillTick(staged);
    assert staged.script[1..] == script;
  }

  lemma {:induction false} StillWrite(sha: seq<Byte> -> string, w: World, bytes: seq<Byte>, rename: Rename)
    requires Fresh(w) && RenamedAfterPublishing(w, rename) && |bytes| <= MAX_FILE_PAYLOAD_BYTES
    requires w.target.Some? ==> IsPlainFile(w, w.target.value)
    ensures var staged := StagedStill(w, bytes, rename);
      var published := if w.target.Some? then PublishOver(sha, staged, None) else PublishNew(staged);
      WriteAtomically(sha, w, None, None, bytes) == if published.error.Some? then published else Sync(published.world)
  {
    hide Prepare, PublishOver, PublishNew, Sync;
    var away := [Event(Some(rename), false)];
    assert w.script[1..] == [STILL, STILL, STILL, STILL, STILL] + ([STILL] + away);
    var looked := w.(script := w.script[1..]);
    assert Checks(sha, w, None) == Done(looked) by { StillTick(w); hide Tick; }
    StillPrepare(looked, bytes, [STILL] + away);
    assert SeesTarget(looked) <==> w.target.Some? by { StillTick(looked); hide Tick; }
  }

  /** Then the displaced file is lost when the rename leaves nothing on the name, and the other entry, if it may be
      served, when it leaves one. */
  lemma {:induction false} LossWithoutFault(sha: seq<Byte> -> string, w: World, bytes: seq<Byte>, rename: Rename)
    requires Fresh(w) && RenamedAfterPublishing(w, rename) && |bytes| <= MAX_FILE_PAYLOAD_BYTES
    requires w.target.Some? && IsPlainFile(w, w.target.value)
    ensures var now := WriteAtomically(sha, w, None, None, bytes).world;
      && WriteAtomically(sha, w, None, None, bytes).error.Some?
      && if rename.target.None?
        then now.target == None && Lost(now, w.target.value)
        else now.target == w.target && (Servable(now, rename.target) ==> Lost(now, rename.target.value))
  {
    StillWrite(sha, w, bytes, rename);
    var prepared := StagedStill(w, bytes, rename);
    hide WriteAtomically;
    StillTick(prepared);
    assert prepared.script[1..] == [Event(Some(rename), false)];
    var swapped := Exchange(prepared).world;
    assert swapped.target == Some(w.mine) && swapped.staged == w.target;
    var renamed := Tick(swapped);
    assert renamed.script == [] && renamed.target == rename.target && Tick(renamed) == renamed;
    var judged := Validate(sha, swapped, None);
    assert judged.world == renamed && judged.error.Some?;
    hide Validate;
    RenamedRollBack(renamed, judged.error.value);
  }

  lemma {:induction false} RenamedRollBack(w: World, error: Error)
    requires w.script == [] && w.staged.Some? && IsPlainFile(w, w.staged.value) && w.staged.value != w.mine
    requires w.target != Some(w.mine)
    ensures var now := RollBack(w, error).world;
      && if w.target.None?
        then now.target == None && Lost(now, w.staged.value)
        else now.target == w.staged && (Servable(now, w.target) ==> Lost(now, w.target.value))
  {
  }

  /** A file that another process puts on a free name right after the placement is lost to containment, although
      nothing fails and nothing was exchanged. */
  lemma {:induction false} LossByContainment(sha: seq<Byte> -> string, w: World, bytes: seq<Byte>, rename: Rename)
    requires Fresh(w) && RenamedAfterPublishing(w, rename) && |bytes| <= MAX_FILE_PAYLOAD_BYTES
    requires w.target.None? && rename.target.Some?
    requires var theirs := rename.created[rename.target.value]; theirs.File? && theirs.links == 1
    ensures var outcome := WriteAtomically(sha, w, None, None, bytes);
      && outcome.error == Some(UnsafeEntry) && Lost(outcome.world, rename.target.value)
      && outcome.world.acts == w.acts + [Placed(w.mine), Quarantined(rename.target.value)]
      && outcome.world.target.None? && outcome.world.staged.None? && outcome.world.quarantined.None?
  {
    StillWrite(sha, w, bytes, rename);
    var prepared := StagedStill(w, bytes, rename);
    hide WriteAtomically;
    StillTick(prepared);
    assert prepared.script[1..] == [Event(Some(rename), false)];
    var placed := Place(prepared).world;
    assert placed.target == Some(w.mine) && placed.staged.None?;
    var renamed := Tick(placed);
    assert renamed.script == [] && renamed.target == rename.target;
    FreshNames(w);
    assert !Faulty(placed) && IsPlainFile(renamed, rename.target.value);
    hide Tick, Place;
    TakenIsContained(renamed, rename.target.value);
  }

  lemma {:induction false} TakenIsContained(w: World, x: Inode)
    requires w.script == [] && w.target == Some(x) && x != w.mine && IsPlainFile(w, x)
    ensures Verified(w, w.target) == Some(UnsafeEntry)
    ensures Quarantine(w) ==
      Done(w.(target := None, quarantined := None, acts := w.acts + [Quarantined(x)], unlinked := w.unlinked + {x}))
  {
  }

  // Others put a file of theirs on the name right before the exchange of a `patch`, and the check of the name after
  // the roll back fails.
  predicate FaultsAfterUndo(w: World, rename: Rename) {
    && w.script == [STILL, STILL] + ([STILL, STILL, STILL, STILL, STILL] + Undoing(rename))
    && rename.target.Some? && rename.target.value in rename.created
    && rename.target.value !in w.nodes && rename.target.value != w.mine
  }

  function Undoing(rename: Rename): seq<Event> {
    [Event(Some(rename), false)] + [STILL, STILL, STILL, STILL, STILL] + [Event(None, true)]
  }

  /** Then that file is lost to containment, although the new file had been taken back. */
  lemma {:induction false} LossByFailedCheck(sha: seq<Byte> -> string, w: World, expected: string, bytes: seq<Byte>, rename: Rename)
    requires Fresh(w) && FaultsAfterUndo(w, rename) && |bytes| <= MAX_FILE_PAYLOAD_BYTES && IsDigest(expected)
    requires w.target.Some? && Matches(sha, w, w.target.value, Some(expected))
    requires var theirs := rename.created[rename.target.value];
      theirs.File? && theirs.links == 1 && |theirs.bytes| <= MAX_FILE_PAYLOAD_BYTES && sha(theirs.bytes) != expected
    ensures var outcome := Patch(sha, w, None, expected, bytes);
      && outcome.error == Some(Conflict) && outcome.world.target.None? && Lost(outcome.world, rename.target.value)
  {
    hide IsDigest;
    var looked := w.(script := [STILL, STILL, STILL, STILL, STILL] + Undoing(rename));
    var staged := w.(nodes := w.nodes[w.mine := File(1, bytes)], staged := Some(w.mine), script := Undoing(rename));
    assert Checks(sha, w, Some(expected)) == Done(looked) by {
      StillTick(w);
      assert w.script[1..] == [STILL] + looked.script;
      StillTick(Tick(w));
      assert Tick(w).script[1..] == looked.script;
      hide Tick;
    }
    StillPrepare(looked, bytes, Undoing(rename));
    assert SeesTarget(looked) by { StillTick(looked); hide Tick; }
    UndoneAndContained(sha, staged, expected, rename);
    hide Tick, Checks, Prepare, PublishOver, SeesTarget, Lost;
  }

  lemma {:induction false} UndoneAndContained(sha: seq<Byte> -> string, w: World, expected: string, rename: Rename)
    requires w.script == Undoing(rename) && w.staged == Some(w.mine) && IsPlainFile(w, w.mine) && w.quarantined.None? && w.unlinked == {}
    requires rename.target.Some? && rename.target.value in rename.created
    requires rename.target.value !in w.nodes
    requires var theirs := rename.created[rename.target.value];
      theirs.File? && theirs.links == 1 && |theirs.bytes| <= MAX_FILE_PAYLOAD_BYTES && sha(theirs.bytes) != expected
    ensures var outcome := PublishOver(sha, w, Some(expected));
      && outcome.error == Some(Conflict) && outcome.world.target.None? && Lost(outcome.world, rename.target.value)
  {
    var swapped := Exchange(w);
    assert w.script[1..] == [STILL, STILL, STILL, STILL, STILL] + [Event(None, true)];
    assert swapped.error.None? && swapped.world.staged == rename.target && swapped.world.target == Some(w.mine);
    var after := swapped.world.(script := [STILL, STILL] + [Event(None, true)]);
    hide Exchange;
    assert Validate(sha, swapped.world, Some(expected)) == Fail(after, Conflict) by {
      var s := swapped.world;
      StillTick(s);
      assert s.script[1..] == [STILL, STILL, STILL, STILL] + [Event(None, true)];
      StillTick(Tick(s));
      assert Tick(s).script[1..] == [STILL, STILL, STILL] + [Event(None, true)];
      StillTick(Tick(Tick(s)));
      assert Tick(Tick(s)).script[1..] == after.script;
      hide Tick;
    }
    hide Validate;
    FaultyCheckContains(after, Conflict);
  }

  lemma {:induction false} FaultyCheckContains(w: World, error: Error)
    requires w.script == [STILL, STILL] + [Event(None, true)] && w.target == Some(w.mine)
    requires w.staged.Some? && w.staged.value != w.mine && IsPlainFile(w, w.staged.value)
    ensures var outcome := RollBack(w, error);
      outcome.error == Some(error) && outcome.world.target.None? && Lost(outcome.world, w.staged.value)
  {
    StillTick(w);
    assert w.script[1..] == [STILL] + [Event(None, true)];
    var back := Exchange(w).world;
    StillTick(back);
    assert back.script[1..] == [Event(None, true)];
    var now := Tick(Discard(back));
    assert now.script == [] && now.target == w.staged;
    assert Tick(now) == now;
  }

  // The target is renamed away after its digest was read and before the probe.
  predicate VanishesBeforeProbe(w: World) {
    w.script == [Event(None, false), Event(None, false), Event(Some(Rename(None, map[])), false)]
  }

  /** Then `patch` succeeds without having displaced anything. */
  lemma {:induction false} PatchOfVanishedTarget(sha: seq<Byte> -> string, w: World, expected: string, bytes: seq<Byte>)
    requires Fresh(w) && VanishesBeforeProbe(w) && |bytes| <= MAX_FILE_PAYLOAD_BYTES && IsDigest(expected)
    requires w.target.Some? && Matches(sha, w, w.target.value, Some(expected))
    ensures Patch(sha, w, None, expected, bytes).error == None
    ensures Patch(sha, w, None, expected, bytes).world.acts == w.acts + [Placed(w.mine)]
  {
    hide IsDigest;
    var checked := Checks(sha, w, Some(expected));
    assert checked == Done(w.(script := w.script[2..]));
    var probed := Tick(checked.world);
    assert probed.script == [] && probed.target == None && probed.nodes == w.nodes;
    assert Prepare(checked.world, bytes) == Done(probed.(nodes := w.nodes[w.mine := File(1, bytes)], staged := Some(w.mine)));
  }

  // ---------------------------------------------------------------------------------------------
  // Without interference or faults.

  predicate CanWrite(sha: seq<Byte> -> string, w: World, resolved: Option<Error>, expected: Option<string>, bytes: seq<Byte>) {
    && |bytes| <= MAX_FILE_PAYLOAD_BYTES && resolved == None
    && (if Opened(w, w.target).Ok? then Matches(sha, w, w.target.value, expected) else expected == None)
  }

  lemma {:induction false} QuietChecks(sha: seq<Byte> -> string, w: World, expected: Option<string>)
    requires w.script == []
    ensures Checks(sha, w, expected).world == w
    ensures Checks(sha, w, expected).error.None? <==> CanWrite(sha, w, None, expected, [])
  {
  }

  lemma {:induction false} QuietPrepare(w: World, bytes: seq<Byte>)
    requires w.script == [] && Fresh(w)
    ensures Prepare(w, bytes) == Done(w.(nodes := w.nodes[w.mine := File(1, bytes)], staged := Some(w.mine)))
  {
  }

  /** Left alone, an exchange that should not have happened is undone: what it displaced is back, or, when that
      may not be served, contained. */
  lemma {:induction false} QuietPublishOver(sha: seq<Byte> -> string, w: World, expected: Option<string>)
    requires w.script == [] && w.staged == Some(w.mine) && IsPlainFile(w, w.mine) && w.target != w.staged && w.target.Some?
    ensures var outcome := PublishOver(sha, w, expected);
      && (outcome.error.None? <==> Matches(sha, w, w.target.value, expected))
      && outcome.world == w.(staged := None, quarantined := outcome.world.quarantined, acts := outcome.world.acts,
        target := if outcome.error.None? then Some(w.mine) else if Servable(w, w.target) then w.target else None,
        unlinked := w.unlinked + if outcome.error.None? then {w.target.value}
          else if Servable(w, w.target) then {w.mine} else {w.mine, w.target.value})
      && (outcome.world.quarantined == w.quarantined || (outcome.error.Some? && outcome.world.quarantined == None))
  {
    var swapped := Exchange(w).world;
    assert swapped.target == Some(w.mine) && swapped.staged == w.target && swapped.nodes == w.nodes;
    assert Validate(sha, swapped, expected) == CheckDisplaced(sha, swapped, expected);
  }

  lemma {:induction false} QuietPublishNew(w: World)
    requires w.script == [] && w.staged == Some(w.mine) && IsPlainFile(w, w.mine) && w.target == None
    ensures PublishNew(w) == Done(w.(target := w.staged, staged := None, acts := w.acts + [Placed(w.mine)]))
  {
  }

  // The name leads to the new file, what it led to is unlinked, and nothing else is different.
  ghost predicate IsPublished(before: World, after: World, bytes: seq<Byte>) {
    && after == before.(target := Some(before.mine), nodes := before.nodes[before.mine := File(1, bytes)],
                        acts := after.acts, unlinked := if before.target.Some? then {before.target.value} else {})
  }

  /** Left alone, a write succeeds exactly when it may, then changes the target only, and otherwise nothing at all. */
  lemma {:induction false} QuietWrite(sha: seq<Byte> -> string, w: World, resolved: Option<Error>, expected: Option<string>, bytes: seq<Byte>)
    requires w.script == [] && Fresh(w)
    ensures var outcome := WriteAtomically(sha, w, resolved, expected, bytes);
      && (outcome.error.None? <==> CanWrite(sha, w, resolved, expected, bytes))
      && (if outcome.error.Some? then outcome.world == w else IsPublished(w, outcome.world, bytes))
  {
    hide Checks, Prepare, PublishOver, PublishNew;
    QuietChecks(sha, w, expected);
    if |bytes| <= MAX_FILE_PAYLOAD_BYTES && resolved == None && Checks(sha, w, expected).error.None? {
      QuietPrepare(w, bytes);
      var prepared := Prepare(w, bytes).world;
      if w.target.Some? {
        QuietPublishOver(sha, prepared, expected);
      } else {
        QuietPublishNew(prepared);
      }
    }
  }

  /** Left alone, `patch` succeeds exactly on a plain file of the expected content, and a refusal changes nothing. */
  lemma {:induction false} QuietPatch(sha: seq<Byte> -> string, w: World, resolved: Option<Error>, expected: string, bytes: seq<Byte>)
    requires w.script == [] && Fresh(w)
    ensures var outcome := Patch(sha, w, resolved, expected, bytes);
      && (outcome.error.None? <==>
        && IsDigest(expected) && resolved == None && |bytes| <= MAX_FILE_PAYLOAD_BYTES
        && w.target.Some? && Matches(sha, w, w.target.value, Some(expected)))
      && (if outcome.error.Some? then outcome.world == w else IsPublished(w, outcome.world, bytes))
  {
    hide WriteAtomically, IsDigest, IsPublished;
    QuietWrite(sha, w, resolved, Some(expected), bytes);
  }

  // Which refusal a quiet call meets, if any.
  function QuietRefusal(sha: seq<Byte> -> string, w: World, resolved: Option<Error>, expected: Option<string>, bytes: seq<Byte>): Option<Error>
    requires w.target.Some? ==> w.target.value in w.nodes
  {
    if |bytes| > MAX_FILE_PAYLOAD_BYTES then Some(LimitExceeded)
    else if resolved.Some? then resolved
    else if w.target.None? then if expected.Some? then Some(NotFound) else None
    else
      var found := w.nodes[w.target.value];
      if !found.File? || found.links != 1 then Some(UnsafeEntry)
      else if expected.None? then None
      else if |found.bytes| > MAX_FILE_PAYLOAD_BYTES then Some(LimitExceeded)
      else if sha(found.bytes) != expected.value then Some(Conflict)
      else None
  }

  /** Left alone, each call is refused with the error of what is wrong, or not at all. */
  lemma {:induction false} QuietRefusalIsExact(sha: seq<Byte> -> string, w: World, resolved: Option<Error>, expected: Option<string>, bytes: seq<Byte>)
    requires w.script == [] && Fresh(w)
    ensures WriteAtomically(sha, w, resolved, expected, bytes).error == QuietRefusal(sha, w, resolved, expected, bytes)
    ensures expected.Some? ==>
      var refusal := if IsDigest(expected.value) then QuietRefusal(sha, w, resolved, expected, bytes) else Some(InvalidPath);
      Patch(sha, w, resolved, expected.value, bytes).error == refusal
  {
    hide IsDigest;
    QuietWrite(sha, w, resolved, expected, bytes);
    if QuietRefusal(sha, w, resolved, expected, bytes).Some? && |bytes| <= MAX_FILE_PAYLOAD_BYTES && resolved.None? {
      assert Checks(sha, w, expected).error == QuietRefusal(sha, w, resolved, expected, bytes);
      hide Checks, QuietRefusal, Prepare, PublishOver, PublishNew;
    }
  }

  // Thirty-two bytes as text, in lower case.
  function HexDigit(n: nat): char
    requires n < 16
  {
    "0123456789abcdef"[n]
  }

  function Hex(bytes: seq<Byte>): (text: string)
    ensures |text| == 2 * |bytes|
  {
    if bytes == [] then "" else [HexDigit(bytes[0] as nat / 16), HexDigit(bytes[0] as nat % 16)] + Hex(bytes[1..])
  }

  predicate IsHexDigit(c: char) { '0' <= c <= '9' || 'a' <= c <= 'f' }

  function HexValue(c: char): (n: nat)
    requires IsHexDigit(c)
    ensures n < 16 && HexDigit(n) == c
  {
    if c <= '9' then c as nat - '0' as nat else c as nat - 'a' as nat + 10
  }

  function HexBytes(text: string): (bytes: seq<Byte>)
    requires |text| % 2 == 0 && forall i :: 0 <= i < |text| ==> IsHexDigit(text[i])
    ensures 2 * |bytes| == |text|
  {
    if text == "" then [] else [(16 * HexValue(text[0]) + HexValue(text[1])) as Byte] + HexBytes(text[2..])
  }

  lemma {:induction false} HexOfBytes(text: string)
    requires |text| % 2 == 0 && forall i :: 0 <= i < |text| ==> IsHexDigit(text[i])
    ensures Hex(HexBytes(text)) == text
  {
    hide HexValue, HexDigit, IsHexDigit;
    if text != "" {
      var high, low := HexValue(text[0]), HexValue(text[1]);
      PairOfHex(high, low);
      HexOfBytes(text[2..]);
      var first := (16 * high + low) as Byte;
      assert HexBytes(text) == [first] + HexBytes(text[2..]);
      HexOfPush(first, HexBytes(text[2..]));
      assert text == [text[0], text[1]] + text[2..];
    }
  }

  lemma {:induction false} PairOfHex(high: nat, low: nat)
    requires high < 16 && low < 16
    ensures (16 * high + low) / 16 == high && (16 * high + low) % 16 == low
  {
  }

  lemma {:induction false} HexOfPush(first: Byte, rest: seq<Byte>)
    ensures Hex([first] + rest) == [HexDigit(first as nat / 16), HexDigit(first as nat % 16)] + Hex(rest)
  {
    assert ([first] + rest)[1..] == rest;
  }

  lemma {:induction false} HexIsHex(bytes: seq<Byte>)
    ensures forall i :: 0 <= i < |Hex(bytes)| ==> IsHexDigit(Hex(bytes)[i])
  {
    if bytes != [] {
      HexIsHex(bytes[1..]);
    }
  }

  /** What `patch` takes for a digest is exactly what a digest of thirty-two bytes looks like. */
  lemma {:induction false} DigestsAreHex(text: string)
    ensures IsDigest(text) <==> exists bytes: seq<Byte> :: |bytes| == 32 && Hex(bytes) == text
  {
    if IsDigest(text) {
      HexOfBytes(text);
      assert |HexBytes(text)| == 32;
    }
    forall bytes: seq<Byte> | |bytes| == 32 && Hex(bytes) == text ensures IsDigest(text) {
      HexIsHex(bytes);
    }
  }

  /** Left alone, the digest that a write answers is accepted by the next patch of the file, and any other digest is
      a conflict. */
  lemma {:induction false} WrittenDigestIsAccepted(
      raw: seq<Byte> -> seq<Byte>, w: World, bytes: seq<Byte>, mine: Inode, expected: string, more: seq<Byte>)
    requires w.script == [] && Fresh(w) && |bytes| <= MAX_FILE_PAYLOAD_BYTES && |more| <= MAX_FILE_PAYLOAD_BYTES
    requires w.target.Some? ==> IsPlainFile(w, w.target.value)
    requires |raw(bytes)| == 32 && IsDigest(expected) && mine !in w.nodes && mine != w.mine
    ensures var sha := (b: seq<Byte>) => Hex(raw(b));
      var written := WriteAtomically(sha, w, None, None, bytes);
      var next := written.world.(mine := mine, unlinked := {});
      && written.error == None && IsDigest(sha(bytes))
      && Patch(sha, next, None, expected, more).error == if expected == sha(bytes) then None else Some(Conflict)
  {
    var sha := (b: seq<Byte>) => Hex(raw(b));
    DigestsAreHex(sha(bytes));
    QuietWrite(sha, w, None, None, bytes);
    var written := WriteAtomically(sha, w, None, None, bytes).world;
    var next := written.(mine := mine, unlinked := {});
    hide WriteAtomically, IsDigest;
    QuietRefusalIsExact(sha, next, None, Some(expected), more);
  }

  // ---------------------------------------------------------------------------------------------
  // A success made every call, and none of them failed.

  function Later(script: seq<Event>, n: nat): seq<Event> { if n <= |script| then script[n..] else [] }

  predicate Clean(script: seq<Event>, n: nat) { forall i :: 0 <= i < n && i < |script| ==> !script[i].fault }

  // n calls were made, and none of them failed.
  predicate Made(before: World, after: World, n: nat) { after.script == Later(before.script, n) && Clean(before.script, n) }

  lemma {:induction false} TickMakesOne(w: World)
    ensures Tick(w).script == Later(w.script, 1)
    ensures !Faulty(w) ==> Made(w, Tick(w), 1)
  {
  }

  lemma {:induction false} MadeJoin(a: World, b: World, c: World, m: nat, n: nat)
    requires Made(a, b, m) && Made(b, c, n)
    ensures Made(a, c, m + n)
  {
    assert Later(Later(a.script, m), n) == Later(a.script, m + n);
    forall i | m <= i < m + n && i < |a.script| ensures !a.script[i].fault {
      assert b.script[i - m] == a.script[i];
    }
  }

  lemma {:induction false} ChecksMade(sha: seq<Byte> -> string, w: World, expected: Option<string>)
    requires Checks(sha, w, expected).error.None?
    ensures Made(w, Checks(sha, w, expected).world, if expected.Some? then 2 else 1)
  {
    hide Tick, Stated, CheckDigest, Made, Faulty;
    TickMakesOne(w);
    if expected.Some? {
      TickMakesOne(Tick(w));
      MadeJoin(w, Tick(w), Tick(Tick(w)), 1, 1);
    }
  }

  lemma {:induction false} PrepareMade(w: World, bytes: seq<Byte>)
    requires Prepare(w, bytes).error.None?
    ensures Made(Tick(w), Prepare(w, bytes).world, 4)
  {
    hide Tick, Verified, Made, Faulty;
    var probed := Tick(w);
    var free := Tick(probed);
    var created := free.(nodes := free.nodes[probed.mine := File(1, [])], staged := Some(probed.mine));
    var staged := Stage(probed, bytes).world;
    TickMakesOne(probed);
    TickMakesOne(created);
    TickMakesOne(Tick(created));
    TickMakesOne(staged);
    SameScript(probed, free, created, 1);
    MadeJoin(probed, created, Tick(created), 1, 1);
    MadeJoin(probed, Tick(created), Tick(Tick(created)), 2, 1);
    SameScript(probed, Tick(Tick(created)), staged, 3);
    MadeJoin(probed, staged, Tick(staged), 3, 1);
  }

  lemma {:induction false} SameScript(a: World, b: World, c: World, n: nat)
    requires Made(a, b, n) && c.script == b.script
    ensures Made(a, c, n)
  {
  }

  lemma {:induction false} ValidateMade(sha: seq<Byte> -> string, w: World, expected: Option<string>)
    requires Validate(sha, w, expected).error.None?
    ensures Made(w, Validate(sha, w, expected).world, if expected.Some? then 3 else 2)
  {
    hide Tick, Stated, Verified, CheckDigest, Made, Faulty;
    TickMakesOne(w);
    TickMakesOne(Tick(w));
    MadeJoin(w, Tick(w), Tick(Tick(w)), 1, 1);
    if expected.Some? {
      TickMakesOne(Tick(Tick(w)));
      MadeJoin(w, Tick(Tick(w)), Tick(Tick(Tick(w))), 2, 1);
    }
  }

  lemma {:induction false} PublishOverMade(sha: seq<Byte> -> string, w: World, expected: Option<string>)
    requires PublishOver(sha, w, expected).error.None?
    ensures Made(w, PublishOver(sha, w, expected).world, if expected.Some? then 5 else 4)
  {
    hide Tick, Validate, RollBack, Made, Faulty;
    var swapped := Exchange(w).world;
    var judged := Validate(sha, swapped, expected).world;
    var n := if expected.Some? then 3 else 2;
    RollBackUndoesSome(judged, UnsafeEntry);
    OnlyAcceptedSucceeds(sha, w, expected);
    TickMakesOne(w);
    SameScript(w, Tick(w), swapped, 1);
    ValidateMade(sha, swapped, expected);
    MadeJoin(w, swapped, judged, 1, n);
    TickMakesOne(judged);
    MadeJoin(w, judged, Tick(judged), 1 + n, 1);
    SameScript(w, Tick(judged), PublishOver(sha, w, expected).world, 2 + n);
  }

  lemma {:induction false} RollBackUndoesSome(w: World, error: Error)
    ensures RollBack(w, error).error.Some?
  {
    hide Tick, Servable;
  }

  lemma {:induction false} OnlyAcceptedSucceeds(sha: seq<Byte> -> string, w: World, expected: Option<string>)
    requires PublishOver(sha, w, expected).error.None?
    ensures Exchange(w).error.None? && Validate(sha, Exchange(w).world, expected).error.None?
  {
    hide Tick, Validate, RollBack;
    var judged := Validate(sha, Exchange(w).world, expected);
    if judged.error.Some? {
      RollBackUndoesSome(judged.world, judged.error.value);
    }
  }

  lemma {:induction false} PublishNewMade(w: World)
    requires PublishNew(w).error.None?
    ensures Made(w, PublishNew(w).world, 2)
  {
    hide Tick, Verified, Made, Faulty;
    var placed := Place(w).world;
    TickMakesOne(w);
    SameScript(w, Tick(w), placed, 1);
    TickMakesOne(placed);
    MadeJoin(w, placed, Tick(placed), 1, 1);
  }

  lemma {:induction false} SyncMade(w: World)
    requires Sync(w).error.None?
    ensures Made(w, Sync(w).world, 2)
  {
    hide Tick, Made, Faulty;
    TickMakesOne(w);
    TickMakesOne(Tick(w));
    MadeJoin(w, Tick(w), Tick(Tick(w)), 1, 1);
  }

  /** Under any interference a success has made every system call of its branch, both synchronisations at the end
      included, and none of them failed; the one failure it may have met is that of the existence probe. */
  lemma {:induction false} SuccessMadeEveryCall(sha: seq<Byte> -> string, w: World, resolved: Option<Error>, expected: Option<string>, bytes: seq<Byte>)
    requires WriteAtomically(sha, w, resolved, expected, bytes).error.None?
    ensures var now := WriteAtomically(sha, w, resolved, expected, bytes).world;
      var looks := if expected.Some? then 2 else 1;
      var publishing := if !FindsTarget(sha, w, expected) then 2 else if expected.Some? then 5 else 4;
      var probe := Later(w.script, looks);
      && Clean(w.script, looks) && (FindsTarget(sha, w, expected) ==> Clean(probe, 1))
      && Clean(Later(probe, 1), 4 + publishing + 2) && now.script == Later(Later(probe, 1), 4 + publishing + 2)
  {
    hide Tick, Checks, Prepare, PublishOver, PublishNew, Sync, Clean, Later, Opened;
    var checked := Checks(sha, w, expected).world;
    var probed := Tick(checked);
    var prepared := Prepare(checked, bytes).world;
    var found := SeesTarget(checked);
    var published := (if found then PublishOver(sha, prepared, expected) else PublishNew(prepared)).world;
    var n := if !found then 2 else if expected.Some? then 5 else 4;
    ChecksMade(sha, w, expected);
    TickMakesOne(checked);
    PrepareMade(checked, bytes);
    if found {
      PublishOverMade(sha, prepared, expected);
    } else {
      PublishNewMade(prepared);
    }
    SyncMade(published);
    MadeJoin(probed, prepared, published, 4, n);
    MadeJoin(probed, published, Sync(published).world, 4 + n, 2);
  }

  // ---------------------------------------------------------------------------------------------
  // Without faults nothing stays behind, whatever is renamed.

  predicate FaultFree(w: World) { forall i :: 0 <= i < |w.script| ==> !w.script[i].fault }

  predicate Tidy(w: World) { w.staged.None? && w.quarantined.None? }

  lemma {:induction false} TickStaysFree(w: World)
    requires FaultFree(w)
    ensures FaultFree(Tick(w)) && !Faulty(w)
  {
  }

  lemma {:induction false} ContainmentIsTidy(w: World)
    requires FaultFree(w) && Tidy(w)
    ensures Tidy(Quarantine(w).world)
  {
    hide Tick;
    TickStaysFree(w);
    var now := Tick(w);
    if now.target.Some? {
      TickStaysFree(now.(target := None, quarantined := now.target, acts := now.acts + [Quarantined(now.target.value)]));
    }
  }

  lemma {:induction false} DiscardIsTidy(w: World)
    requires FaultFree(w) && w.quarantined.None?
    ensures FaultFree(Discard(w)) && Tidy(Discard(w))
  {
    hide Tick;
    TickStaysFree(w);
  }

  lemma {:induction false} ExchangeStaysFree(w: World)
    requires FaultFree(w)
    ensures FaultFree(Exchange(w).world) && Exchange(w).world.quarantined == w.quarantined
  {
    hide Tick;
    TickStaysFree(w);
  }

  lemma {:induction false} ValidateStaysFree(sha: seq<Byte> -> string, w: World, expected: Option<string>)
    requires FaultFree(w)
    ensures FaultFree(Validate(sha, w, expected).world)
  {
    hide Tick, FaultFree, Stated, Verified, CheckDigest;
    TickStaysFree(w);
    TickStaysFree(Tick(w));
    TickStaysFree(Tick(Tick(w)));
  }

  lemma {:induction false} RollBackIsTidy(w: World, error: Error)
    requires FaultFree(w) && w.quarantined.None?
    ensures Tidy(RollBack(w, error).world)
  {
    hide Tick, Servable, FaultFree, Discard, Exchange, Quarantine;
    ExchangeStaysFree(w);
    var cleared := Discard(Exchange(w).world);
    DiscardIsTidy(Exchange(w).world);
    TickStaysFree(cleared);
    ContainmentIsTidy(Tick(cleared));
  }

  lemma {:induction false} ReplacingIsTidy(sha: seq<Byte> -> string, w: World, expected: Option<string>)
    requires FaultFree(w) && w.quarantined.None?
    ensures Tidy(PublishOver(sha, w, expected).world)
  {
    hide Tick, Validate, RollBack, Discard, Exchange, FaultFree;
    var swapped := Exchange(w);
    ExchangeStaysFree(w);
    DiscardIsTidy(swapped.world);
    var judged := Validate(sha, swapped.world, expected);
    ValidateStaysFree(sha, swapped.world, expected);
    ValidateTouchesNothing(sha, swapped.world, expected);
    TickStaysFree(judged.world);
    if swapped.error.None? && judged.error.Some? {
      RollBackIsTidy(judged.world, judged.error.value);
    }
  }

  lemma {:induction false} PlaceStaysFree(w: World)
    requires FaultFree(w)
    ensures FaultFree(Place(w).world) && Place(w).world.quarantined == w.quarantined
    ensures Place(w).error.None? ==> Place(w).world.staged.None?
  {
    hide Tick;
    TickStaysFree(w);
  }

  lemma {:induction false} CreatingIsTidy(w: World)
    requires FaultFree(w) && w.quarantined.None?
    ensures Tidy(PublishNew(w).world)
  {
    hide Tick, Verified, Place, Discard, Quarantine, FaultFree;
    var placed := Place(w);
    PlaceStaysFree(w);
    DiscardIsTidy(placed.world);
    TickStaysFree(placed.world);
    if placed.error.None? {
      ContainmentIsTidy(Tick(placed.world));
    }
  }

  lemma {:induction false} PreparingIsTidy(w: World, bytes: seq<Byte>)
    requires FaultFree(w) && Tidy(w)
    ensures var prepared := Prepare(w, bytes);
      prepared.world.quarantined.None? && FaultFree(prepared.world) && (prepared.error.Some? ==> Tidy(prepared.world))
  {
    hide Tick, Verified;
    var probed := Tick(w);
    TickStaysFree(w);
    TickStaysFree(probed);
    var free := Tick(probed);
    var created := free.(nodes := free.nodes[w.mine := File(1, [])], staged := Some(w.mine));
    TickStaysFree(created);
    TickStaysFree(Tick(created));
    var staged := Stage(probed, bytes).world;
    assert FaultFree(staged) && staged.quarantined.None?;
    TickStaysFree(staged);
    DiscardIsTidy(Tick(staged));
  }

  lemma {:induction false} ChecksStayFree(sha: seq<Byte> -> string, w: World, expected: Option<string>)
    requires FaultFree(w)
    ensures FaultFree(Checks(sha, w, expected).world)
  {
    hide Tick, FaultFree, Stated, CheckDigest;
    TickStaysFree(w);
    TickStaysFree(Tick(w));
  }

  /** As long as no system call fails, a call leaves nothing under a private name, however others interfere. */
  lemma {:induction false} NothingStaysBehind(sha: seq<Byte> -> string, w: World, resolved: Option<Error>, expected: Option<string>, bytes: seq<Byte>)
    requires Fresh(w) && FaultFree(w)
    ensures Tidy(WriteAtomically(sha, w, resolved, expected, bytes).world)
  {
    hide Tick, Checks, Prepare, PublishOver, PublishNew, Sync, SeesTarget, FaultFree;
    ChecksTouchNothing(sha, w, expected);
    ChecksStayFree(sha, w, expected);
    var checked := Checks(sha, w, expected).world;
    PreparingIsTidy(checked, bytes);
    var prepared := Prepare(checked, bytes).world;
    ReplacingIsTidy(sha, prepared, expected);
    CreatingIsTidy(prepared);
    SyncTouchesNothing(PublishOver(sha, prepared, expected).world);
    SyncTouchesNothing(PublishNew(prepared).world);
  }

  /** Left alone, an exchange that is refused answers what is wrong with the entry it displaced, and one without a
      target that there is none; a placement onto a name that is taken meanwhile is a conflict and changes nothing. */
  lemma {:induction false} QuietPublicationAnswers(sha: seq<Byte> -> string, w: World, expected: Option<string>)
    requires w.script == [] && Names(w) && w.staged == Some(w.mine) && IsPlainFile(w, w.mine) && w.quarantined.None?
    ensures PublishOver(sha, w, expected).error ==
      if w.target.None? then Some(NotFound) else QuietRefusal(sha, w, None, expected, [])
    ensures w.target.Some? ==>
      PublishNew(w) == Fail(w.(staged := None, unlinked := w.unlinked + {w.mine}), Conflict)
  {
    if w.target.Some? {
      QuietPublishOver(sha, w, expected);
      var swapped := Exchange(w).world;
      assert Validate(sha, swapped, expected) == CheckDisplaced(sha, swapped, expected);
    }
  }

  /** Staging that fails leaves its file behind only when it is the change of mode that failed. */
  lemma {:induction false} FailedStaging(w: World, bytes: seq<Byte>)
    requires w.staged.None? && w.quarantined.None? && Stage(w, bytes).error.Some?
    ensures Stage(w, bytes).error == Some(Io)
    ensures Stage(w, bytes).world.staged.Some? <==> !Faulty(w) && |w.script| > 1 && w.script[1].fault
    ensures !Faulty(w) && Stage(w, bytes).world.staged.None? ==> w.mine in Stage(w, bytes).world.unlinked
  {
  }

  /** Content is judged by what is there at that moment, whatever was seen before: an entry that is gone, unsafe, too
      large or different is refused as such. */
  lemma {:induction false} ContentIsJudged(sha: seq<Byte> -> string, w: World, entry: Option<Inode>, expected: string)
    ensures CheckDigest(sha, w, entry, expected) ==
      if entry.None? || entry.value !in w.nodes then Some(NotFound)
      else if !IsPlainFile(w, entry.value) then Some(UnsafeEntry)
      else if |w.nodes[entry.value].bytes| > MAX_FILE_PAYLOAD_BYTES then Some(LimitExceeded)
      else if sha(w.nodes[entry.value].bytes) != expected then Some(Conflict)
      else None
  {
  }
}

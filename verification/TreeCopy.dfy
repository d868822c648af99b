// Copying inside a workspace (crates/gobrowse-sandboxd/src/filesystem.rs, `copy`, `copy_directory`, `CopyBudget` and
// `validate_tree`), without interference or I/O faults. A directory lists its entries in the order they are read.
module TreeCopy {
  import opened Basics

  const MAX_COPY_FILE_BYTES: nat := 16 * 1024 * 1024
  const MAX_COPY_TOTAL_BYTES: nat := 256 * 1024 * 1024
  const MAX_COPY_ENTRIES: nat := 16384
  const MAX_SCANNED_ENTRIES: nat := 16384
  const MAX_COMPONENTS: nat := 128
  const DIRECTORY_MODE: bv16 := 0x1ED  // rwxr-xr-x

  // Names that are not valid UTF-8 are kept apart.
  datatype Name = Text(text: string) | Raw(bytes: seq<Byte>)

  // `Special` is everything but a regular file or a directory: a symbolic link, a device, a socket, a pipe.
  datatype Tree = File(links: nat, mode: bv16, bytes: seq<Byte>) | Dir(dirMode: bv16, entries: Forest) | Special

  datatype Forest = Nil | Cons(name: Name, tree: Tree, rest: Forest)

  datatype Error = InvalidPath | NotFound | UnsafeEntry | LimitExceeded | Conflict

  datatype Budget = Budget(entries: nat, bytes: nat)

  function SafeMode(mode: bv16): bv16 { 0x1A4 | (mode & 0x49) }

  function AddEntry(budget: Budget): Result<Budget, Error> {
    if budget.entries + 1 > MAX_COPY_ENTRIES then Err(LimitExceeded) else Ok(budget.(entries := budget.entries + 1))
  }

  function AddFile(budget: Budget, size: nat): Result<Budget, Error> {
    match AddEntry(budget)
    case Err(error) => Err(error)
    case Ok(added) =>
      if added.bytes + size > MAX_COPY_TOTAL_BYTES then Err(LimitExceeded) else Ok(added.(bytes := added.bytes + size))
  }

  // safe_kind_and_size
  predicate IsSafe(tree: Tree) { tree.Dir? || (tree.File? && tree.links == 1) }

  // ---------------------------------------------------------------------------------------------
  // The recursion of copy_directory and of validate_tree.

  datatype Copying<T> = Copying(copy: T, budget: Budget)

  function CopyFile(tree: Tree, budget: Budget): Result<Copying<Tree>, Error>
    requires tree.File?
  {
    if tree.links != 1 then Err(UnsafeEntry)
    else if |tree.bytes| > MAX_COPY_FILE_BYTES then Err(LimitExceeded)
    else match AddFile(budget, |tree.bytes|)
      case Err(error) => Err(error)
      case Ok(added) => Ok(Copying(File(1, SafeMode(tree.mode), tree.bytes), added))
  }

  function CopyEntry(name: Name, tree: Tree, depth: nat, budget: Budget): Result<Copying<Tree>, Error>
    decreases tree, 0
  {
    if name.Raw? then Err(UnsafeEntry)
    else match tree
      case Special => Err(UnsafeEntry)
      case File(_, _, _) => CopyFile(tree, budget)
      case Dir(_, entries) =>
        match AddEntry(budget)
        case Err(error) => Err(error)
        case Ok(added) =>
          match CopyDirectory(entries, depth + 1, added)
          case Err(error) => Err(error)
          case Ok(copying) => Ok(Copying(Dir(DIRECTORY_MODE, copying.copy), copying.budget))
  }

  function CopyEntries(source: Forest, depth: nat, budget: Budget): Result<Copying<Forest>, Error>
    decreases source, 0
  {
    match source
    case Nil => Ok(Copying(Nil, budget))
    case Cons(name, tree, rest) =>
      match CopyEntry(name, tree, depth, budget)
      case Err(error) => Err(error)
      case Ok(first) =>
        match CopyEntries(rest, depth, first.budget)
        case Err(error) => Err(error)
        case Ok(others) => Ok(Copying(Cons(name, first.copy, others.copy), others.budget))
  }

  function CopyDirectory(source: Forest, depth: nat, budget: Budget): Result<Copying<Forest>, Error>
    decreases source, 1
  {
    if depth >= MAX_COMPONENTS then Err(LimitExceeded) else CopyEntries(source, depth, budget)
  }

  function ValidateEntry(name: Name, tree: Tree, depth: nat, scanned: nat): Result<nat, Error>
    decreases tree, 0
  {
    if scanned + 1 > MAX_SCANNED_ENTRIES then Err(LimitExceeded)
    else if name.Raw? || !IsSafe(tree) then Err(UnsafeEntry)
    else if tree.Dir? then ValidateTree(tree.entries, depth + 1, scanned + 1)
    else Ok(scanned + 1)
  }

  function ValidateEntries(forest: Forest, depth: nat, scanned: nat): Result<nat, Error>
    decreases forest, 0
  {
    match forest
    case Nil => Ok(scanned)
    case Cons(name, tree, rest) =>
      match ValidateEntry(name, tree, depth, scanned)
      case Err(error) => Err(error)
      case Ok(now) => ValidateEntries(rest, depth, now)
  }

  function ValidateTree(forest: Forest, depth: nat, scanned: nat): Result<nat, Error>
    decreases forest, 1
  {
    if depth >= MAX_COMPONENTS then Err(LimitExceeded) else ValidateEntries(forest, depth, scanned)
  }

  // ---------------------------------------------------------------------------------------------
  // The code.

  class CopyBudget {
    var entries: nat
    var bytes: nat

    function View(): Budget reads this { Budget(entries, bytes) }

    constructor ()
      ensures View() == Budget(0, 0)
    {
      entries, bytes := 0, 0;
    }

    method CountEntry() returns (error: Option<Error>)
      modifies this
      ensures match AddEntry(old(View()))
        case Err(e) => error == Some(e)
        case Ok(added) => error == None && View() == added
      ensures View() == Budget(old(entries) + 1, old(bytes))
    {
      entries := entries + 1;
      error := if entries > MAX_COPY_ENTRIES then Some(LimitExceeded) else None;
    }

    method CountFile(size: nat) returns (error: Option<Error>)
      modifies this
      ensures match AddFile(old(View()), size)
        case Err(e) => error == Some(e)
        case Ok(added) => error == None && View() == added
      ensures View() == Budget(old(entries) + 1, if old(entries) + 1 > MAX_COPY_ENTRIES then old(bytes) else old(bytes) + size)
    {
      error := CountEntry();
      if error.Some? {
        return;
      }
      bytes := bytes + size;
      error := if bytes > MAX_COPY_TOTAL_BYTES then Some(LimitExceeded) else None;
    }
  }

  function Append(a: Forest, b: Forest): Forest {
    match a
    case Nil => b
    case Cons(name, tree, rest) => Cons(name, tree, Append(rest, b))
  }

  // The result for a directory of which some entries have been copied.
  function After(done: Forest, rest: Result<Copying<Forest>, Error>): Result<Copying<Forest>, Error> {
    match rest
    case Err(error) => Err(error)
    case Ok(copying) => Ok(copying.(copy := Append(done, copying.copy)))
  }

  lemma {:induction false} AppendIsAssociative(a: Forest, b: Forest, c: Forest)
    ensures Append(Append(a, b), c) == Append(a, Append(b, c))
  {
    if a.Cons? {
      AppendIsAssociative(a.rest, b, c);
    }
  }

  method CopyOne(name: Name, tree: Tree, depth: nat, budget: CopyBudget) returns (copy: Tree, error: Option<Error>)
    modifies budget
    ensures match CopyEntry(name, tree, depth, old(budget.View()))
      case Err(e) => error == Some(e)
      case Ok(copying) => error == None && copying == Copying(copy, budget.View())
    decreases tree, 0
  {
    copy := Special;
    if name.Raw? || tree.Special? || (tree.File? && tree.links != 1) {
      return copy, Some(UnsafeEntry);
    }
    match tree
    case File(_, mode, bytes) =>
      if |bytes| > MAX_COPY_FILE_BYTES {
        return copy, Some(LimitExceeded);
      }
      error := budget.CountFile(|bytes|);
      copy := File(1, SafeMode(mode), bytes);
    case Dir(_, entries) =>
      error := budget.CountEntry();
      if error.None? {
        var children;
        children, error := CopyInto(entries, depth + 1, budget);
        copy := Dir(DIRECTORY_MODE, children);
      }
  }

  /** copy_directory: reads the source entry by entry and fills the destination. */
  method CopyInto(source: Forest, depth: nat, budget: CopyBudget) returns (destination: Forest, error: Option<Error>)
    modifies budget
    ensures match CopyDirectory(source, depth, old(budget.View()))
      case Err(e) => error == Some(e)
      case Ok(copying) => error == None && copying == Copying(destination, budget.View())
    decreases source, 1
  {
    destination := Nil;
    if depth >= MAX_COMPONENTS {
      return destination, Some(LimitExceeded);
    }
    var rest := source;
    while rest.Cons?
      invariant rest == source || rest < source
      invariant CopyEntries(source, depth, old(budget.View())) == After(destination, CopyEntries(rest, depth, budget.View()))
      decreases rest
    {
      var copy: Tree;
      ghost var before := destination;
      copy, error := CopyOne(rest.name, rest.tree, depth, budget);
      if error.Some? {
        return;
      }
      destination := Append(destination, Cons(rest.name, copy, Nil));
      ghost var others := CopyEntries(rest.rest, depth, budget.View());
      if others.Ok? {
        AppendIsAssociative(before, Cons(rest.name, copy, Nil), others.value.copy);
      }
      rest := rest.rest;
    }
    AppendNothing(destination);
    error := None;
  }

  lemma {:induction false} AppendNothing(a: Forest)
    ensures Append(a, Nil) == a
  {
    if a.Cons? {
      AppendNothing(a.rest);
    }
  }

  method Validate(forest: Forest, depth: nat, scannedBefore: nat) returns (scanned: nat, error: Option<Error>)
    ensures match ValidateTree(forest, depth, scannedBefore)
      case Err(e) => error == Some(e)
      case Ok(now) => error == None && scanned == now
    decreases forest
  {
    scanned := scannedBefore;
    if depth >= MAX_COMPONENTS {
      return scanned, Some(LimitExceeded);
    }
    var rest := forest;
    while rest.Cons?
      invariant rest == forest || rest < forest
      invariant ValidateEntries(forest, depth, scannedBefore) == ValidateEntries(rest, depth, scanned)
      decreases rest
    {
      scanned := scanned + 1;
      if scanned > MAX_SCANNED_ENTRIES {
        return scanned, Some(LimitExceeded);
      }
      if rest.name.Raw? || !IsSafe(rest.tree) {
        return scanned, Some(UnsafeEntry);
      }
      if rest.tree.Dir? {
        scanned, error := Validate(rest.tree.entries, depth + 1, scanned);
        if error.Some? {
          return;
        }
      }
      rest := rest.rest;
    }
    error := None;
  }

  // ---------------------------------------------------------------------------------------------
  // What a tree is, independently of how it is walked.

  predicate SafeTree(tree: Tree) { IsSafe(tree) && (tree.Dir? ==> AllSafe(tree.entries)) }

  predicate AllSafe(forest: Forest) {
    match forest
    case Nil => true
    case Cons(name, tree, rest) => name.Text? && SafeTree(tree) && AllSafe(rest)
  }

  predicate TreeFilesFit(tree: Tree) {
    match tree
    case File(_, _, bytes) => |bytes| <= MAX_COPY_FILE_BYTES
    case Dir(_, entries) => FilesFit(entries)
    case Special => true
  }

  predicate FilesFit(forest: Forest) {
    match forest
    case Nil => true
    case Cons(_, tree, rest) => TreeFilesFit(tree) && FilesFit(rest)
  }

  function TreeCount(tree: Tree): (count: nat)
    ensures count >= 1
  {
    1 + if tree.Dir? then Count(tree.entries) else 0
  }

  // Entries at any depth.
  function Count(forest: Forest): nat {
    match forest
    case Nil => 0
    case Cons(_, tree, rest) => TreeCount(tree) + Count(rest)
  }

  function TreeSize(tree: Tree): nat {
    match tree
    case File(_, _, bytes) => |bytes|
    case Dir(_, entries) => Size(entries)
    case Special => 0
  }

  // Bytes of the files at any depth.
  function Size(forest: Forest): nat {
    match forest
    case Nil => 0
    case Cons(_, tree, rest) => TreeSize(tree) + Size(rest)
  }

  function TreeLevels(tree: Tree): (levels: nat)
    ensures levels >= 1
  {
    if tree.Dir? then 1 + Levels(tree.entries) else 1
  }

  // Directories on the longest way down, this one included.
  function Levels(forest: Forest): (levels: nat)
    ensures levels >= 1
  {
    match forest
    case Nil => 1
    case Cons(_, tree, rest) => Max(TreeLevels(tree), Levels(rest))
  }

  function CopiedTree(tree: Tree): Tree {
    match tree
    case File(_, mode, bytes) => File(1, SafeMode(mode), bytes)
    case Dir(_, entries) => Dir(DIRECTORY_MODE, Copied(entries))
    case Special => Special
  }

  function Copied(forest: Forest): Forest {
    match forest
    case Nil => Nil
    case Cons(name, tree, rest) => Cons(name, CopiedTree(tree), Copied(rest))
  }

  predicate Within(budget: Budget) { budget.entries <= MAX_COPY_ENTRIES && budget.bytes <= MAX_COPY_TOTAL_BYTES }

  predicate Fits(forest: Forest, depth: nat, budget: Budget) {
    && AllSafe(forest) && FilesFit(forest)
    && depth + Levels(forest) <= MAX_COMPONENTS
    && Within(Spent(forest, budget))
  }

  // The budget once a tree has been charged to it.
  function Spent(forest: Forest, budget: Budget): Budget {
    Budget(budget.entries + Count(forest), budget.bytes + Size(forest))
  }

  ghost predicate Exactly<T>(result: Result<Copying<T>, Error>, fits: bool, copy: T, budget: Budget) {
    (result.Ok? <==> fits) && (result.Ok? ==> result.value == Copying(copy, budget))
  }

  predicate TreeFits(tree: Tree, depth: nat, budget: Budget) {
    && SafeTree(tree) && TreeFilesFit(tree)
    && depth + TreeLevels(tree) <= MAX_COMPONENTS
    && Within(TreeSpent(tree, budget))
  }

  function TreeSpent(tree: Tree, budget: Budget): Budget {
    Budget(budget.entries + TreeCount(tree), budget.bytes + TreeSize(tree))
  }

  lemma {:induction false} EntryIsExact(name: Name, tree: Tree, depth: nat, budget: Budget)
    requires Within(budget) && depth < MAX_COMPONENTS
    ensures Exactly(CopyEntry(name, tree, depth, budget), name.Text? && TreeFits(tree, depth, budget), CopiedTree(tree),
      TreeSpent(tree, budget))
    decreases tree, 0
  {
    if name.Text? && tree.Dir? && AddEntry(budget).Ok? {
      DirectoryIsExact(tree.entries, depth + 1, AddEntry(budget).value);
    }
  }

  lemma {:induction false} EntriesAreExact(source: Forest, depth: nat, budget: Budget)
    requires Within(budget) && depth < MAX_COMPONENTS
    ensures Exactly(CopyEntries(source, depth, budget), Fits(source, depth, budget), Copied(source), Spent(source, budget))
    decreases source, 0
  {
    hide TreeCount, TreeSize, TreeLevels, SafeTree, TreeFilesFit, CopyEntry, CopiedTree;
    if source.Cons? {
      EntryIsExact(source.name, source.tree, depth, budget);
      var first := CopyEntry(source.name, source.tree, depth, budget);
      if first.Ok? {
        EntriesAreExact(source.rest, depth, first.value.budget);
        assert Spent(source, budget) == Spent(source.rest, first.value.budget);
      }
    }
  }

  /** A directory is copied exactly when it is safe and fits, entirely, and the budget is charged its true size. */
  lemma {:induction false} DirectoryIsExact(source: Forest, depth: nat, budget: Budget)
    requires Within(budget)
    ensures Exactly(CopyDirectory(source, depth, budget), Fits(source, depth, budget), Copied(source), Spent(source, budget))
    decreases source, 1
  {
    if depth < MAX_COMPONENTS {
      EntriesAreExact(source, depth, budget);
    }
  }

  // Valid trees below a depth, next to what was scanned before.
  predicate MayServe(forest: Forest, depth: nat, scanned: nat) {
    AllSafe(forest) && depth + Levels(forest) <= MAX_COMPONENTS && scanned + Count(forest) <= MAX_SCANNED_ENTRIES
  }

  lemma {:induction false} EntryValidationIsExact(name: Name, tree: Tree, depth: nat, scanned: nat)
    requires scanned <= MAX_SCANNED_ENTRIES && depth < MAX_COMPONENTS
    ensures ValidateEntry(name, tree, depth, scanned).Ok? <==>
      name.Text? && SafeTree(tree) && depth + TreeLevels(tree) <= MAX_COMPONENTS && scanned + TreeCount(tree) <= MAX_SCANNED_ENTRIES
    ensures ValidateEntry(name, tree, depth, scanned).Ok? ==>
      ValidateEntry(name, tree, depth, scanned).value == scanned + TreeCount(tree)
    decreases tree, 0
  {
    if scanned + 1 <= MAX_SCANNED_ENTRIES && tree.Dir? {
      ValidationIsExact(tree.entries, depth + 1, scanned + 1);
    }
  }

  /** A tree is accepted exactly when it holds only safe entries, is not too deep and has few enough of them. */
  lemma {:induction false} ValidationIsExact(forest: Forest, depth: nat, scanned: nat)
    requires scanned <= MAX_SCANNED_ENTRIES
    ensures ValidateTree(forest, depth, scanned).Ok? <==> MayServe(forest, depth, scanned)
    ensures ValidateTree(forest, depth, scanned).Ok? ==> ValidateTree(forest, depth, scanned).value == scanned + Count(forest)
    decreases forest, 1
  {
    hide TreeCount, TreeLevels, SafeTree, ValidateEntry;
    if forest.Cons? && depth < MAX_COMPONENTS {
      EntryValidationIsExact(forest.name, forest.tree, depth, scanned);
      var now := ValidateEntry(forest.name, forest.tree, depth, scanned);
      if now.Ok? {
        ValidationIsExact(forest.rest, depth, now.value);
      }
    }
  }

  lemma {:induction false} CopyKeepsTheShape(forest: Forest)
    requires AllSafe(forest)
    ensures AllSafe(Copied(forest)) && Count(Copied(forest)) == Count(forest)
    ensures Levels(Copied(forest)) == Levels(forest) && Size(Copied(forest)) == Size(forest)
  {
    if forest.Cons? {
      CopyKeepsTheShape(forest.rest);
      if forest.tree.Dir? {
        CopyKeepsTheShape(forest.tree.entries);
      }
    }
  }

  /** What was copied passes the validation that follows. */
  lemma {:induction false} CopiesAreValid(source: Forest)
    requires CopyDirectory(source, 0, Budget(0, 0)).Ok?
    ensures ValidateTree(CopyDirectory(source, 0, Budget(0, 0)).value.copy, 0, 0).Ok?
  {
    hide CopyDirectory, ValidateTree, AllSafe, FilesFit, Copied, Count, Levels, Size;
    DirectoryIsExact(source, 0, Budget(0, 0));
    CopyKeepsTheShape(source);
    ValidationIsExact(Copied(source), 0, 0);
  }

  // ---------------------------------------------------------------------------------------------
  // Names and contents.

  function Find(forest: Forest, name: Name): Option<Tree> {
    match forest
    case Nil => None
    case Cons(n, tree, rest) => if n == name then Some(tree) else Find(rest, name)
  }

  // What a path leads to, from a directory.
  function Lookup(forest: Forest, path: seq<Name>): Result<Tree, Error>
    requires path != []
    decreases |path|
  {
    match Find(forest, path[0])
    case None => Err(NotFound)
    case Some(tree) =>
      if |path| == 1 then Ok(tree) else if tree.Dir? then Lookup(tree.entries, path[1..]) else Err(UnsafeEntry)
  }

  lemma {:induction false} FindInCopy(forest: Forest, name: Name)
    ensures Find(Copied(forest), name) == match Find(forest, name) case None => None case Some(tree) => Some(CopiedTree(tree))
  {
    if forest.Cons? {
      FindInCopy(forest.rest, name);
    }
  }

  // The same kind of entry, and for a file the same content, readable by all and as executable as it was.
  predicate SameKindAndContent(a: Tree, b: Tree) {
    match a
    case File(_, mode, bytes) => b.File? && b.bytes == bytes && b.mode == SafeMode(mode) && b.links == 1
    case Dir(_, _) => b.Dir?
    case Special => b.Special?
  }

  /** Every path leads to the same kind of entry with the same content in the copy, or fails in the same way. */
  lemma {:induction false} CopyHasTheSameEntries(forest: Forest, path: seq<Name>)
    requires path != []
    ensures match Lookup(forest, path)
      case Err(error) => Lookup(Copied(forest), path) == Err(error)
      case Ok(tree) => Lookup(Copied(forest), path).Ok? && SameKindAndContent(tree, Lookup(Copied(forest), path).value)
    decreases |path|
  {
    FindInCopy(forest, path[0]);
    var found := Find(forest, path[0]);
    if |path| > 1 && found.Some? && found.value.Dir? {
      CopyHasTheSameEntries(found.value.entries, path[1..]);
    }
  }

  // ---------------------------------------------------------------------------------------------
  // A copy between two paths of a workspace.

  type Path = seq<Name>

  // The entries of the directory that holds, or would hold, the last name of a path.
  function Parent(forest: Forest, path: Path): Result<Forest, Error>
    requires path != []
    decreases |path|
  {
    if |path| == 1 then Ok(forest)
    else match Find(forest, path[0])
      case None => Err(NotFound)
      case Some(tree) => if tree.Dir? then Parent(tree.entries, path[1..]) else Err(UnsafeEntry)
  }

  // A new entry comes last in its directory.
  function Insert(forest: Forest, path: Path, tree: Tree): Forest
    requires path != []
    decreases |path|, forest
  {
    if |path| == 1 then Append(forest, Cons(path[0], tree, Nil))
    else match forest
      case Nil => Nil
      case Cons(name, first, rest) =>
        if name != path[0] then Cons(name, first, Insert(rest, path, tree))
        else if first.Dir? then Cons(name, first.(entries := Insert(first.entries, path[1..], tree)), rest)
        else forest
  }

  function Remove(forest: Forest, path: Path): Forest
    requires path != []
    decreases |path|, forest
  {
    match forest
    case Nil => Nil
    case Cons(name, first, rest) =>
      if name != path[0] then Cons(name, first, Remove(rest, path))
      else if |path| == 1 then rest
      else if first.Dir? then Cons(name, first.(entries := Remove(first.entries, path[1..])), rest)
      else forest
  }

  predicate IsFree(root: Forest, path: Path)
    requires path != []
  {
    Parent(root, path).Ok? && Find(Parent(root, path).value, path[|path| - 1]) == None
  }

  lemma {:induction false} AppendedIsFound(forest: Forest, name: Name, tree: Tree)
    requires Find(forest, name) == None
    ensures Find(Append(forest, Cons(name, tree, Nil)), name) == Some(tree)
    ensures Remove(Append(forest, Cons(name, tree, Nil)), [name]) == forest
  {
    if forest.Cons? {
      AppendedIsFound(forest.rest, name, tree);
    }
  }

  lemma {:induction false} InsertedIsFound(forest: Forest, path: Path, tree: Tree)
    requires path != [] && IsFree(forest, path)
    ensures Lookup(Insert(forest, path, tree), path) == Ok(tree)
    ensures Remove(Insert(forest, path, tree), path) == forest
    decreases |path|, forest
  {
    if |path| == 1 {
      AppendedIsFound(forest, path[0], tree);
      assert path == [path[0]];
    } else if forest.name == path[0] {
      assert IsFree(forest.tree.entries, path[1..]);
      InsertedIsFound(forest.tree.entries, path[1..], tree);
    } else {
      assert Parent(forest.rest, path) == Parent(forest, path);
      InsertedIsFound(forest.rest, path, tree);
      var after := Insert(forest, path, tree);
      assert after == Cons(forest.name, forest.tree, Insert(forest.rest, path, tree));
      assert Lookup(after, path) == Lookup(after.rest, path);
    }
  }

  // What is at the source path, if it may be copied at all.
  function Source(root: Forest, from: Path): Result<Tree, Error> {
    if from == [] then Ok(Dir(DIRECTORY_MODE, root))
    else match Lookup(root, from)
      case Err(error) => Err(error)
      case Ok(tree) => if IsSafe(tree) then Ok(tree) else Err(UnsafeEntry)
  }

  function StagedCopy(tree: Tree): Result<Tree, Error>
    requires IsSafe(tree)
  {
    if tree.File? then
      match CopyFile(tree, Budget(0, 0))
      case Err(error) => Err(error)
      case Ok(copying) => Ok(copying.copy)
    else
      match CopyDirectory(tree.entries, 0, Budget(0, 0))
      case Err(error) => Err(error)
      case Ok(copying) => Ok(Dir(DIRECTORY_MODE, copying.copy))
  }

  // verify_published, of an entry nobody replaced
  function Verify(tree: Tree): Option<Error> {
    if !IsSafe(tree) then Some(UnsafeEntry)
    else if tree.Dir? then
      match ValidateTree(tree.entries, 0, 0)
      case Err(error) => Some(error)
      case Ok(_) => None
    else None
  }

  // `named` says that the destination does not end in a slash or a dot.
  function CopyWithin(root: Forest, from: Path, to: Path, named: bool): Result<Forest, Error> {
    match Source(root, from)
    case Err(error) => Err(error)
    case Ok(tree) =>
      if (tree.Dir? && from <= to) || to == [] || !named then Err(InvalidPath)
      else match Parent(root, to)
        case Err(error) => Err(error)
        case Ok(parent) =>
          match StagedCopy(tree)
          case Err(error) => Err(error)
          case Ok(copy) =>
            if Verify(copy).Some? then Err(Verify(copy).value)
            else if Find(parent, to[|to| - 1]).Some? then Err(Conflict)
            else Ok(Insert(root, to, copy))
  }

  class Workspace {
    var root: Forest
    var staged: Option<Tree>

    constructor (root: Forest)
      ensures this.root == root && staged == None
    {
      this.root, staged := root, None;
    }

    method Stage(tree: Tree) returns (error: Option<Error>)
      requires IsSafe(tree)
      modifies this`staged
      ensures match StagedCopy(tree)
        case Err(e) => error == Some(e)
        case Ok(copy) => error == None && staged == Some(copy)
    {
      var budget := new CopyBudget();
      match tree
      case File(_, mode, bytes) =>
        if |bytes| > MAX_COPY_FILE_BYTES {
          return Some(LimitExceeded);
        }
        error := budget.CountFile(|bytes|);
        if error.None? {
          staged := Some(File(1, SafeMode(mode), bytes));
        }
      case Dir(_, entries) =>
        var children: Forest;
        staged := Some(Dir(DIRECTORY_MODE, Nil));
        children, error := CopyInto(entries, 0, budget);
        staged := Some(Dir(DIRECTORY_MODE, children));
    }

    method CheckPublished(tree: Tree) returns (error: Option<Error>)
      ensures error == Verify(tree)
    {
      if !IsSafe(tree) {
        return Some(UnsafeEntry);
      }
      error := None;
      if tree.Dir? {
        var scanned: nat;
        scanned, error := Validate(tree.entries, 0, 0);
      }
    }

    /** copy: whatever happens nothing stays staged, and a refusal leaves the workspace as it was. */
    method Copy(from: Path, to: Path, named: bool) returns (error: Option<Error>)
      requires staged == None
      modifies this
      ensures staged == None
      ensures match CopyWithin(old(root), from, to, named)
        case Err(e) => error == Some(e) && root == old(root)
        case Ok(after) => error == None && root == after
    {
      hide StagedCopy, Verify, Insert;
      var source := Source(root, from);
      if source.Err? {
        return Some(source.error);
      }
      if source.value.Dir? && (from == [] || from <= to) {
        return Some(InvalidPath);
      }
      if to == [] || !named {
        return Some(InvalidPath);
      }
      var parent := Parent(root, to);
      if parent.Err? {
        return Some(parent.error);
      }
      error := Stage(source.value);
      if error.Some? {
        staged := None;
        return;
      }
      var copy := staged.value;
      error := CheckPublished(copy);
      if error.Some? {
        staged := None;
        return;
      }
      if Find(parent.value, to[|to| - 1]).Some? {
        staged := None;
        return Some(Conflict);
      }
      root, staged := Insert(root, to, copy), None;
      error := CheckPublished(copy);
    }
  }

  predicate CanCopy(tree: Tree) {
    if tree.Dir? then Fits(tree.entries, 0, Budget(0, 0)) else tree.File? && |tree.bytes| <= MAX_COPY_FILE_BYTES
  }

  lemma {:induction false} StagedIsExact(tree: Tree)
    requires IsSafe(tree)
    ensures StagedCopy(tree).Ok? <==> CanCopy(tree)
    ensures StagedCopy(tree).Ok? ==> StagedCopy(tree).value == CopiedTree(tree) && Verify(CopiedTree(tree)) == None
  {
    hide CopyDirectory, ValidateTree, Copied, Fits, Spent;
    if tree.Dir? {
      DirectoryIsExact(tree.entries, 0, Budget(0, 0));
      if CopyDirectory(tree.entries, 0, Budget(0, 0)).Ok? {
        CopiesAreValid(tree.entries);
      }
    }
  }

  /** A copy succeeds exactly when the source may be copied and the destination is free, in an existing directory
      outside the source; then the copy is at the destination, and without it the workspace is what it was. */
  lemma {:induction false} CopyIsExact(root: Forest, from: Path, to: Path, named: bool)
    ensures CopyWithin(root, from, to, named).Ok? <==>
      && Source(root, from).Ok? && CanCopy(Source(root, from).value)
      && to != [] && named && IsFree(root, to)
      && !(Source(root, from).value.Dir? && from <= to)
    ensures CopyWithin(root, from, to, named).Ok? ==>
      && Lookup(CopyWithin(root, from, to, named).value, to) == Ok(CopiedTree(Source(root, from).value))
      && Remove(CopyWithin(root, from, to, named).value, to) == root
  {
    hide StagedCopy, Verify, Insert, Remove, Lookup, CanCopy, CopiedTree;
    var source := Source(root, from);
    if source.Ok? {
      assert IsSafe(source.value);
      StagedIsExact(source.value);
      if to != [] && IsFree(root, to) {
        InsertedIsFound(root, to, CopiedTree(source.value));
      }
    }
  }

  /** A copied file may be read by everyone and written by its owner, is executable for exactly those for whom the
      original is, and carries no other bit, so neither set-user-ID nor set-group-ID nor the sticky bit. */
  lemma {:induction false} CopiedModeIsSafe(mode: bv16)
    ensures SafeMode(mode) & 0x1B6 == 0x1A4
    ensures SafeMode(mode) & 0x49 == mode & 0x49
    ensures SafeMode(mode) & 0xFE00 == 0
  {
  }

  predicate TreeLimits(tree: Tree, depth: nat, budget: Budget) {
    TreeFilesFit(tree) && depth + TreeLevels(tree) <= MAX_COMPONENTS && Within(TreeSpent(tree, budget))
  }

  predicate Limits(forest: Forest, depth: nat, budget: Budget) {
    FilesFit(forest) && depth + Levels(forest) <= MAX_COMPONENTS && Within(Spent(forest, budget))
  }

  lemma {:induction false} EntryRefusal(name: Name, tree: Tree, depth: nat, budget: Budget)
    requires Within(budget) && depth < MAX_COMPONENTS && CopyEntry(name, tree, depth, budget).Err?
    ensures CopyEntry(name, tree, depth, budget).error in {UnsafeEntry, LimitExceeded}
    ensures CopyEntry(name, tree, depth, budget).error == UnsafeEntry ==> name.Raw? || !SafeTree(tree)
    ensures CopyEntry(name, tree, depth, budget).error == LimitExceeded ==> !TreeLimits(tree, depth, budget)
    decreases tree, 0
  {
    if name.Text? && tree.Dir? && AddEntry(budget).Ok? {
      DirectoryRefusal(tree.entries, depth + 1, AddEntry(budget).value);
    }
  }

  lemma {:induction false} EntriesRefusal(source: Forest, depth: nat, budget: Budget)
    requires Within(budget) && depth < MAX_COMPONENTS && CopyEntries(source, depth, budget).Err?
    ensures CopyEntries(source, depth, budget).error in {UnsafeEntry, LimitExceeded}
    ensures CopyEntries(source, depth, budget).error == UnsafeEntry ==> !AllSafe(source)
    ensures CopyEntries(source, depth, budget).error == LimitExceeded ==> !Limits(source, depth, budget)
    decreases source, 0
  {
    var first := CopyEntry(source.name, source.tree, depth, budget);
    EntryIsExact(source.name, source.tree, depth, budget);
    if first.Err? {
      EntryRefusal(source.name, source.tree, depth, budget);
    } else {
      EntriesRefusal(source.rest, depth, first.value.budget);
    }
  }

  /** A copy that is refused says why: an unsafe entry only if there is one, an exceeded limit only if one is. */
  lemma {:induction false} DirectoryRefusal(source: Forest, depth: nat, budget: Budget)
    requires Within(budget)
    ensures CopyDirectory(source, depth, budget).Err? ==>
      var error := CopyDirectory(source, depth, budget).error;
      (error == UnsafeEntry && !AllSafe(source)) || (error == LimitExceeded && !Limits(source, depth, budget))
    decreases source, 1
  {
    if depth < MAX_COMPONENTS && CopyDirectory(source, depth, budget).Err? {
      EntriesRefusal(source, depth, budget);
    }
  }

  /** The refusals of a copy, by cause, in the order in which they are met. */
  lemma {:induction false} CopyRefusalsAreExact(root: Forest, from: Path, to: Path, named: bool)
    ensures var source, result := Source(root, from), CopyWithin(root, from, to, named);
      if source.Err? then result == Err(source.error)
      else if (source.value.Dir? && from <= to) || to == [] || !named then result == Err(InvalidPath)
      else if Parent(root, to).Err? then result == Err(Parent(root, to).error)
      else if !CanCopy(source.value) then result == Err(UnsafeEntry) || result == Err(LimitExceeded)
      else if !IsFree(root, to) then result == Err(Conflict)
      else result.Ok?
  {
    hide StagedCopy, Verify, Insert, Lookup, CanCopy, CopiedTree;
    var source := Source(root, from);
    if source.Ok? {
      assert IsSafe(source.value);
      StagedIsExact(source.value);
      if StagedCopy(source.value).Err? {
        StagedRefusal(source.value);
      }
    }
  }

  lemma {:induction false} StagedRefusal(tree: Tree)
    requires IsSafe(tree) && StagedCopy(tree).Err?
    ensures StagedCopy(tree).error == UnsafeEntry || StagedCopy(tree).error == LimitExceeded
  {
    hide CopyDirectory;
    if tree.Dir? {
      DirectoryRefusal(tree.entries, 0, Budget(0, 0));
    }
  }
}

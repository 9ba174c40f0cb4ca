/**
 File grants (`e2e/helpers/kitGrants.ts`): sessions of a kit, the handles granted in them, and
 the files of the workspace. A path is the list of its names below the workspace root. Each
 request is one step; other programs change files between steps. Reading contents, the log
 kept for specs, and the order of answers are left out.
 */
module KitGrants {
  import opened Options
  import opened Text
  import opened FreeNames

  type Path = seq<string>
  type Chunk = seq<nat>

  datatype Node = File(bytes: Chunk, mtime: nat) | Folder(mtime: nat, size: nat)
  type Tree = map<Path, Node>
  /** Time of the last change and size, as the entity tag has them: not a count of changes. */
  datatype Version = Version(mtime: nat, size: nat)

  datatype Right = Read | Create | Write
  datatype Kind = FileKind | FolderKind
  datatype Grant = Grant(file: Path, name: string, kind: Kind, rights: set<Right>, flow: string, committed: bool,
                         staged: seq<Chunk>)
  datatype Session = Session(beside: Path, readOnly: bool, read: set<string>, create: set<string>, folders: bool,
                             grants: map<nat, Grant>)

  /** `issued`: every identifier ever handed out; new ones are random and so differ from them. */
  datatype World = World(sessions: map<nat, Session>, tree: Tree, issued: set<nat>)

  datatype Reason = NotAllowed | NotGranted | Conflict | AlreadyCommitted | BadOffset(staged: nat)
  datatype Answer =
    | Opened
    | Granted(name: string)
    | Listed(names: seq<string>)
    | Success
    | Committed(file: Path, version: Version)
    | Refused(reason: Reason)
    | Failed

  /** A fresh identifier comes with each request that may need one. */
  datatype Request =
    | OpenSession(id: nat, document: string, readOnly: bool, read: set<string>, create: set<string>, folders: bool)
    | Ask(session: nat, id: nat, path: string, kind: Kind, rights: set<Right>, flow: string)
    | Make(session: nat, id: nat, folder: Option<nat>, suggested: string)
    | List(session: nat, handle: nat, names: seq<string>, ids: seq<nat>)
    | Release(session: nat, handles: set<nat>)
    | EndSession(session: nat)
    | Post(session: nat, handle: nat, offset: int, chunk: Chunk, final: bool, expected: Option<Version>, now: nat)
    | Elsewhere(tree: Tree)

  // ---- names and paths ----

  predicate CleanName(name: string) { name != "" && name[0] != '.' && '/' !in name }

  predicate CleanPath(path: Path) { forall i :: 0 <= i < |path| ==> CleanName(path[i]) }

  function StripSlashes(s: string): (r: string)
    ensures r != "" ==> r[0] != '/'
  {
    if s != "" && s[0] == '/' then StripSlashes(s[1..]) else s
  }

  /** `inside`: a path that is hidden nowhere and does not leave the root. */
  function Inside(relative: string): (r: Option<Path>)
    ensures r.Some? ==> r.value != [] && CleanPath(r.value)
  {
    var parts := Split(StripSlashes(relative), '/');
    if relative == "" || '\\' in relative || exists i :: 0 <= i < |parts| && (parts[i] == "" || parts[i][0] == '.') then
      None
    else Some(parts)
  }

  /** The part after the last slash or backslash. */
  function AfterLastSlash(s: string): (r: string)
    ensures '/' !in r && '\\' !in r
  {
    if s == "" || s[|s| - 1] == '/' || s[|s| - 1] == '\\' then "" else AfterLastSlash(s[..|s| - 1]) + [s[|s| - 1]]
  }

  function StripDots(s: string): (r: string)
    ensures r != "" ==> r[0] != '.'
    ensures '/' !in s ==> '/' !in r
  {
    if s != "" && s[0] == '.' then StripDots(s[1..]) else s
  }

  function SuggestedName(suggested: string): (r: string)
    ensures CleanName(r)
  {
    var name := StripDots(AfterLastSlash(suggested));
    if name == "" then "Untitled" else name
  }

  function LastOf(path: Path): string
    requires path != []
  {
    path[|path| - 1]
  }

  function ParentOf(path: Path): Path
    requires path != []
  {
    path[..|path| - 1]
  }

  // ---- files ----

  predicate Exists(tree: Tree, path: Path) { path == [] || path in tree }

  function Children(tree: Tree, folder: Path): set<string> {
    set p | p in tree && |p| == |folder| + 1 && p[..|folder|] == folder :: p[|folder|]
  }

  lemma ChildrenExist(tree: Tree, folder: Path, name: string)
    ensures name in Children(tree, folder) <==> Exists(tree, folder + [name])
  {
    var path := folder + [name];
    assert |path| == |folder| + 1 && path[..|folder|] == folder && path[|folder|] == name;
    if name in Children(tree, folder) {
      var p :| p in tree && |p| == |folder| + 1 && p[..|folder|] == folder && p[|folder|] == name;
      assert p == path;
    }
  }

  /** Names in a directory are never empty and hold no slash, and what is there is in a folder that is there. */
  predicate TreeOk(tree: Tree) {
    forall p :: p in tree ==> NodeOk(tree, p)
  }

  predicate NodeOk(tree: Tree, path: Path) {
    path != [] && (forall i :: 0 <= i < |path| ==> path[i] != "" && '/' !in path[i]) && IsFolder(tree, ParentOf(path))
  }

  predicate IsFolder(tree: Tree, path: Path) { path == [] || (path in tree && tree[path].Folder?) }

  /** Writing a file needs its folder, and that no folder has its name. */
  predicate CanWrite(tree: Tree, path: Path) { path != [] && IsFolder(tree, ParentOf(path)) && !IsFolder(tree, path) }

  function VersionOf(node: Node): Version {
    if node.File? then Version(node.mtime, |node.bytes|) else Version(node.mtime, node.size)
  }

  function Flat(chunks: seq<Chunk>): Chunk {
    if chunks == [] then [] else chunks[0] + Flat(chunks[1..])
  }

  /** `reduce` over the lengths. */
  function SizeOf(chunks: seq<Chunk>): nat {
    if chunks == [] then 0 else |chunks[0]| + SizeOf(chunks[1..])
  }

  lemma {:induction false} SizeIsLength(chunks: seq<Chunk>)
    ensures SizeOf(chunks) == |Flat(chunks)|
  {
    if chunks != [] { SizeIsLength(chunks[1..]); }
  }

  lemma {:induction false} FlatAppend(chunks: seq<Chunk>, chunk: Chunk)
    ensures Flat(chunks + [chunk]) == Flat(chunks) + chunk
  {
    if chunks == [] {
      assert chunks + [chunk] == [chunk] && [chunk][1..] == [];
    } else {
      FlatAppend(chunks[1..], chunk);
      assert (chunks + [chunk])[1..] == chunks[1..] + [chunk];
    }
  }

  // ---- requests ----

  function NewGrant(file: Path, name: string, kind: Kind, rights: set<Right>, flow: string): Grant {
    Grant(file, name, kind, rights, flow, false, [])
  }

  function Add(w: World, session: nat, id: nat, grant: Grant): World
    requires session in w.sessions
  {
    var s := w.sessions[session];
    w.(sessions := w.sessions[session := s.(grants := s.grants[id := grant])], issued := w.issued + {id})
  }

  predicate DeclaresRight(s: Session, right: Right, extension: string) {
    if right == Read then extension in s.read else extension in s.create
  }

  predicate Declares(s: Session, kind: Kind, rights: set<Right>, name: string) {
    if kind == FolderKind then s.folders
    else forall right :: right in rights ==> DeclaresRight(s, right, ExtensionOf(name))
  }

  function AskOf(w: World, q: Request): (World, Answer)
    requires q.Ask? && q.session in w.sessions
  {
    var s, file := w.sessions[q.session], Inside(q.path);
    var exists_ := file.Some? && Exists(w.tree, file.value);
    if file == None || (!exists_ && Create !in q.rights) then (w, Refused(NotAllowed))
    else if Create in q.rights && exists_ then (w, Refused(Conflict))
    else
      var name := LastOf(file.value);
      if !Declares(s, q.kind, q.rights, name) || (Write in q.rights && s.readOnly) then (w, Refused(NotAllowed))
      else (Add(w, q.session, q.id, NewGrant(file.value, name, q.kind, q.rights, q.flow)), Granted(name))
  }

  function MakeOf(w: World, q: Request): (World, Answer)
    requires q.Make? && q.session in w.sessions
  {
    var s := w.sessions[q.session];
    if q.folder.Some? && (q.folder.value !in s.grants || s.grants[q.folder.value].kind != FolderKind || Create !in s.grants[q.folder.value].rights)
    then (w, Refused(NotGranted))
    else
      var suggested := SuggestedName(q.suggested);
      if ExtensionOf(suggested) !in s.create then (w, Refused(NotAllowed))
      else
        var parent := if q.folder.Some? then s.grants[q.folder.value].file else s.beside;
        var name := Unused(Children(w.tree, parent), suggested);
        (Add(w, q.session, q.id, NewGrant(parent + [name], name, FileKind, {Create}, "create")), Granted(name))
  }

  predicate Visible(s: Session, name: string) { name != "" && name[0] != '.' && ExtensionOf(name) in s.read }

  function AddAll(w: World, session: nat, folder: Path, names: seq<string>, ids: seq<nat>): World
    requires session in w.sessions && |names| == |ids|
    decreases |names|
  {
    if names == [] then w
    else AddAll(Add(w, session, ids[0], NewGrant(folder + [names[0]], names[0], FileKind, {Read}, "list")), session, folder, names[1..], ids[1..])
  }

  /** `names`: what the directory listed, filtered and sorted. */
  function ListOf(w: World, q: Request): (World, Answer)
    requires q.List? && q.session in w.sessions && |q.names| == |q.ids|
  {
    var s := w.sessions[q.session];
    if q.handle !in s.grants || s.grants[q.handle].kind != FolderKind || Read !in s.grants[q.handle].rights then
      (w, Refused(NotGranted))
    else if !IsFolder(w.tree, s.grants[q.handle].file) then (w, Failed)
    else (AddAll(w, q.session, s.grants[q.handle].file, q.names, q.ids), Listed(q.names))
  }

  /** The grant and the files after bytes are posted, and the answer. */
  function Posted(tree: Tree, g: Grant, offset: int, chunk: Chunk, final: bool, expected: Option<Version>,
                  now: nat): (Grant, Tree, Answer)
    requires g.file != []
  {
    var creating, staged := Create in g.rights, SizeOf(g.staged);
    if !creating && Write !in g.rights then (g, tree, Refused(NotGranted))
    else if creating && g.committed then (g, tree, Refused(AlreadyCommitted))
    else if offset != staged then (g, tree, Refused(BadOffset(staged)))
    else if !final then (g.(staged := g.staged + [chunk]), tree, Success)
    else Finalized(tree, g.(staged := []), Flat(g.staged + [chunk]), expected, now)
  }

  /** The last chunk is there: whatever comes of it, nothing stays staged. */
  function Finalized(tree: Tree, g: Grant, bytes: Chunk, expected: Option<Version>, now: nat): (Grant, Tree, Answer)
    requires g.file != []
  {
    var creating := Create in g.rights;
    if creating && Exists(tree, g.file) && g.flow != "create" then (g, tree, Refused(Conflict))
    else
      var named := if creating && Exists(tree, g.file) then Renamed(tree, g) else g;
      if !creating && !Exists(tree, g.file) then (g, tree, Failed)
      else if !creating && expected != Some(VersionOf(tree[g.file])) then (g, tree, Refused(Conflict))
      else if !CanWrite(tree, named.file) then (named, tree, Failed)
      else (named.(committed := creating), tree[named.file := File(bytes, now)], Committed(named.file, Version(now, |bytes|)))
  }

  function Renamed(tree: Tree, g: Grant): (r: Grant)
    requires g.file != []
  {
    var name := Unused(Children(tree, ParentOf(g.file)), g.name);
    g.(name := name, file := ParentOf(g.file) + [name])
  }

  function PostOf(w: World, q: Request): (World, Answer)
    requires q.Post? && q.session in w.sessions
    requires q.handle in w.sessions[q.session].grants ==> w.sessions[q.session].grants[q.handle].file != []
  {
    var s := w.sessions[q.session];
    if q.handle !in s.grants then (w, Refused(NotGranted))
    else
      var r := Posted(w.tree, s.grants[q.handle], q.offset, q.chunk, q.final, q.expected, q.now);
      (w.(sessions := w.sessions[q.session := s.(grants := s.grants[q.handle := r.0])], tree := r.1), r.2)
  }

  function OpenOf(w: World, q: Request): (World, Answer)
    requires q.OpenSession?
  {
    var beside := if q.document == "" then Some([]) else
      var document := Inside(q.document);
      if document == None then None else Some(ParentOf(document.value));
    if beside == None then (w, Refused(NotAllowed))
    else (w.(sessions := w.sessions[q.id := Session(beside.value, q.readOnly, q.read, q.create, q.folders, map[])], issued := w.issued + {q.id}), Opened)
  }

  /** A directory holds each name once, and a listing names exactly the visible ones. */
  predicate ListsVisible(s: Session, tree: Tree, folder: Path, names: seq<string>) {
    (forall i, j :: 0 <= i < j < |names| ==> names[i] != names[j])
    && (forall name :: name in names ==> name in Children(tree, folder) && Visible(s, name))
    && (forall name :: name in Children(tree, folder) && Visible(s, name) ==> name in names)
  }

  /** Identifiers are new, a listing is what the directory holds, and other programs keep names proper. */
  predicate Possible(w: World, q: Request) {
    match q
    case OpenSession(id, _, _, _, _, _) => id !in w.issued
    case Ask(_, id, _, _, _, _) => id !in w.issued
    case Make(_, id, _, _) => id !in w.issued
    case List(session, handle, names, ids) =>
      |names| == |ids| && (forall id :: id in ids ==> id !in w.issued) && (forall i, j :: 0 <= i < j < |ids| ==> ids[i] != ids[j])
      && (session in w.sessions && handle in w.sessions[session].grants ==>
            ListsVisible(w.sessions[session], w.tree, w.sessions[session].grants[handle].file, names))
    case Elsewhere(tree) => TreeOk(tree)
    case _ => true
  }

  function SessionIn(q: Request): Option<nat> {
    if q.OpenSession? || q.Elsewhere? then None else Some(q.session)
  }

  function Step(w: World, q: Request): (World, Answer)
    requires Possible(w, q) && Sound(w)
  {
    if SessionIn(q).Some? && SessionIn(q).value !in w.sessions then (w, Refused(NotGranted))
    else
      match q
      case OpenSession(_, _, _, _, _, _) => OpenOf(w, q)
      case Ask(_, _, _, _, _, _) => AskOf(w, q)
      case Make(_, _, _, _) => MakeOf(w, q)
      case List(_, _, _, _) => ListOf(w, q)
      case Release(session, handles) =>
        var s := w.sessions[session];
        (w.(sessions := w.sessions[session := s.(grants := s.grants - handles)]), Success)
      case EndSession(session) => (w.(sessions := w.sessions - {session}), Success)
      case Post(_, _, _, _, _, _, _) => PostOf(w, q)
      case Elsewhere(tree) => (w.(tree := tree), Success)
  }

  // ---- the invariant ----

  /** A handle stays below the root and is hidden nowhere; a file's extension is declared for each right it holds. */
  predicate GrantOk(s: Session, g: Grant) {
    g.file != [] && CleanPath(g.file) && g.name == LastOf(g.file)
    && Declares(s, g.kind, g.rights, g.name)
    && (s.readOnly ==> Write !in g.rights)
  }

  predicate SessionOk(s: Session) { CleanPath(s.beside) && forall h :: h in s.grants ==> GrantOk(s, s.grants[h]) }

  /** What every request keeps. */
  predicate Sound(w: World) {
    TreeOk(w.tree) && (forall id :: id in w.sessions ==> SessionOk(w.sessions[id]))
    && (forall id :: id in w.sessions ==> w.sessions[id].grants.Keys <= w.issued)
    && w.sessions.Keys <= w.issued
  }

  lemma AddKeepsSound(w: World, session: nat, id: nat, grant: Grant)
    requires Sound(w) && session in w.sessions && GrantOk(w.sessions[session], grant)
    ensures Sound(Add(w, session, id, grant))
  {
    hide GrantOk;
    var s := w.sessions[session];
    var s' := s.(grants := s.grants[id := grant]);
    forall h | h in s'.grants ensures GrantOk(s', s'.grants[h]) { SameRules(s, s', s'.grants[h]); }
  }

  /** The rules of a session are fixed when it opens. */
  lemma SameRules(s: Session, s': Session, g: Grant)
    requires GrantOk(s, g) && s' == s.(grants := s'.grants)
    ensures GrantOk(s', g)
  {
  }

  lemma CleanChild(folder: Path, name: string)
    requires CleanPath(folder) && CleanName(name)
    ensures CleanPath(folder + [name])
  {
  }

  lemma MakeKeepsSound(w: World, q: Request)
    requires Sound(w) && q.Make? && q.session in w.sessions
    ensures Sound(MakeOf(w, q).0)
  {
    hide Unused, ExtensionOf, SuggestedName, Children, TreeOk;
    var s := w.sessions[q.session];
    if MakeOf(w, q).1.Granted? {
      var parent := if q.folder.Some? then s.grants[q.folder.value].file else s.beside;
      if q.folder.Some? { assert GrantOk(s, s.grants[q.folder.value]); }
      var suggested := SuggestedName(q.suggested);
      UnusedKeeps(Children(w.tree, parent), suggested);
      var name := Unused(Children(w.tree, parent), suggested);
      CleanChild(parent, name);
      AddKeepsSound(w, q.session, q.id, NewGrant(parent + [name], name, FileKind, {Create}, "create"));
    }
  }

  lemma {:induction false} AddAllKeepsSound(w: World, session: nat, folder: Path, names: seq<string>, ids: seq<nat>)
    requires Sound(w) && session in w.sessions && CleanPath(folder) && |names| == |ids|
    requires forall name :: name in names ==> CleanName(name) && ExtensionOf(name) in w.sessions[session].read
    ensures Sound(AddAll(w, session, folder, names, ids))
    decreases |names|
  {
    hide Sound, CleanPath, ExtensionOf;
    if names != [] {
      assert CleanName(names[0]) && ExtensionOf(names[0]) in w.sessions[session].read;
      CleanChild(folder, names[0]);
      var grant := NewGrant(folder + [names[0]], names[0], FileKind, {Read}, "list");
      AddKeepsSound(w, session, ids[0], grant);
      AddAllKeepsSound(Add(w, session, ids[0], grant), session, folder, names[1..], ids[1..]);
    }
  }

  lemma ListKeepsSound(w: World, q: Request)
    requires Sound(w) && q.List? && q.session in w.sessions && Possible(w, q)
    ensures Sound(ListOf(w, q).0)
  {
    hide ExtensionOf;
    var s := w.sessions[q.session];
    if ListOf(w, q).1.Listed? {
      var g := s.grants[q.handle];
      assert GrantOk(s, g);
      forall name | name in q.names ensures CleanName(name) && ExtensionOf(name) in s.read {
        ChildrenExist(w.tree, g.file, name);
        assert (g.file + [name])[|g.file|] == name;
      }
      AddAllKeepsSound(w, q.session, g.file, q.names, q.ids);
    }
  }

  /** A rename keeps the folder and the extension, and finds a free name. */
  lemma RenamedKeeps(tree: Tree, g: Grant)
    requires g.file != [] && CleanPath(g.file) && g.name == LastOf(g.file)
    ensures var r := Renamed(tree, g);
      r == g.(name := r.name, file := r.file) && r.file != [] && CleanPath(r.file) && r.name == LastOf(r.file)
      && ExtensionOf(r.name) == ExtensionOf(g.name) && ParentOf(r.file) == ParentOf(g.file) && !Exists(tree, r.file)
  {
    hide Unused, ExtensionOf, Children;
    var parent := ParentOf(g.file);
    assert CleanName(g.file[|g.file| - 1]);
    UnusedKeeps(Children(tree, parent), g.name);
    var r := Renamed(tree, g);
    CleanChild(parent, r.name);
    ChildrenExist(tree, parent, r.name);
    assert ParentOf(r.file) == parent;
  }

  lemma PostedKeeps(s: Session, tree: Tree, g: Grant, offset: int, chunk: Chunk, final: bool, expected: Option<Version>,
                    now: nat)
    requires GrantOk(s, g) && TreeOk(tree)
    ensures var r := Posted(tree, g, offset, chunk, final, expected, now); GrantOk(s, r.0) && TreeOk(r.1)
  {
    hide ExtensionOf, Renamed, TreeOk, CanWrite;
    RenamedKeeps(tree, g.(staged := []));
    forall path: Path, bytes: Chunk | CanWrite(tree, path) && (forall i :: 0 <= i < |path| ==> CleanName(path[i]))
      ensures TreeOk(tree[path := File(bytes, now)])
    {
      WrittenKeepsTree(tree, path, bytes, now);
    }
  }

  lemma WrittenKeepsTree(tree: Tree, path: Path, bytes: Chunk, now: nat)
    requires TreeOk(tree) && CanWrite(tree, path) && forall i :: 0 <= i < |path| ==> CleanName(path[i])
    ensures TreeOk(tree[path := File(bytes, now)])
  {
    var tree' := tree[path := File(bytes, now)];
    forall p | p in tree' ensures NodeOk(tree', p) {
      if p != path { assert NodeOk(tree, p); }
    }
  }

  lemma PostKeepsSound(w: World, q: Request)
    requires Sound(w) && q.Post? && q.session in w.sessions
    requires q.handle in w.sessions[q.session].grants ==> w.sessions[q.session].grants[q.handle].file != []
    ensures Sound(PostOf(w, q).0)
  {
    hide GrantOk, TreeOk, Posted;
    var s := w.sessions[q.session];
    if q.handle in s.grants {
      PostedKeeps(s, w.tree, s.grants[q.handle], q.offset, q.chunk, q.final, q.expected, q.now);
      var s' := PostOf(w, q).0.sessions[q.session];
      forall h | h in s'.grants ensures GrantOk(s', s'.grants[h]) { SameRules(s, s', s'.grants[h]); }
    }
  }

  lemma ReleaseKeepsSound(w: World, session: nat, handles: set<nat>)
    requires Sound(w) && session in w.sessions
    ensures var s := w.sessions[session]; Sound(w.(sessions := w.sessions[session := s.(grants := s.grants - handles)]))
  {
    hide GrantOk;
    var s := w.sessions[session];
    var s' := s.(grants := s.grants - handles);
    forall h | h in s'.grants ensures GrantOk(s', s'.grants[h]) { SameRules(s, s', s'.grants[h]); }
  }

  lemma AskKeepsSound(w: World, q: Request)
    requires Sound(w) && q.Ask? && q.session in w.sessions
    ensures Sound(AskOf(w, q).0)
  {
    hide ExtensionOf, Inside, TreeOk;
    if AskOf(w, q).1.Granted? {
      var file := Inside(q.path).value;
      AddKeepsSound(w, q.session, q.id, NewGrant(file, LastOf(file), q.kind, q.rights, q.flow));
    }
  }

  /** Whatever is asked, in whatever order, and whatever other programs do, the grants stay sound. */
  lemma StepKeepsSound(w: World, q: Request)
    requires Possible(w, q) && Sound(w)
    ensures Sound(Step(w, q).0)
  {
    hide AskOf, MakeOf, ListOf, PostOf, Inside, GrantOk, TreeOk;
    if SessionIn(q) == None || SessionIn(q).value in w.sessions {
      match q
      case Ask(_, _, _, _, _, _) => AskKeepsSound(w, q);
      case Make(_, _, _, _) => MakeKeepsSound(w, q);
      case List(_, _, _, _) => ListKeepsSound(w, q);
      case Release(session, handles) => ReleaseKeepsSound(w, session, handles);
      case Post(session, handle, _, _, _, _, _) =>
        if handle in w.sessions[session].grants { FileIsNamed(w.sessions[session], handle); }
        PostKeepsSound(w, q);
      case OpenSession(_, _, _, _, _, _) => OpenKeepsSound(w, q);
      case _ =>
    }
  }

  lemma FileIsNamed(s: Session, handle: nat)
    requires SessionOk(s) && handle in s.grants
    ensures s.grants[handle].file != []
  {
    assert GrantOk(s, s.grants[handle]);
  }

  lemma OpenKeepsSound(w: World, q: Request)
    requires Sound(w) && q.OpenSession?
    ensures Sound(OpenOf(w, q).0)
  {
    hide GrantOk, TreeOk;
  }

  // ---- runs ----

  predicate Runs(w: World, qs: seq<Request>)
    requires Sound(w)
    decreases |qs|
  {
    qs == [] || (Possible(w, qs[0]) && (StepKeepsSound(w, qs[0]); Runs(Step(w, qs[0]).0, qs[1..])))
  }

  function After(w: World, qs: seq<Request>): (r: World)
    requires Sound(w) && Runs(w, qs)
    ensures Sound(r)
    decreases |qs|
  {
    if qs == [] then w else (StepKeepsSound(w, qs[0]); After(Step(w, qs[0]).0, qs[1..]))
  }

  function Answers(w: World, qs: seq<Request>): (r: seq<Answer>)
    requires Sound(w) && Runs(w, qs)
    ensures |r| == |qs|
    decreases |qs|
  {
    if qs == [] then [] else (StepKeepsSound(w, qs[0]); [Step(w, qs[0]).1] + Answers(Step(w, qs[0]).0, qs[1..]))
  }

  predicate Holds(w: World, session: nat, handle: nat) {
    session in w.sessions && handle in w.sessions[session].grants
  }

  function GrantIn(w: World, session: nat, handle: nat): Grant
    requires Holds(w, session, handle)
  {
    w.sessions[session].grants[handle]
  }

  // ---- a handle over one step ----

  predicate PostsTo(q: Request, session: nat, handle: nat) { q.Post? && q.session == session && q.handle == handle }

  lemma {:induction false} AddAllAdds(w: World, session: nat, folder: Path, names: seq<string>, ids: seq<nat>,
                                      other: nat, handle: nat)
    requires session in w.sessions && |names| == |ids| && handle !in ids
    ensures var w' := AddAll(w, session, folder, names, ids);
      (Holds(w', other, handle) <==> Holds(w, other, handle)) && (Holds(w, other, handle) ==> GrantIn(w', other, handle) == GrantIn(w, other, handle))
      && w.issued <= w'.issued && w'.tree == w.tree
    decreases |names|
  {
    if names != [] {
      var w1 := Add(w, session, ids[0], NewGrant(folder + [names[0]], names[0], FileKind, {Read}, "list"));
      AddAllAdds(w1, session, folder, names[1..], ids[1..], other, handle);
    }
  }

  /** Only posts to a handle change it; no handle comes back once it is gone. */
  lemma OthersKeepGrant(w: World, q: Request, session: nat, handle: nat)
    requires Sound(w) && Possible(w, q) && handle in w.issued
    ensures var w' := Step(w, q).0; Holds(w', session, handle) ==> Holds(w, session, handle)
    ensures var w' := Step(w, q).0;
      Holds(w', session, handle) && !PostsTo(q, session, handle) ==> GrantIn(w', session, handle) == GrantIn(w, session, handle)
    ensures w.issued <= Step(w, q).0.issued
  {
    hide Inside, Unused, Children, TreeOk, GrantOk, Posted, ExtensionOf, SuggestedName, Declares;
    if q.List? && q.session in w.sessions && ListOf(w, q).1.Listed? {
      AddAllAdds(w, q.session, w.sessions[q.session].grants[q.handle].file, q.names, q.ids, session, handle);
    }
  }

  predicate Finalizes(a: Answer) { a.Committed? || a.Failed? || a == Refused(Conflict) }

  /** The chunks accepted since the last time the handle was finalized, after one more answer. */
  function Pending(pending: seq<Chunk>, q: Request, a: Answer, session: nat, handle: nat): seq<Chunk> {
    if !PostsTo(q, session, handle) then pending
    else if a == Success then pending + [q.chunk]
    else if Finalizes(a) then []
    else pending
  }

  function PendingAll(pending: seq<Chunk>, qs: seq<Request>, answers: seq<Answer>, session: nat,
                      handle: nat): seq<Chunk>
    requires |qs| == |answers|
    decreases |qs|
  {
    if qs == [] then pending
    else PendingAll(Pending(pending, qs[0], answers[0], session, handle), qs[1..], answers[1..], session, handle)
  }

  /** What a post does to its handle, its files and what it answers. */
  lemma PostIs(w: World, q: Request)
    requires Sound(w) && q.Post? && Holds(w, q.session, q.handle)
    ensures var g, r := GrantIn(w, q.session, q.handle), Step(w, q);
      Holds(r.0, q.session, q.handle)
      && (GrantIn(r.0, q.session, q.handle), r.0.tree, r.1) == Posted(w.tree, g, q.offset, q.chunk, q.final, q.expected, q.now)
  {
    hide Posted, GrantOk, TreeOk;
  }

  lemma GrantOf(w: World, session: nat, handle: nat)
    requires Sound(w) && Holds(w, session, handle)
    ensures GrantOk(w.sessions[session], GrantIn(w, session, handle))
  {
  }

  /** What is staged is what was accepted since the last finalization, whatever that came to. */
  lemma StagedIsPending(w: World, q: Request, session: nat, handle: nat)
    requires Sound(w) && Possible(w, q) && handle in w.issued && Holds(Step(w, q).0, session, handle)
    ensures Holds(w, session, handle)
    ensures GrantIn(Step(w, q).0, session, handle).staged
      == Pending(GrantIn(w, session, handle).staged, q, Step(w, q).1, session, handle)
    ensures PostsTo(q, session, handle) && (Step(w, q).1 == Success || Finalizes(Step(w, q).1)) ==>
      q.offset == |Flat(GrantIn(w, session, handle).staged)|
  {
    hide Step, Posted, SessionOk, TreeOk;
    OthersKeepGrant(w, q, session, handle);
    if PostsTo(q, session, handle) {
      PostIs(w, q);
      FileIsNamed(w.sessions[session], handle);
      PostedStages(w.tree, GrantIn(w, session, handle), q);
    }
  }

  lemma PostedStages(tree: Tree, g: Grant, q: Request)
    requires q.Post? && g.file != []
    ensures var r := Posted(tree, g, q.offset, q.chunk, q.final, q.expected, q.now);
      r.0.staged == Pending(g.staged, q, r.2, q.session, q.handle)
      && (r.2 == Success || Finalizes(r.2) ==> q.offset == |Flat(g.staged)|)
  {
    hide Unused, Children, Flat, CanWrite;
    SizeIsLength(g.staged);
  }

  lemma GrantIsNamed(s: Session, g: Grant)
    requires GrantOk(s, g)
    ensures g.file != [] && CleanPath(g.file) && g.name == LastOf(g.file)
  {
  }

  lemma {:induction false} StagedIsPendingAll(w: World, qs: seq<Request>, session: nat, handle: nat)
    requires Sound(w) && Runs(w, qs) && handle in w.issued && Holds(After(w, qs), session, handle)
    ensures Holds(w, session, handle)
    ensures GrantIn(After(w, qs), session, handle).staged
      == PendingAll(GrantIn(w, session, handle).staged, qs, Answers(w, qs), session, handle)
    decreases |qs|
  {
    hide Step, Sound, Possible, Pending;
    if qs != [] {
      StepKeepsSound(w, qs[0]);
      var w1 := Step(w, qs[0]).0;
      OthersKeepGrant(w, qs[0], session, handle);
      StagedIsPendingAll(w1, qs[1..], session, handle);
      StagedIsPending(w, qs[0], session, handle);
    }
  }

  // ---- listings ----

  function ListGrant(folder: Path, name: string): Grant { NewGrant(folder + [name], name, FileKind, {Read}, "list") }

  lemma {:induction false} AddAllGrants(w: World, session: nat, folder: Path, names: seq<string>, ids: seq<nat>)
    requires session in w.sessions && |names| == |ids| && forall i, j :: 0 <= i < j < |ids| ==> ids[i] != ids[j]
    ensures var w' := AddAll(w, session, folder, names, ids);
      session in w'.sessions && w'.sessions[session] == w.sessions[session].(grants := w'.sessions[session].grants)
      && (forall h :: h in w'.sessions[session].grants <==> h in w.sessions[session].grants || h in ids)
      && (forall i :: 0 <= i < |ids| ==> w'.sessions[session].grants[ids[i]] == ListGrant(folder, names[i]))
    decreases |names|
  {
    if names != [] {
      var w1 := Add(w, session, ids[0], ListGrant(folder, names[0]));
      AddAllGrants(w1, session, folder, names[1..], ids[1..]);
      AddAllAdds(w1, session, folder, names[1..], ids[1..], session, ids[0]);
      assert forall i :: 0 < i < |ids| ==> ids[i] == ids[1..][i - 1] && names[i] == names[1..][i - 1];
      assert ids == [ids[0]] + ids[1..];
    }
  }

  /** A listing grants one read handle for each visible name in the folder, and nothing else. */
  lemma ListGrantsVisible(w: World, q: Request, name: string)
    requires Sound(w) && q.List? && Possible(w, q) && Step(w, q).1.Listed?
    ensures q.session in w.sessions && q.handle in w.sessions[q.session].grants
    ensures q.session in Step(w, q).0.sessions && Step(w, q).0.tree == w.tree && Step(w, q).1 == Listed(q.names)
    ensures var s, grants := w.sessions[q.session], Step(w, q).0.sessions[q.session].grants;
      var folder := s.grants[q.handle].file;
      (forall h :: h in s.grants || h in q.ids <==> h in grants)
      && (name != "" && name[0] != '.' && ExtensionOf(name) in s.read && Exists(w.tree, folder + [name])
          <==> exists i :: ListedAt(q.names, i, name) && grants[q.ids[i]] == ListGrant(folder, name))
      && forall i, j :: ListedAt(q.names, i, name) && ListedAt(q.names, j, name) ==> i == j
  {
    hide ExtensionOf, Children, TreeOk;
    var s := w.sessions[q.session];
    var folder := s.grants[q.handle].file;
    AddAllGrants(w, q.session, folder, q.names, q.ids);
    AddAllKeepsTree(w, q.session, folder, q.names, q.ids);
    ChildrenExist(w.tree, folder, name);
    if name in q.names {
      var i :| 0 <= i < |q.names| && q.names[i] == name;
      assert ListedAt(q.names, i, name);
    }
  }

  predicate ListedAt(names: seq<string>, i: int, name: string) { 0 <= i < |names| && names[i] == name }

  // ---- commits ----

  /** A commit writes the staged bytes and the last chunk, over nothing it may not replace. */
  lemma CommitIs(w: World, q: Request)
    requires Sound(w) && q.Post? && Holds(w, q.session, q.handle) && Step(w, q).1.Committed?
    ensures var g, r := GrantIn(w, q.session, q.handle), Step(w, q);
      var g' := GrantIn(r.0, q.session, q.handle);
      q.final && q.offset == |Flat(g.staged)| && g'.staged == []
      && r.1 == Committed(g'.file, Version(q.now, |Flat(g.staged) + q.chunk|))
      && r.0.tree == w.tree[g'.file := File(Flat(g.staged) + q.chunk, q.now)]
      && (if Create in g.rights then !g.committed && g'.committed && !Exists(w.tree, g'.file)
          else Write in g.rights && g'.file == g.file && g.file in w.tree && q.expected == Some(VersionOf(w.tree[g.file])))
      && ParentOf(g'.file) == ParentOf(g.file) && ExtensionOf(g'.name) == ExtensionOf(g.name)
      && (!Exists(w.tree, g.file) ==> g'.file == g.file)
  {
    hide Step, Renamed, GrantOk, ExtensionOf;
    PostIs(w, q);
    var g := GrantIn(w, q.session, q.handle);
    SizeIsLength(g.staged);
    FlatAppend(g.staged, q.chunk);
    GrantOf(w, q.session, q.handle);
    GrantIsNamed(w.sessions[q.session], g);
    RenamedKeeps(w.tree, g.(staged := []));
  }

  /**
   Over any run: the bytes committed are the chunks accepted since the last finalization, in order,
   at offsets from 0 on.
   */
  lemma CommittedBytes(w: World, qs: seq<Request>, q: Request)
    requires Sound(w) && Runs(w, qs) && q.Post? && q.handle in w.issued && Holds(After(w, qs), q.session, q.handle)
    requires Step(After(w, qs), q).1.Committed?
    ensures Holds(w, q.session, q.handle)
    ensures var pending := PendingAll(GrantIn(w, q.session, q.handle).staged, qs, Answers(w, qs), q.session, q.handle);
      var r := Step(After(w, qs), q);
      q.offset == |Flat(pending)| && r.1.file in r.0.tree && r.0.tree[r.1.file] == File(Flat(pending) + q.chunk, q.now)
  {
    hide Step, Sound, Runs;
    StagedIsPendingAll(w, qs, q.session, q.handle);
    CommitIs(After(w, qs), q);
  }

  /** The handle is committed and for creating, or it is gone. */
  predicate Spent(w: World, session: nat, handle: nat) {
    handle in w.issued
    && (Holds(w, session, handle) ==> GrantIn(w, session, handle).committed && Create in GrantIn(w, session, handle).rights)
  }

  lemma SpentStays(w: World, q: Request, session: nat, handle: nat)
    requires Sound(w) && Possible(w, q) && Spent(w, session, handle)
    ensures Spent(Step(w, q).0, session, handle)
    ensures PostsTo(q, session, handle) ==> !Step(w, q).1.Committed?
  {
    hide Step, Renamed, GrantOk;
    OthersKeepGrant(w, q, session, handle);
    if PostsTo(q, session, handle) {
      if Holds(w, session, handle) { PostIs(w, q); GrantOf(w, session, handle); } else { NoHandleNoCommit(w, q); }
    }
  }

  lemma NoHandleNoCommit(w: World, q: Request)
    requires Sound(w) && q.Post? && !Holds(w, q.session, q.handle)
    ensures !Step(w, q).1.Committed?
  {
    hide TreeOk, GrantOk;
  }

  lemma {:induction false} SpentNeverCommits(w: World, qs: seq<Request>, session: nat, handle: nat)
    requires Sound(w) && Runs(w, qs) && Spent(w, session, handle)
    ensures forall i :: 0 <= i < |qs| && PostsTo(qs[i], session, handle) ==> !Answers(w, qs)[i].Committed?
    decreases |qs|
  {
    hide Step, Sound, Possible, Spent;
    if qs != [] {
      StepKeepsSound(w, qs[0]);
      SpentStays(w, qs[0], session, handle);
      SpentNeverCommits(Step(w, qs[0]).0, qs[1..], session, handle);
    }
  }

  /** A create handle that has committed never commits again, whatever follows. */
  lemma CreatesCommitOnce(w: World, q: Request, w': World, qs: seq<Request>)
    requires Sound(w) && Possible(w, q) && q.Post? && Holds(w, q.session, q.handle)
    requires Create in GrantIn(w, q.session, q.handle).rights
    requires Step(w, q).1.Committed? && w' == Step(w, q).0 && Sound(w') && Runs(w', qs)
    ensures forall i :: 0 <= i < |qs| && PostsTo(qs[i], q.session, q.handle) ==> !Answers(w', qs)[i].Committed?
  {
    hide Step, Runs, Renamed, GrantOk;
    CommitIs(w, q);
    PostIs(w, q);
    FileIsNamed(w.sessions[q.session], q.handle);
    PostKeepsRights(w.tree, GrantIn(w, q.session, q.handle), q);
    HandlesAreIssued(w, q.session, q.handle);
    OthersKeepGrant(w, q, q.session, q.handle);
    SpentNeverCommits(w', qs, q.session, q.handle);
  }

  lemma PostKeepsRights(tree: Tree, g: Grant, q: Request)
    requires q.Post? && g.file != []
    ensures var g' := Posted(tree, g, q.offset, q.chunk, q.final, q.expected, q.now).0;
      g'.rights == g.rights && g'.kind == g.kind && g'.flow == g.flow
  {
    hide Unused, Children;
  }

  lemma HandlesAreIssued(w: World, session: nat, handle: nat)
    requires Sound(w) && Holds(w, session, handle)
    ensures handle in w.issued
  {
    hide TreeOk, SessionOk;
    assert handle in w.sessions[session].grants.Keys;
  }

  // ---- files that creates make ----

  /** Other programs change files, but delete none. */
  predicate NoneRemoved(w: World, qs: seq<Request>)
    requires Sound(w) && Runs(w, qs)
    decreases |qs|
  {
    qs == [] || ((qs[0].Elsewhere? ==> w.tree.Keys <= qs[0].tree.Keys) && (StepKeepsSound(w, qs[0]); NoneRemoved(Step(w, qs[0]).0, qs[1..])))
  }

  lemma {:induction false} AddAllKeepsTree(w: World, session: nat, folder: Path, names: seq<string>, ids: seq<nat>)
    requires session in w.sessions && |names| == |ids|
    ensures AddAll(w, session, folder, names, ids).tree == w.tree
    decreases |names|
  {
    if names != [] {
      AddAllKeepsTree(Add(w, session, ids[0], NewGrant(folder + [names[0]], names[0], FileKind, {Read}, "list")), session, folder, names[1..], ids[1..]);
    }
  }

  /** No request deletes a file. */
  lemma StepKeepsFiles(w: World, q: Request)
    requires Sound(w) && Possible(w, q) && (q.Elsewhere? ==> w.tree.Keys <= q.tree.Keys)
    ensures w.tree.Keys <= Step(w, q).0.tree.Keys
  {
    hide Inside, Unused, Children, TreeOk, GrantOk, ExtensionOf, SuggestedName, Declares, Renamed, CanWrite;
    if q.List? && q.session in w.sessions && ListOf(w, q).1.Listed? {
      AddAllKeepsTree(w, q.session, w.sessions[q.session].grants[q.handle].file, q.names, q.ids);
    }
  }

  lemma {:induction false} FilesStay(w: World, qs: seq<Request>, path: Path)
    requires Sound(w) && Runs(w, qs) && NoneRemoved(w, qs) && path in w.tree
    ensures path in After(w, qs).tree
    decreases |qs|
  {
    hide Step, Sound, Possible;
    if qs != [] {
      StepKeepsSound(w, qs[0]);
      StepKeepsFiles(w, qs[0]);
      FilesStay(Step(w, qs[0]).0, qs[1..], path);
    }
  }

  predicate CreateCommits(w: World, q: Request)
    requires Sound(w) && Possible(w, q)
  {
    q.Post? && Holds(w, q.session, q.handle) && Create in GrantIn(w, q.session, q.handle).rights && Step(w, q).1.Committed?
  }

  /** Two commits of create handles never have one file, unless another program deletes it in between. */
  lemma CreatedFilesDiffer(w: World, q: Request, w': World, qs: seq<Request>, later: Request)
    requires Sound(w) && Possible(w, q) && CreateCommits(w, q) && w' == Step(w, q).0
    requires Sound(w') && Runs(w', qs) && NoneRemoved(w', qs)
    requires Possible(After(w', qs), later) && CreateCommits(After(w', qs), later)
    ensures Step(w, q).1.file != Step(After(w', qs), later).1.file
  {
    hide Step, Sound, Runs, NoneRemoved;
    CommitIs(w, q);
    FilesStay(w', qs, Step(w, q).1.file);
    CommitIs(After(w', qs), later);
  }

  /** A handle made for a file of `parent`, with nothing posted to it yet. */
  predicate Ready(w: World, session: nat, handle: nat, parent: Path) {
    Holds(w, session, handle) && handle in w.issued
    && var g := GrantIn(w, session, handle);
      g.file != [] && ParentOf(g.file) == parent && g.flow == "create" && Create in g.rights && !g.committed && g.staged == []
  }

  /** Every handle made is such a handle, with a free name that has the extension of the one suggested. */
  lemma MadeIsReady(w: World, q: Request)
    requires Sound(w) && q.Make? && Possible(w, q) && Step(w, q).1.Granted?
    ensures Holds(Step(w, q).0, q.session, q.id)
    ensures var g := GrantIn(Step(w, q).0, q.session, q.id);
      g.file != [] && Ready(Step(w, q).0, q.session, q.id, ParentOf(g.file)) && g.file !in w.tree
      && ExtensionOf(g.name) == ExtensionOf(SuggestedName(q.suggested))
      && ExtensionOf(g.name) in w.sessions[q.session].create
  {
    hide Unused, ExtensionOf, SuggestedName, Children, TreeOk, GrantOk;
    var s := w.sessions[q.session];
    var parent := if q.folder.Some? then s.grants[q.folder.value].file else s.beside;
    var suggested := SuggestedName(q.suggested);
    UnusedKeeps(Children(w.tree, parent), suggested);
    ChildrenExist(w.tree, parent, Unused(Children(w.tree, parent), suggested));
  }

  predicate PostsAll(q: Request, session: nat, handle: nat) { PostsTo(q, session, handle) && q.offset == 0 && q.final }

  /** Such a handle commits with its first final post: a taken name is no conflict. */
  lemma MadeHandleCommits(w: World, q: Request, parent: Path)
    requires Sound(w) && q.Post? && PostsAll(q, q.session, q.handle) && Ready(w, q.session, q.handle, parent)
    requires IsFolder(w.tree, parent)
    ensures var r := Step(w, q);
      r.1.Committed? && r.1.file != [] && ParentOf(r.1.file) == parent && r.1.file !in w.tree && r.0.tree.Keys == w.tree.Keys + {r.1.file}
      && IsFolder(r.0.tree, parent)
  {
    hide Step, Renamed, Sound;
    PostIs(w, q);
    var g := GrantIn(w, q.session, q.handle);
    GrantOf(w, q.session, q.handle);
    GrantIsNamed(w.sessions[q.session], g);
    RenamedKeeps(w.tree, g.(staged := []));
  }

  predicate AllReady(w: World, session: nat, parent: Path, handles: seq<nat>, qs: seq<Request>) {
    |qs| == |handles| && (forall i, j :: 0 <= i < j < |handles| ==> handles[i] != handles[j])
    && forall i :: 0 <= i < |handles| ==> Ready(w, session, handles[i], parent) && PostsAll(qs[i], session, handles[i])
  }

  /**
   However many handles were made for one folder, under whatever names, each commits to a new file of
   its own there.
   */
  lemma {:induction false} MadeHandlesAllCommit(w: World, session: nat, parent: Path, handles: seq<nat>,
                                                qs: seq<Request>)
    requires Sound(w) && AllReady(w, session, parent, handles, qs) && IsFolder(w.tree, parent)
    ensures Runs(w, qs)
    ensures AllCommitNew(w, parent, Answers(w, qs)) && OwnFiles(Answers(w, qs))
    decreases |handles|
  {
    hide Step, Sound, Ready;
    if qs != [] {
      var q := qs[0];
      assert Ready(w, session, handles[0], parent) && PostsAll(q, session, handles[0]);
      StepKeepsSound(w, q);
      MadeHandleCommits(w, q, parent);
      var w1 := Step(w, q).0;
      forall i | 0 <= i < |handles| - 1 ensures Ready(w1, session, handles[1..][i], parent) && PostsAll(qs[1..][i], session, handles[1..][i]) {
        assert Ready(w, session, handles[i + 1], parent) && PostsAll(qs[i + 1], session, handles[i + 1]);
        StaysReady(w, q, session, handles[i + 1], parent);
      }
      MadeHandlesAllCommit(w1, session, parent, handles[1..], qs[1..]);
      var answers := Answers(w1, qs[1..]);
      assert Answers(w, qs) == [Step(w, q).1] + answers;
      forall i | 0 <= i < |qs| ensures CommitsNew(w, parent, Answers(w, qs)[i]) {
        if i > 0 { assert CommitsNew(w1, parent, answers[i - 1]); }
      }
      forall j | 1 <= j < |qs| ensures Answers(w, qs)[j].Committed? && Answers(w, qs)[j].file != Step(w, q).1.file {
        assert CommitsNew(w1, parent, answers[j - 1]);
      }
    }
  }

  predicate AllCommitNew(w: World, parent: Path, answers: seq<Answer>) {
    forall i :: 0 <= i < |answers| ==> CommitsNew(w, parent, answers[i])
  }

  predicate OwnFiles(answers: seq<Answer>) {
    forall i, j :: 0 <= i < j < |answers| && answers[i].Committed? && answers[j].Committed? ==> answers[i].file != answers[j].file
  }

  predicate CommitsNew(w: World, parent: Path, a: Answer) {
    a.Committed? && a.file != [] && ParentOf(a.file) == parent && a.file !in w.tree
  }

  // ---- making many files of one name ----

  predicate CanMake(w: World, session: nat, folder: Option<nat>) {
    session in w.sessions && (folder == None || (Holds(w, session, folder.value)
      && GrantIn(w, session, folder.value).kind == FolderKind && Create in GrantIn(w, session, folder.value).rights))
  }

  function ParentFor(w: World, session: nat, folder: Option<nat>): Path
    requires CanMake(w, session, folder)
  {
    if folder.Some? then GrantIn(w, session, folder.value).file else w.sessions[session].beside
  }

  predicate MakesFile(w: World, q: Request, session: nat, folder: Option<nat>)
    requires CanMake(w, session, folder)
  {
    q.Make? && q.session == session && q.folder == folder && q.id !in w.issued
    && ExtensionOf(SuggestedName(q.suggested)) in w.sessions[session].create
  }

  predicate MakesFiles(w: World, qs: seq<Request>, session: nat, folder: Option<nat>)
    requires CanMake(w, session, folder)
  {
    (forall i :: 0 <= i < |qs| ==> MakesFile(w, qs[i], session, folder)) && forall i, j :: 0 <= i < j < |qs| ==> qs[i].id != qs[j].id
  }

  /** What such a request does. */
  lemma MakeIs(w: World, q: Request, session: nat, folder: Option<nat>) returns (name: string)
    requires Sound(w) && CanMake(w, session, folder) && MakesFile(w, q, session, folder)
    ensures Possible(w, q)
    ensures Step(w, q)
      == (Add(w, session, q.id, NewGrant(ParentFor(w, session, folder) + [name], name, FileKind, {Create}, "create")), Granted(name))
  {
    hide Unused, ExtensionOf, SuggestedName, Children, Sound;
    name := Unused(Children(w.tree, ParentFor(w, session, folder)), SuggestedName(q.suggested));
  }

  lemma MakeAdds(w: World, q: Request, session: nat, folder: Option<nat>)
    requires Sound(w) && CanMake(w, session, folder) && MakesFile(w, q, session, folder)
    ensures Possible(w, q) && Step(w, q).1.Granted?
    ensures var w', parent := Step(w, q).0, ParentFor(w, session, folder);
      Sound(w') && w'.tree == w.tree && w'.issued == w.issued + {q.id}
      && CanMake(w', session, folder) && ParentFor(w', session, folder) == parent
      && w'.sessions[session].create == w.sessions[session].create && Ready(w', session, q.id, parent)
      && forall h :: Ready(w, session, h, parent) ==> Ready(w', session, h, parent)
  {
    hide Step, Possible, ExtensionOf, SuggestedName, Sound;
    var name := MakeIs(w, q, session, folder);
    StepKeepsSound(w, q);
    if folder.Some? { HandlesAreIssued(w, session, folder.value); }
    AddReady(w, session, q.id, ParentFor(w, session, folder), name);
  }

  lemma AddReady(w: World, session: nat, id: nat, parent: Path, name: string)
    requires session in w.sessions && id !in w.issued
    ensures var w' := Add(w, session, id, NewGrant(parent + [name], name, FileKind, {Create}, "create"));
      Ready(w', session, id, parent) && forall h :: Ready(w, session, h, parent) ==> Ready(w', session, h, parent)
  {
  }

  lemma {:induction false} MakesAreReady(w: World, qs: seq<Request>, session: nat, folder: Option<nat>)
    requires Sound(w) && CanMake(w, session, folder) && MakesFiles(w, qs, session, folder)
    ensures Runs(w, qs)
    ensures var w', parent := After(w, qs), ParentFor(w, session, folder);
      w'.tree == w.tree && (forall i :: 0 <= i < |qs| ==> Answers(w, qs)[i].Granted? && Ready(w', session, qs[i].id, parent))
      && forall h :: Ready(w, session, h, parent) ==> Ready(w', session, h, parent)
    decreases |qs|
  {
    hide Step, Sound, Ready, Possible, ParentFor, ExtensionOf, SuggestedName, CanMake;
    if qs != [] {
      assert MakesFile(w, qs[0], session, folder);
      MakeAdds(w, qs[0], session, folder);
      var w1 := Step(w, qs[0]).0;
      forall i | 0 <= i < |qs| - 1 ensures MakesFile(w1, qs[1..][i], session, folder) {
        assert MakesFile(w, qs[i + 1], session, folder) && qs[1..][i] == qs[i + 1];
      }
      MakesAreReady(w1, qs[1..], session, folder);
      var answers := Answers(w1, qs[1..]);
      assert Answers(w, qs) == [Step(w, qs[0]).1] + answers;
      forall i | 0 < i < |qs| ensures Answers(w, qs)[i].Granted? && Ready(After(w, qs), session, qs[i].id, ParentFor(w, session, folder)) {
        assert answers[i - 1].Granted? && qs[1..][i - 1] == qs[i];
      }
    }
  }

  lemma {:induction false} RunsAppend(w: World, a: seq<Request>, b: seq<Request>)
    requires Sound(w) && Runs(w, a) && Runs(After(w, a), b)
    ensures Runs(w, a + b) && Answers(w, a + b) == Answers(w, a) + Answers(After(w, a), b)
    decreases |a|
  {
    hide Step, Sound, Possible;
    if a == [] {
      assert a + b == b;
    } else {
      StepKeepsSound(w, a[0]);
      RunsAppend(Step(w, a[0]).0, a[1..], b);
      assert (a + b)[1..] == a[1..] + b && (a + b)[0] == a[0];
    }
  }

  /**
   As many files as are asked for at once, under one suggested name or several: each handle that is
   made commits to a new file of its own.
   */
  lemma MakesAllCommit(w: World, session: nat, folder: Option<nat>, makes: seq<Request>, posts: seq<Request>)
    requires Sound(w) && CanMake(w, session, folder) && MakesFiles(w, makes, session, folder)
    requires IsFolder(w.tree, ParentFor(w, session, folder))
    requires |posts| == |makes| && forall i :: 0 <= i < |makes| ==> PostsAll(posts[i], session, makes[i].id)
    ensures Runs(w, makes + posts)
    ensures var answers := Answers(w, makes + posts);
      (forall i :: 0 <= i < |makes| ==> answers[i].Granted?)
      && AllCommitNew(w, ParentFor(w, session, folder), answers[|makes|..]) && OwnFiles(answers[|makes|..])
  {
    hide Step, Sound, Ready, ParentFor, CanMake, ExtensionOf, IsFolder, Runs, OwnFiles, AllCommitNew, Answers, After;
    MakesAreReady(w, makes, session, folder);
    var w', parent := After(w, makes), ParentFor(w, session, folder);
    AllAreReady(w', session, parent, makes, posts);
    MadeHandlesAllCommit(w', session, parent, IdsOf(makes), posts);
    RunsAppend(w, makes, posts);
    var first, later := Answers(w, makes), Answers(w', posts);
    assert (first + later)[|makes|..] == later;
    CommitOnSameTree(w, w', parent, later);
  }

  lemma AllAreReady(w: World, session: nat, parent: Path, makes: seq<Request>, posts: seq<Request>)
    requires (forall i :: 0 <= i < |makes| ==> makes[i].Make? && Ready(w, session, makes[i].id, parent))
    requires forall i, j :: 0 <= i < j < |makes| ==> makes[i].id != makes[j].id
    requires |posts| == |makes| && forall i :: 0 <= i < |makes| ==> PostsAll(posts[i], session, makes[i].id)
    ensures AllReady(w, session, parent, IdsOf(makes), posts)
  {
    hide Ready, PostsAll;
  }

  lemma CommitOnSameTree(w: World, w': World, parent: Path, answers: seq<Answer>)
    requires w'.tree == w.tree && AllCommitNew(w', parent, answers)
    ensures AllCommitNew(w, parent, answers)
  {
    forall i | 0 <= i < |answers| ensures CommitsNew(w, parent, answers[i]) { assert CommitsNew(w', parent, answers[i]); }
  }

  function IdsOf(makes: seq<Request>): (r: seq<nat>)
    requires forall i :: 0 <= i < |makes| ==> makes[i].Make?
    ensures |r| == |makes| && forall i :: 0 <= i < |r| ==> r[i] == makes[i].id
  {
    seq(|makes|, i requires 0 <= i < |makes| => makes[i].id)
  }

  lemma StaysReady(w: World, q: Request, session: nat, handle: nat, parent: Path)
    requires Sound(w) && Possible(w, q) && q.Post? && q.handle != handle && Ready(w, session, handle, parent)
    ensures Ready(Step(w, q).0, session, handle, parent)
  {
    hide GrantOk, TreeOk, Posted;
  }

  /** Through a file handle only files with an extension declared for writing are committed, also after a rename. */
  lemma FileHandleCommitsDeclared(w: World, q: Request)
    requires Sound(w) && Possible(w, q) && q.Post? && Holds(w, q.session, q.handle) && Step(w, q).1.Committed?
    requires GrantIn(w, q.session, q.handle).kind == FileKind
    ensures Step(w, q).1.file != [] && ExtensionOf(LastOf(Step(w, q).1.file)) in w.sessions[q.session].create
  {
    hide Step, ExtensionOf, TreeOk, Posted;
    var g := GrantIn(w, q.session, q.handle);
    CommitIs(w, q);
    PostIs(w, q);
    GrantOf(w, q.session, q.handle);
    StepKeepsSound(w, q);
    GrantOf(Step(w, q).0, q.session, q.handle);
    assert DeclaresRight(w.sessions[q.session], if Create in g.rights then Create else Write, ExtensionOf(g.name));
  }

  /**
   A commit has a declared extension exactly when its handle is one of a file, or of a folder named
   with a declared one.
   */
  lemma CommitsDeclaredExactly(w: World, q: Request)
    requires Sound(w) && Possible(w, q) && q.Post? && Holds(w, q.session, q.handle) && Step(w, q).1.Committed?
    ensures Step(w, q).1.file != []
    ensures var s, g := w.sessions[q.session], GrantIn(w, q.session, q.handle);
      ExtensionOf(LastOf(Step(w, q).1.file)) in s.create <==> g.kind == FileKind || ExtensionOf(g.name) in s.create
  {
    hide Step, ExtensionOf, TreeOk, Posted;
    var g := GrantIn(w, q.session, q.handle);
    CommitIs(w, q);
    PostIs(w, q);
    StepKeepsSound(w, q);
    GrantOf(Step(w, q).0, q.session, q.handle);
    if g.kind == FileKind { FileHandleCommitsDeclared(w, q); }
  }

  /**
   The extension is checked where a handle is granted, and a folder needs none; yet bytes may be
   posted to a folder handle with a create right. So a session whose `create` list lacks an
   extension can commit a file with it, through a folder of that name that does not exist.
   */
  lemma FolderHandleCommitsUndeclared(w: World, ask: Request, post: Request, file: Path)
    requires Sound(w) && ask.Ask? && ask.session in w.sessions && Possible(w, ask) && ask.kind == FolderKind
    requires ask.rights == {Create}
    requires w.sessions[ask.session].folders && Inside(ask.path) == Some(file) && !Exists(w.tree, file)
    requires IsFolder(w.tree, ParentOf(file))
    requires ExtensionOf(LastOf(file)) !in w.sessions[ask.session].create
    requires post.Post? && PostsAll(post, ask.session, ask.id)
    ensures Runs(w, [ask, post])
    ensures Answers(w, [ask, post])[1] == Committed(file, Version(post.now, |post.chunk|))
  {
    hide Inside, ExtensionOf, TreeOk, SessionOk;
    StepKeepsSound(w, ask);
    var w1 := Step(w, ask).0;
    assert [ask, post][1..] == [post] && [post][1..] == [];
    StepKeepsSound(w1, post);
    assert Runs(w1, [post]);
    FlatAppend([], post.chunk);
    assert [] + [post.chunk] == [post.chunk];
    var g := GrantIn(w1, ask.session, ask.id);
    assert g == NewGrant(file, LastOf(file), FolderKind, {Create}, ask.flow);
    assert Answers(w, [ask, post])[1] == Answers(w1, [post])[0] == Step(w1, post).1;
    PostIs(w1, post);
  }

  /** The part after the last separator, as an independent reading of `split(...).pop()`. */
  lemma {:induction false} AfterLastSlashIs(before: string, separator: char, name: string)
    requires (separator == '/' || separator == '\\') && '/' !in name && '\\' !in name
    ensures AfterLastSlash(before + [separator] + name) == name
    decreases |name|
  {
    var start := before + [separator];
    if name == "" {
      assert start + name == start && start[|start| - 1] == separator;
    } else {
      var n := |name| - 1;
      var whole := start + name;
      assert whole[|whole| - 1] == name[n] && whole[..|whole| - 1] == start + name[..n];
      AfterLastSlashIs(before, separator, name[..n]);
      assert name[..n] + [name[n]] == name;
    }
  }

  // ---- the requests, as they change sessions and files ----

  class KitFiles {
    var sessions: map<nat, Session>
    var tree: Tree
    ghost var issued: set<nat>

    ghost function State(): World
      reads this
    {
      World(sessions, tree, issued)
    }

    constructor (tree: Tree)
      requires TreeOk(tree)
      ensures State() == World(map[], tree, {}) && Sound(State())
    {
      sessions, this.tree, issued := map[], tree, {};
    }

    method Open(q: Request) returns (answer: Answer)
      requires q.OpenSession? && Sound(State()) && Possible(State(), q)
      modifies this
      ensures (State(), answer) == Step(old(State()), q) && Sound(State())
    {
      StepKeepsSound(State(), q);
      var beside: Path := [];
      if q.document != "" {
        var document := Inside(q.document);
        if document == None { return Refused(NotAllowed); }
        beside := ParentOf(document.value);
      }
      sessions := sessions[q.id := Session(beside, q.readOnly, q.read, q.create, q.folders, map[])];
      issued := issued + {q.id};
      return Opened;
    }

    /** `add`. */
    method AddGrant(session: nat, id: nat, grant: Grant)
      requires session in sessions
      modifies this
      ensures State() == Add(old(State()), session, id, grant)
    {
      var s := sessions[session];
      sessions := sessions[session := s.(grants := s.grants[id := grant])];
      issued := issued + {id};
    }

    method AskFor(q: Request) returns (answer: Answer)
      requires q.Ask? && Sound(State()) && Possible(State(), q)
      modifies this
      ensures (State(), answer) == Step(old(State()), q) && Sound(State())
    {
      StepKeepsSound(State(), q);
      hide Sound, Possible, Inside, ExtensionOf;
      if q.session !in sessions { return Refused(NotGranted); }
      var file := Inside(q.path);
      if file == None { return Refused(NotAllowed); }
      var there := Exists(tree, file.value);
      if !there && Create !in q.rights { return Refused(NotAllowed); }
      if Create in q.rights && there { return Refused(Conflict); }
      var name := LastOf(file.value);
      var s := sessions[q.session];
      if !Declares(s, q.kind, q.rights, name) || (Write in q.rights && s.readOnly) { return Refused(NotAllowed); }
      AddGrant(q.session, q.id, NewGrant(file.value, name, q.kind, q.rights, q.flow));
      return Granted(name);
    }

    method MakeFile(q: Request) returns (answer: Answer)
      requires q.Make? && Sound(State()) && Possible(State(), q)
      modifies this
      ensures (State(), answer) == Step(old(State()), q) && Sound(State())
    {
      StepKeepsSound(State(), q);
      hide Sound, Possible, ExtensionOf, SuggestedName, Unused;
      if q.session !in sessions { return Refused(NotGranted); }
      var s := sessions[q.session];
      var parent := s.beside;
      if q.folder.Some? {
        if q.folder.value !in s.grants { return Refused(NotGranted); }
        var folder := s.grants[q.folder.value];
        if folder.kind != FolderKind || Create !in folder.rights { return Refused(NotGranted); }
        parent := folder.file;
      }
      var suggested := SuggestedName(q.suggested);
      if ExtensionOf(suggested) !in s.create { return Refused(NotAllowed); }
      var name, _ := FindUnused(Children(tree, parent), suggested);
      AddGrant(q.session, q.id, NewGrant(parent + [name], name, FileKind, {Create}, "create"));
      return Granted(name);
    }

    method ListFolder(q: Request) returns (answer: Answer)
      requires q.List? && Sound(State()) && Possible(State(), q)
      modifies this
      ensures (State(), answer) == Step(old(State()), q) && Sound(State())
    {
      StepKeepsSound(State(), q);
      assert |q.names| == |q.ids|;
      hide Sound, Possible;
      if q.session !in sessions { return Refused(NotGranted); }
      var s := sessions[q.session];
      if q.handle !in s.grants || s.grants[q.handle].kind != FolderKind || Read !in s.grants[q.handle].rights {
        return Refused(NotGranted);
      }
      var folder := s.grants[q.handle].file;
      if !IsFolder(tree, folder) { return Failed; }
      var i := 0;
      assert q.names[0..] == q.names && q.ids[0..] == q.ids;
      while i < |q.names|
        invariant 0 <= i <= |q.names| && q.session in sessions
        invariant AddAll(State(), q.session, folder, q.names[i..], q.ids[i..])
          == AddAll(old(State()), q.session, folder, q.names, q.ids)
      {
        assert q.names[i..][1..] == q.names[i + 1..] && q.ids[i..][1..] == q.ids[i + 1..];
        AddGrant(q.session, q.ids[i], NewGrant(folder + [q.names[i]], q.names[i], FileKind, {Read}, "list"));
        i := i + 1;
      }
      return Listed(q.names);
    }

    method ReleaseAll(q: Request) returns (answer: Answer)
      requires q.Release? && Sound(State()) && Possible(State(), q)
      modifies this`sessions
      ensures (State(), answer) == Step(old(State()), q) && Sound(State())
    {
      StepKeepsSound(State(), q);
      if q.session !in sessions { return Refused(NotGranted); }
      var s := sessions[q.session];
      sessions := sessions[q.session := s.(grants := s.grants - q.handles)];
      return Success;
    }

    method End(q: Request) returns (answer: Answer)
      requires q.EndSession? && Sound(State()) && Possible(State(), q)
      modifies this`sessions
      ensures (State(), answer) == Step(old(State()), q) && Sound(State())
    {
      StepKeepsSound(State(), q);
      if q.session !in sessions { return Refused(NotGranted); }
      sessions := sessions - {q.session};
      return Success;
    }

    method PostContent(q: Request) returns (answer: Answer)
      requires q.Post? && Sound(State()) && Possible(State(), q)
      modifies this
      ensures (State(), answer) == Step(old(State()), q) && Sound(State())
    {
      StepKeepsSound(State(), q);
      if q.session !in sessions || q.handle !in sessions[q.session].grants { return Refused(NotGranted); }
      FileIsNamed(sessions[q.session], q.handle);
      hide Sound, Possible, Renamed;
      var s := sessions[q.session];
      var grant := s.grants[q.handle];
      var creating := Create in grant.rights;
      if !creating && Write !in grant.rights { answer := Refused(NotGranted); }
      else if creating && grant.committed { answer := Refused(AlreadyCommitted); }
      else {
        var staged := StagedSize(grant.staged);
        if q.offset != staged { answer := Refused(BadOffset(staged)); }
        else if !q.final { grant, answer := grant.(staged := grant.staged + [q.chunk]), Success; }
        else {
          var bytes := Flat(grant.staged + [q.chunk]);
          grant, answer := Finish(grant.(staged := []), bytes, q.expected, q.now);
        }
      }
      sessions := sessions[q.session := s.(grants := s.grants[q.handle := grant])];
      assert (grant, tree, answer) == Posted(old(tree), old(sessions)[q.session].grants[q.handle], q.offset, q.chunk, q.final, q.expected, q.now);
    }

    method StagedSize(chunks: seq<Chunk>) returns (size: nat)
      ensures size == SizeOf(chunks)
    {
      size := 0;
      assert chunks[0..] == chunks;
      for i := 0 to |chunks|
        invariant size + SizeOf(chunks[i..]) == SizeOf(chunks)
      {
        assert chunks[i..][1..] == chunks[i + 1..];
        size := size + |chunks[i]|;
      }
    }

    /** The last chunk is posted: the file is written, or the answer says why not. */
    method Finish(grant: Grant, bytes: Chunk, expected: Option<Version>,
                  now: nat) returns (after: Grant, answer: Answer)
      requires grant.file != []
      modifies this`tree
      ensures (after, tree, answer) == Finalized(old(tree), grant, bytes, expected, now)
    {
      hide Unused;
      var creating := Create in grant.rights;
      after := grant;
      if creating && Exists(tree, grant.file) {
        if grant.flow != "create" { return after, Refused(Conflict); }
        var name, _ := FindUnused(Children(tree, ParentOf(grant.file)), grant.name);
        after := grant.(name := name, file := ParentOf(grant.file) + [name]);
      }
      if !creating {
        if !Exists(tree, grant.file) { return after, Failed; }
        if expected != Some(VersionOf(tree[grant.file])) { return after, Refused(Conflict); }
      }
      if !CanWrite(tree, after.file) { return after, Failed; }
      tree := tree[after.file := File(bytes, now)];
      after := after.(committed := creating);
      return after, Committed(after.file, VersionOf(tree[after.file]));
    }
  }
}

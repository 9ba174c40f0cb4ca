/**
 What each request of a kit is answered, and what it leaves, said of the grant, the session and
 the files: when a post commits, when a file is granted, made or listed, and each refusal.
 */
module GrantAnswers {
  import opened Options
  import opened Text
  import opened FreeNames
  import opened KitGrants

  // ---- posts ----

  /** A post without a right, for a spent handle, or at another offset than the bytes staged so far changes nothing. */
  lemma PostRefusedExactly(w: World, q: Request)
    requires Sound(w) && q.Post?
    ensures var r := Step(w, q);
      if !Holds(w, q.session, q.handle) then r == (w, Refused(NotGranted))
      else
        var g := GrantIn(w, q.session, q.handle);
        if Create !in g.rights && Write !in g.rights then r == (w, Refused(NotGranted))
        else if Create in g.rights && g.committed then r == (w, Refused(AlreadyCommitted))
        else if q.offset != |Flat(g.staged)| then r == (w, Refused(BadOffset(|Flat(g.staged)|)))
        else r.1 !in {Refused(NotGranted), Refused(AlreadyCommitted)} && !(r.1.Refused? && r.1.reason.BadOffset?)
  {
    hide Finalized, GrantOk, TreeOk;
    if Holds(w, q.session, q.handle) {
      var g := GrantIn(w, q.session, q.handle);
      SizeIsLength(g.staged);
      FileIsNamed(w.sessions[q.session], q.handle);
      SameGrant(w, q.session, q.handle);
      FinalizedAnswers(w.tree, g.(staged := []), Flat(g.staged + [q.chunk]), q.expected, q.now);
    }
  }

  lemma SameGrant(w: World, session: nat, handle: nat)
    requires Holds(w, session, handle)
    ensures var s := w.sessions[session];
      w.(sessions := w.sessions[session := s.(grants := s.grants[handle := s.grants[handle]])], tree := w.tree) == w
  {
    var s := w.sessions[session];
    assert s.grants[handle := s.grants[handle]] == s.grants;
    assert w.sessions[session := s] == w.sessions;
  }

  lemma FinalizedAnswers(tree: Tree, g: Grant, bytes: Chunk, expected: Option<Version>, now: nat)
    requires g.file != []
    ensures Finalizes(Finalized(tree, g, bytes, expected, now).2)
  {
    hide Renamed, CanWrite;
  }

  /** The handle is not spent, may write, and the bytes posted go behind those staged. */
  predicate Goes(g: Grant, q: Request)
    requires q.Post?
  {
    (Create in g.rights || Write in g.rights) && (Create in g.rights ==> !g.committed) && q.offset == |Flat(g.staged)|
  }

  /** Such a post that is not the last one is staged. */
  lemma ChunkIsStaged(w: World, q: Request)
    requires Sound(w) && q.Post? && Holds(w, q.session, q.handle)
    requires Goes(GrantIn(w, q.session, q.handle), q) && !q.final
    ensures var g, r := GrantIn(w, q.session, q.handle), Step(w, q);
      r.1 == Success && r.0.tree == w.tree && Holds(r.0, q.session, q.handle)
      && GrantIn(r.0, q.session, q.handle) == g.(staged := g.staged + [q.chunk])
  {
    hide Step, Finalized, GrantOk, TreeOk;
    PostIs(w, q);
    SizeIsLength(GrantIn(w, q.session, q.handle).staged);
    FileIsNamed(w.sessions[q.session], q.handle);
  }

  /** The file is there, as a file, and is the version that is named. */
  predicate IsVersion(tree: Tree, file: Path, expected: Option<Version>) {
    file in tree && tree[file].File? && expected == Some(Version(tree[file].mtime, |tree[file].bytes|))
  }

  /**
   A last post to a handle that may write, but not create, commits exactly when the file is there
   and is the version that the post names; then its bytes are those posted, and otherwise nothing
   is written, and the refusal says whether the file changed.
   */
  lemma WriteCommitsExactly(w: World, q: Request)
    requires Sound(w) && q.Post? && Holds(w, q.session, q.handle) && q.final
    requires Goes(GrantIn(w, q.session, q.handle), q) && Create !in GrantIn(w, q.session, q.handle).rights
    ensures var g, r := GrantIn(w, q.session, q.handle), Step(w, q);
      var bytes := Flat(g.staged) + q.chunk;
      (r.1.Committed? <==> IsVersion(w.tree, g.file, q.expected))
      && (if r.1.Committed? then r.1 == Committed(g.file, Version(q.now, |bytes|)) && r.0.tree == w.tree[g.file := File(bytes, q.now)]
          else r.0.tree == w.tree && r.1 == if g.file in w.tree && IsOther(w.tree[g.file], q.expected) then Refused(Conflict) else Failed)
      && Holds(r.0, q.session, q.handle) && GrantIn(r.0, q.session, q.handle).staged == []
  {
    hide Step, GrantOk;
    PostIs(w, q);
    var g := GrantIn(w, q.session, q.handle);
    SizeIsLength(g.staged);
    FlatAppend(g.staged, q.chunk);
    FileIsNamed(w.sessions[q.session], q.handle);
    assert g.file in w.tree ==> NodeOk(w.tree, g.file);
  }

  /** A folder has a time and a size too, so it can be named as a version, but not written. */
  predicate IsOther(node: Node, expected: Option<Version>) {
    expected != Some(if node.File? then Version(node.mtime, |node.bytes|) else Version(node.mtime, node.size))
  }

  /**
   A last post to a create handle commits exactly when its folder is there and the name is free or
   the handle was made by a create request; then to a file that was not there, of its own name if
   that is free, and otherwise nothing is written.
   */
  lemma CreateCommitsExactly(w: World, q: Request)
    requires Sound(w) && q.Post? && Holds(w, q.session, q.handle) && q.final
    requires Goes(GrantIn(w, q.session, q.handle), q) && Create in GrantIn(w, q.session, q.handle).rights
    ensures var g, r := GrantIn(w, q.session, q.handle), Step(w, q);
      var bytes := Flat(g.staged) + q.chunk;
      g.file != []
      && (r.1.Committed? <==> IsFolder(w.tree, ParentOf(g.file)) && (g.file !in w.tree || g.flow == "create"))
      && (if r.1.Committed?
          then r.1.file != [] && r.1.file !in w.tree && ParentOf(r.1.file) == ParentOf(g.file) && (g.file !in w.tree ==> r.1.file == g.file)
               && r.1 == Committed(r.1.file, Version(q.now, |bytes|))
               && r.0.tree == w.tree[r.1.file := File(bytes, q.now)]
          else r.0.tree == w.tree && r.1 == if g.file in w.tree then Refused(Conflict) else Failed)
      && Holds(r.0, q.session, q.handle) && GrantIn(r.0, q.session, q.handle).staged == []
      && GrantIn(r.0, q.session, q.handle).committed == r.1.Committed?
  {
    hide Step, GrantOk, Renamed;
    PostIs(w, q);
    var g := GrantIn(w, q.session, q.handle);
    SizeIsLength(g.staged);
    FlatAppend(g.staged, q.chunk);
    GrantOf(w, q.session, q.handle);
    GrantIsNamed(w.sessions[q.session], g);
    RenamedKeeps(w.tree, g.(staged := []));
    assert g.file in w.tree ==> NodeOk(w.tree, g.file);
  }

  // ---- paths ----

  /** The text names the path: slashes in front, then its names, none of them hidden. */
  ghost predicate Denotes(text: string, path: Path) {
    path != [] && CleanPath(path) && '\\' !in text && exists slashes :: DenotesAfter(text, slashes, path)
  }

  predicate DenotesAfter(text: string, slashes: string, path: Path)
    requires path != []
  {
    (forall i :: 0 <= i < |slashes| ==> slashes[i] == '/') && text == slashes + Join(path, '/')
  }

  lemma {:induction false} StripsSlashes(text: string) returns (slashes: string)
    ensures (forall i :: 0 <= i < |slashes| ==> slashes[i] == '/') && text == slashes + StripSlashes(text)
  {
    if text != "" && text[0] == '/' {
      var rest := StripsSlashes(text[1..]);
      slashes := "/" + rest;
    } else {
      slashes := "";
    }
  }

  lemma {:induction false} SlashesStripped(slashes: string, text: string)
    requires (forall i :: 0 <= i < |slashes| ==> slashes[i] == '/') && (text == "" || text[0] != '/')
    ensures StripSlashes(slashes + text) == text
  {
    if slashes == "" {
      assert slashes + text == text;
    } else {
      assert (slashes + text)[1..] == slashes[1..] + text;
      SlashesStripped(slashes[1..], text);
    }
  }

  lemma {:induction false} JoinStarts(path: Path)
    requires path != [] && CleanPath(path)
    ensures Join(path, '/') != "" && Join(path, '/')[0] == path[0][0]
  {
    assert CleanName(path[0]);
  }

  /** The paths that are accepted are exactly those that a text names so. */
  lemma InsideExactly(text: string, path: Path)
    ensures Inside(text) == Some(path) <==> Denotes(text, path)
  {
    hide Split, Join, StripSlashes;
    if Inside(text) == Some(path) {
      var slashes := StripsSlashes(text);
      JoinSplit(StripSlashes(text), '/');
      assert DenotesAfter(text, slashes, path);
    } else if Denotes(text, path) {
      var slashes :| DenotesAfter(text, slashes, path);
      JoinStarts(path);
      assert forall i :: 0 <= i < |path| ==> CleanName(path[i]);
      SlashesStripped(slashes, Join(path, '/'));
      SplitJoin(path, '/');
    }
  }

  // ---- grants ----

  predicate MayAsk(s: Session, kind: Kind, rights: set<Right>, name: string) {
    (if kind == FolderKind then s.folders
     else forall right :: right in rights ==> ExtensionOf(name) in if right == Read then s.read else s.create)
    && (Write in rights ==> !s.readOnly)
  }

  /**
   A file is granted exactly when the path is named properly, is there, or is not where it is to
   be created, and the session declared what is asked for.
   */
  lemma AskGrantsExactly(w: World, q: Request, file: Path)
    requires Sound(w) && q.Ask? && Possible(w, q) && q.session in w.sessions && Denotes(q.path, file)
    ensures var s, r, name := w.sessions[q.session], Step(w, q), file[|file| - 1];
      (r.1 == Granted(name) <==> (Create in q.rights <==> file !in w.tree) && MayAsk(s, q.kind, q.rights, name))
      && (r.1 == Refused(Conflict) <==> Create in q.rights && file in w.tree)
      && (r.1.Granted? || r == (w, Refused(NotAllowed)) || r == (w, Refused(Conflict)))
      && (r.1.Granted? ==> AddsGrant(w, r.0, q.session, q.id, Grant(file, name, q.kind, q.rights, q.flow, false, [])))
  {
    hide Inside, ExtensionOf, GrantOk, TreeOk;
    InsideExactly(q.path, file);
  }

  /** One handle more, and nothing else changed. */
  predicate AddsGrant(w: World, w': World, session: nat, id: nat, grant: Grant) {
    && session in w.sessions && w'.tree == w.tree && w'.sessions.Keys == w.sessions.Keys
    && w'.sessions[session] == w.sessions[session].(grants := w.sessions[session].grants[id := grant])
    && forall other :: other in w.sessions && other != session ==> w'.sessions[other] == w.sessions[other]
  }

  /** Any other path is refused, hidden and outside ones among them. */
  lemma OtherPathsAreRefused(w: World, q: Request)
    requires Sound(w) && q.Ask? && Possible(w, q) && q.session in w.sessions && forall file :: !Denotes(q.path, file)
    ensures Step(w, q) == (w, Refused(NotAllowed))
  {
    hide Inside, ExtensionOf, GrantOk, TreeOk;
    if Inside(q.path).Some? { InsideExactly(q.path, Inside(q.path).value); }
  }

  /** A file is made exactly when the folder handle may create, if there is one, and the extension is declared. */
  lemma MakeGrantsExactly(w: World, q: Request)
    requires Sound(w) && q.Make? && Possible(w, q) && q.session in w.sessions
    ensures var r := Step(w, q);
      (r.1.Granted? <==> CanMake(w, q.session, q.folder) && ExtensionOf(SuggestedName(q.suggested)) in w.sessions[q.session].create)
      && (r.1 == Refused(NotGranted) <==> !CanMake(w, q.session, q.folder))
      && (r.1.Granted? || r == (w, Refused(NotGranted)) || r == (w, Refused(NotAllowed)))
  {
    hide ExtensionOf, SuggestedName, Unused, Children, GrantOk, TreeOk;
  }

  /** A folder is listed exactly through a folder handle with a read right, while the folder is there. */
  lemma ListAnswersExactly(w: World, q: Request)
    requires Sound(w) && q.List? && Possible(w, q)
    ensures var r := Step(w, q);
      var may := Holds(w, q.session, q.handle) && GrantIn(w, q.session, q.handle).kind == FolderKind
        && Read in GrantIn(w, q.session, q.handle).rights;
      (r.1.Listed? <==> may && IsFolder(w.tree, GrantIn(w, q.session, q.handle).file))
      && (!may ==> r == (w, Refused(NotGranted))) && (may && !r.1.Listed? ==> r == (w, Failed))
  {
    hide AddAll, GrantOk, TreeOk;
  }

  // ---- sessions ----

  /** A session opens at the root, or beside its document exactly when that is a proper path. */
  lemma SessionOpensExactly(w: World, q: Request, document: Path)
    requires Sound(w) && q.OpenSession? && Possible(w, q)
    ensures q.document == "" ==> Opens(w, q, [])
    ensures Denotes(q.document, document) ==> Opens(w, q, document[..|document| - 1])
    ensures q.document != "" && (forall other :: !Denotes(q.document, other)) ==> Step(w, q) == (w, Refused(NotAllowed))
  {
    hide Inside, GrantOk, TreeOk, Denotes;
    InsideExactly(q.document, document);
    if Inside(q.document).Some? { InsideExactly(q.document, Inside(q.document).value); }
    assert Inside("") == None by { InsideNothing(); }
  }

  predicate Opens(w: World, q: Request, beside: Path)
    requires Sound(w) && q.OpenSession? && Possible(w, q)
  {
    var r := Step(w, q);
    && r.1 == Opened && r.0.tree == w.tree && r.0.sessions.Keys == w.sessions.Keys + {q.id}
    && r.0.sessions[q.id] == Session(beside, q.readOnly, q.read, q.create, q.folders, map[])
  }

  lemma InsideNothing()
    ensures Inside("") == None
  {
  }

  /**
   Released handles are gone and the others are as they were; a session that ends takes all of its
   handles with it.
   */
  lemma ReleaseAndEnd(w: World, q: Request, session: nat, handle: nat)
    requires Sound(w) && (q.Release? || q.EndSession?) && q.session in w.sessions
    ensures var w', gone := Step(w, q).0, session == q.session && (q.EndSession? || handle in q.handles);
      Step(w, q).1 == Success && w'.tree == w.tree
      && (Holds(w', session, handle) <==> Holds(w, session, handle) && !gone)
      && (Holds(w', session, handle) ==> GrantIn(w', session, handle) == GrantIn(w, session, handle))
  {
    hide GrantOk, TreeOk;
  }

  /** A session that ended, or never was, is refused everything. */
  lemma NoSessionNoAnswer(w: World, q: Request)
    requires Sound(w) && Possible(w, q) && !q.OpenSession? && !q.Elsewhere? && q.session !in w.sessions
    ensures Step(w, q) == (w, Refused(NotGranted))
  {
  }

  // ---- suggested names ----

  lemma {:induction false} DotsStripped(dots: string, name: string)
    requires (forall i :: 0 <= i < |dots| ==> dots[i] == '.') && (name == "" || name[0] != '.')
    ensures StripDots(dots + name) == name
  {
    if dots == "" {
      assert dots + name == name;
    } else {
      assert (dots + name)[1..] == dots[1..] + name;
      DotsStripped(dots[1..], name);
    }
  }

  /** The name suggested is the last part of a path without the dots it starts with, or `Untitled`. */
  lemma SuggestedIs(before: string, separator: char, dots: string, name: string)
    requires (separator == '/' || separator == '\\') && '/' !in name && '\\' !in name
    requires (forall i :: 0 <= i < |dots| ==> dots[i] == '.') && (name == "" || name[0] != '.')
    ensures SuggestedName(before + [separator] + (dots + name)) == if name == "" then "Untitled" else name
  {
    hide AfterLastSlash, StripDots;
    AfterLastSlashIs(before, separator, dots + name);
    DotsStripped(dots, name);
  }
}

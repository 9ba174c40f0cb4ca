/**
 The registry of open documents (`src/lib/openDocuments.ts`). Every call of a
 listener and of a cleanup is recorded in a ghost log, and the registry's three
 collections are kept in agreement with what that log says is attached.
 */
module OpenDocuments {
  /** A document object: `id` is its identity. */
  datatype Document = Document(id: nat, path: string)
  /** A listener function, by identity. */
  type Listener = nat

  /** A listener heard a document (`cleans`: it answered a cleanup), or that cleanup ran. */
  datatype Event =
    | Attached(listener: Listener, document: Document, cleans: bool)
    | Cleaned(listener: Listener, document: Document)

  datatype Attachment = Nothing | Holding(document: Document, cleans: bool)

  predicate About(e: Event, l: Listener, path: string) {
    e.listener == l && e.document.path == path
  }

  function After(e: Event): Attachment {
    if e.Attached? then Holding(e.document, e.cleans) else Nothing
  }

  /** What `l` last heard about `path`, and has not been told the end of. */
  function Live(log: seq<Event>, l: Listener, path: string): Attachment {
    if log == [] then Nothing
    else
      var e := log[|log| - 1];
      if About(e, l, path) then After(e) else Live(log[..|log| - 1], l, path)
  }

  /**
   An event that may follow `before`: no second attachment over one that awaits its cleanup, no
   cleanup of anything else.
   */
  predicate Follows(before: Attachment, e: Event) {
    if e.Attached? then before.Holding? ==> !before.cleans else before == Holding(e.document, true)
  }

  predicate Proper(log: seq<Event>) {
    log == [] ||
    var e := log[|log| - 1];
    Proper(log[..|log| - 1]) && Follows(Live(log[..|log| - 1], e.listener, e.document.path), e)
  }

  lemma Append(log: seq<Event>, e: Event)
    ensures Proper(log + [e]) <==> Proper(log) && Follows(Live(log, e.listener, e.document.path), e)
    ensures forall l, path :: Live(log + [e], l, path) == if About(e, l, path) then After(e) else Live(log, l, path)
  {
    assert (log + [e])[..|log|] == log;
  }

  // ---- what a proper log means: strict alternation ----

  function Project(log: seq<Event>, l: Listener, path: string): seq<Event> {
    if log == [] then []
    else
      var e, rest := log[|log| - 1], Project(log[..|log| - 1], l, path);
      if About(e, l, path) then rest + [e] else rest
  }

  /** Attach, cleanup, attach, cleanup, …: every cleanup is of the document just attached. */
  predicate Alternates(events: seq<Event>) {
    forall k :: 0 <= k < |events| ==> AlternatesAt(events, k)
  }

  predicate AlternatesAt(events: seq<Event>, k: nat)
    requires k < |events|
  {
    if k % 2 == 0 then events[k].Attached?
    else events[k].Cleaned? && events[k].document == events[k - 1].document
  }

  /** For a follower that always answers a cleanup, the calls for one path strictly alternate. */
  lemma {:induction false} ProperAlternates(log: seq<Event>, l: Listener, path: string)
    requires Proper(log)
    requires forall i :: 0 <= i < |log| && log[i].Attached? && log[i].listener == l ==> log[i].cleans
    ensures var events := Project(log, l, path);
      Alternates(events)
      && Live(log, l, path) == (if |events| % 2 == 0 then Nothing else Holding(events[|events| - 1].document, true))
  {
    if log != [] {
      var e, before := log[|log| - 1], log[..|log| - 1];
      assert forall i :: 0 <= i < |before| ==> before[i] == log[i];
      ProperAlternates(before, l, path);
      if About(e, l, path) { AlternatesMore(Project(before, l, path), e); }
    }
  }

  lemma AlternatesMore(events: seq<Event>, e: Event)
    requires Alternates(events)
    requires if |events| % 2 == 0 then e.Attached? else e.Cleaned? && e.document == events[|events| - 1].document
    ensures Alternates(events + [e])
  {
    var more := events + [e];
    forall k | 0 <= k < |more| ensures AlternatesAt(more, k) {
      if k < |events| {
        assert AlternatesAt(events, k);
        assert more[k] == events[k] && (k > 0 ==> more[k - 1] == events[k - 1]);
      }
    }
  }

  // ---- the collections ----

  function Holders(cleanups: map<Document, seq<Listener>>, d: Document): seq<Listener> {
    if d in cleanups then cleanups[d] else []
  }

  predicate Announced(open: map<string, seq<Document>>, d: Document) {
    d.path in open && open[d.path] != [] && open[d.path][0] == d
  }

  predicate Distinct<T(==)>(s: seq<T>) { forall i, j :: 0 <= i < j < |s| ==> s[i] != s[j] }

  ghost predicate WellFormed(open: map<string, seq<Document>>, listeners: seq<Listener>, cleanups: map<Document,
                             seq<Listener>>) {
    && (forall p :: p in open ==> PathList(open[p], p))
    && Distinct(listeners)
    && (forall d :: HoldersFit(open, listeners, Holders(cleanups, d), d))
  }

  predicate PathList(documents: seq<Document>, path: string) {
    documents != [] && forall i :: 0 <= i < |documents| ==> documents[i].path == path
  }

  lemma PathListWithout(documents: seq<Document>, path: string, index: nat)
    requires PathList(documents, path) && index < |documents|
    ensures var rest := Without(documents, index);
      (rest == [] <==> |documents| == 1) && (rest != [] ==> PathList(rest, path))
      && (index > 0 ==> rest[0] == documents[0])
  {
    WithoutAt(documents, index);
  }

  predicate HoldersFit(open: map<string, seq<Document>>, listeners: seq<Listener>, holders: seq<Listener>,
                       d: Document) {
    Distinct(holders) && (holders != [] ==> Announced(open, d)) && forall l :: l in holders ==> l in listeners
  }

  /** Each follower holds exactly the first registration of each open path, and nothing else that awaits a cleanup. */
  ghost predicate Agrees(open: map<string, seq<Document>>, listeners: seq<Listener>, cleanups: map<Document,
                         seq<Listener>>, log: seq<Event>) {
    forall l, path :: AgreesAt(open, listeners, cleanups, log, l, path)
  }

  predicate AgreesAt(open: map<string, seq<Document>>, listeners: seq<Listener>, cleanups: map<Document, seq<Listener>>,
                     log: seq<Event>, l: Listener, path: string) {
    var live := Live(log, l, path);
    if l in listeners && path in open && open[path] != []
    then live == Holding(open[path][0], l in Holders(cleanups, open[path][0]))
    else Settled(log, l, path)
  }

  /** No cleanup for `path` is awaited by `l`. */
  predicate Settled(log: seq<Event>, l: Listener, path: string) {
    var live := Live(log, l, path);
    live.Holding? ==> !live.cleans
  }

  // ---- registrations ----

  /** A call of `register` that has not been withdrawn. */
  datatype Registration = Registration(number: nat, document: Document)

  function DocumentsAt(live: seq<Registration>, path: string): (r: seq<Document>)
    ensures forall i :: 0 <= i < |r| ==> r[i].path == path
  {
    if live == [] then []
    else
      var rest := DocumentsAt(live[..|live| - 1], path);
      if live[|live| - 1].document.path == path then rest + [live[|live| - 1].document] else rest
  }

  function At(open: map<string, seq<Document>>, path: string): seq<Document> {
    if path in open then open[path] else []
  }

  function IndexOf<T(==)>(s: seq<T>, x: T): (i: int)
    ensures -1 <= i < |s|
    ensures i == -1 ==> x !in s
    ensures i >= 0 ==> s[i] == x && x !in s[..i]
  {
    if s == [] then -1
    else if s[0] == x then 0
    else
      var i := IndexOf(s[1..], x);
      assert s == [s[0]] + s[1..];
      assert i >= 0 ==> s[..i + 1] == [s[0]] + s[1..][..i];
      if i < 0 then -1 else i + 1
  }

  function Without<T>(s: seq<T>, i: nat): seq<T>
    requires i < |s|
  {
    s[..i] + s[i + 1..]
  }

  /** The registrations that were not withdrawn, oldest first. */
  function Remaining(registered: seq<Document>, withdrawn: set<nat>): seq<Registration> {
    if registered == [] then []
    else
      var n := |registered| - 1;
      var older := Remaining(registered[..n], withdrawn);
      if n in withdrawn then older else older + [Registration(n, registered[n])]
  }

  /** The documents registered at `path` and not withdrawn, oldest first. */
  function RemainingAt(registered: seq<Document>, withdrawn: set<nat>, path: string): seq<Document> {
    DocumentsAt(Remaining(registered, withdrawn), path)
  }

  /** How many older registrations of its path remain beside registration `n`. */
  function Place(registered: seq<Document>, withdrawn: set<nat>, n: nat): nat
    requires n < |registered|
  {
    |RemainingAt(registered[..n], withdrawn, registered[n].path)|
  }

  lemma RemainingMore(registered: seq<Document>, withdrawn: set<nat>, d: Document)
    requires |registered| !in withdrawn
    ensures Remaining(registered + [d], withdrawn) == Remaining(registered, withdrawn) + [Registration(|registered|, d)]
    ensures forall path ::
      RemainingAt(registered + [d], withdrawn, path) == RemainingAt(registered, withdrawn, path) + (if d.path == path then [d] else [])
  {
    assert (registered + [d])[..|registered|] == registered;
    DocumentsAppend(Remaining(registered, withdrawn), Registration(|registered|, d));
  }

  /** Registration `n` stands behind the older ones, and is the one that its withdrawal takes out. */
  lemma {:induction false} RemainingWithout(registered: seq<Document>, withdrawn: set<nat>, n: nat)
    requires n < |registered| && n !in withdrawn
    ensures var older, all := Remaining(registered[..n], withdrawn), Remaining(registered, withdrawn);
      |older| < |all| && all[..|older|] == older && all[|older|] == Registration(n, registered[n])
      && Remaining(registered, withdrawn + {n}) == Without(all, |older|)
  {
    hide Without;
    var last := |registered| - 1;
    var older, all := Remaining(registered[..n], withdrawn), Remaining(registered, withdrawn);
    if n == last {
      Unconcerned(registered[..n], withdrawn, n);
      WithoutEnd(older, all[|older|]);
    } else {
      var before := registered[..last];
      RemainingWithout(before, withdrawn, n);
      assert before[..n] == registered[..n];
      if last !in withdrawn {
        WithoutBefore(Remaining(before, withdrawn), Registration(last, registered[last]), |older|);
      }
    }
  }

  lemma WithoutEnd<T>(s: seq<T>, x: T)
    ensures Without(s + [x], |s|) == s
  {
  }

  lemma WithoutBefore<T>(s: seq<T>, x: T, i: nat)
    requires i < |s|
    ensures Without(s + [x], i) == Without(s, i) + [x]
  {
  }

  lemma {:induction false} Unconcerned(registered: seq<Document>, withdrawn: set<nat>, n: nat)
    requires |registered| <= n
    ensures Remaining(registered, withdrawn + {n}) == Remaining(registered, withdrawn)
  {
    if registered != [] { Unconcerned(registered[..|registered| - 1], withdrawn, n); }
  }

  /** As many of each object stand in a path's list as were registered there and not withdrawn. */
  ghost predicate Registers(open: map<string, seq<Document>>, registered: seq<Document>, withdrawn: set<nat>) {
    && (forall n :: n in withdrawn ==> n < |registered|)
    && (forall path :: multiset(At(open, path)) == multiset(RemainingAt(registered, withdrawn, path)))
  }

  lemma DocumentsAppend(live: seq<Registration>, r: Registration)
    ensures forall path :: DocumentsAt(live + [r], path) == DocumentsAt(live, path) + (if r.document.path == path then [r.document] else [])
  {
    assert (live + [r])[..|live|] == live;
  }

  lemma {:induction false} DocumentsSplit(a: seq<Registration>, b: seq<Registration>, path: string)
    ensures DocumentsAt(a + b, path) == DocumentsAt(a, path) + DocumentsAt(b, path)
  {
    if b == [] {
      assert a + b == a;
    } else {
      DocumentsSplit(a, b[..|b| - 1], path);
      assert (a + b)[..|a + b| - 1] == a + b[..|b| - 1];
    }
  }

  /** Withdrawing registration `i` removes one document from its own path's list. */
  lemma DocumentsWithout(live: seq<Registration>, i: nat, path: string)
    requires i < |live|
    ensures var before, d := DocumentsAt(live[..i], path), live[i].document;
      DocumentsAt(Without(live, i), path) == before + DocumentsAt(live[i + 1..], path)
      && DocumentsAt(live, path) == before + (if d.path == path then [d] else []) + DocumentsAt(live[i + 1..], path)
  {
    DocumentsSplit(live[..i], live[i + 1..], path);
    assert live == live[..i] + [live[i]] + live[i + 1..];
    DocumentsSplit(live[..i] + [live[i]], live[i + 1..], path);
    DocumentsAppend(live[..i], live[i]);
  }

  function WithHolder(holders: seq<Listener>, l: Listener, cleans: bool): seq<Listener> {
    if cleans && l !in holders then holders + [l] else holders
  }

  function AnnouncedLive(before: seq<Event>, listeners: seq<Listener>, holders: seq<Listener>, d: Document, l: Listener,
                         path: string): Attachment {
    if l in listeners && path == d.path then Holding(d, l in holders) else Live(before, l, path)
  }

  function CleanedLive(before: seq<Event>, holders: seq<Listener>, d: Document, l: Listener, path: string): Attachment {
    if l in holders && path == d.path then Nothing else Live(before, l, path)
  }

  lemma AnnounceNothing(log: seq<Event>, d: Document)
    ensures Announcement(log, log, [], d)
    ensures forall l, path :: AnnouncedLive(log, [], [], d, l, path) == Live(log, l, path)
  {
  }

  /** One more listener hears the document. */
  lemma AnnounceStep(start: seq<Event>, log: seq<Event>, listeners: seq<Listener>, i: nat, d: Document, cleans: bool,
                     holders: seq<Listener>)
    requires i < |listeners| && listeners[i] !in listeners[..i]
    requires Announcement(start, log, listeners[..i], d)
    requires Distinct(holders) && forall l :: l in holders ==> l in listeners[..i]
    requires forall l, path :: Live(log, l, path) == AnnouncedLive(start, listeners[..i], holders, d, l, path)
    ensures var log', holders' := log + [Attached(listeners[i], d, cleans)], WithHolder(holders, listeners[i], cleans);
      Announcement(start, log', listeners[..i + 1], d)
      && Distinct(holders') && (forall l :: l in holders' ==> l in listeners[..i + 1])
      && forall l, path :: Live(log', l, path) == AnnouncedLive(start, listeners[..i + 1], holders', d, l, path)
  {
    hide Live;
    assert listeners[..i + 1] == listeners[..i] + [listeners[i]];
    var log' := log + [Attached(listeners[i], d, cleans)];
    var heard := listeners[..i + 1];
    forall k | 0 <= k < |heard| ensures HeardAt(start, log', heard, d, k) {
      if k < i {
        assert HeardAt(start, log, listeners[..i], d, k);
        assert log'[|start| + k] == log[|start| + k] && heard[k] == listeners[..i][k];
      }
    }
    Append(log, Attached(listeners[i], d, cleans));
  }

  /** The first document of a path is announced: everyone holds it, and the other paths are as they were. */
  lemma AnnouncedAgrees(open: map<string, seq<Document>>, open': map<string, seq<Document>>, listeners: seq<Listener>,
                        cleanups: map<Document, seq<Listener>>, cleanups': map<Document, seq<Listener>>,
                        log: seq<Event>, log': seq<Event>, d: Document)
    requires d.path in open' && open'[d.path] != [] && open'[d.path][0] == d
    requires forall p :: p != d.path ==> At(open', p) == At(open, p) && (p in open <==> p in open')
    requires PathList(open'[d.path], d.path)
    requires WellFormed(open, listeners, cleanups)
    requires forall e: Document :: e.path == d.path && e != d ==> Holders(cleanups, e) == []
    requires forall l, path :: path != d.path ==> AgreesAt(open, listeners, cleanups, log, l, path)
    requires forall l :: l !in listeners ==> AgreesAt(open, listeners, cleanups, log, l, d.path)
    requires forall e :: e != d ==> Holders(cleanups', e) == Holders(cleanups, e)
    requires Distinct(Holders(cleanups', d)) && forall l :: l in Holders(cleanups', d) ==> l in listeners
    requires forall l, path :: Live(log', l, path) == AnnouncedLive(log, listeners, Holders(cleanups', d), d, l, path)
    ensures WellFormed(open', listeners, cleanups') && Agrees(open', listeners, cleanups', log')
  {
    hide Live;
    forall e ensures HoldersFit(open', listeners, Holders(cleanups', e), e) {
      assert HoldersFit(open, listeners, Holders(cleanups, e), e);
    }
    forall l, path ensures AgreesAt(open', listeners, cleanups', log', l, path) {
      if path != d.path || l !in listeners {
        assert AgreesAt(open, listeners, cleanups, log, l, path);
      }
    }
  }

  lemma Opening(open: map<string, seq<Document>>, listeners: seq<Listener>, cleanups: map<Document, seq<Listener>>,
                log: seq<Event>, path: string)
    requires WellFormed(open, listeners, cleanups) && Agrees(open, listeners, cleanups, log)
    ensures Distinct(listeners)
    ensures path in open ==> open[path] != []
    ensures path !in open ==> forall d: Document :: d.path == path ==> Holders(cleanups, d) == []
    ensures path !in open ==> forall l :: Settled(log, l, path)
    ensures forall l, p :: AgreesAt(open, listeners, cleanups, log, l, p)
  {
    hide Live;
    forall d: Document | path !in open && d.path == path ensures Holders(cleanups, d) == [] {
      assert HoldersFit(open, listeners, Holders(cleanups, d), d);
    }
    forall l | path !in open ensures Settled(log, l, path) {
      assert AgreesAt(open, listeners, cleanups, log, l, path);
    }
  }

  /** A later registration of an open path changes nothing anyone holds. */
  lemma LaterAgrees(open: map<string, seq<Document>>, open': map<string, seq<Document>>, listeners: seq<Listener>,
                    cleanups: map<Document, seq<Listener>>, log: seq<Event>, d: Document)
    requires d.path in open && open' == open[d.path := open[d.path] + [d]]
    requires WellFormed(open, listeners, cleanups) && Agrees(open, listeners, cleanups, log)
    ensures WellFormed(open', listeners, cleanups) && Agrees(open', listeners, cleanups, log)
  {
    hide Live;
    forall e ensures HoldersFit(open', listeners, Holders(cleanups, e), e) {
      assert HoldersFit(open, listeners, Holders(cleanups, e), e);
    }
    forall l, path ensures AgreesAt(open', listeners, cleanups, log, l, path) {
      assert AgreesAt(open, listeners, cleanups, log, l, path);
    }
  }

  lemma RegisterKeeps(open: map<string, seq<Document>>, registered: seq<Document>, withdrawn: set<nat>, d: Document)
    requires Registers(open, registered, withdrawn)
    ensures Registers(open[d.path := At(open, d.path) + [d]], registered + [d], withdrawn)
  {
    hide RemainingAt, At;
    RemainingMore(registered, withdrawn, d);
    forall path
      ensures multiset(At(open[d.path := At(open, d.path) + [d]], path))
        == multiset(RemainingAt(registered + [d], withdrawn, path))
    {
      RegisterAt(open, d, path);
      Added(At(open, path), RemainingAt(registered, withdrawn, path), d);
    }
  }

  lemma RegisterAt(open: map<string, seq<Document>>, d: Document, path: string)
    ensures At(open[d.path := At(open, d.path) + [d]], path) == At(open, path) + (if d.path == path then [d] else [])
  {
  }

  /**
   A registration goes last in its path's list and in order of registration, so the list is in order
   as it was before.
   */
  lemma RegisterOrder(open: map<string, seq<Document>>, registered: seq<Document>, withdrawn: set<nat>, d: Document)
    requires Registers(open, registered, withdrawn)
    ensures forall path ::
      Ordered(open[d.path := At(open, d.path) + [d]], registered + [d], withdrawn, path) <==> Ordered(open, registered, withdrawn, path)
  {
    hide RemainingAt, At;
    RemainingMore(registered, withdrawn, d);
    forall path
      ensures Ordered(open[d.path := At(open, d.path) + [d]], registered + [d], withdrawn, path)
        <==> Ordered(open, registered, withdrawn, path)
    {
      RegisterAt(open, d, path);
      SameEnd(At(open, path), RemainingAt(registered, withdrawn, path), if d.path == path then [d] else []);
    }
  }

  lemma SameEnd<T>(s: seq<T>, t: seq<T>, end: seq<T>)
    ensures s + end == t + end <==> s == t
  {
    if s + end == t + end {
      assert |s| == |t|;
      assert s == (s + end)[..|s|] && t == (t + end)[..|s|];
    }
  }

  lemma Added<T>(s: seq<T>, t: seq<T>, x: T)
    requires multiset(s) == multiset(t)
    ensures multiset(s + [x]) == multiset(t + [x]) && multiset(t + []) == multiset(t)
  {
    assert t + [] == t;
  }

  lemma WithoutAt<T>(s: seq<T>, j: nat)
    requires j < |s|
    ensures |Without(s, j)| == |s| - 1
    ensures forall i :: 0 <= i < |s| - 1 ==> Without(s, j)[i] == if i < j then s[i] else s[i + 1]
    ensures forall i :: 0 <= i < |s| && i != j ==> s[i] == Without(s, j)[if i < j then i else i - 1]
  {
  }

  /** `open` once the document of registration `j` is taken out of its path's list. */
  function Closed(open: map<string, seq<Document>>, d: Document): map<string, seq<Document>>
    requires d in At(open, d.path)
  {
    var rest := Without(At(open, d.path), IndexOf(At(open, d.path), d));
    if rest == [] then open - {d.path} else open[d.path := rest]
  }

  lemma WithdrawKeeps(open: map<string, seq<Document>>, registered: seq<Document>, withdrawn: set<nat>, n: nat)
    requires Registers(open, registered, withdrawn) && n < |registered| && n !in withdrawn
    ensures var d := registered[n];
      d in At(open, d.path) && Registers(Closed(open, d), registered, withdrawn + {n})
  {
    hide At, RemainingAt;
    var d := registered[n];
    var before, after := WithdrawnFrom(registered, withdrawn, n, d.path);
    OneFewer(At(open, d.path), before, d, after);
    forall path ensures multiset(At(Closed(open, d), path)) == multiset(RemainingAt(registered, withdrawn + {n}, path)) {
      assert multiset(At(open, path)) == multiset(RemainingAt(registered, withdrawn, path));
      ClosedAt(open, d, path);
      if path != d.path {
        var b, a := WithdrawnFrom(registered, withdrawn, n, path);
        assert b + [] == b;
      }
    }
  }

  /** Withdrawing a registration removes one document from its own path's list. */
  lemma WithdrawnFrom(registered: seq<Document>, withdrawn: set<nat>, n: nat, path: string)
    returns (before: seq<Document>, after: seq<Document>)
    requires n < |registered| && n !in withdrawn
    ensures before == RemainingAt(registered[..n], withdrawn, path)
    ensures RemainingAt(registered, withdrawn, path)
      == before + (if registered[n].path == path then [registered[n]] else []) + after
    ensures RemainingAt(registered, withdrawn + {n}, path) == before + after
  {
    hide Remaining, DocumentsAt, Without;
    RemainingWithout(registered, withdrawn, n);
    var older, all := Remaining(registered[..n], withdrawn), Remaining(registered, withdrawn);
    DocumentsWithout(all, |older|, path);
    before, after := DocumentsAt(older, path), DocumentsAt(all[|older| + 1..], path);
  }

  lemma ClosedAt(open: map<string, seq<Document>>, d: Document, path: string)
    requires d in At(open, d.path)
    ensures At(Closed(open, d), path)
      == if path == d.path then Without(At(open, d.path), IndexOf(At(open, d.path), d)) else At(open, path)
  {
    hide Without;
  }

  lemma ClosedPaths(open: map<string, seq<Document>>, d: Document)
    requires d in At(open, d.path)
    ensures forall path :: At(Closed(open, d), path) == if path == d.path then Without(At(open, d.path), IndexOf(At(open, d.path), d)) else At(open, path)
  {
    forall path { ClosedAt(open, d, path); }
  }

  lemma OneFewer<T>(s: seq<T>, before: seq<T>, x: T, after: seq<T>)
    requires multiset(s) == multiset(before + [x] + after)
    ensures x in s && multiset(Without(s, IndexOf(s, x))) == multiset(before + after)
  {
    hide IndexOf, Without;
    var t := before + [x] + after;
    assert t[|before|] == x;
    assert multiset(s)[x] > 0;
    TakenOut(s, IndexOf(s, x), x);
    TakenOut(t, |before|, x);
    WithoutMiddle(before, x, after);
  }

  lemma WithoutMiddle<T>(before: seq<T>, x: T, after: seq<T>)
    ensures Without(before + [x] + after, |before|) == before + after
  {
  }

  lemma TakenOut<T>(s: seq<T>, i: nat, x: T)
    requires i < |s| && s[i] == x
    ensures multiset(Without(s, i)) == multiset(s) - multiset{x}
  {
    assert s == s[..i] + ([x] + s[i + 1..]);
    assert multiset(s) == multiset(s[..i]) + (multiset{x} + multiset(s[i + 1..]));
  }

  lemma Closing(open: map<string, seq<Document>>, listeners: seq<Listener>, cleanups: map<Document, seq<Listener>>,
                log: seq<Event>,
                path: string)
    requires WellFormed(open, listeners, cleanups) && Agrees(open, listeners, cleanups, log)
    requires At(open, path) != []
    ensures Distinct(listeners) && path in open
    ensures PathList(open[path], path)
    ensures Distinct(Holders(cleanups, open[path][0]))
    ensures forall l :: l in Holders(cleanups, open[path][0]) ==> Live(log, l, path) == Holding(open[path][0], true)
    ensures forall l :: l !in Holders(cleanups, open[path][0]) ==> Settled(log, l, path)
    ensures forall e: Document :: e.path == path && e != open[path][0] ==> Holders(cleanups, e) == []
  {
    hide Live;
    var d := open[path][0];
    assert HoldersFit(open, listeners, Holders(cleanups, d), d);
    forall l ensures l in Holders(cleanups, d) ==> Live(log, l, path) == Holding(d, true)
             ensures l !in Holders(cleanups, d) ==> Settled(log, l, path)
    {
      assert AgreesAt(open, listeners, cleanups, log, l, path);
    }
    forall e: Document | e.path == path && e != d ensures Holders(cleanups, e) == [] {
      assert HoldersFit(open, listeners, Holders(cleanups, e), e);
    }
  }

  lemma NotEmpty(open: map<string, seq<Document>>)
    requires forall p :: p in open ==> PathList(open[p], p)
    ensures forall p :: p in open ==> open[p] != []
  {
    forall p | p in open ensures open[p] != [] { assert PathList(open[p], p); }
  }

  lemma LaterWithdrawn(open: map<string, seq<Document>>, open': map<string, seq<Document>>, listeners: seq<Listener>,
                       cleanups: map<Document, seq<Listener>>, log: seq<Event>, path: string, index: nat)
    requires WellFormed(open, listeners, cleanups) && Agrees(open, listeners, cleanups, log)
    requires 0 < index < |At(open, path)| && open' == open[path := Without(open[path], index)]
    ensures WellFormed(open', listeners, cleanups) && Agrees(open', listeners, cleanups, log)
  {
    hide Live, Without, PathList;
    PathListWithout(open[path], path, index);
    NotEmpty(open);
    forall e ensures HoldersFit(open', listeners, Holders(cleanups, e), e) {
      assert HoldersFit(open, listeners, Holders(cleanups, e), e);
    }
    forall l, p ensures AgreesAt(open', listeners, cleanups, log, l, p) {
      assert AgreesAt(open, listeners, cleanups, log, l, p);
    }
  }

  /** The last registration of a path goes. */
  lemma LastWithdrawn(open: map<string, seq<Document>>, open': map<string, seq<Document>>, listeners: seq<Listener>,
                      cleanups: map<Document, seq<Listener>>, cleanups': map<Document, seq<Listener>>,
                      log: seq<Event>, log': seq<Event>, d: Document)
    requires WellFormed(open, listeners, cleanups) && Agrees(open, listeners, cleanups, log)
    requires Announced(open, d) && open' == open - {d.path} && cleanups' == cleanups - {d}
    requires forall l, path :: Live(log', l, path) == CleanedLive(log, Holders(cleanups, d), d, l, path)
    ensures WellFormed(open', listeners, cleanups') && Agrees(open', listeners, cleanups', log')
  {
    hide Live;
    forall e ensures HoldersFit(open', listeners, Holders(cleanups', e), e) {
      assert HoldersFit(open, listeners, Holders(cleanups, e), e);
    }
    forall l, p ensures AgreesAt(open', listeners, cleanups', log', l, p) {
      assert AgreesAt(open, listeners, cleanups, log, l, p);
    }
  }

  /** The first registration goes and the next one is announced in its place. */
  lemma HandedOver(open: map<string, seq<Document>>, open': map<string, seq<Document>>, listeners: seq<Listener>,
                   cleanups: map<Document, seq<Listener>>, cleanups': map<Document, seq<Listener>>,
                   log: seq<Event>, closed: seq<Event>, log': seq<Event>, d: Document, rest: seq<Document>)
    requires WellFormed(open, listeners, cleanups) && Agrees(open, listeners, cleanups, log)
    requires Announced(open, d) && rest == Without(open[d.path], 0) && rest != [] && open' == open[d.path := rest]
    requires forall e :: e != rest[0] ==> Holders(cleanups', e) == Holders(cleanups - {d}, e)
    requires Distinct(Holders(cleanups', rest[0])) && forall l :: l in Holders(cleanups', rest[0]) ==> l in listeners
    requires forall l, path :: Live(log', l, path) == AnnouncedLive(closed, listeners, Holders(cleanups', rest[0]), rest[0], l, path)
    requires forall l, path :: Live(closed, l, path) == CleanedLive(log, Holders(cleanups, d), d, l, path)
    ensures WellFormed(open', listeners, cleanups') && Agrees(open', listeners, cleanups', log')
  {
    hide Live, Without;
    PathListWithout(open[d.path], d.path, 0);
    forall e ensures HoldersFit(open', listeners, Holders(cleanups', e), e) {
      assert HoldersFit(open, listeners, Holders(cleanups, e), e);
    }
    forall l, p ensures AgreesAt(open', listeners, cleanups', log', l, p) {
      assert AgreesAt(open, listeners, cleanups, log, l, p);
    }
  }

  /** Nothing but `documents[own]` from its first occurrence up to `own`. */
  predicate KeepsOrder(documents: seq<Document>, own: nat)
    requires own < |documents|
  {
    forall k :: IndexOf(documents, documents[own]) <= k <= own ==> documents[k] == documents[own]
  }

  /** `documents[own]` is not announced, or is the oldest registration, or is registered again right behind it. */
  predicate KeepsFirst(documents: seq<Document>, own: nat)
    requires own < |documents|
  {
    documents[0] != documents[own] || own == 0 || documents[1] == documents[0]
  }

  /** The document at the head of a list, if there is one. */
  function First(documents: seq<Document>): seq<Document> {
    if documents == [] then [] else [documents[0]]
  }

  /**
   A withdrawal takes out the first registration of its object. That leaves the same
   list as taking out its own registration, at `own`, exactly when no other object was
   registered in between, and the same head exactly under a weaker condition.
   */
  lemma WithdrawnInPlace(documents: seq<Document>, own: nat)
    requires own < |documents|
    ensures var first := IndexOf(documents, documents[own]);
      0 <= first <= own
      && (Without(documents, first) == Without(documents, own) <==> KeepsOrder(documents, own))
      && (First(Without(documents, first)) == First(Without(documents, own)) <==> KeepsFirst(documents, own))
  {
    hide IndexOf, Without;
    var d := documents[own];
    var first := IndexOf(documents, d);
    forall k | own < k <= |documents| ensures d in documents[..k] { assert documents[..k][own] == d; }
    assert first > 0 ==> documents[0] != d by { assert first > 0 ==> documents[..first][0] == documents[0]; }
    WithoutAt(documents, first);
    WithoutAt(documents, own);
    if Without(documents, first) == Without(documents, own) { SameWithout(documents, first, own); }
    else { WithoutEqual(documents, first, own); }
  }

  /** Taking out either end of a stretch gives the same sequence only if all of the stretch is one document. */
  lemma {:induction false} SameWithout(documents: seq<Document>, first: nat, own: nat)
    requires first <= own < |documents| && Without(documents, first) == Without(documents, own)
    ensures forall k :: first <= k <= own ==> documents[k] == documents[own]
    decreases own - first
  {
    if first < own {
      var a, b := Without(documents, first), Without(documents, own);
      assert a[first] == documents[first + 1] && b[first] == documents[first];
      assert Without(documents, first + 1) == Without(documents, first);
      SameWithout(documents, first + 1, own);
    }
  }

  lemma WithoutEqual(documents: seq<Document>, first: nat, own: nat)
    requires first <= own < |documents|
    ensures (forall k :: first <= k <= own ==> documents[k] == documents[own]) ==>
      Without(documents, first) == Without(documents, own)
  {
  }

  /** What the withdrawal of registration `n` leaves of a list that was in order. */
  lemma WithdrawnOrder(registered: seq<Document>, withdrawn: set<nat>, n: nat)
    requires n < |registered| && n !in withdrawn
    ensures var d, own := registered[n], Place(registered, withdrawn, n);
      var documents, rest := RemainingAt(registered, withdrawn, d.path), RemainingAt(registered, withdrawn + {n}, d.path);
      own < |documents| && documents[own] == d && IndexOf(documents, d) >= 0
      && var left := Without(documents, IndexOf(documents, d));
      (left == rest <==> KeepsOrder(documents, own)) && (First(left) == First(rest) <==> KeepsFirst(documents, own))
  {
    hide RemainingAt, IndexOf, Without;
    var d := registered[n];
    var before, after := WithdrawnFrom(registered, withdrawn, n, d.path);
    WithoutMiddle(before, d, after);
    WithdrawnInPlace(RemainingAt(registered, withdrawn, d.path), |before|);
  }

  /**
   A withdrawal from `path` and no other list: whether the list, and its head, are still those of the
   registrations.
   */
  lemma WithdrawOrder(open: map<string, seq<Document>>, open': map<string, seq<Document>>, registered: seq<Document>,
                      withdrawn: set<nat>, n: nat)
    requires n < |registered| && n !in withdrawn
    requires IndexOf(At(open, registered[n].path), registered[n]) >= 0
    requires At(open', registered[n].path) == TakenOnce(At(open, registered[n].path), registered[n])
    requires forall path :: path != registered[n].path ==> At(open', path) == At(open, path)
    ensures forall path :: path != registered[n].path ==>
      (Ordered(open', registered, withdrawn + {n}, path) <==> Ordered(open, registered, withdrawn, path))
    ensures var path, own := registered[n].path, Place(registered, withdrawn, n);
      var documents := RemainingAt(registered, withdrawn, path);
      own < |documents| && (Ordered(open, registered, withdrawn, path) ==>
        (Ordered(open', registered, withdrawn + {n}, path) <==> KeepsOrder(documents, own))
        && (First(At(open', path)) == First(RemainingAt(registered, withdrawn + {n}, path)) <==> KeepsFirst(documents, own)))
  {
    hide RemainingAt, IndexOf, Without, At, KeepsOrder, KeepsFirst, First;
    WithdrawnOrder(registered, withdrawn, n);
    forall path | path != registered[n].path
      ensures RemainingAt(registered, withdrawn + {n}, path) == RemainingAt(registered, withdrawn, path)
    {
      var b, a := WithdrawnFrom(registered, withdrawn, n, path);
      assert b + [] == b;
    }
  }

  /** The list kept for `path` holds the registrations that remain, oldest first. */
  predicate Ordered(open: map<string, seq<Document>>, registered: seq<Document>, withdrawn: set<nat>, path: string) {
    At(open, path) == RemainingAt(registered, withdrawn, path)
  }

  // ---- following ----

  /** `l` holds the announced document of every path but the `pending` ones; nothing else changed. */
  ghost predicate FollowedPart(open: map<string, seq<Document>>, cleanups: map<Document, seq<Listener>>,
                               cleanups': map<Document, seq<Listener>>,
                               log: seq<Event>, log': seq<Event>, l: Listener, pending: set<string>) {
    && (forall k, path :: Live(log', k, path) == FollowedLive(open, cleanups', log, l, pending, k, path))
    && (forall d :: FollowedHolders(open, cleanups, cleanups', l, pending, d))
  }

  predicate FollowedHolders(open: map<string, seq<Document>>, cleanups: map<Document, seq<Listener>>,
                            cleanups': map<Document, seq<Listener>>,
                            l: Listener, pending: set<string>, d: Document) {
    l !in Holders(cleanups, d)
    && Holders(cleanups', d) == Holders(cleanups, d) + (if l in Holders(cleanups', d) then [l] else [])
    && (l in Holders(cleanups', d) ==> Announced(open, d) && d.path !in pending)
  }

  function FollowedLive(open: map<string, seq<Document>>, cleanups': map<Document, seq<Listener>>, log: seq<Event>,
                        l: Listener, pending: set<string>, k: Listener, path: string): Attachment {
    if k == l && path in open && path !in pending && open[path] != []
    then Holding(open[path][0], l in Holders(cleanups', open[path][0])) else Live(log, k, path)
  }

  lemma PathsAre(open: map<string, seq<Document>>, listeners: seq<Listener>, cleanups: map<Document, seq<Listener>>)
    requires WellFormed(open, listeners, cleanups)
    ensures forall p :: p in open ==> PathList(open[p], p)
  {
  }

  lemma FollowStart(open: map<string, seq<Document>>, listeners: seq<Listener>, cleanups: map<Document, seq<Listener>>,
                    log: seq<Event>, l: Listener)
    requires WellFormed(open, listeners, cleanups) && l !in listeners
    ensures FollowedPart(open, cleanups, cleanups, log, log, l, open.Keys) && Heard(log, log, l, 0)
  {
    hide Live;
    forall d ensures FollowedHolders(open, cleanups, cleanups, l, open.Keys, d) {
      assert HoldersFit(open, listeners, Holders(cleanups, d), d);
    }
  }

  lemma StillSettled(open: map<string, seq<Document>>, listeners: seq<Listener>, cleanups: map<Document, seq<Listener>>,
                     cleanups': map<Document, seq<Listener>>,
                     log: seq<Event>, log': seq<Event>, l: Listener, pending: set<string>, path: string)
    requires WellFormed(open, listeners, cleanups) && Agrees(open, listeners, cleanups, log) && l !in listeners
    requires FollowedPart(open, cleanups, cleanups', log, log', l, pending)
    requires path in pending && path in open
    ensures open[path] != [] && Settled(log', l, path)
  {
    hide Live;
    NotEmpty(open);
    assert AgreesAt(open, listeners, cleanups, log, l, path);
  }

  lemma FollowStep(open: map<string, seq<Document>>, cleanups: map<Document, seq<Listener>>, cleanups1: map<Document,
                   seq<Listener>>, cleanups2: map<Document, seq<Listener>>,
                   log: seq<Event>, log1: seq<Event>, l: Listener, pending: set<string>, path: string, cleans: bool)
    requires path in pending && path in open && open[path] != [] && forall p :: p in open ==> PathList(open[p], p)
    requires FollowedPart(open, cleanups, cleanups1, log, log1, l, pending)
    requires forall d :: Holders(cleanups2, d) == if d == open[path][0] then WithHolder(Holders(cleanups1, d), l, cleans) else Holders(cleanups1, d)
    ensures FollowedPart(open, cleanups, cleanups2, log, log1 + [Attached(l, open[path][0], cleans)], l, pending - {path})
  {
    hide Live, Holders;
    var d0 := open[path][0];
    Append(log1, Attached(l, d0, cleans));
    assert FollowedHolders(open, cleanups, cleanups1, l, pending, d0);
    forall d ensures FollowedHolders(open, cleanups, cleanups2, l, pending - {path}, d) {
      assert FollowedHolders(open, cleanups, cleanups1, l, pending, d);
    }
    var log2 := log1 + [Attached(l, d0, cleans)];
    forall k, p ensures Live(log2, k, p) == FollowedLive(open, cleanups2, log, l, pending - {path}, k, p) {
      assert Live(log1, k, p) == FollowedLive(open, cleanups1, log, l, pending, k, p);
      if p in open && p != path {
        assert PathList(open[p], p) && PathList(open[path], path);
        assert open[p][0] != d0;
      }
    }
  }

  lemma FollowEnd(open: map<string, seq<Document>>, listeners: seq<Listener>, cleanups: map<Document, seq<Listener>>,
                  cleanups': map<Document, seq<Listener>>,
                  log: seq<Event>, log': seq<Event>, l: Listener)
    requires WellFormed(open, listeners, cleanups) && Agrees(open, listeners, cleanups, log) && l !in listeners
    requires FollowedPart(open, cleanups, cleanups', log, log', l, {})
    ensures WellFormed(open, listeners + [l], cleanups') && Agrees(open, listeners + [l], cleanups', log')
  {
    hide Live, Holders;
    NotEmpty(open);
    forall d ensures HoldersFit(open, listeners + [l], Holders(cleanups', d), d) {
      assert HoldersFit(open, listeners, Holders(cleanups, d), d);
      assert FollowedHolders(open, cleanups, cleanups', l, {}, d);
    }
    forall k, p ensures AgreesAt(open, listeners + [l], cleanups', log', k, p) {
      assert AgreesAt(open, listeners, cleanups, log, k, p);
      if p in open { assert FollowedHolders(open, cleanups, cleanups', l, {}, open[p][0]); }
    }
  }

  // ---- unfollowing ----

  function Removed(s: seq<Listener>, l: Listener): seq<Listener> {
    if s == [] then [] else if s[0] == l then Removed(s[1..], l) else [s[0]] + Removed(s[1..], l)
  }

  lemma {:induction false} RemovedOne(s: seq<Listener>, l: Listener)
    ensures forall k :: k in Removed(s, l) <==> k in s && k != l
    ensures Distinct(s) ==> Distinct(Removed(s, l))
    ensures s == [] ==> Removed(s, l) == []
  {
    if s != [] {
      RemovedOne(s[1..], l);
      assert s == [s[0]] + s[1..];
      if Distinct(s) {
        assert s[0] !in s[1..];
      }
    }
  }

  /** The cleanups of `l` ran and are forgotten for every document but the `pending` ones. */
  ghost predicate UnfollowedPart(open: map<string, seq<Document>>, cleanups: map<Document, seq<Listener>>,
                                 cleanups': map<Document, seq<Listener>>,
                                 log: seq<Event>, log': seq<Event>, l: Listener, pending: set<Document>) {
    && (forall k, path :: Live(log', k, path) == UnfollowedLive(open, cleanups, log, l, pending, k, path))
    && (forall d :: Holders(cleanups', d) == UnfollowedHolders(cleanups, l, pending, d))
    && cleanups'.Keys == cleanups.Keys
  }

  function UnfollowedHolders(cleanups: map<Document, seq<Listener>>, l: Listener, pending: set<Document>,
                             d: Document): seq<Listener> {
    if d in pending then Holders(cleanups, d) else Removed(Holders(cleanups, d), l)
  }

  function UnfollowedLive(open: map<string, seq<Document>>, cleanups: map<Document, seq<Listener>>, log: seq<Event>,
                          l: Listener, pending: set<Document>, k: Listener, path: string): Attachment {
    if k == l && path in open && open[path] != [] && open[path][0] !in pending && l in Holders(cleanups, open[path][0])
    then Nothing else Live(log, k, path)
  }

  lemma UnfollowStart(open: map<string, seq<Document>>, cleanups: map<Document, seq<Listener>>, log: seq<Event>,
                      l: Listener)
    ensures UnfollowedPart(open, cleanups, cleanups, log, log, l, cleanups.Keys)
  {
    hide Live;
  }

  lemma UnfollowNext(open: map<string, seq<Document>>, listeners: seq<Listener>, cleanups: map<Document, seq<Listener>>,
                     cleanups': map<Document, seq<Listener>>,
                     log: seq<Event>, log': seq<Event>, l: Listener, pending: set<Document>, d: Document)
    requires WellFormed(open, listeners, cleanups) && Agrees(open, listeners, cleanups, log) && Proper(log')
    requires UnfollowedPart(open, cleanups, cleanups', log, log', l, pending) && d in pending
    requires d in cleanups' && l in cleanups'[d]
    ensures Proper(log' + [Cleaned(l, d)])
  {
    hide Live, Proper;
    assert Holders(cleanups', d) == UnfollowedHolders(cleanups, l, pending, d);
    assert HoldersFit(open, listeners, Holders(cleanups, d), d);
    assert AgreesAt(open, listeners, cleanups, log, l, d.path);
    assert Live(log', l, d.path) == UnfollowedLive(open, cleanups, log, l, pending, l, d.path);
    Append(log', Cleaned(l, d));
  }

  lemma UnfollowStep(open: map<string, seq<Document>>, listeners: seq<Listener>, cleanups: map<Document, seq<Listener>>,
                     cleanups1: map<Document, seq<Listener>>,
                     cleanups2: map<Document, seq<Listener>>, log: seq<Event>, log1: seq<Event>, log2: seq<Event>, l: Listener, pending: set<Document>, d: Document)
    requires WellFormed(open, listeners, cleanups)
    requires UnfollowedPart(open, cleanups, cleanups1, log, log1, l, pending) && d in pending && d in cleanups1
    requires cleanups2 == cleanups1[d := Removed(cleanups1[d], l)]
    requires log2 == if l in cleanups1[d] then log1 + [Cleaned(l, d)] else log1
    ensures UnfollowedPart(open, cleanups, cleanups2, log, log2, l, pending - {d})
  {
    hide Live, Removed;
    assert Holders(cleanups1, d) == UnfollowedHolders(cleanups, l, pending, d);
    assert HoldersFit(open, listeners, Holders(cleanups, d), d);
    Append(log1, Cleaned(l, d));
    forall e ensures Holders(cleanups2, e) == UnfollowedHolders(cleanups, l, pending - {d}, e) {
      assert Holders(cleanups1, e) == UnfollowedHolders(cleanups, l, pending, e);
    }
    forall k, p ensures Live(log2, k, p) == UnfollowedLive(open, cleanups, log, l, pending - {d}, k, p) {
      assert Live(log1, k, p) == UnfollowedLive(open, cleanups, log, l, pending, k, p);
    }
  }

  lemma UnfollowEnd(open: map<string, seq<Document>>, listeners: seq<Listener>, cleanups: map<Document, seq<Listener>>,
                    cleanups': map<Document, seq<Listener>>,
                    log: seq<Event>, log': seq<Event>, l: Listener)
    requires WellFormed(open, listeners, cleanups) && Agrees(open, listeners, cleanups, log)
    requires UnfollowedPart(open, cleanups, cleanups', log, log', l, {})
    ensures WellFormed(open, Removed(listeners, l), cleanups') && Agrees(open, Removed(listeners, l), cleanups', log')
    ensures forall path :: Settled(log', l, path)
  {
    hide Live, Holders, Removed;
    NotEmpty(open);
    RemovedOne(listeners, l);
    forall d ensures HoldersFit(open, Removed(listeners, l), Holders(cleanups', d), d) {
      assert HoldersFit(open, listeners, Holders(cleanups, d), d);
      assert Holders(cleanups', d) == UnfollowedHolders(cleanups, l, {}, d);
      RemovedOne(Holders(cleanups, d), l);
    }
    forall k, p ensures AgreesAt(open, Removed(listeners, l), cleanups', log', k, p)
                ensures k == l ==> Settled(log', k, p)
    {
      assert AgreesAt(open, listeners, cleanups, log, k, p);
      assert Live(log', k, p) == UnfollowedLive(open, cleanups, log, l, {}, k, p);
      if p in open {
        RemovedOne(Holders(cleanups, open[p][0]), l);
        assert Holders(cleanups', open[p][0]) == UnfollowedHolders(cleanups, l, {}, open[p][0]);
      }
    }
  }

  class Registry {
    var open: map<string, seq<Document>>
    var listeners: seq<Listener>
    var cleanups: map<Document, seq<Listener>>
    /** Every call made of a listener or a cleanup. */
    ghost var log: seq<Event>
    /** Every registration made, and the numbers of those withdrawn. */
    var registered: seq<Document>
    var withdrawn: set<nat>

    ghost predicate Valid()
      reads this
    {
      && WellFormed(open, listeners, cleanups)
      && Agrees(open, listeners, cleanups, log)
      && Proper(log)
      && Registers(open, registered, withdrawn)
    }

    /** The list kept for `path` holds the registrations that remain, oldest first. */
    ghost predicate InOrder(path: string)
      reads this
    {
      Ordered(open, registered, withdrawn, path)
    }

    constructor ()
      ensures Valid() && open == map[] && listeners == [] && log == [] && registered == [] && withdrawn == {}
    {
      open, listeners, cleanups := map[], [], map[];
      log, registered, withdrawn := [], [], {};
    }

    /**
     The document open at `path`: the head of its list, and the oldest registration that remains when
     that list is in order.
     */
    method Find(path: string) returns (r: seq<Document>)
      requires Valid()
      ensures r == First(At(open, path))
      ensures r == [] <==> RemainingAt(registered, withdrawn, path) == []
      ensures InOrder(path) ==> r == First(RemainingAt(registered, withdrawn, path))
      ensures forall l :: l in listeners && r != [] ==>
        Live(log, l, path) == Holding(r[0], l in Holders(cleanups, r[0]))
    {
      hide RemainingAt;
      assert multiset(At(open, path)) == multiset(RemainingAt(registered, withdrawn, path));
      assert |multiset(At(open, path))| == |At(open, path)|;
      assert |multiset(RemainingAt(registered, withdrawn, path))| == |RemainingAt(registered, withdrawn, path)|;
      r := if path in open then [open[path][0]] else [];
      forall l | l in listeners && r != [] ensures Live(log, l, path) == Holding(r[0], l in Holders(cleanups, r[0])) {
        assert AgreesAt(open, listeners, cleanups, log, l, path);
      }
    }

    /** Calls the listener, which may answer a cleanup. */
    method Attach(document: Document, listener: Listener) returns (cleans: bool)
      requires Proper(log)
      requires Settled(log, listener, document.path)
      modifies this`log, this`cleanups
      ensures Proper(log) && log == old(log) + [Attached(listener, document, cleans)]
      ensures forall d :: Holders(cleanups, d) == if d == document then WithHolder(Holders(old(cleanups), d), listener, cleans) else Holders(old(cleanups), d)
    {
      cleans := *;
      Append(log, Attached(listener, document, cleans));
      log := log + [Attached(listener, document, cleans)];
      if !cleans { return; }
      var byListener := Holders(cleanups, document);
      if listener !in byListener {
        byListener := byListener + [listener];
      }
      cleanups := cleanups[document := byListener];
    }

    /** `for (const listener of listeners) attach(document, listener)`. */
    method Announce(document: Document)
      requires Distinct(listeners) && Proper(log) && Holders(cleanups, document) == []
      requires forall l :: l in listeners ==> Settled(log, l, document.path)
      modifies this`log, this`cleanups
      ensures Proper(log) && Announcement(old(log), log, listeners, document)
      ensures forall d :: d != document ==> Holders(cleanups, d) == Holders(old(cleanups), d)
      ensures Distinct(Holders(cleanups, document)) && forall l :: l in Holders(cleanups, document) ==> l in listeners
      ensures forall l, path :: Live(log, l, path) == AnnouncedLive(old(log), listeners, Holders(cleanups, document), document, l, path)
    {
      hide Proper, Live, Announcement;
      AnnounceNothing(log, document);
      var i := 0;
      while i < |listeners|
        invariant 0 <= i <= |listeners| && listeners == old(listeners)
        invariant Proper(log) && Announcement(old(log), log, listeners[..i], document)
        invariant forall d :: d != document ==> Holders(cleanups, d) == Holders(old(cleanups), d)
        invariant Distinct(Holders(cleanups, document))
        invariant forall l :: l in Holders(cleanups, document) ==> l in listeners[..i]
        invariant forall l, path :: Live(log, l, path) == AnnouncedLive(old(log), listeners[..i], Holders(cleanups, document), document, l, path)
      {
        ghost var before, holders := log, Holders(cleanups, document);
        assert listeners[i] !in listeners[..i];
        assert Settled(old(log), listeners[i], document.path);
        var cleans := Attach(document, listeners[i]);
        AnnounceStep(old(log), before, listeners, i, document, cleans, holders);
        i := i + 1;
      }
      assert listeners[..i] == listeners;
    }

    /** Runs the document's cleanups, in the order they were answered, and forgets them. */
    method Detach(document: Document)
      requires Proper(log) && Distinct(Holders(cleanups, document))
      requires forall l :: l in Holders(cleanups, document) ==> Live(log, l, document.path) == Holding(document, true)
      modifies this`log, this`cleanups
      ensures Proper(log)
      ensures log == old(log) + Cleanings(Holders(old(cleanups), document), document)
      ensures cleanups == old(cleanups) - {document}
      ensures forall l, path :: Live(log, l, path) == CleanedLive(old(log), Holders(old(cleanups), document), document, l, path)
    {
      hide Proper, Live;
      var holders := Holders(cleanups, document);
      var i := 0;
      while i < |holders|
        invariant 0 <= i <= |holders| && cleanups == old(cleanups)
        invariant Proper(log) && log == old(log) + Cleanings(holders[..i], document)
        invariant forall l, path :: Live(log, l, path) == CleanedLive(old(log), holders[..i], document, l, path)
      {
        assert holders[i] !in holders[..i];
        assert holders[..i + 1] == holders[..i] + [holders[i]];
        Append(log, Cleaned(holders[i], document));
        log := log + [Cleaned(holders[i], document)];
        i := i + 1;
      }
      assert holders[..i] == holders;
      cleanups := cleanups - {document};
    }

    /** Announces `document` as open; the number stands for the withdrawal it answers. */
    method Register(document: Document) returns (number: nat)
      requires Valid()
      modifies this
      ensures Valid() && listeners == old(listeners)
      ensures number == |old(registered)| && registered == old(registered) + [document] && withdrawn == old(withdrawn)
      ensures open == old(open)[document.path := At(old(open), document.path) + [document]]
      ensures forall path :: InOrder(path) <==> old(InOrder(path))
      ensures if document.path in old(open) then log == old(log) else Announcement(old(log), log, listeners, document)
    {
      hide Registers, Proper, Announcement, WellFormed, AgreesAt, Live, HoldersFit, Settled, Agrees, RemainingAt;
      var entries := At(open, document.path) + [document];
      ghost var before := open;
      open := open[document.path := entries];
      number := |registered|;
      registered := registered + [document];
      RegisterKeeps(before, registered[..number], withdrawn, document);
      RegisterOrder(before, registered[..number], withdrawn, document);
      ghost var log0, cleanups0 := log, cleanups;
      Opening(before, listeners, cleanups, log, document.path);
      if |entries| == 1 {
        Announce(document);
        AnnouncedAgrees(before, open, listeners, cleanups0, cleanups, log0, log, document);
      } else {
        LaterAgrees(before, open, listeners, cleanups, log, document);
      }
    }

    /** The withdrawal that `register` answered with `number`; a second call changes nothing. */
    method Withdraw(number: nat)
      requires Valid() && number < |registered|
      modifies this
      ensures Valid() && listeners == old(listeners) && registered == old(registered)
      ensures withdrawn == old(withdrawn) + {number}
      ensures number in old(withdrawn) ==> open == old(open) && log == old(log)
      ensures number !in old(withdrawn) ==> var d := registered[number];
        d in At(old(open), d.path)
        && At(open, d.path) == Without(At(old(open), d.path), IndexOf(At(old(open), d.path), d))
        && (forall path :: path != d.path ==> At(open, path) == At(old(open), path))
        && if IndexOf(At(old(open), d.path), d) > 0 then log == old(log)
           else Handover(old(log), log, listeners, Holders(old(cleanups), d), d, At(open, d.path))
      ensures forall path :: path != registered[number].path ==> (InOrder(path) <==> old(InOrder(path)))
      ensures number !in old(withdrawn) && old(InOrder(registered[number].path)) ==>
        var path, own := registered[number].path, Place(registered, old(withdrawn), number);
        var documents := RemainingAt(registered, old(withdrawn), path);
        own < |documents|
        && (InOrder(path) <==> KeepsOrder(documents, own))
        && (First(At(open, path)) == First(RemainingAt(registered, withdrawn, path)) <==> KeepsFirst(documents, own))
    {
      hide Registers, Proper, WellFormed, Agrees, RemainingAt, Without, Handover, IndexOf, Closed, Ordered, Place,
        KeepsOrder, KeepsFirst, First;
      if number in withdrawn {
        assert withdrawn + {number} == withdrawn;
        return;
      }
      var document := registered[number];
      WithdrawKeeps(open, registered, withdrawn, number);
      ClosedPaths(open, document);
      WithdrawOrder(open, Closed(open, document), registered, withdrawn, number);
      withdrawn := withdrawn + {number};
      var index := IndexOf(At(open, document.path), document);
      if index >= 0 {
        Close(document, index);
      }
    }

    /** Takes the document at `index` out of its path's list, and passes the path on if it was announced. */
    method Close(document: Document, index: nat)
      requires WellFormed(open, listeners, cleanups) && Agrees(open, listeners, cleanups, log) && Proper(log)
      requires document in At(open, document.path) && index == IndexOf(At(open, document.path), document)
      modifies this`open, this`cleanups, this`log
      ensures WellFormed(open, listeners, cleanups) && Agrees(open, listeners, cleanups, log) && Proper(log)
      ensures open == Closed(old(open), document)
      ensures if index > 0 then log == old(log)
        else Handover(old(log), log, listeners, Holders(old(cleanups), document), document, At(open, document.path))
    {
      hide Proper, Announcement, WellFormed, AgreesAt, Live, Agrees, Without, IndexOf;
      ghost var open0, cleanups0, log0 := open, cleanups, log;
      var current := At(open, document.path);
      Closing(open, listeners, cleanups, log, document.path);
      PathListWithout(current, document.path, index);
      current := Without(current, index);
      if index == 0 {
        Detach(document);
        ghost var closed := log;
        if current != [] {
          assert current[0].path == document.path;
          Announce(current[0]);
          open := open[document.path := current];
          HandedOver(open0, open, listeners, cleanups0, cleanups, log0, closed, log, document, current);
        } else {
          open := open - {document.path};
          LastWithdrawn(open0, open, listeners, cleanups0, cleanups, log0, log, document);
        }
      } else {
        open := open[document.path := current];
        LaterWithdrawn(open0, open, listeners, cleanups, log, document.path, index);
      }
    }

    /** Hears every document open now and, from then on, every one announced. */
    method Follow(listener: Listener)
      requires Valid() && listener !in listeners
      modifies this
      ensures Valid() && open == old(open)
      ensures registered == old(registered) && withdrawn == old(withdrawn)
      ensures listeners == old(listeners) + [listener]
      ensures Heard(old(log), log, listener, |open|)
    {
      hide Proper, Live, Settled, WellFormed, Agrees, Registers, Announced, Heard;
      ghost var cleanups0, log0, listeners0 := cleanups, log, listeners;
      FollowStart(open, listeners0, cleanups, log, listener);
      listeners := listeners + [listener];
      PathsAre(open, listeners0, cleanups);
      ghost var heard := 0;
      var pending := open.Keys;
      while pending != {}
        invariant pending <= open.Keys && open == old(open) && listeners == listeners0 + [listener]
        invariant registered == old(registered) && withdrawn == old(withdrawn)
        invariant Proper(log) && Heard(log0, log, listener, heard) && heard + |pending| == |open|
        invariant FollowedPart(open, cleanups0, cleanups, log0, log, listener, pending)
        decreases pending
      {
        var path :| path in pending;
        ghost var cleanups1, log1 := cleanups, log;
        StillSettled(open, listeners0, cleanups0, cleanups, log0, log, listener, pending, path);
        assert PathList(open[path], path);
        var cleans := Attach(open[path][0], listener);
        FollowStep(open, cleanups0, cleanups1, cleanups, log0, log1, listener, pending, path, cleans);
        HeardMore(log0, log1, listener, heard, Attached(listener, open[path][0], cleans));
        heard := heard + 1;
        pending := pending - {path};
      }
      FollowEnd(open, listeners0, cleanups0, cleanups, log0, log, listener);
    }

    /** The unsubscribe that `follow` answered. */
    method Unfollow(listener: Listener)
      requires Valid()
      modifies this
      ensures Valid() && open == old(open)
      ensures registered == old(registered) && withdrawn == old(withdrawn)
      ensures listeners == Removed(old(listeners), listener)
      ensures old(log) <= log && forall i :: |old(log)| <= i < |log| ==> log[i].Cleaned? && log[i].listener == listener
      ensures forall path :: Settled(log, listener, path)
    {
      hide Proper, Live, Settled, WellFormed, Agrees, Registers, Announced, Holders;
      ghost var cleanups0, log0, listeners0 := cleanups, log, listeners;
      listeners := Removed(listeners, listener);
      RemovedOne(listeners0, listener);
      var pending := cleanups.Keys;
      UnfollowStart(open, cleanups, log, listener);
      while pending != {}
        invariant pending <= cleanups.Keys && open == old(open) && listeners == Removed(listeners0, listener)
        invariant registered == old(registered) && withdrawn == old(withdrawn)
        invariant Proper(log) && log0 <= log
        invariant forall i :: |log0| <= i < |log| ==> log[i].Cleaned? && log[i].listener == listener
        invariant UnfollowedPart(open, cleanups0, cleanups, log0, log, listener, pending)
        decreases pending
      {
        var document :| document in pending;
        ghost var cleanups1, log1 := cleanups, log;
        var byListener := cleanups[document];
        if listener in byListener {
          UnfollowNext(open, listeners0, cleanups0, cleanups, log0, log, listener, pending, document);
          log := log + [Cleaned(listener, document)];
        }
        cleanups := cleanups[document := Removed(byListener, listener)];
        UnfollowStep(open, listeners0, cleanups0, cleanups1, cleanups, log0, log1, log, listener, pending, document);
        pending := pending - {document};
      }
      UnfollowEnd(open, listeners0, cleanups0, cleanups, log0, log, listener);
    }
  }

  datatype Call = Registering(document: Document) | Withdrawing(number: nat) | Following(listener: Listener) | Unfollowing(listener: Listener)

  // ---- runs ----

  /** The registrations that `calls` made. */
  function Made(calls: seq<Call>): seq<Document> {
    if calls == [] then []
    else
      var before, call := Made(calls[..|calls| - 1]), calls[|calls| - 1];
      if call.Registering? then before + [call.document] else before
  }

  /** The numbers of the registrations that `calls` withdrew. */
  function Withdrawn(calls: seq<Call>): set<nat> {
    if calls == [] then {}
    else
      var before, call := Withdrawn(calls[..|calls| - 1]), calls[|calls| - 1];
      if call.Withdrawing? then before + {call.number} else before
  }

  /** Who follows after `calls`, in the order they began to. */
  function Followers(calls: seq<Call>): seq<Listener> {
    if calls == [] then [] else FollowersNext(Followers(calls[..|calls| - 1]), calls[|calls| - 1])
  }

  function FollowersNext(before: seq<Listener>, call: Call): seq<Listener> {
    match call
    case Following(l) => before + [l]
    case Unfollowing(l) => Removed(before, l)
    case _ => before
  }

  /**
   The list that `calls` leave for `path`: a registration goes last, a withdrawal takes out the first
   of its object, once.
   */
  function Served(calls: seq<Call>, path: string): seq<Document> {
    if calls == [] then []
    else
      var earlier := calls[..|calls| - 1];
      ServedNext(Served(earlier, path), earlier, calls[|calls| - 1], path)
  }

  function ServedNext(before: seq<Document>, earlier: seq<Call>, call: Call, path: string): seq<Document> {
    match call
    case Registering(d) => if d.path == path then before + [d] else before
    case Withdrawing(n) => if Withdraws(earlier, n, path) then TakenOnce(before, Made(earlier)[n]) else before
    case _ => before
  }

  predicate Withdraws(earlier: seq<Call>, n: nat, path: string) {
    n < |Made(earlier)| && n !in Withdrawn(earlier) && Made(earlier)[n].path == path
  }

  function TakenOnce(documents: seq<Document>, d: Document): seq<Document> {
    var index := IndexOf(documents, d);
    if index < 0 then documents else Without(documents, index)
  }

  /** Only registrations that were made are withdrawn, and nobody who follows follows again. */
  predicate Plays(calls: seq<Call>) {
    calls == [] || (Plays(calls[..|calls| - 1]) && Fits(calls[..|calls| - 1], calls[|calls| - 1]))
  }

  predicate Fits(earlier: seq<Call>, call: Call) {
    match call
    case Withdrawing(n) => n < |Made(earlier)|
    case Following(l) => l !in Followers(earlier)
    case _ => true
  }

  lemma {:induction false} PlaysUpTo(calls: seq<Call>, i: nat)
    requires Plays(calls) && i <= |calls|
    ensures Plays(calls[..i]) && (i < |calls| ==> Fits(calls[..i], calls[i]))
  {
    if i < |calls| {
      PlaysUpTo(calls[..|calls| - 1], i);
      assert calls[..|calls| - 1][..i] == calls[..i];
    } else {
      assert calls[..i] == calls;
    }
  }

  /**
   What `l` holds of `path` after `calls`: the head of the path's list while it follows, and
   otherwise nothing that awaits a cleanup.
   */
  ghost predicate HoldsServed(log: seq<Event>, calls: seq<Call>, l: Listener, path: string) {
    if l in Followers(calls) && Served(calls, path) != []
    then exists cleans :: Live(log, l, path) == Holding(Served(calls, path)[0], cleans)
    else Settled(log, l, path)
  }

  /**
   After every run the registry holds what its calls made of it: the registrations and
   withdrawals, the followers, and each path's list, whose head `find` answers and every
   follower holds, and of nothing else does anyone await a cleanup.
   */
  method Run(calls: seq<Call>) returns (registry: Registry)
    requires Plays(calls)
    ensures fresh(registry) && registry.Valid()
    ensures registry.registered == Made(calls) && registry.withdrawn == Withdrawn(calls)
    ensures registry.listeners == Followers(calls)
    ensures forall path :: At(registry.open, path) == Served(calls, path)
    ensures forall l, path :: HoldsServed(registry.log, calls, l, path)
    ensures Proper(registry.log)
  {
    registry := new Registry();
    assert calls[..0] == [];
    var i := 0;
    while i < |calls|
      invariant 0 <= i <= |calls| && fresh(registry) && registry.Valid()
      invariant Accounts(registry.open, registry.registered, registry.withdrawn, registry.listeners, calls[..i])
    {
      PlaysUpTo(calls, i);
      Perform(registry, calls[..i], calls[i]);
      assert calls[..i + 1] == calls[..i] + [calls[i]];
      i := i + 1;
    }
    assert calls[..i] == calls;
    forall l, path ensures HoldsServed(registry.log, calls, l, path) {
      HoldsHead(registry.open, registry.listeners, registry.cleanups, registry.log, calls, l, path);
    }
  }

  /** The registry's fields are those that `calls` leave. */
  ghost predicate Accounts(open: map<string, seq<Document>>, registered: seq<Document>, withdrawn: set<nat>,
                           listeners: seq<Listener>,
                           calls: seq<Call>) {
    && registered == Made(calls) && withdrawn == Withdrawn(calls) && listeners == Followers(calls)
    && forall path :: At(open, path) == Served(calls, path)
  }

  method Perform(registry: Registry, ghost calls: seq<Call>, call: Call)
    requires registry.Valid() && Fits(calls, call)
    requires Accounts(registry.open, registry.registered, registry.withdrawn, registry.listeners, calls)
    modifies registry
    ensures registry.Valid()
    ensures Accounts(registry.open, registry.registered, registry.withdrawn, registry.listeners, calls + [call])
  {
    hide Registry.Valid, Registry.InOrder, Made, Withdrawn, Followers, Served, At, Handover, Place, RemainingAt,
      IndexOf, Without, KeepsOrder, KeepsFirst, First;
    OneMore(calls, call);
    ghost var open := registry.open;
    match call {
      case Registering(d) =>
        var _ := registry.Register(d);
        forall path ensures At(registry.open, path) == Served(calls + [call], path) { RegisterAt(open, d, path); }
      case Withdrawing(n) => registry.Withdraw(n);
      case Following(l) => registry.Follow(l);
      case Unfollowing(l) => registry.Unfollow(l);
    }
  }

  lemma HoldsHead(open: map<string, seq<Document>>, listeners: seq<Listener>, cleanups: map<Document, seq<Listener>>,
                  log: seq<Event>,
                  calls: seq<Call>, l: Listener, path: string)
    requires Agrees(open, listeners, cleanups, log)
    requires At(open, path) == Served(calls, path) && listeners == Followers(calls)
    ensures HoldsServed(log, calls, l, path)
  {
    hide Live, Served, Followers;
    assert AgreesAt(open, listeners, cleanups, log, l, path);
  }

  /** What one more call adds to the account of a run. */
  lemma OneMore(calls: seq<Call>, call: Call)
    ensures Made(calls + [call]) == if call.Registering? then Made(calls) + [call.document] else Made(calls)
    ensures Withdrawn(calls + [call])
      == if call.Withdrawing? then Withdrawn(calls) + {call.number} else Withdrawn(calls)
    ensures Followers(calls + [call]) == FollowersNext(Followers(calls), call)
    ensures forall path :: Served(calls + [call], path) == ServedNext(Served(calls, path), calls, call, path)
  {
    assert (calls + [call])[..|calls|] == calls;
  }

  // ---- the oldest registration ----

  /** What remains of a path's registrations after `calls`, oldest first. */
  function Expected(calls: seq<Call>, path: string): seq<Document> {
    RemainingAt(Made(calls), Withdrawn(calls), path)
  }

  predicate InOrderAfter(calls: seq<Call>, path: string) {
    Served(calls, path) == Expected(calls, path)
  }

  /**
   `call` does not withdraw a registration around another object: no other one was registered between
   its object's oldest registration and it.
   */
  predicate InPlace(earlier: seq<Call>, call: Call) {
    call.Withdrawing? && call.number < |Made(earlier)| && call.number !in Withdrawn(earlier) ==>
      var path, own := Made(earlier)[call.number].path, Place(Made(earlier), Withdrawn(earlier), call.number);
      own < |Expected(earlier, path)| && KeepsOrder(Expected(earlier, path), own)
  }

  ghost predicate AllInOrder(calls: seq<Call>) { forall path :: InOrderAfter(calls, path) }

  ghost predicate AlwaysInOrder(calls: seq<Call>) { forall i :: 0 <= i <= |calls| ==> AllInOrder(calls[..i]) }

  predicate AlwaysInPlace(calls: seq<Call>) { forall i :: 0 <= i < |calls| ==> InPlace(calls[..i], calls[i]) }

  /** Every list is in order at every moment of a run exactly when every withdrawal is in place at its moment. */
  lemma {:induction false} InOrderExactly(calls: seq<Call>)
    requires Plays(calls)
    ensures AlwaysInOrder(calls) <==> AlwaysInPlace(calls)
  {
    hide AllInOrder, InPlace, AlwaysInOrder, AlwaysInPlace;
    if calls == [] {
      forall path { NothingExpected(calls, path); }
      NoCalls(calls);
    } else {
      var earlier, call := calls[..|calls| - 1], calls[|calls| - 1];
      assert calls == earlier + [call];
      InOrderExactly(earlier);
      AlwaysMore(earlier, call);
      if AllInOrder(earlier) { InOrderNext(earlier, call); }
    }
  }

  lemma NoCalls(calls: seq<Call>)
    requires calls == [] && forall path :: InOrderAfter(calls, path)
    ensures AlwaysInOrder(calls) && AlwaysInPlace(calls)
  {
    hide InOrderAfter, InPlace;
    assert calls[..0] == calls;
  }

  lemma AlwaysMore(earlier: seq<Call>, call: Call)
    ensures AlwaysInPlace(earlier + [call]) <==> AlwaysInPlace(earlier) && InPlace(earlier, call)
    ensures AlwaysInOrder(earlier + [call]) <==> AlwaysInOrder(earlier) && AllInOrder(earlier + [call])
    ensures AlwaysInOrder(earlier) ==> AllInOrder(earlier)
  {
    hide AllInOrder, InPlace;
    var calls := earlier + [call];
    assert calls[..|earlier|] == earlier == earlier[..|earlier|] && calls[..|calls|] == calls;
    assert forall i :: 0 <= i <= |earlier| ==> earlier[..i] == calls[..i];
    assert forall i :: 0 <= i < |earlier| ==> earlier[i] == calls[i];
    if AlwaysInPlace(calls) {
      forall i | 0 <= i < |earlier| ensures InPlace(earlier[..i], earlier[i]) { assert InPlace(calls[..i], calls[i]); }
      assert InPlace(calls[..|earlier|], calls[|earlier|]);
    }
    if AlwaysInOrder(calls) {
      forall i | 0 <= i <= |earlier| ensures AllInOrder(earlier[..i]) { assert AllInOrder(calls[..i]); }
      assert AllInOrder(calls[..|calls|]);
    }
  }

  lemma NothingExpected(calls: seq<Call>, path: string)
    requires calls == []
    ensures InOrderAfter(calls, path)
  {
  }

  /** One call keeps the lists in order exactly when it is in place. */
  lemma InOrderNext(calls: seq<Call>, call: Call)
    requires Plays(calls + [call]) && AllInOrder(calls)
    ensures AllInOrder(calls + [call]) <==> InPlace(calls, call)
  {
    hide RemainingAt, IndexOf, Without, KeepsOrder, KeepsFirst, Place, First, Followers, FollowersNext;
    PlaysUpTo(calls + [call], |calls|);
    assert (calls + [call])[..|calls|] == calls;
    hide Plays, Made, Withdrawn, Served;
    OneMore(calls, call);
    if call.Withdrawing? && call.number !in Withdrawn(calls) {
      var registered, withdrawn, n := Made(calls), Withdrawn(calls), call.number;
      var own := registered[n].path;
      WithdrawnOrder(registered, withdrawn, n);
      assert InOrderAfter(calls, own);
      assert Served(calls + [call], own) == TakenOnce(Served(calls, own), registered[n]);
      assert InOrderAfter(calls + [call], own) <==> InPlace(calls, call);
      forall path | path != registered[n].path ensures InOrderAfter(calls + [call], path) {
        assert InOrderAfter(calls, path);
        var b, a := WithdrawnFrom(registered, withdrawn, n, path);
        assert b + [] == b;
      }
    } else {
      forall path ensures InOrderAfter(calls + [call], path) {
        assert InOrderAfter(calls, path);
        if call.Registering? {
          WithdrawnAreMade(calls);
          RemainingMore(Made(calls), Withdrawn(calls), call.document);
        } else if call.Withdrawing? {
          assert Withdrawn(calls) + {call.number} == Withdrawn(calls);
        }
      }
    }
  }

  lemma {:induction false} WithdrawnAreMade(calls: seq<Call>)
    requires Plays(calls)
    ensures forall n :: n in Withdrawn(calls) ==> n < |Made(calls)|
  {
    if calls != [] { WithdrawnAreMade(calls[..|calls| - 1]); }
  }

  /**
   Where no object is registered twice, `find` answers the oldest registration that remains, and
   every follower holds it.
   */
  lemma {:induction false} OnceRegisteredInOrder(calls: seq<Call>, path: string)
    requires Plays(calls) && Distinct(Made(calls))
    ensures InOrderAfter(calls, path)
  {
    forall i | 0 <= i < |calls| ensures InPlace(calls[..i], calls[i]) {
      PlaysUpTo(calls, i);
      MadeUpTo(calls, i);
      OnceInPlace(calls[..i], calls[i]);
    }
    InOrderExactly(calls);
    assert calls[..|calls|] == calls;
    assert AllInOrder(calls[..|calls|]);
  }

  lemma {:induction false} MadeUpTo(calls: seq<Call>, i: nat)
    requires i <= |calls|
    ensures Made(calls[..i]) <= Made(calls)
  {
    if i < |calls| {
      MadeUpTo(calls[..|calls| - 1], i);
      assert calls[..|calls| - 1][..i] == calls[..i];
    } else {
      assert calls[..i] == calls;
    }
  }

  lemma OnceInPlace(earlier: seq<Call>, call: Call)
    requires Distinct(Made(earlier)) && Fits(earlier, call)
    ensures InPlace(earlier, call)
  {
    hide Made, Withdrawn, IndexOf, RemainingAt;
    if call.Withdrawing? && call.number !in Withdrawn(earlier) {
      var registered, withdrawn, n := Made(earlier), Withdrawn(earlier), call.number;
      var d := registered[n];
      var before, after := WithdrawnFrom(registered, withdrawn, n, d.path);
      var documents := before + [d] + after;
      forall e | e in before ensures e != d { RemainingAreMade(registered[..n], withdrawn, d.path, e); }
      FirstAt(before, d, after);
    }
  }

  lemma FirstAt<T>(before: seq<T>, x: T, after: seq<T>)
    requires x !in before
    ensures IndexOf(before + [x] + after, x) == |before|
  {
    hide IndexOf;
    var s := before + [x] + after;
    assert s[|before|] == x;
    forall k | |before| < k <= |s| ensures x in s[..k] { assert s[..k][|before|] == x; }
    forall k | 0 <= k < |before| ensures s[k] != x { assert s[k] == before[k]; }
  }

  lemma {:induction false} RemainingAreMade(registered: seq<Document>, withdrawn: set<nat>, path: string, d: Document)
    requires d in RemainingAt(registered, withdrawn, path)
    ensures d in registered
  {
    var last := |registered| - 1;
    if registered != [] && (last in withdrawn || registered[last] != d) {
      RemainingAreMade(registered[..last], withdrawn, path, d);
    }
  }

  /**
   One object registered before and after another one: withdrawing its later
   registration announces the other object, although the first registration remains.
   */
  method RepeatedObjectLosesItsPlace(d: Document, e: Document,
                                     listener: Listener) returns (registry: Registry, found: seq<Document>)
    requires d.path == e.path && d != e
    ensures fresh(registry) && registry.Valid()
    ensures registry.registered == [d, e, d] && registry.withdrawn == {2}
    ensures found == [e] && RemainingAt([d, e, d], {2}, d.path) == [d, e]
    ensures listener in registry.listeners
    ensures exists cleans :: Live(registry.log, listener, d.path) == Holding(e, cleans)
  {
    hide Registry.Valid, Registry.InOrder, RemainingAt, Place, Handover, KeepsOrder, KeepsFirst;
    registry := new Registry();
    registry.Follow(listener);
    var _ := registry.Register(d);
    var _ := registry.Register(e);
    var last := registry.Register(d);
    RemainingThree(d, e);
    assert At(registry.open, d.path) == [d, e, d];
    registry.Withdraw(last);
    assert [d, e, d][1..] == [e, d];
    found := registry.Find(d.path);
  }

  lemma RemainingThree(d: Document, e: Document)
    requires d.path == e.path
    ensures RemainingAt([d, e, d], {2}, d.path) == [d, e]
  {
    hide RemainingAt;
    var none: set<nat> := {2};
    assert [] + [d] == [d] && [d] + [e] == [d, e];
    RemainingMore([], none, d);
    RemainingMore([d], none, e);
    assert [d, e, d][..2] == [d, e];
    LastWithdrawnRemains([d, e, d], none, d.path);
    NoneRemain(none, d.path);
  }

  lemma LastWithdrawnRemains(registered: seq<Document>, withdrawn: set<nat>, path: string)
    requires registered != [] && |registered| - 1 in withdrawn
    ensures RemainingAt(registered, withdrawn, path) == RemainingAt(registered[..|registered| - 1], withdrawn, path)
  {
  }

  lemma NoneRemain(withdrawn: set<nat>, path: string)
    ensures RemainingAt([], withdrawn, path) == []
  {
  }

  /** `listener` heard one document for each of `count` paths. */
  predicate Heard(before: seq<Event>, after: seq<Event>, listener: Listener, count: nat) {
    before <= after && |after| == |before| + count
    && forall i :: |before| <= i < |after| ==> after[i].Attached? && after[i].listener == listener
  }

  lemma HeardMore(before: seq<Event>, after: seq<Event>, listener: Listener, count: nat, e: Event)
    requires Heard(before, after, listener, count) && e.Attached? && e.listener == listener
    ensures Heard(before, after + [e], listener, count + 1)
  {
  }

  /** The first registration of a path goes: its holders are told, then everyone hears the next one, if there is one. */
  ghost predicate Handover(before: seq<Event>, after: seq<Event>, listeners: seq<Listener>, holders: seq<Listener>,
                           d: Document, rest: seq<Document>) {
    var closed := before + Cleanings(holders, d);
    if rest == [] then after == closed else Announcement(closed, after, listeners, rest[0])
  }

  function Cleanings(holders: seq<Listener>, document: Document): seq<Event> {
    seq(|holders|, i requires 0 <= i < |holders| => Cleaned(holders[i], document))
  }

  /** Each listener heard the document once, in the order they follow. */
  predicate Announcement(before: seq<Event>, after: seq<Event>, listeners: seq<Listener>, document: Document) {
    |after| == |before| + |listeners| && before <= after
    && forall i :: 0 <= i < |listeners| ==> HeardAt(before, after, listeners, document, i)
  }

  predicate HeardAt(before: seq<Event>, after: seq<Event>, listeners: seq<Listener>, document: Document, i: nat)
    requires i < |listeners| && |before| + i < |after|
  {
    var e := after[|before| + i];
    e.Attached? && e.listener == listeners[i] && e.document == document
  }
}

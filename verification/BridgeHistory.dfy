/**
 Where each answer of the bridge comes from: the steps of a run that issued its request, brought
 it to the window, started its handler and ended it, and what each of them contributed.
 */
module BridgeHistory {
  import opened Options
  import opened RuntimeBridge

  /** The worlds a run goes through, from the start to the end. */
  ghost predicate Trace(setup: Setup, steps: seq<Step>, worlds: seq<World>) {
    && |worlds| == |steps| + 1 && worlds[0] == START
    && forall i :: 0 <= i < |steps| ==> Follows(setup, steps, worlds, i)
  }

  ghost predicate Follows(setup: Setup, steps: seq<Step>, worlds: seq<World>, i: nat)
    requires i < |steps| && |worlds| == |steps| + 1
  {
    Enabled(worlds[i], steps[i]) && worlds[i + 1] == Next(setup, worlds[i], steps[i])
  }

  function WorldsOf(setup: Setup, w: World, steps: seq<Step>): (r: seq<World>)
    requires Runs(setup, w, steps)
    ensures |r| == |steps| + 1 && r[0] == w
    decreases |steps|
  {
    [w] + if steps == [] then [] else WorldsOf(setup, Next(setup, w, steps[0]), steps[1..])
  }

  lemma {:induction false} WorldsFollow(setup: Setup, w: World, steps: seq<Step>)
    requires Runs(setup, w, steps)
    ensures var worlds := WorldsOf(setup, w, steps);
      worlds[|steps|] == After(setup, w, steps) && forall i :: 0 <= i < |steps| ==> Follows(setup, steps, worlds, i)
    decreases |steps|
  {
    hide Next, Enabled;
    if steps != [] {
      var w1 := Next(setup, w, steps[0]);
      WorldsFollow(setup, w1, steps[1..]);
      var worlds, rest := WorldsOf(setup, w, steps), WorldsOf(setup, w1, steps[1..]);
      assert worlds == [w] + rest;
      forall i | 0 <= i < |steps| ensures Follows(setup, steps, worlds, i) {
        if i > 0 { assert Follows(setup, steps[1..], rest, i - 1); }
      }
    }
  }

  // ---- what happened before step `n` ----

  /** Step `a` made the request with this id. */
  ghost predicate IssuedAt(steps: seq<Step>, worlds: seq<World>, a: nat, id: nat, name: string, params: string)
    requires |worlds| == |steps| + 1
  {
    a < |steps| && steps[a] == DoIssue(name, params) && worlds[a].server.nextId == id
  }

  ghost predicate Issued(steps: seq<Step>, worlds: seq<World>, n: nat, id: nat, name: string, params: string)
    requires |worlds| == |steps| + 1
  {
    exists a: nat :: a < n && IssuedAt(steps, worlds, a, id, name, params)
  }

  /** The first open channel that handles a method; none when no open channel does. */
  ghost predicate Chosen(setup: Setup, channels: seq<Channel>, name: string, channel: Option<Channel>) {
    if channel == None then forall c :: c in channels ==> !setup.handles(c, name)
    else exists i :: ChosenAt(setup, channels, name, channel.value, i)
  }

  predicate ChosenAt(setup: Setup, channels: seq<Channel>, name: string, channel: Channel, i: int) {
    0 <= i < |channels| && channels[i] == channel && setup.handles(channel, name)
    && forall j :: 0 <= j < i ==> !setup.handles(channels[j], name)
  }

  /** Step `b` brought the request to the window, where the first open channel that handles it takes it. */
  ghost predicate ReceivedAt(setup: Setup, steps: seq<Step>, worlds: seq<World>, b: nat, job: Job)
    requires |worlds| == |steps| + 1
  {
    && b < |steps| && steps[b].DoReceive? && worlds[b].inbox != []
    && worlds[b].inbox[0] == Call(job.id, job.name, job.params)
    && Chosen(setup, worlds[b].client.channels, job.name, job.channel)
  }

  ghost predicate Received(setup: Setup, steps: seq<Step>, worlds: seq<World>, n: nat, job: Job)
    requires |worlds| == |steps| + 1
  {
    job.id.Some? ==>
      Issued(steps, worlds, n, job.id.value, job.name, job.params)
      && exists b: nat :: b < n && ReceivedAt(setup, steps, worlds, b, job)
  }

  /** Step `c` started the handler, and its answer goes to the session of that moment. */
  ghost predicate StartedAt(steps: seq<Step>, worlds: seq<World>, c: nat, r: Running)
    requires |worlds| == |steps| + 1
  {
    && c < |steps| && steps[c].DoStart? && steps[c].chain < |worlds[c].client.chains|
    && worlds[c].client.chains[steps[c].chain].waiting != []
    && worlds[c].client.chains[steps[c].chain].waiting[0] == r.job && worlds[c].client.session == r.replyTo
  }

  ghost predicate Started(setup: Setup, steps: seq<Step>, worlds: seq<World>, n: nat, r: Running)
    requires |worlds| == |steps| + 1
  {
    r.job.id.Some? ==>
      Received(setup, steps, worlds, n, r.job) && exists c: nat :: c < n && StartedAt(steps, worlds, c, r)
  }

  /** What is sent for a request: how its handler ended, or that no channel had one. */
  ghost predicate Tells(job: Job, ended: Outcome, sent: Outcome) {
    sent == if job.channel.Some? then ended else Failure("unknown bridge method " + job.name)
  }

  /** Step `d` ended the handler of request `id`, and this is what it came to. */
  ghost predicate EndedBy(setup: Setup, steps: seq<Step>, worlds: seq<World>, d: nat, id: nat, session: nat,
                          sent: Outcome)
    requires |worlds| == |steps| + 1
  {
    && d < |steps| && steps[d].DoFinish? && steps[d].chain < |worlds[d].client.chains|
    && var running := worlds[d].client.chains[steps[d].chain].running;
      running.Some? && running.value.job.id == Some(id) && running.value.replyTo == Some(session)
      && Started(setup, steps, worlds, d, running.value) && Tells(running.value.job, steps[d].outcome, sent)
  }

  ghost predicate Explained(setup: Setup, steps: seq<Step>, worlds: seq<World>, n: nat, id: nat, session: nat,
                            sent: Outcome)
    requires |worlds| == |steps| + 1
  {
    exists d: nat :: d < n && EndedBy(setup, steps, worlds, d, id, session, sent)
  }

  /** Everything under way at step `n`, and everything answered, has its history. */
  ghost predicate Accounted(setup: Setup, steps: seq<Step>, worlds: seq<World>, n: nat)
    requires |worlds| == |steps| + 1 && n < |worlds|
  {
    && CallsIssued(steps, worlds, n, worlds[n].server.queue)
    && CallsIssued(steps, worlds, n, worlds[n].inbox)
    && ChainsReceived(setup, steps, worlds, n, worlds[n].client.chains)
    && PostsExplained(setup, steps, worlds, n, worlds[n].posts)
    && AnswersExplained(setup, steps, worlds, n, worlds[n].server.answers)
  }

  ghost predicate CallsIssued(steps: seq<Step>, worlds: seq<World>, n: nat, messages: seq<Message>)
    requires |worlds| == |steps| + 1
  {
    forall i :: 0 <= i < |messages| ==> CallIssued(steps, worlds, n, messages[i])
  }

  ghost predicate CallIssued(steps: seq<Step>, worlds: seq<World>, n: nat, m: Message)
    requires |worlds| == |steps| + 1
  {
    m.Call? && m.id.Some? ==> Issued(steps, worlds, n, m.id.value, m.name, m.params)
  }

  ghost predicate ChainsReceived(setup: Setup, steps: seq<Step>, worlds: seq<World>, n: nat, chains: seq<Chain>)
    requires |worlds| == |steps| + 1
  {
    forall k :: 0 <= k < |chains| ==> ChainReceived(setup, steps, worlds, n, chains[k])
  }

  ghost predicate ChainReceived(setup: Setup, steps: seq<Step>, worlds: seq<World>, n: nat, chain: Chain)
    requires |worlds| == |steps| + 1
  {
    (forall i :: 0 <= i < |chain.waiting| ==> Received(setup, steps, worlds, n, chain.waiting[i]))
    && (chain.running.Some? ==> Started(setup, steps, worlds, n, chain.running.value))
  }

  ghost predicate PostsExplained(setup: Setup, steps: seq<Step>, worlds: seq<World>, n: nat, posts: seq<Post>)
    requires |worlds| == |steps| + 1
  {
    forall i :: 0 <= i < |posts| ==> PostExplained(setup, steps, worlds, n, posts[i])
  }

  ghost predicate PostExplained(setup: Setup, steps: seq<Step>, worlds: seq<World>, n: nat, p: Post)
    requires |worlds| == |steps| + 1
  {
    p.body.Answer? ==> Explained(setup, steps, worlds, n, p.body.id, p.session, p.body.outcome)
  }

  ghost predicate AnswersExplained(setup: Setup, steps: seq<Step>, worlds: seq<World>, n: nat, answers: map<nat,
                                   Outcome>)
    requires |worlds| == |steps| + 1
  {
    forall id :: id in answers ==> AnswerExplained(setup, steps, worlds, n, id, answers[id])
  }

  ghost predicate AnswerExplained(setup: Setup, steps: seq<Step>, worlds: seq<World>, n: nat, id: nat, sent: Outcome)
    requires |worlds| == |steps| + 1
  {
    exists session: nat :: Explained(setup, steps, worlds, n, id, session, sent)
  }

  // ---- history is kept ----

  lemma IssuedLater(steps: seq<Step>, worlds: seq<World>, n: nat)
    requires |worlds| == |steps| + 1
    ensures forall id, name, params :: Issued(steps, worlds, n, id, name, params) ==>
      Issued(steps, worlds, n + 1, id, name, params)
    ensures forall m :: CallIssued(steps, worlds, n, m) ==> CallIssued(steps, worlds, n + 1, m)
  {
    hide IssuedAt;
  }

  lemma ReceivedLater(setup: Setup, steps: seq<Step>, worlds: seq<World>, n: nat)
    requires |worlds| == |steps| + 1
    ensures forall job :: Received(setup, steps, worlds, n, job) ==> Received(setup, steps, worlds, n + 1, job)
    ensures forall r :: Started(setup, steps, worlds, n, r) ==> Started(setup, steps, worlds, n + 1, r)
    ensures forall chain :: ChainReceived(setup, steps, worlds, n, chain) ==>
      ChainReceived(setup, steps, worlds, n + 1, chain)
  {
    hide Issued, ReceivedAt, StartedAt;
    IssuedLater(steps, worlds, n);
    forall job | Received(setup, steps, worlds, n, job) ensures Received(setup, steps, worlds, n + 1, job) { }
    forall r | Started(setup, steps, worlds, n, r) ensures Started(setup, steps, worlds, n + 1, r) { }
  }

  lemma ExplainedLater(setup: Setup, steps: seq<Step>, worlds: seq<World>, n: nat)
    requires |worlds| == |steps| + 1
    ensures forall p :: PostExplained(setup, steps, worlds, n, p) ==> PostExplained(setup, steps, worlds, n + 1, p)
    ensures forall id, sent :: AnswerExplained(setup, steps, worlds, n, id, sent) ==>
      AnswerExplained(setup, steps, worlds, n + 1, id, sent)
  {
    hide EndedBy;
    forall id: nat, session: nat, sent | Explained(setup, steps, worlds, n, id, session, sent)
      ensures Explained(setup, steps, worlds, n + 1, id, session, sent) { }
  }

  // ---- one step ----

  lemma FindsFirst(setup: Setup, channels: seq<Channel>, name: string)
    ensures Chosen(setup, channels, name, FindChannel(setup, channels, name))
  {
    var found := FindChannel(setup, channels, name);
    if found.Some? { var i := FirstFound(setup, channels, name); }
  }

  lemma {:induction false} FirstFound(setup: Setup, channels: seq<Channel>, name: string) returns (i: nat)
    requires FindChannel(setup, channels, name).Some?
    ensures ChosenAt(setup, channels, name, FindChannel(setup, channels, name).value, i)
  {
    if setup.handles(channels[0], name) {
      i := 0;
    } else {
      var rest := FirstFound(setup, channels[1..], name);
      i := rest + 1;
    }
  }

  lemma CallsStay(setup: Setup, steps: seq<Step>, worlds: seq<World>, n: nat)
    requires Trace(setup, steps, worlds) && n < |steps| && Accounted(setup, steps, worlds, n)
    ensures CallsIssued(steps, worlds, n + 1, worlds[n + 1].server.queue)
    ensures CallsIssued(steps, worlds, n + 1, worlds[n + 1].inbox)
  {
    hide Issued, Receive, Start, Finish, Open, Close, Unanswered, CallIds, CanStart, CanFinish;
    hide ChainsReceived, PostsExplained, AnswersExplained;
    assert Follows(setup, steps, worlds, n);
    var w, w', step := worlds[n], worlds[n + 1], steps[n];
    IssuedLater(steps, worlds, n);
    hide CallIssued;
    assert CallsIssued(steps, worlds, n + 1, w.server.queue) && CallsIssued(steps, worlds, n + 1, w.inbox);
    match step
    case DoIssue(name, params) => CallIsIssued(steps, worlds, n);
    case DoStream => ReadyIsIssued(steps, worlds, n + 1, w.server.session + 1);
    case _ =>
  }

  lemma CallIsIssued(steps: seq<Step>, worlds: seq<World>, n: nat)
    requires |worlds| == |steps| + 1 && n < |steps| && steps[n].DoIssue?
    ensures CallIssued(steps, worlds, n + 1, Call(Some(worlds[n].server.nextId), steps[n].name, steps[n].params))
  {
    assert IssuedAt(steps, worlds, n, worlds[n].server.nextId, steps[n].name, steps[n].params);
  }

  lemma ReadyIsIssued(steps: seq<Step>, worlds: seq<World>, n: nat, session: nat)
    requires |worlds| == |steps| + 1
    ensures CallIssued(steps, worlds, n, Ready(session))
  {
  }

  /** A request that arrives becomes a job with its history. */
  lemma ArrivalReceived(setup: Setup, steps: seq<Step>, worlds: seq<World>, n: nat)
    requires |worlds| == |steps| + 1 && n < |steps| && steps[n].DoReceive? && worlds[n].inbox != []
    requires worlds[n].inbox[0].Call? && CallIssued(steps, worlds, n, worlds[n].inbox[0])
    ensures Received(setup, steps, worlds, n + 1, JobOf(setup, worlds[n].client, worlds[n].inbox[0]))
  {
    hide Issued, FindChannel, Chosen;
    IssuedLater(steps, worlds, n);
    var job := JobOf(setup, worlds[n].client, worlds[n].inbox[0]);
    FindsFirst(setup, worlds[n].client.channels, job.name);
    assert ReceivedAt(setup, steps, worlds, n, job);
  }

  /** The first waiting job starts, on the session of this moment. */
  lemma StartIsStarted(setup: Setup, steps: seq<Step>, worlds: seq<World>, n: nat)
    requires |worlds| == |steps| + 1 && n < |steps| && steps[n].DoStart? && CanStart(worlds[n].client, steps[n].chain)
    requires ChainReceived(setup, steps, worlds, n + 1, worlds[n].client.chains[steps[n].chain])
    ensures ChainReceived(setup, steps, worlds, n + 1, Start(worlds[n].client, steps[n].chain).chains[steps[n].chain])
  {
    hide Received;
    var w, k := worlds[n], steps[n].chain;
    assert StartedAt(steps, worlds, n, Running(w.client.chains[k].waiting[0], w.client.session));
  }

  lemma EnqueueReceived(setup: Setup, steps: seq<Step>, worlds: seq<World>, n: nat, c: Client, job: Job)
    requires |worlds| == |steps| + 1 && ChainsReceived(setup, steps, worlds, n, c.chains)
    requires Received(setup, steps, worlds, n, job)
    ensures ChainsReceived(setup, steps, worlds, n, Enqueue(c, job).chains)
  {
    hide Received, Started;
    var c' := Enqueue(c, job);
    forall k | 0 <= k < |c'.chains| ensures ChainReceived(setup, steps, worlds, n, c'.chains[k]) {
      if k < |c.chains| { assert ChainReceived(setup, steps, worlds, n, c.chains[k]); }
    }
  }

  lemma FinishReceived(setup: Setup, steps: seq<Step>, worlds: seq<World>, n: nat, c: Client, k: nat, outcome: Outcome)
    requires |worlds| == |steps| + 1 && ChainsReceived(setup, steps, worlds, n, c.chains) && CanFinish(c, k)
    ensures ChainsReceived(setup, steps, worlds, n, Finish(c, k, outcome).0.chains)
  {
    hide Received, Started;
    var chains := Finish(c, k, outcome).0.chains;
    forall j | 0 <= j < |chains| ensures ChainReceived(setup, steps, worlds, n, chains[j]) {
      assert ChainReceived(setup, steps, worlds, n, c.chains[j]);
    }
  }

  lemma ChainsStay(setup: Setup, steps: seq<Step>, worlds: seq<World>, n: nat)
    requires Trace(setup, steps, worlds) && n < |steps| && Accounted(setup, steps, worlds, n)
    ensures ChainsReceived(setup, steps, worlds, n + 1, worlds[n + 1].client.chains)
  {
    hide ChainReceived, Enqueue, Finish, Open, Close, Announcements, JobOf, CallIssued, PostsExplained,
      AnswersExplained;
    hide Received, Started;
    assert Follows(setup, steps, worlds, n);
    var w, step := worlds[n], steps[n];
    ReceivedLater(setup, steps, worlds, n);
    assert ChainsReceived(setup, steps, worlds, n + 1, w.client.chains);
    match step
    case DoReceive =>
      if w.inbox[0].Call? {
        assert CallIssued(steps, worlds, n, w.inbox[0]);
        ArrivalReceived(setup, steps, worlds, n);
        EnqueueReceived(setup, steps, worlds, n + 1, w.client, JobOf(setup, w.client, w.inbox[0]));
      }
    case DoStart(k) => StartIsStarted(setup, steps, worlds, n);
    case DoFinish(k, outcome) => FinishReceived(setup, steps, worlds, n + 1, w.client, k, outcome);
    case DoOpen(channel, connects) => OpenKeepsChains(w.client, channel, connects);
    case DoClose(channel) => CloseKeepsChains(w.client, channel);
    case _ =>
  }

  /** The answer of a handler that ends tells how it ended, to the session it started on. */
  lemma FinishExplained(setup: Setup, steps: seq<Step>, worlds: seq<World>, n: nat)
    requires |worlds| == |steps| + 1 && n < |steps| && steps[n].DoFinish? && CanFinish(worlds[n].client, steps[n].chain)
    requires ChainReceived(setup, steps, worlds, n, worlds[n].client.chains[steps[n].chain])
    ensures PostsExplained(setup, steps, worlds, n + 1, Finish(worlds[n].client, steps[n].chain, steps[n].outcome).1)
  {
    hide Received, Started;
    var posts := Finish(worlds[n].client, steps[n].chain, steps[n].outcome).1;
    if posts != [] {
      var p := posts[0];
      assert EndedBy(setup, steps, worlds, n, p.body.id, p.session, p.body.outcome);
      assert Explained(setup, steps, worlds, n + 1, p.body.id, p.session, p.body.outcome);
    }
  }

  lemma NoAnswersExplained(setup: Setup, steps: seq<Step>, worlds: seq<World>, n: nat, posts: seq<Post>)
    requires |worlds| == |steps| + 1 && forall i :: 0 <= i < |posts| ==> !posts[i].body.Answer?
    ensures PostsExplained(setup, steps, worlds, n, posts)
  {
  }

  lemma NewPostsExplained(setup: Setup, steps: seq<Step>, worlds: seq<World>, n: nat)
    requires Trace(setup, steps, worlds) && n < |steps| && Accounted(setup, steps, worlds, n)
    ensures Enabled(worlds[n], steps[n])
    ensures PostsExplained(setup, steps, worlds, n + 1, NewPosts(setup, worlds[n], steps[n]))
  {
    hide ChainReceived, Finish, Announcements, Enqueue, JobOf, CallIssued;
    assert Follows(setup, steps, worlds, n);
    var w := worlds[n];
    match steps[n]
    case DoReceive =>
      if w.inbox[0].Ready? { AnnouncementsAreNoAnswers(setup, Some(w.inbox[0].session), w.client.channels); }
      hide PostExplained;
      NoAnswersExplained(setup, steps, worlds, n + 1, Receive(setup, w.client, w.inbox[0]).1);
    case DoFinish(k, outcome) =>
      assert ChainReceived(setup, steps, worlds, n, w.client.chains[k]);
      FinishExplained(setup, steps, worlds, n);
    case _ => NoAnswersExplained(setup, steps, worlds, n + 1, NewPosts(setup, w, steps[n]));
  }

  lemma AnswersStay(setup: Setup, steps: seq<Step>, worlds: seq<World>, n: nat)
    requires Trace(setup, steps, worlds) && n < |steps| && Accounted(setup, steps, worlds, n)
    ensures PostsExplained(setup, steps, worlds, n + 1, worlds[n + 1].posts)
    ensures AnswersExplained(setup, steps, worlds, n + 1, worlds[n + 1].server.answers)
  {
    hide Explained, Receive, Start, Finish, Open, Close, Unanswered, CallIds, CanStart, CanFinish, CallsIssued,
      ChainsReceived;
    assert Follows(setup, steps, worlds, n);
    var w, w', step := worlds[n], worlds[n + 1], steps[n];
    ExplainedLater(setup, steps, worlds, n);
    NewPostsExplained(setup, steps, worlds, n);
    hide PostExplained, AnswerExplained;
    assert PostsExplained(setup, steps, worlds, n + 1, w.posts) && AnswersExplained(setup, steps, worlds, n + 1, w.server.answers);
    if step.DoDeliver? {
      assert PostExplained(setup, steps, worlds, n + 1, w.posts[step.index]);
      AcceptExplained(setup, steps, worlds, n + 1, w.server, w.posts[step.index]);
    } else {
      assert w'.posts == w.posts + NewPosts(setup, w, step);
    }
  }

  lemma AcceptExplained(setup: Setup, steps: seq<Step>, worlds: seq<World>, n: nat, s: Server, p: Post)
    requires |worlds| == |steps| + 1 && AnswersExplained(setup, steps, worlds, n, s.answers)
    requires PostExplained(setup, steps, worlds, n, p)
    ensures AnswersExplained(setup, steps, worlds, n, Accept(s, p).answers)
  {
    hide Explained;
  }

  lemma NothingYet(setup: Setup, steps: seq<Step>, worlds: seq<World>)
    requires Trace(setup, steps, worlds)
    ensures Accounted(setup, steps, worlds, 0)
  {
  }

  lemma {:induction false} AllAccounted(setup: Setup, steps: seq<Step>, worlds: seq<World>, n: nat)
    requires Trace(setup, steps, worlds) && n <= |steps|
    ensures Accounted(setup, steps, worlds, n)
  {
    if n == 0 {
      NothingYet(setup, steps, worlds);
    } else {
      hide Trace, Accounted, CallsIssued, ChainsReceived, PostsExplained, AnswersExplained;
      AllAccounted(setup, steps, worlds, n - 1);
      CallsStay(setup, steps, worlds, n - 1);
      ChainsStay(setup, steps, worlds, n - 1);
      AnswersStay(setup, steps, worlds, n - 1);
      Together(setup, steps, worlds, n);
    }
  }

  lemma Together(setup: Setup, steps: seq<Step>, worlds: seq<World>, n: nat)
    requires |worlds| == |steps| + 1 && n < |worlds|
    requires CallsIssued(steps, worlds, n, worlds[n].server.queue) && CallsIssued(steps, worlds, n, worlds[n].inbox)
    requires ChainsReceived(setup, steps, worlds, n, worlds[n].client.chains)
    requires PostsExplained(setup, steps, worlds, n, worlds[n].posts)
    requires AnswersExplained(setup, steps, worlds, n, worlds[n].server.answers)
    ensures Accounted(setup, steps, worlds, n)
  {
  }

  // ---- whole runs ----

  /**
   The whole way of an answer: the request was issued with a name and parameters, came to the
   window in a stream, was taken by the first open channel that handles its name, and waited
   until its handler started; then the handler ended, and what was sent to the session of its
   start is how it ended, or, where no open channel had a handler, that its name is unknown.
   */
  ghost predicate Story(setup: Setup, steps: seq<Step>, worlds: seq<World>, id: nat, session: nat, sent: Outcome)
    requires |worlds| == |steps| + 1
  {
    exists a: nat, b: nat, c: nat, d: nat, job: Job :: Told(setup, steps, worlds, a, b, c, d, id, job, session, sent)
  }

  ghost predicate Told(setup: Setup, steps: seq<Step>, worlds: seq<World>, a: nat, b: nat, c: nat, d: nat,
                       id: nat, job: Job, session: nat, sent: Outcome)
    requires |worlds| == |steps| + 1
  {
    && a < d < |steps| && b < d && c < d && job.id == Some(id)
    && IssuedAt(steps, worlds, a, id, job.name, job.params)
    && ReceivedAt(setup, steps, worlds, b, job)
    && StartedAt(steps, worlds, c, Running(job, Some(session)))
    && steps[d].DoFinish? && steps[d].chain < |worlds[d].client.chains|
    && worlds[d].client.chains[steps[d].chain].running == Some(Running(job, Some(session)))
    && sent == if Taken(setup, worlds[b].client.channels, job.name) then steps[d].outcome else Failure("unknown bridge method " + job.name)
  }

  ghost predicate Taken(setup: Setup, channels: seq<Channel>, name: string) {
    exists c :: c in channels && setup.handles(c, name)
  }

  lemma ExplainedIsStory(setup: Setup, steps: seq<Step>, worlds: seq<World>, n: nat, id: nat, session: nat,
                         sent: Outcome)
    requires |worlds| == |steps| + 1 && Explained(setup, steps, worlds, n, id, session, sent)
    ensures Story(setup, steps, worlds, id, session, sent)
  {
    hide IssuedAt, StartedAt;
    var d: nat :| d < n && EndedBy(setup, steps, worlds, d, id, session, sent);
    var r := worlds[d].client.chains[steps[d].chain].running.value;
    var c: nat :| c < d && StartedAt(steps, worlds, c, r);
    var b: nat :| b < d && ReceivedAt(setup, steps, worlds, b, r.job);
    var a: nat :| a < d && IssuedAt(steps, worlds, a, id, r.job.name, r.job.params);
    ChosenIsTaken(setup, worlds[b].client.channels, r.job.name, r.job.channel);
    assert Told(setup, steps, worlds, a, b, c, d, id, r.job, session, sent);
  }

  lemma ChosenIsTaken(setup: Setup, channels: seq<Channel>, name: string, channel: Option<Channel>)
    requires Chosen(setup, channels, name, channel)
    ensures channel.Some? <==> Taken(setup, channels, name)
  {
    if channel.Some? {
      var i :| ChosenAt(setup, channels, name, channel.value, i);
      assert channels[i] in channels && setup.handles(channels[i], name);
    }
  }

  /** Over any run from the start, every answer filed, and every answer on its way, has such a history. */
  lemma AnswersTellHowHandlersEnded(setup: Setup, steps: seq<Step>)
    requires Runs(setup, START, steps)
    ensures var w, worlds := After(setup, START, steps), WorldsOf(setup, START, steps);
      (forall id :: id in w.server.answers ==> exists session :: Story(setup, steps, worlds, id, session, w.server.answers[id]))
      && forall i :: 0 <= i < |w.posts| && w.posts[i].body.Answer? ==>
        Story(setup, steps, worlds, w.posts[i].body.id, w.posts[i].session, w.posts[i].body.outcome)
  {
    hide Next, Enabled, Story, Explained;
    var w, worlds, n := After(setup, START, steps), WorldsOf(setup, START, steps), |steps|;
    WorldsFollow(setup, START, steps);
    AllAccounted(setup, steps, worlds, n);
    forall id | id in w.server.answers ensures exists session :: Story(setup, steps, worlds, id, session, w.server.answers[id]) {
      assert AnswerExplained(setup, steps, worlds, n, id, w.server.answers[id]);
      var session: nat :| Explained(setup, steps, worlds, n, id, session, w.server.answers[id]);
      ExplainedIsStory(setup, steps, worlds, n, id, session, w.server.answers[id]);
    }
    forall i | 0 <= i < |w.posts| && w.posts[i].body.Answer?
      ensures Story(setup, steps, worlds, w.posts[i].body.id, w.posts[i].session, w.posts[i].body.outcome)
    {
      assert PostExplained(setup, steps, worlds, n, w.posts[i]);
      ExplainedIsStory(setup, steps, worlds, n, w.posts[i].body.id, w.posts[i].session, w.posts[i].body.outcome);
    }
  }

  lemma {:induction false} IdsGrow(setup: Setup, steps: seq<Step>, worlds: seq<World>, i: nat, j: nat)
    requires Trace(setup, steps, worlds) && i <= j <= |steps|
    ensures worlds[i].server.nextId <= worlds[j].server.nextId
    decreases j
  {
    hide Receive, Start, Finish, Open, Close;
    if i < j {
      IdsGrow(setup, steps, worlds, i, j - 1);
      assert Follows(setup, steps, worlds, j - 1);
    }
  }

  /** One step issues an id, so a history tells of the one request that was made under it. */
  lemma IssuedOnce(setup: Setup, steps: seq<Step>, worlds: seq<World>, a: nat, b: nat, id: nat,
                   name: string, params: string, otherName: string, otherParams: string)
    requires Trace(setup, steps, worlds)
    requires IssuedAt(steps, worlds, a, id, name, params) && IssuedAt(steps, worlds, b, id, otherName, otherParams)
    ensures a == b && name == otherName && params == otherParams
  {
    if a < b {
      assert Follows(setup, steps, worlds, a);
      IdsGrow(setup, steps, worlds, a + 1, b);
    } else if b < a {
      assert Follows(setup, steps, worlds, b);
      IdsGrow(setup, steps, worlds, b + 1, a);
    }
  }

  // ---- announcements and closing ----

  function Total(setup: Setup, channels: seq<Channel>): nat {
    if channels == [] then 0 else |setup.announces(channels[0])| + Total(setup, channels[1..])
  }

  /** The place of a channel's notice among those of all channels. */
  function PlaceOf(setup: Setup, channels: seq<Channel>, i: nat, j: nat): nat
    requires i < |channels|
  {
    Total(setup, channels[..i]) + j
  }

  lemma {:induction false} NoticesAre(session: nat, notices: seq<Notice>)
    ensures |Notices(Some(session), notices)| == |notices|
    ensures forall j :: 0 <= j < |notices| ==>
      Notices(Some(session), notices)[j] == Post(session, Notification(notices[j]))
  {
    if notices != [] { NoticesAre(session, notices[1..]); }
  }

  lemma {:induction false} AnnouncementsCount(setup: Setup, session: nat, channels: seq<Channel>)
    ensures |Announcements(setup, Some(session), channels)| == Total(setup, channels)
  {
    if channels != [] {
      NoticesAre(session, setup.announces(channels[0]));
      AnnouncementsCount(setup, session, channels[1..]);
    }
  }

  lemma {:induction false} AnnouncedAt(setup: Setup, session: nat, channels: seq<Channel>, i: nat, j: nat)
    requires i < |channels| && j < |setup.announces(channels[i])|
    ensures var posts, at := Announcements(setup, Some(session), channels), PlaceOf(setup, channels, i, j);
      at < |posts| && posts[at] == Post(session, Notification(setup.announces(channels[i])[j]))
  {
    hide Notices;
    NoticesAre(session, setup.announces(channels[0]));
    if i > 0 {
      AnnouncedAt(setup, session, channels[1..], i - 1, j);
      assert channels[..i][1..] == channels[1..][..i - 1];
    }
  }

  /** Each open channel tells a new session all it announces, channel by channel, and nothing else is posted. */
  lemma ReadyAnnounces(setup: Setup, w: World, i: nat, j: nat)
    requires w.inbox != [] && w.inbox[0].Ready?
    requires i < |w.client.channels| && j < |setup.announces(w.client.channels[i])|
    ensures var w', session, notice := Next(setup, w, DoReceive), w.inbox[0].session, setup.announces(w.client.channels[i])[j];
      var at := |w.posts| + PlaceOf(setup, w.client.channels, i, j);
      w'.client.session == Some(session) && |w'.posts| == |w.posts| + Total(setup, w.client.channels) && w.posts <= w'.posts
      && at < |w'.posts| && w'.posts[at] == Post(session, Notification(notice))
      && Next(setup, w', DoDeliver(at)).server.announcements
        == w.server.announcements + if notice.name == "documents.open" then [notice] else []
  {
    hide Announcements, PlaceOf;
    AnnouncementsCount(setup, w.inbox[0].session, w.client.channels);
    AnnouncedAt(setup, w.inbox[0].session, w.client.channels, i, j);
  }

  /** A channel that closes leaves the others as they are; the last one takes stream, session and all queues with it. */
  lemma ClosedIsGone(setup: Setup, w: World, channel: Channel)
    requires channel in w.client.channels
    ensures var c, w' := w.client, Next(setup, w, DoClose(channel));
      var c' := w'.client;
      (forall other :: other in c'.channels <==> other in c.channels && other != channel)
      && c'.chains == c.chains && c'.readies == c.readies && w'.server == w.server && w'.posts == w.posts
      && if exists other :: other in c.channels && other != channel
         then c'.connected == c.connected && c'.session == c.session && w'.inbox == w.inbox && w'.lost == w.lost
              && Some(channel) !in c'.queues
              && forall x :: x != Some(channel) ==> (x in c'.queues <==> x in c.queues) && (x in c.queues ==> c'.queues[x] == c.queues[x])
         else !c'.connected && c'.session == None && c'.queues == map[] && (c.connected ==> w'.inbox == [])
  {
    hide CallIds;
    var rest := Remove(w.client.channels, channel);
    if rest != [] { assert rest[0] in rest; }
  }

  /** Opening adds a channel last, unless it is open, and connects or stays connected. */
  lemma OpenedIsOpen(setup: Setup, w: World, channel: Channel, connects: bool)
    ensures var c, w' := w.client, Next(setup, w, DoOpen(channel, connects));
      w'.client.channels == (if exists i :: 0 <= i < |c.channels| && c.channels[i] == channel then c.channels else c.channels + [channel])
      && (w'.client.connected <==> c.connected || connects)
      && w' == w.(client := c.(channels := w'.client.channels, connected := w'.client.connected))
  {
    assert channel in w.client.channels <==> exists i :: 0 <= i < |w.client.channels| && w.client.channels[i] == channel;
  }

  /** A notification goes to the session of the moment, or nowhere. */
  lemma NotifiedOnSession(setup: Setup, w: World, notice: Notice, session: nat)
    ensures var w' := Next(setup, w, DoNotify(notice));
      (w.client.session == Some(session) ==> w'.posts == w.posts + [Post(session, Notification(notice))])
      && (w.client.session == None ==> w'.posts == w.posts) && w' == w.(posts := w'.posts)
  {
  }

  /** What cannot be read is dropped. */
  lemma MalformedIsDropped(setup: Setup, w: World)
    requires w.inbox != [] && w.inbox[0].Malformed?
    ensures Next(setup, w, DoReceive) == w.(inbox := w.inbox[1..])
  {
    assert w.posts + [] == w.posts;
  }
}

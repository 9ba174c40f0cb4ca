/**
 The runtime bridge: the window's end (`src/services/runtimeBridge.ts`) and the runtime's
 end (`e2e/helpers/documentBridge.ts`), step by step. A promise chain is the list of jobs
 that wait on it and the one whose handler runs; a job also keeps the session and the number
 of `bridge.ready` messages when it arrived.
 */
module RuntimeBridge {
  import opened Options

  type Channel = nat
  datatype Notice = Notice(name: string, params: string)
  datatype Outcome = Result(value: string) | Failure(message: string)

  /** What the runtime sends: one event of the stream. */
  datatype Message = Malformed | Ready(session: nat) | Call(id: Option<nat>, name: string, params: string)
  /** What the window posts, on a session. */
  datatype Body = Answer(id: nat, outcome: Outcome) | Notification(notice: Notice)
  datatype Post = Post(session: nat, body: Body)

  datatype Job = Job(id: Option<nat>, name: string, params: string, channel: Option<Channel>, cameOn: Option<nat>,
                     readies: nat)
  datatype Running = Running(job: Job, replyTo: Option<nat>)
  datatype Done = Done(job: Job, replyTo: Option<nat>, outcome: Outcome)
  datatype Chain = Chain(done: seq<Done>, running: Option<Running>, waiting: seq<Job>)

  /** Which methods a channel answers, and what its `ready` sends. */
  datatype Setup = Setup(handles: (Channel, string) -> bool, announces: Channel -> seq<Notice>)

  datatype Client = Client(channels: seq<Channel>, queues: map<Option<Channel>, nat>, chains: seq<Chain>,
                           connected: bool, session: Option<nat>, readies: nat)

  const CLOSED := Client([], map[], [], false, None, 0)

  // ---- the window's end ----

  function FindChannel(setup: Setup, channels: seq<Channel>, name: string): (r: Option<Channel>)
    ensures r.Some? ==> r.value in channels && setup.handles(r.value, name)
    ensures r == None ==> forall c :: c in channels ==> !setup.handles(c, name)
  {
    if channels == [] then None
    else if setup.handles(channels[0], name) then Some(channels[0])
    else FindChannel(setup, channels[1..], name)
  }

  function Send(to: Option<nat>, body: Body): seq<Post> {
    if to == None then [] else [Post(to.value, body)]
  }

  function Notices(to: Option<nat>, notices: seq<Notice>): seq<Post> {
    if notices == [] then [] else Send(to, Notification(notices[0])) + Notices(to, notices[1..])
  }

  function Announcements(setup: Setup, to: Option<nat>, channels: seq<Channel>): seq<Post> {
    if channels == [] then [] else Notices(to, setup.announces(channels[0])) + Announcements(setup, to, channels[1..])
  }

  function JobOf(setup: Setup, c: Client, m: Message): Job
    requires m.Call?
  {
    Job(m.id, m.name, m.params, FindChannel(setup, c.channels, m.name), c.session, c.readies)
  }

  function Enqueue(c: Client, job: Job): Client {
    if job.channel in c.queues && c.queues[job.channel] < |c.chains| then
      var k := c.queues[job.channel];
      c.(chains := c.chains[k := c.chains[k].(waiting := c.chains[k].waiting + [job])])
    else
      c.(chains := c.chains + [Chain([], None, [job])], queues := c.queues[job.channel := |c.chains|])
  }

  function Receive(setup: Setup, c: Client, m: Message): (Client, seq<Post>) {
    match m
    case Malformed => (c, [])
    case Ready(s) => (c.(session := Some(s), readies := c.readies + 1), Announcements(setup, Some(s), c.channels))
    case Call(_, _, _) => (Enqueue(c, JobOf(setup, c, m)), [])
  }

  predicate CanStart(c: Client, k: nat) {
    k < |c.chains| && c.chains[k].running == None && c.chains[k].waiting != []
  }

  /** The first job of a chain starts: it will answer the session of this moment. */
  function Start(c: Client, k: nat): Client
    requires CanStart(c, k)
  {
    var chain := c.chains[k];
    c.(chains := c.chains[k := chain.(running := Some(Running(chain.waiting[0], c.session)), waiting := chain.waiting[1..])])
  }

  predicate CanFinish(c: Client, k: nat) { k < |c.chains| && c.chains[k].running.Some? }

  /** A request no channel answers fails, whatever else happens. */
  function Settled(job: Job, outcome: Outcome): Outcome {
    if job.channel == None then Failure("unknown bridge method " + job.name) else outcome
  }

  function Reply(job: Job, replyTo: Option<nat>, outcome: Outcome): seq<Post> {
    if job.id == None then [] else Send(replyTo, Answer(job.id.value, Settled(job, outcome)))
  }

  function Finish(c: Client, k: nat, outcome: Outcome): (Client, seq<Post>)
    requires CanFinish(c, k)
  {
    var chain := c.chains[k];
    var r := chain.running.value;
    (c.(chains := c.chains[k := chain.(done := chain.done + [Done(r.job, r.replyTo, Settled(r.job, outcome))], running := None)]),
     Reply(r.job, r.replyTo, outcome))
  }

  /** `connects`: whether the connection answers a stream. */
  function Open(c: Client, channel: Channel, connects: bool): Client {
    var channels := if channel in c.channels then c.channels else c.channels + [channel];
    c.(channels := channels, connected := c.connected || connects)
  }

  function Remove(channels: seq<Channel>, channel: Channel): (r: seq<Channel>)
    ensures forall c :: c in r <==> c in channels && c != channel
  {
    if channels == [] then []
    else if channels[0] == channel then Remove(channels[1..], channel)
    else [channels[0]] + Remove(channels[1..], channel)
  }

  function Close(c: Client, channel: Channel): Client {
    if channel !in c.channels then c
    else
      var channels := Remove(c.channels, channel);
      if channels != [] then c.(channels := channels, queues := c.queues - {Some(channel)})
      else c.(channels := [], queues := map[], connected := false, session := None)
  }

  // ---- the runtime's end ----

  datatype Server = Server(queue: seq<Message>, answers: map<nat, Outcome>, announcements: seq<Notice>, session: nat,
                           nextId: nat)

  const IDLE := Server([], map[], [], 0, 1)

  function Issue(s: Server, name: string, params: string): Server {
    s.(queue := s.queue + [Call(Some(s.nextId), name, params)], nextId := s.nextId + 1)
  }

  /** A stream is opened: it carries its session, then every request queued. */
  function Stream(s: Server): (Server, seq<Message>) {
    (s.(session := s.session + 1, queue := []), [Ready(s.session + 1)] + s.queue)
  }

  function Accept(s: Server, p: Post): Server {
    match p.body
    case Answer(id, outcome) => s.(answers := s.answers[id := outcome])
    case Notification(n) => if n.name == "documents.open" then s.(announcements := s.announcements + [n]) else s
  }

  // ---- both ends, with what is on its way between them ----

  /**
   `lost`: requests dropped with a closed stream, or finished with no session to answer.
   `streamed`: the requests that each stream carried, stream after stream.
   */
  datatype World = World(server: Server, client: Client, inbox: seq<Message>, posts: seq<Post>, lost: seq<nat>,
                         streamed: seq<nat>)

  const START := World(IDLE, CLOSED, [], [], [], [])

  datatype Step =
    | DoIssue(name: string, params: string)
    | DoStream
    | DoReceive
    | DoStart(chain: nat)
    | DoFinish(chain: nat, outcome: Outcome)
    | DoDeliver(index: nat)
    | DoOpen(channel: Channel, connects: bool)
    | DoClose(channel: Channel)
    | DoNotify(notice: Notice)

  predicate Enabled(w: World, step: Step) {
    match step
    case DoStream => w.client.connected
    case DoReceive => w.inbox != []
    case DoStart(k) => CanStart(w.client, k)
    case DoFinish(k, _) => CanFinish(w.client, k)
    case DoDeliver(i) => i < |w.posts|
    case _ => true
  }

  /** The request a finished job cannot answer: its handler started while there was no session. */
  function Unanswered(c: Client, k: nat): seq<nat>
    requires CanFinish(c, k)
  {
    var r := c.chains[k].running.value;
    if r.replyTo == None && r.job.id.Some? then [r.job.id.value] else []
  }

  function CallId(m: Message): seq<nat> {
    if m.Call? && m.id.Some? then [m.id.value] else []
  }

  function CallIds(s: seq<Message>): seq<nat> {
    if s == [] then [] else CallId(s[0]) + CallIds(s[1..])
  }

  function Next(setup: Setup, w: World, step: Step): World
    requires Enabled(w, step)
  {
    match step
    case DoIssue(name, params) => w.(server := Issue(w.server, name, params))
    case DoStream =>
      var (server, messages) := Stream(w.server);
      w.(server := server, inbox := w.inbox + messages, streamed := w.streamed + CallIds(messages))
    case DoReceive => var (client, posts) := Receive(setup, w.client, w.inbox[0]);
      w.(client := client, inbox := w.inbox[1..], posts := w.posts + posts)
    case DoStart(k) => w.(client := Start(w.client, k))
    case DoFinish(k, outcome) => var (client, posts) := Finish(w.client, k, outcome);
      w.(client := client, posts := w.posts + posts, lost := w.lost + Unanswered(w.client, k))
    case DoDeliver(i) => w.(server := Accept(w.server, w.posts[i]), posts := w.posts[..i] + w.posts[i + 1..])
    case DoOpen(channel, connects) => w.(client := Open(w.client, channel, connects))
    case DoClose(channel) =>
      var client := Close(w.client, channel);
      if w.client.connected && !client.connected then
        w.(client := client, inbox := [], lost := w.lost + CallIds(w.inbox))
      else w.(client := client)
    case DoNotify(n) => w.(posts := w.posts + Send(w.client.session, Notification(n)))
  }

  predicate Runs(setup: Setup, w: World, steps: seq<Step>)
    decreases |steps|
  {
    steps == [] || (Enabled(w, steps[0]) && Runs(setup, Next(setup, w, steps[0]), steps[1..]))
  }

  function After(setup: Setup, w: World, steps: seq<Step>): World
    requires Runs(setup, w, steps)
    decreases |steps|
  {
    if steps == [] then w else After(setup, Next(setup, w, steps[0]), steps[1..])
  }

  // ---- where the requests are ----

  function Flag(b: bool): nat { if b then 1 else 0 }

  function Occurs(s: seq<nat>, id: nat): nat {
    if s == [] then 0 else Flag(s[0] == id) + Occurs(s[1..], id)
  }

  function InJobs(s: seq<Job>, id: nat): nat {
    if s == [] then 0 else Flag(s[0].id == Some(id)) + InJobs(s[1..], id)
  }

  function InPosts(s: seq<Post>, id: nat): nat {
    if s == [] then 0 else Flag(s[0].body.Answer? && s[0].body.id == id) + InPosts(s[1..], id)
  }

  function InChain(chain: Chain, id: nat): nat {
    Flag(chain.running.Some? && chain.running.value.job.id == Some(id)) + InJobs(chain.waiting, id)
  }

  function InChains(s: seq<Chain>, id: nat): nat {
    if s == [] then 0 else InChain(s[0], id) + InChains(s[1..], id)
  }

  /** How many places hold request `id`: queued, on a stream, waiting or running, posted, answered, or lost. */
  function Places(w: World, id: nat): nat {
    Occurs(CallIds(w.server.queue), id) + Occurs(CallIds(w.inbox), id) + InChains(w.client.chains, id) + InPosts(w.posts, id)
    + Flag(id in w.server.answers) + Occurs(w.lost, id)
  }

  ghost predicate Conserved(w: World) {
    w.server.nextId >= 1 && forall id: nat :: Places(w, id) == Flag(1 <= id < w.server.nextId)
  }

  lemma {:induction false} OccursAppend(a: seq<nat>, b: seq<nat>, id: nat)
    ensures Occurs(a + b, id) == Occurs(a, id) + Occurs(b, id)
  {
    if a == [] {
      assert a + b == b;
    } else {
      OccursAppend(a[1..], b, id);
      assert (a + b)[1..] == a[1..] + b;
    }
  }

  lemma {:induction false} CallsAppend(a: seq<Message>, b: seq<Message>)
    ensures CallIds(a + b) == CallIds(a) + CallIds(b)
  {
    hide CallId;
    if a == [] {
      assert a + b == b;
    } else {
      CallsAppend(a[1..], b);
      assert (a + b)[1..] == a[1..] + b && (a + b)[0] == a[0];
      assert CallIds(a) == CallId(a[0]) + CallIds(a[1..]);
      assert CallIds(a + b) == CallId(a[0]) + CallIds(a[1..] + b);
    }
  }

  lemma CallsOccur(a: seq<Message>, b: seq<Message>, id: nat)
    ensures Occurs(CallIds(a + b), id) == Occurs(CallIds(a), id) + Occurs(CallIds(b), id)
  {
    CallsAppend(a, b);
    OccursAppend(CallIds(a), CallIds(b), id);
  }

  lemma {:induction false} JobsAppend(a: seq<Job>, b: seq<Job>, id: nat)
    ensures InJobs(a + b, id) == InJobs(a, id) + InJobs(b, id)
  {
    if a == [] {
      assert a + b == b;
    } else {
      JobsAppend(a[1..], b, id);
      assert (a + b)[1..] == a[1..] + b;
    }
  }

  lemma {:induction false} PostsAppend(a: seq<Post>, b: seq<Post>, id: nat)
    ensures InPosts(a + b, id) == InPosts(a, id) + InPosts(b, id)
  {
    if a == [] {
      assert a + b == b;
    } else {
      PostsAppend(a[1..], b, id);
      assert (a + b)[1..] == a[1..] + b;
    }
  }

  lemma PostsRemove(s: seq<Post>, i: nat, id: nat)
    requires i < |s|
    ensures InPosts(s, id) == InPosts(s[..i] + s[i + 1..], id) + InPosts([s[i]], id)
  {
    assert s == s[..i] + ([s[i]] + s[i + 1..]);
    PostsAppend(s[..i], [s[i]] + s[i + 1..], id);
    PostsAppend([s[i]], s[i + 1..], id);
    PostsAppend(s[..i], s[i + 1..], id);
  }

  lemma {:induction false} ChainsUpdate(s: seq<Chain>, k: nat, chain: Chain, id: nat)
    requires k < |s|
    ensures InChains(s[k := chain], id) + InChain(s[k], id) == InChains(s, id) + InChain(chain, id)
  {
    if k > 0 {
      ChainsUpdate(s[1..], k - 1, chain, id);
      assert s[k := chain][1..] == s[1..][k - 1 := chain];
    } else {
      assert s[k := chain][1..] == s[1..];
    }
  }

  lemma {:induction false} ChainsAppend(s: seq<Chain>, chain: Chain, id: nat)
    ensures InChains(s + [chain], id) == InChains(s, id) + InChain(chain, id)
  {
    if s == [] {
      assert s + [chain] == [chain];
    } else {
      ChainsAppend(s[1..], chain, id);
      assert (s + [chain])[1..] == s[1..] + [chain];
    }
  }

  lemma {:induction false} NoticesAnswerNothing(to: Option<nat>, notices: seq<Notice>, id: nat)
    ensures InPosts(Notices(to, notices), id) == 0
  {
    if notices != [] {
      NoticesAnswerNothing(to, notices[1..], id);
      PostsAppend(Send(to, Notification(notices[0])), Notices(to, notices[1..]), id);
    }
  }

  lemma {:induction false} AnnouncementsAnswerNothing(setup: Setup, to: Option<nat>, channels: seq<Channel>, id: nat)
    ensures InPosts(Announcements(setup, to, channels), id) == 0
  {
    if channels != [] {
      AnnouncementsAnswerNothing(setup, to, channels[1..], id);
      NoticesAnswerNothing(to, setup.announces(channels[0]), id);
      PostsAppend(Notices(to, setup.announces(channels[0])), Announcements(setup, to, channels[1..]), id);
    }
  }

  // ---- conservation ----

  lemma EnqueuePlaces(c: Client, job: Job, id: nat)
    ensures InChains(Enqueue(c, job).chains, id) == InChains(c.chains, id) + Flag(job.id == Some(id))
  {
    if job.channel in c.queues && c.queues[job.channel] < |c.chains| {
      var k := c.queues[job.channel];
      var chain := c.chains[k];
      JobsAppend(chain.waiting, [job], id);
      ChainsUpdate(c.chains, k, chain.(waiting := chain.waiting + [job]), id);
    } else {
      ChainsAppend(c.chains, Chain([], None, [job]), id);
      assert InJobs([job], id) == Flag(job.id == Some(id)) + InJobs([], id);
    }
  }

  lemma ReceivePlaces(setup: Setup, c: Client, m: Message, id: nat)
    ensures var r := Receive(setup, c, m);
      InChains(r.0.chains, id) + InPosts(r.1, id) == InChains(c.chains, id) + Occurs(CallIds([m]), id)
  {
    match m
    case Malformed =>
    case Ready(s) => AnnouncementsAnswerNothing(setup, Some(s), c.channels, id);
    case Call(_, _, _) => EnqueuePlaces(c, JobOf(setup, c, m), id);
  }

  lemma StartPlaces(c: Client, k: nat, id: nat)
    requires CanStart(c, k)
    ensures InChains(Start(c, k).chains, id) == InChains(c.chains, id)
  {
    var chain := c.chains[k];
    ChainsUpdate(c.chains, k, chain.(running := Some(Running(chain.waiting[0], c.session)), waiting := chain.waiting[1..]), id);
  }

  lemma FinishPlaces(c: Client, k: nat, outcome: Outcome, id: nat)
    requires CanFinish(c, k)
    ensures var r := Finish(c, k, outcome);
      InChains(r.0.chains, id) + InPosts(r.1, id) + Occurs(Unanswered(c, k), id) == InChains(c.chains, id)
  {
    var chain := c.chains[k];
    var r := chain.running.value;
    ChainsUpdate(c.chains, k, chain.(done := chain.done + [Done(r.job, r.replyTo, Settled(r.job, outcome))], running := None), id);
  }

  lemma OpenKeepsChains(c: Client, channel: Channel, connects: bool)
    ensures Open(c, channel, connects).chains == c.chains
  {
  }

  lemma CloseKeepsChains(c: Client, channel: Channel)
    ensures Close(c, channel).chains == c.chains
  {
  }

  lemma DeliverPlaces(w: World, i: nat, id: nat)
    requires i < |w.posts| && Conserved(w)
    ensures InPosts(w.posts, id) + Flag(id in w.server.answers)
      == InPosts(w.posts[..i] + w.posts[i + 1..], id) + Flag(id in Accept(w.server, w.posts[i]).answers)
  {
    PostsRemove(w.posts, i, id);
    var p := w.posts[i];
    if p.body.Answer? && p.body.id == id {
      assert Places(w, id) <= 1;
      assert InPosts([p], id) == 1;
    }
  }

  /**
   No request is ever in two places, or in none: queued, travelling, waiting, running, posted,
   answered and lost ones add up to the issued ones.
   */
  lemma StepConserves(setup: Setup, w: World, step: Step)
    requires Enabled(w, step) && Conserved(w)
    ensures Conserved(Next(setup, w, step))
  {
    forall id: nat ensures Places(Next(setup, w, step), id) == Flag(1 <= id < Next(setup, w, step).server.nextId) {
      assert Places(w, id) == Flag(1 <= id < w.server.nextId);
      StepPlaces(setup, w, step, id);
    }
  }

  lemma StepPlaces(setup: Setup, w: World, step: Step, id: nat)
    requires Enabled(w, step) && Conserved(w)
    ensures var w' := Next(setup, w, step);
      Places(w', id) == Places(w, id) + Flag(step.DoIssue? && id == w.server.nextId)
  {
    hide Receive, Start, Finish, Close, Open, Unanswered, InChains, InPosts, Conserved, CallIds, Occurs;
    match step
    case DoIssue(name, params) => IssuePlaces(w.server, name, params, id);
    case DoStream => StreamPlaces(w.server, w.inbox, id);
    case DoReceive =>
      ReceivePlaces(setup, w.client, w.inbox[0], id);
      CallsOccur([w.inbox[0]], w.inbox[1..], id);
      assert w.inbox == [w.inbox[0]] + w.inbox[1..];
      PostsAppend(w.posts, Receive(setup, w.client, w.inbox[0]).1, id);
    case DoStart(k) => StartPlaces(w.client, k, id);
    case DoFinish(k, outcome) =>
      FinishPlaces(w.client, k, outcome, id);
      PostsAppend(w.posts, Finish(w.client, k, outcome).1, id);
      OccursAppend(w.lost, Unanswered(w.client, k), id);
    case DoDeliver(i) => DeliverPlaces(w, i, id);
    case DoOpen(channel, connects) => OpenKeepsChains(w.client, channel, connects);
    case DoClose(channel) =>
      CloseKeepsChains(w.client, channel);
      NoneLeft(w.lost, w.inbox, id);
    case DoNotify(n) =>
      PostsAppend(w.posts, Send(w.client.session, Notification(n)), id);
      SendAnswersNothing(w.client.session, n, id);
  }

  lemma IssuePlaces(s: Server, name: string, params: string, id: nat)
    ensures Occurs(CallIds(Issue(s, name, params).queue), id) == Occurs(CallIds(s.queue), id) + Flag(id == s.nextId)
  {
    var call := [Call(Some(s.nextId), name, params)];
    CallsOccur(s.queue, call, id);
    assert CallIds(call) == [s.nextId] + CallIds([]);
  }

  lemma StreamPlaces(s: Server, inbox: seq<Message>, id: nat)
    ensures var r := Stream(s);
      Occurs(CallIds(r.0.queue), id) + Occurs(CallIds(inbox + r.1), id) == Occurs(CallIds(s.queue), id) + Occurs(CallIds(inbox), id)
  {
    hide CallIds, Occurs;
    var ready := [Ready(s.session + 1)];
    CallsOccur(inbox, ready + s.queue, id);
    CallsOccur(ready, s.queue, id);
    ReadyIsNoCall(s.session + 1, id);
  }

  lemma ReadyIsNoCall(session: nat, id: nat)
    ensures Occurs(CallIds([Ready(session)]), id) == 0 && Occurs(CallIds([]), id) == 0
  {
    assert CallIds([Ready(session)]) == [] + CallIds([]);
  }

  lemma NoneLeft(lost: seq<nat>, inbox: seq<Message>, id: nat)
    ensures Occurs(lost + CallIds(inbox), id) == Occurs(lost, id) + Occurs(CallIds(inbox), id)
    ensures Occurs(CallIds([]), id) == 0
  {
    OccursAppend(lost, CallIds(inbox), id);
  }

  lemma SendAnswersNothing(to: Option<nat>, n: Notice, id: nat)
    ensures InPosts(Send(to, Notification(n)), id) == 0
  {
  }

  lemma StartConserved()
    ensures Conserved(START)
  {
  }

  lemma {:induction false} RunConserves(setup: Setup, w: World, steps: seq<Step>)
    requires Runs(setup, w, steps) && Conserved(w)
    ensures Conserved(After(setup, w, steps))
    decreases |steps|
  {
    hide Conserved, Next;
    if steps != [] {
      StepConserves(setup, w, steps[0]);
      RunConserves(setup, Next(setup, w, steps[0]), steps[1..]);
    }
  }

  // ---- nothing is lost while a channel stays open ----

  /** The step leaves the stream open: it does not close the last channel. */
  predicate StaysOpen(w: World, step: Step) {
    step.DoClose? ==> Close(w.client, step.channel).connected == w.client.connected
  }

  predicate OpenRun(setup: Setup, w: World, steps: seq<Step>)
    decreases |steps|
  {
    steps == [] || (Enabled(w, steps[0]) && StaysOpen(w, steps[0]) && OpenRun(setup, Next(setup, w, steps[0]), steps[1..]))
  }

  /** The sessions a stream brings, after the one the window has. */
  predicate Fresh(inbox: seq<Message>, session: nat, last: nat)
    decreases |inbox|
  {
    if inbox == [] then session <= last
    else match inbox[0]
      case Malformed => false
      case Ready(s) => session < s && Fresh(inbox[1..], s, last)
      case Call(_, _, _) => session > 0 && Fresh(inbox[1..], session, last)
  }

  function SessionNumber(session: Option<nat>): nat { if session == None then 0 else session.value }

  /** A job that arrived on a ready stream, on the session of its time. */
  predicate Timely(c: Client, job: Job) {
    && job.cameOn.Some? && 0 < job.cameOn.value <= SessionNumber(c.session)
    && job.readies <= c.readies
    && (job.readies == c.readies <==> job.cameOn == c.session)
  }

  predicate ChainTimely(c: Client, chain: Chain) {
    && (forall i :: 0 <= i < |chain.waiting| ==> Timely(c, chain.waiting[i]))
    && (chain.running.Some? ==> chain.running.value.replyTo.Some? && Timely(c, chain.running.value.job))
  }

  ghost predicate Awake(w: World) {
    && Fresh(w.inbox, SessionNumber(w.client.session), w.server.session)
    && (w.client.session.Some? ==> w.client.session.value > 0)
    && (forall k :: 0 <= k < |w.client.chains| ==> ChainTimely(w.client, w.client.chains[k]))
    && (forall i :: 0 <= i < |w.server.queue| ==> w.server.queue[i].Call?)
    && (!w.client.connected ==> w.inbox == [] && w.client.session == None)
    && w.lost == []
  }

  lemma {:induction false} FreshAppend(inbox: seq<Message>, session: nat, last: nat, calls: seq<Message>)
    requires Fresh(inbox, session, last) && forall i :: 0 <= i < |calls| ==> calls[i].Call?
    ensures Fresh(inbox + [Ready(last + 1)] + calls, session, last + 1)
    decreases |inbox|
  {
    var more := inbox + [Ready(last + 1)] + calls;
    if inbox == [] {
      assert more[1..] == calls;
      FreshCalls(calls, last + 1);
    } else {
      assert more[1..] == inbox[1..] + [Ready(last + 1)] + calls;
      FreshAppend(inbox[1..], if inbox[0].Ready? then inbox[0].session else session, last, calls);
    }
  }

  lemma {:induction false} FreshCalls(calls: seq<Message>, session: nat)
    requires session > 0 && forall i :: 0 <= i < |calls| ==> calls[i].Call?
    ensures Fresh(calls, session, session)
  {
    if calls != [] { FreshCalls(calls[1..], session); }
  }

  lemma ReadyKeepsTimely(c: Client, s: nat)
    requires SessionNumber(c.session) < s
    requires forall k :: 0 <= k < |c.chains| ==> ChainTimely(c, c.chains[k])
    ensures forall k :: 0 <= k < |c.chains| ==>
      ChainTimely(c.(session := Some(s), readies := c.readies + 1), c.chains[k])
  {
    var c' := c.(session := Some(s), readies := c.readies + 1);
    forall k | 0 <= k < |c.chains| ensures ChainTimely(c', c.chains[k]) {
      assert ChainTimely(c, c.chains[k]);
      forall job | Timely(c, job) ensures Timely(c', job) {}
    }
  }

  lemma CallKeepsTimely(c: Client, job: Job)
    requires forall k :: 0 <= k < |c.chains| ==> ChainTimely(c, c.chains[k])
    requires Timely(c, job)
    ensures var c' := Enqueue(c, job); forall k :: 0 <= k < |c'.chains| ==> ChainTimely(c', c'.chains[k])
  {
    var c' := Enqueue(c, job);
    forall k | 0 <= k < |c'.chains| ensures ChainTimely(c', c'.chains[k]) {
      if k < |c.chains| { assert ChainTimely(c, c.chains[k]); }
    }
  }

  lemma SameTimes(c: Client, c': Client)
    requires c'.session == c.session && c'.readies == c.readies
    requires forall k :: 0 <= k < |c.chains| ==> ChainTimely(c, c.chains[k])
    ensures forall chain :: ChainTimely(c, chain) ==> ChainTimely(c', chain)
  {
  }

  lemma StepStaysAwake(setup: Setup, w: World, step: Step)
    requires Enabled(w, step) && StaysOpen(w, step) && Awake(w)
    ensures Awake(Next(setup, w, step))
  {
    match step
    case DoStream =>
      FreshAppend(w.inbox, SessionNumber(w.client.session), w.server.session, w.server.queue);
      assert w.inbox + ([Ready(w.server.session + 1)] + w.server.queue) == w.inbox + [Ready(w.server.session + 1)] + w.server.queue;
    case DoReceive => ReceiveStaysAwake(setup, w);
    case DoStart(k) => StartStaysAwake(w, k);
    case DoFinish(k, outcome) => FinishStaysAwake(setup, w, k, outcome);
    case DoClose(channel) => CloseStaysAwake(setup, w, channel);
    case DoOpen(channel, connects) => SameTimes(w.client, Open(w.client, channel, connects));
    case _ =>
  }

  lemma ReceiveStaysAwake(setup: Setup, w: World)
    requires w.inbox != [] && Awake(w)
    ensures Awake(Next(setup, w, DoReceive))
  {
    var m := w.inbox[0];
    if m.Ready? {
      ReadyKeepsTimely(w.client, m.session);
    } else {
      CallKeepsTimely(w.client, JobOf(setup, w.client, m));
    }
  }

  lemma StartStaysAwake(w: World, k: nat)
    requires CanStart(w.client, k) && Awake(w)
    ensures Awake(w.(client := Start(w.client, k)))
  {
    var c, c' := w.client, Start(w.client, k);
    assert ChainTimely(c, c.chains[k]);
    assert Timely(c, c.chains[k].waiting[0]);
    forall j | 0 <= j < |c'.chains| ensures ChainTimely(c', c'.chains[j]) {
      assert ChainTimely(c, c.chains[j]);
    }
  }

  lemma FinishStaysAwake(setup: Setup, w: World, k: nat, outcome: Outcome)
    requires CanFinish(w.client, k) && Awake(w)
    ensures Awake(Next(setup, w, DoFinish(k, outcome)))
  {
    var c, c' := w.client, Finish(w.client, k, outcome).0;
    assert ChainTimely(c, c.chains[k]);
    forall j | 0 <= j < |c'.chains| ensures ChainTimely(c', c'.chains[j]) {
      assert ChainTimely(c, c.chains[j]);
    }
  }

  lemma CloseStaysAwake(setup: Setup, w: World, channel: Channel)
    requires StaysOpen(w, DoClose(channel)) && Awake(w)
    ensures Awake(Next(setup, w, DoClose(channel)))
  {
    var c, c' := w.client, Close(w.client, channel);
    assert c'.session == c.session;
    SameTimes(c, c');
    CloseKeepsChains(c, channel);
  }

  lemma {:induction false} OpenRunStaysAwake(setup: Setup, w: World, steps: seq<Step>)
    requires OpenRun(setup, w, steps) && Awake(w)
    ensures Runs(setup, w, steps) && Awake(After(setup, w, steps))
    decreases |steps|
  {
    hide Awake, Next;
    if steps != [] {
      StepStaysAwake(setup, w, steps[0]);
      OpenRunStaysAwake(setup, Next(setup, w, steps[0]), steps[1..]);
    }
  }

  // ---- handled once ----

  function InDone(s: seq<Done>, id: nat): nat {
    if s == [] then 0 else Flag(s[0].job.id == Some(id)) + InDone(s[1..], id)
  }

  /** How many handlers have ended for request `id`. */
  function Ended(s: seq<Chain>, id: nat): nat {
    if s == [] then 0 else InDone(s[0].done, id) + Ended(s[1..], id)
  }

  /** Each handler that ended has its one answer, posted or filed, and nothing else is an answer. */
  ghost predicate Balanced(w: World) {
    forall id: nat :: Ended(w.client.chains, id) == InPosts(w.posts, id) + Flag(id in w.server.answers)
  }

  lemma {:induction false} DoneAppend(a: seq<Done>, b: seq<Done>, id: nat)
    ensures InDone(a + b, id) == InDone(a, id) + InDone(b, id)
  {
    if a == [] {
      assert a + b == b;
    } else {
      DoneAppend(a[1..], b, id);
      assert (a + b)[1..] == a[1..] + b;
    }
  }

  lemma {:induction false} EndedUpdate(s: seq<Chain>, k: nat, chain: Chain, id: nat)
    requires k < |s|
    ensures Ended(s[k := chain], id) + InDone(s[k].done, id) == Ended(s, id) + InDone(chain.done, id)
  {
    if k > 0 {
      EndedUpdate(s[1..], k - 1, chain, id);
      assert s[k := chain][1..] == s[1..][k - 1 := chain];
    } else {
      assert s[k := chain][1..] == s[1..];
    }
  }

  lemma {:induction false} EndedAppend(s: seq<Chain>, chain: Chain, id: nat)
    ensures Ended(s + [chain], id) == Ended(s, id) + InDone(chain.done, id)
  {
    if s == [] {
      assert s + [chain] == [chain];
    } else {
      EndedAppend(s[1..], chain, id);
      assert (s + [chain])[1..] == s[1..] + [chain];
    }
  }

  lemma ReceiveEndsNothing(setup: Setup, c: Client, m: Message, id: nat)
    ensures Ended(Receive(setup, c, m).0.chains, id) == Ended(c.chains, id)
    ensures InPosts(Receive(setup, c, m).1, id) == 0
  {
    match m
    case Malformed =>
    case Ready(s) => AnnouncementsAnswerNothing(setup, Some(s), c.channels, id);
    case Call(_, _, _) =>
      var job := JobOf(setup, c, m);
      if job.channel in c.queues && c.queues[job.channel] < |c.chains| {
        var k := c.queues[job.channel];
        EndedUpdate(c.chains, k, c.chains[k].(waiting := c.chains[k].waiting + [job]), id);
      } else {
        EndedAppend(c.chains, Chain([], None, [job]), id);
      }
  }

  lemma StartEndsNothing(c: Client, k: nat, id: nat)
    requires CanStart(c, k)
    ensures Ended(Start(c, k).chains, id) == Ended(c.chains, id)
  {
    var chain := c.chains[k];
    EndedUpdate(c.chains, k, chain.(running := Some(Running(chain.waiting[0], c.session)), waiting := chain.waiting[1..]), id);
  }

  lemma FinishEndsOne(c: Client, k: nat, outcome: Outcome, id: nat)
    requires CanFinish(c, k) && c.chains[k].running.value.replyTo.Some?
    ensures var r := Finish(c, k, outcome);
      Ended(r.0.chains, id) == Ended(c.chains, id) + InPosts(r.1, id)
  {
    var chain := c.chains[k];
    var r := chain.running.value;
    var done := Done(r.job, r.replyTo, Settled(r.job, outcome));
    DoneAppend(chain.done, [done], id);
    EndedUpdate(c.chains, k, chain.(done := chain.done + [done], running := None), id);
    assert InDone([done], id) == Flag(r.job.id == Some(id)) + InDone([], id);
  }

  lemma StepStaysBalanced(setup: Setup, w: World, step: Step)
    requires Enabled(w, step) && Awake(w) && Conserved(w) && Balanced(w)
    ensures Balanced(Next(setup, w, step))
  {
    forall id: nat ensures var w' := Next(setup, w, step);
      Ended(w'.client.chains, id) == InPosts(w'.posts, id) + Flag(id in w'.server.answers)
    {
      assert Ended(w.client.chains, id) == InPosts(w.posts, id) + Flag(id in w.server.answers);
      StepBalances(setup, w, step, id);
    }
  }

  lemma StepBalances(setup: Setup, w: World, step: Step, id: nat)
    requires Enabled(w, step) && Awake(w) && Conserved(w)
    requires Ended(w.client.chains, id) == InPosts(w.posts, id) + Flag(id in w.server.answers)
    ensures var w' := Next(setup, w, step);
      Ended(w'.client.chains, id) == InPosts(w'.posts, id) + Flag(id in w'.server.answers)
  {
    hide Receive, Start, Finish, Close, Open, Ended, InPosts, Conserved, CallIds, Unanswered;
    match step
    case DoReceive =>
      ReceiveEndsNothing(setup, w.client, w.inbox[0], id);
      PostsAppend(w.posts, Receive(setup, w.client, w.inbox[0]).1, id);
    case DoStart(k) => StartEndsNothing(w.client, k, id);
    case DoFinish(k, outcome) =>
      assert ChainTimely(w.client, w.client.chains[k]);
      FinishEndsOne(w.client, k, outcome, id);
      PostsAppend(w.posts, Finish(w.client, k, outcome).1, id);
    case DoDeliver(i) => DeliverPlaces(w, i, id);
    case DoOpen(channel, connects) => OpenKeepsChains(w.client, channel, connects);
    case DoClose(channel) => CloseKeepsChains(w.client, channel);
    case DoNotify(n) =>
      PostsAppend(w.posts, Send(w.client.session, Notification(n)), id);
      SendAnswersNothing(w.client.session, n, id);
    case _ =>
  }

  lemma {:induction false} OpenRunStaysBalanced(setup: Setup, w: World, steps: seq<Step>)
    requires OpenRun(setup, w, steps) && Awake(w) && Conserved(w) && Balanced(w)
    ensures Runs(setup, w, steps) && Balanced(After(setup, w, steps))
    decreases |steps|
  {
    hide Awake, Next, Conserved, Balanced;
    if steps != [] {
      StepStaysAwake(setup, w, steps[0]);
      StepConserves(setup, w, steps[0]);
      StepStaysBalanced(setup, w, steps[0]);
      OpenRunStaysBalanced(setup, Next(setup, w, steps[0]), steps[1..]);
    }
  }

  lemma {:induction false} DoneCounts(s: seq<Done>, j: nat, id: nat)
    requires j < |s| && s[j].job.id == Some(id)
    ensures InDone(s, id) >= 1
  {
    if j > 0 { DoneCounts(s[1..], j - 1, id); }
  }

  lemma {:induction false} DoneCountsTwice(s: seq<Done>, i: nat, j: nat, id: nat)
    requires i < j < |s| && s[i].job.id == Some(id) && s[j].job.id == Some(id)
    ensures InDone(s, id) >= 2
  {
    if i > 0 { DoneCountsTwice(s[1..], i - 1, j - 1, id); } else { DoneCounts(s[1..], j - 1, id); }
  }

  predicate EndedAt(s: seq<Chain>, k: nat, j: nat, id: nat) {
    k < |s| && j < |s[k].done| && s[k].done[j].job.id == Some(id)
  }

  lemma {:induction false} EndedCounts(s: seq<Chain>, k: nat, j: nat, id: nat)
    requires EndedAt(s, k, j, id)
    ensures Ended(s, id) >= 1
  {
    if k > 0 { EndedCounts(s[1..], k - 1, j, id); } else { DoneCounts(s[0].done, j, id); }
  }

  /** A request for which one handler ended has one place among the ended ones. */
  lemma {:induction false} EndedOnceIsOne(s: seq<Chain>, k: nat, j: nat, k': nat, j': nat, id: nat)
    requires EndedAt(s, k, j, id) && EndedAt(s, k', j', id) && Ended(s, id) == 1
    ensures k == k' && j == j'
  {
    if k > 0 && k' > 0 {
      EndedCounts(s[1..], k - 1, j, id);
      EndedOnceIsOne(s[1..], k - 1, j, k' - 1, j', id);
    } else if k > 0 {
      EndedCounts(s[1..], k - 1, j, id);
      DoneCounts(s[0].done, j', id);
    } else if k' > 0 {
      EndedCounts(s[1..], k' - 1, j', id);
      DoneCounts(s[0].done, j, id);
    } else if j < j' {
      DoneCountsTwice(s[0].done, j, j', id);
    } else if j' < j {
      DoneCountsTwice(s[0].done, j', j, id);
    }
  }

  /** One handler ended for `id`, and `outcome` is how. */
  ghost predicate ConcludedOnce(chains: seq<Chain>, id: nat, outcome: Outcome) {
    Ended(chains, id) == 1 && Concluded(chains, id, outcome)
    && forall k: nat, j: nat :: EndedAt(chains, k, j, id) ==> chains[k].done[j].outcome == outcome
  }

  lemma OnceConcluded(chains: seq<Chain>, id: nat, outcome: Outcome)
    requires Ended(chains, id) == 1 && Concluded(chains, id, outcome)
    ensures ConcludedOnce(chains, id, outcome)
  {
    var k, j :| 0 <= k < |chains| && 0 <= j < |chains[k].done| && chains[k].done[j].job.id == Some(id) && chains[k].done[j].outcome == outcome;
    forall k': nat, j': nat | EndedAt(chains, k', j', id) ensures chains[k'].done[j'].outcome == outcome {
      EndedOnceIsOne(chains, k, j, k', j', id);
    }
  }

  lemma {:induction false} PostCounts(posts: seq<Post>, i: nat)
    requires i < |posts| && posts[i].body.Answer?
    ensures InPosts(posts, posts[i].body.id) >= 1
  {
    if i > 0 { PostCounts(posts[1..], i - 1); }
  }

  // ---- delivered on one stream ----

  /** Each issued request is queued, or was carried once, by one stream. */
  ghost predicate StreamedOnce(w: World) {
    forall id: nat :: Occurs(w.streamed, id) + Occurs(CallIds(w.server.queue), id) == Flag(1 <= id < w.server.nextId)
  }

  lemma StepStreamsOnce(setup: Setup, w: World, step: Step)
    requires Enabled(w, step) && w.server.nextId >= 1 && StreamedOnce(w)
    ensures StreamedOnce(Next(setup, w, step)) && Next(setup, w, step).server.nextId >= 1
  {
    hide Receive, Start, Finish, Close, Open, Unanswered, CallIds, Occurs;
    var w' := Next(setup, w, step);
    forall id: nat ensures Occurs(w'.streamed, id) + Occurs(CallIds(w'.server.queue), id) == Flag(1 <= id < w'.server.nextId) {
      assert Occurs(w.streamed, id) + Occurs(CallIds(w.server.queue), id) == Flag(1 <= id < w.server.nextId);
      if step.DoIssue? {
        IssuePlaces(w.server, step.name, step.params, id);
      } else if step.DoStream? {
        var ready := [Ready(w.server.session + 1)];
        OccursAppend(w.streamed, CallIds(ready + w.server.queue), id);
        CallsOccur(ready, w.server.queue, id);
        ReadyIsNoCall(w.server.session + 1, id);
      }
    }
  }

  lemma {:induction false} RunStreamsOnce(setup: Setup, w: World, steps: seq<Step>)
    requires Runs(setup, w, steps) && w.server.nextId >= 1 && StreamedOnce(w)
    ensures StreamedOnce(After(setup, w, steps))
    decreases |steps|
  {
    hide StreamedOnce, Next;
    if steps != [] {
      StepStreamsOnce(setup, w, steps[0]);
      RunStreamsOnce(setup, Next(setup, w, steps[0]), steps[1..]);
    }
  }

  /** Request `id` after a run that stayed open: how often it was delivered and handled, and what became of it. */
  ghost predicate ServedOnce(w: World, id: nat) {
    var issued := Flag(1 <= id < w.server.nextId);
    && Places(w, id) == issued
    && Occurs(w.streamed, id) + Occurs(CallIds(w.server.queue), id) == issued
    && Ended(w.client.chains, id) == InPosts(w.posts, id) + Flag(id in w.server.answers)
    && InChains(w.client.chains, id) + Ended(w.client.chains, id) <= Occurs(w.streamed, id)
    && (id in w.server.answers ==> ConcludedOnce(w.client.chains, id, w.server.answers[id]))
  }

  /** Request `id` is filed, and was carried and handled once, if it was issued; otherwise it is not. */
  predicate AnsweredOnce(w: World, id: nat) {
    var issued := Flag(1 <= id < w.server.nextId);
    Flag(id in w.server.answers) == issued && Occurs(w.streamed, id) == issued && Ended(w.client.chains, id) == issued
  }

  /**
   The bridge end to end: over any run from the start, with any number of reconnects,
   that never closes the last channel, each issued request is in exactly one place, was
   carried by at most one stream and taken up at most once, and every answer, posted or
   filed, is how the only handler of its request ended. Once nothing is under way, each
   issued request was carried once, handled once and answered under its own id.
   */
  lemma EveryRequestIsAnsweredOnce(setup: Setup, steps: seq<Step>)
    requires OpenRun(setup, START, steps)
    ensures Runs(setup, START, steps)
    ensures var w := After(setup, START, steps);
      w.lost == [] && (forall id: nat :: ServedOnce(w, id))
      && (forall i :: 0 <= i < |w.posts| && w.posts[i].body.Answer? ==> ConcludedOnce(w.client.chains, w.posts[i].body.id, w.posts[i].body.outcome))
      && (Idle(w) ==> forall id: nat :: AnsweredOnce(w, id))
  {
    hide Next, ConcludedOnce, Concluded;
    OpenRunStaysAwake(setup, START, steps);
    StartConserved();
    RunConserves(setup, START, steps);
    AnswersAreTruthful(setup, START, steps);
    OpenRunStaysBalanced(setup, START, steps);
    RunStreamsOnce(setup, START, steps);
    var w := After(setup, START, steps);
    forall id: nat ensures ServedOnce(w, id) {
      assert Places(w, id) == Flag(1 <= id < w.server.nextId);
      assert Ended(w.client.chains, id) == InPosts(w.posts, id) + Flag(id in w.server.answers);
      if id in w.server.answers { OnceConcluded(w.client.chains, id, w.server.answers[id]); }
    }
    forall i | 0 <= i < |w.posts| && w.posts[i].body.Answer?
      ensures ConcludedOnce(w.client.chains, w.posts[i].body.id, w.posts[i].body.outcome)
    {
      assert ServedOnce(w, w.posts[i].body.id);
      PostCounts(w.posts, i);
      OnceConcluded(w.client.chains, w.posts[i].body.id, w.posts[i].body.outcome);
    }
    if Idle(w) {
      forall id: nat ensures AnsweredOnce(w, id) {
        QuietHoldsNothing(w.client.chains, id);
        assert ServedOnce(w, id);
      }
    }
  }

  predicate Empty(chain: Chain) { chain.running == None && chain.waiting == [] }

  /** Nothing is queued, travelling, waiting or running. */
  predicate Idle(w: World) {
    w.server.queue == [] && w.inbox == [] && w.posts == [] && forall k :: 0 <= k < |w.client.chains| ==> Empty(w.client.chains[k])
  }

  lemma {:induction false} QuietHoldsNothing(s: seq<Chain>, id: nat)
    requires forall k :: 0 <= k < |s| ==> Empty(s[k])
    ensures InChains(s, id) == 0
  {
    if s != [] { QuietHoldsNothing(s[1..], id); }
  }

  // ---- the session of an answer ----

  /**
   An answer goes to the session of the moment its handler started. That is the session
   its request came on exactly when no other stream became ready in between.
   */
  lemma AnswersOwnSession(setup: Setup, steps: seq<Step>, k: nat)
    requires OpenRun(setup, START, steps)
    ensures Runs(setup, START, steps)
    ensures var c := After(setup, START, steps).client;
      CanStart(c, k) ==> var r := Start(c, k).chains[k].running.value;
        r.job == c.chains[k].waiting[0] && r.replyTo == c.session && r.replyTo.Some?
        && (r.replyTo == r.job.cameOn <==> r.job.readies == c.readies)
  {
    hide Next;
    OpenRunStaysAwake(setup, START, steps);
    var c := After(setup, START, steps).client;
    if CanStart(c, k) {
      assert ChainTimely(c, c.chains[k]);
      assert Timely(c, c.chains[k].waiting[0]);
    }
  }

  /** A request that came on session 1, was held up, and is answered on session 2. */
  lemma AnswersLaterSession(setup: Setup)
    requires setup.handles(0, "kit/call") && setup.announces(0) == []
    ensures var steps := [DoOpen(0, true), DoIssue("kit/call", ""), DoStream, DoReceive, DoReceive, DoStream, DoReceive];
      OpenRun(setup, START, steps) && Runs(setup, START, steps)
      && var c := After(setup, START, steps).client;
        CanStart(c, 0) && var r := Start(c, 0).chains[0].running.value; r.job.cameOn == Some(1) && r.replyTo == Some(2)
  {
    hide Next, After, OpenRun, Runs, FindChannel, StaysOpen, CanStart, Start;
    var w1, w2 := Asked(setup);
    var w3, w4 := OnSessionOne(setup, w2);
    HeldUp(setup, w4);
    var last := [DoReceive, DoStream, DoReceive];
    OpenCons(setup, w3, DoReceive, last);
    OpenCons(setup, w2, DoStream, [DoReceive] + last);
    OpenCons(setup, w1, DoIssue("kit/call", ""), [DoStream] + ([DoReceive] + last));
    OpenCons(setup, START, DoOpen(0, true), [DoIssue("kit/call", "")] + ([DoStream] + ([DoReceive] + last)));
    assert [DoOpen(0, true), DoIssue("kit/call", ""), DoStream, DoReceive, DoReceive, DoStream, DoReceive]
        == [DoOpen(0, true)] + ([DoIssue("kit/call", "")] + ([DoStream] + ([DoReceive] + last)));
  }

  /** A channel opens, and the runtime asks it something. */
  lemma Asked(setup: Setup) returns (w1: World, w2: World)
    ensures Enabled(START, DoOpen(0, true)) && StaysOpen(START, DoOpen(0, true)) && w1 == Next(setup, START, DoOpen(0, true))
    ensures Enabled(w1, DoIssue("kit/call", "")) && StaysOpen(w1, DoIssue("kit/call", ""))
    ensures w2 == Next(setup, w1, DoIssue("kit/call", ""))
    ensures w2.client == Client([0], map[], [], true, None, 0) && w2.server.queue == [Call(Some(1), "kit/call", "")]
    ensures w2.server.session == 0 && w2.inbox == [] && w2.posts == []
  {
    w1 := Next(setup, START, DoOpen(0, true));
    w2 := Next(setup, w1, DoIssue("kit/call", ""));
  }

  /** The stream of session 1 carries the request. */
  lemma OnSessionOne(setup: Setup, w2: World) returns (w3: World, w4: World)
    requires setup.announces(0) == []
    requires w2.client == Client([0], map[], [], true, None, 0) && w2.server.queue == [Call(Some(1), "kit/call", "")]
    requires w2.server.session == 0 && w2.inbox == [] && w2.posts == []
    ensures Enabled(w2, DoStream) && StaysOpen(w2, DoStream) && w3 == Next(setup, w2, DoStream)
    ensures Enabled(w3, DoReceive) && StaysOpen(w3, DoReceive) && w4 == Next(setup, w3, DoReceive)
    ensures w4.client == Client([0], map[], [], true, Some(1), 1) && w4.inbox == [Call(Some(1), "kit/call", "")]
    ensures w4.server.queue == [] && w4.server.session == 1
  {
    hide CallIds;
    w3 := Next(setup, w2, DoStream);
    w4 := Next(setup, w3, DoReceive);
  }

  /** The request arrives on session 1, and then a stream of session 2. */
  lemma HeldUp(setup: Setup, w: World)
    requires setup.handles(0, "kit/call") && setup.announces(0) == []
    requires w.client == Client([0], map[], [], true, Some(1), 1) && w.inbox == [Call(Some(1), "kit/call", "")]
    requires w.server.queue == [] && w.server.session == 1
    ensures OpenRun(setup, w, [DoReceive, DoStream, DoReceive]) && Runs(setup, w, [DoReceive, DoStream, DoReceive])
    ensures var c := After(setup, w, [DoReceive, DoStream, DoReceive]).client;
      CanStart(c, 0) && var r := Start(c, 0).chains[0].running.value; r.job.cameOn == Some(1) && r.replyTo == Some(2)
  {
    var w5 := Next(setup, w, DoReceive);
    var w6 := Next(setup, w5, DoStream);
    assert w6.inbox == [Ready(2)];
    var w7 := Next(setup, w6, DoReceive);
    OpenCons(setup, w6, DoReceive, []);
    OpenCons(setup, w5, DoStream, [DoReceive]);
    OpenCons(setup, w, DoReceive, [DoStream, DoReceive]);
  }

  lemma OpenCons(setup: Setup, w: World, step: Step, steps: seq<Step>)
    requires Enabled(w, step) && StaysOpen(w, step)
    requires OpenRun(setup, Next(setup, w, step), steps) && Runs(setup, Next(setup, w, step), steps)
    ensures OpenRun(setup, w, [step] + steps) && Runs(setup, w, [step] + steps)
    ensures After(setup, w, [step] + steps) == After(setup, Next(setup, w, step), steps)
  {
    hide Next;
    assert ([step] + steps)[1..] == steps;
  }

  // ---- what is filed is what the handler answered ----

  predicate Concluded(chains: seq<Chain>, id: nat, outcome: Outcome) {
    exists k, j :: 0 <= k < |chains| && 0 <= j < |chains[k].done|
      && chains[k].done[j].job.id == Some(id) && chains[k].done[j].outcome == outcome
  }

  ghost predicate Truthful(w: World) {
    && (forall id :: id in w.server.answers ==> Concluded(w.client.chains, id, w.server.answers[id]))
    && (forall i :: 0 <= i < |w.posts| && w.posts[i].body.Answer? ==> Concluded(w.client.chains, w.posts[i].body.id, w.posts[i].body.outcome))
  }

  /** Chains only gain finished jobs. */
  predicate Grew(a: seq<Chain>, b: seq<Chain>) {
    |a| <= |b| && forall k :: 0 <= k < |a| ==> a[k].done <= b[k].done
  }

  lemma GrewConcluded(a: seq<Chain>, b: seq<Chain>)
    requires Grew(a, b)
    ensures forall id: nat, outcome :: Concluded(a, id, outcome) ==> Concluded(b, id, outcome)
  {
    forall id: nat, outcome | Concluded(a, id, outcome) ensures Concluded(b, id, outcome) {
      var k, j :| 0 <= k < |a| && 0 <= j < |a[k].done| && a[k].done[j].job.id == Some(id) && a[k].done[j].outcome == outcome;
      assert b[k].done[j] == a[k].done[j];
    }
  }

  lemma StepGrows(setup: Setup, w: World, step: Step)
    requires Enabled(w, step)
    ensures Grew(w.client.chains, Next(setup, w, step).client.chains)
  {
    match step
    case DoOpen(channel, connects) => OpenKeepsChains(w.client, channel, connects);
    case DoClose(channel) => CloseKeepsChains(w.client, channel);
    case _ =>
  }

  lemma {:induction false} NoticesAreNoAnswers(to: Option<nat>, notices: seq<Notice>)
    ensures forall i :: 0 <= i < |Notices(to, notices)| ==> !Notices(to, notices)[i].body.Answer?
  {
    if notices != [] { NoticesAreNoAnswers(to, notices[1..]); }
  }

  lemma {:induction false} AnnouncementsAreNoAnswers(setup: Setup, to: Option<nat>, channels: seq<Channel>)
    ensures forall i :: 0 <= i < |Announcements(setup, to, channels)| ==>
      !Announcements(setup, to, channels)[i].body.Answer?
  {
    if channels != [] {
      NoticesAreNoAnswers(to, setup.announces(channels[0]));
      AnnouncementsAreNoAnswers(setup, to, channels[1..]);
    }
  }

  /** What a step posts, past the posts that were there. */
  function NewPosts(setup: Setup, w: World, step: Step): seq<Post>
    requires Enabled(w, step)
  {
    match step
    case DoReceive => Receive(setup, w.client, w.inbox[0]).1
    case DoFinish(k, outcome) => Finish(w.client, k, outcome).1
    case DoNotify(n) => Send(w.client.session, Notification(n))
    case _ => []
  }

  lemma NewPostsAreTruthful(setup: Setup, w: World, step: Step)
    requires Enabled(w, step)
    ensures var posts, chains := NewPosts(setup, w, step), Next(setup, w, step).client.chains;
      forall i :: 0 <= i < |posts| && posts[i].body.Answer? ==> Concluded(chains, posts[i].body.id, posts[i].body.outcome)
  {
    match step
    case DoReceive =>
      if w.inbox[0].Ready? { AnnouncementsAreNoAnswers(setup, Some(w.inbox[0].session), w.client.channels); }
    case DoFinish(k, outcome) =>
      var chains := Finish(w.client, k, outcome).0.chains;
      var done := chains[k].done;
      assert done[|done| - 1] == Done(w.client.chains[k].running.value.job, w.client.chains[k].running.value.replyTo, Settled(w.client.chains[k].running.value.job, outcome));
    case _ =>
  }

  lemma StepStaysTruthful(setup: Setup, w: World, step: Step)
    requires Enabled(w, step) && Truthful(w)
    ensures Truthful(Next(setup, w, step))
  {
    StepGrows(setup, w, step);
    NewPostsAreTruthful(setup, w, step);
    GrewConcluded(w.client.chains, Next(setup, w, step).client.chains);
    hide Receive, Finish, Start, Open, Close, Concluded, Grew;
    var w' := Next(setup, w, step);
    forall i | 0 <= i < |w'.posts| && w'.posts[i].body.Answer?
      ensures Concluded(w'.client.chains, w'.posts[i].body.id, w'.posts[i].body.outcome)
    {
      if step.DoDeliver? {
        assert w'.posts[i] == w.posts[if i < step.index then i else i + 1];
      } else {
        assert w'.posts == w.posts + NewPosts(setup, w, step);
      }
    }
  }

  /** Every answer filed under an id is what the handler of the request with that id answered. */
  lemma {:induction false} AnswersAreTruthful(setup: Setup, w: World, steps: seq<Step>)
    requires Runs(setup, w, steps) && Truthful(w)
    ensures Truthful(After(setup, w, steps))
    decreases |steps|
  {
    hide Next, Truthful;
    if steps != [] {
      StepStaysTruthful(setup, w, steps[0]);
      AnswersAreTruthful(setup, Next(setup, w, steps[0]), steps[1..]);
    }
  }

  // ---- order on a channel ----

  function Jobs(done: seq<Done>): (r: seq<Job>)
    ensures |r| == |done|
  {
    seq(|done|, i requires 0 <= i < |done| => done[i].job)
  }

  /** The jobs of a chain in the order they arrived: finished ones, the running one, the waiting ones. */
  function Arrivals(chain: Chain): seq<Job> {
    Jobs(chain.done) + (if chain.running.Some? then [chain.running.value.job] else []) + chain.waiting
  }

  predicate HasQueue(c: Client, channel: Channel) { Some(channel) in c.queues && c.queues[Some(channel)] < |c.chains| }

  function QueueOf(c: Client, channel: Channel): Chain {
    if HasQueue(c, channel) then c.chains[c.queues[Some(channel)]] else Chain([], None, [])
  }

  /** No two channels wait on one chain. */
  predicate Separate(c: Client) {
    && (forall x :: x in c.queues ==> c.queues[x] < |c.chains|)
    && (forall x, y :: x in c.queues && y in c.queues && c.queues[x] == c.queues[y] ==> x == y)
  }

  /** The requests for `channel` that a step brings in. */
  function Arriving(setup: Setup, w: World, step: Step, channel: Channel): seq<Job>
    requires Enabled(w, step)
  {
    if step.DoReceive? && w.inbox[0].Call? && JobOf(setup, w.client, w.inbox[0]).channel == Some(channel)
    then [JobOf(setup, w.client, w.inbox[0])] else []
  }

  function ArrivingIn(setup: Setup, w: World, steps: seq<Step>, channel: Channel): seq<Job>
    requires Runs(setup, w, steps)
    decreases |steps|
  {
    if steps == [] then []
    else Arriving(setup, w, steps[0], channel) + ArrivingIn(setup, Next(setup, w, steps[0]), steps[1..], channel)
  }

  /** The answers of finished jobs, in their order. */
  function Replies(done: seq<Done>): seq<Post> {
    if done == [] then [] else Reply(done[0].job, done[0].replyTo, done[0].outcome) + Replies(done[1..])
  }

  lemma {:induction false} RepliesAppend(a: seq<Done>, b: seq<Done>)
    ensures Replies(a + b) == Replies(a) + Replies(b)
  {
    hide Reply;
    if a == [] {
      assert a + b == b;
    } else {
      RepliesAppend(a[1..], b);
      assert (a + b)[1..] == a[1..] + b && (a + b)[0] == a[0];
      var first := Reply(a[0].job, a[0].replyTo, a[0].outcome);
      assert Replies(a) == first + Replies(a[1..]);
      assert Replies(a + b) == first + Replies(a[1..] + b);
    }
  }

  /** What a step posts for `channel`. */
  function Answering(setup: Setup, w: World, step: Step, channel: Channel): seq<Post>
    requires Enabled(w, step)
  {
    if step.DoFinish? && HasQueue(w.client, channel) && w.client.queues[Some(channel)] == step.chain
    then NewPosts(setup, w, step) else []
  }

  function AnsweringIn(setup: Setup, w: World, steps: seq<Step>, channel: Channel): seq<Post>
    requires Runs(setup, w, steps)
    decreases |steps|
  {
    if steps == [] then []
    else Answering(setup, w, steps[0], channel) + AnsweringIn(setup, Next(setup, w, steps[0]), steps[1..], channel)
  }

  /**
   What a step posts goes behind the posts that are there; the answers of a channel are those of the
   jobs it finishes.
   */
  lemma StepPosts(setup: Setup, w: World, step: Step, channel: Channel)
    requires Enabled(w, step) && Separate(w.client) && channel in w.client.channels && step != DoClose(channel)
    ensures !step.DoDeliver? ==> Next(setup, w, step).posts == w.posts + NewPosts(setup, w, step)
    ensures var before, after := QueueOf(w.client, channel).done, QueueOf(Next(setup, w, step).client, channel).done;
      before <= after && Answering(setup, w, step, channel) == Replies(after[|before|..])
  {
    hide KeepsOrder, Enqueue, Announcements;
    StepInOrder(setup, w, step, channel);
    var before, after := QueueOf(w.client, channel).done, QueueOf(Next(setup, w, step).client, channel).done;
    KeepsDone(w.client, Next(setup, w, step).client, channel, Arriving(setup, w, step, channel));
    if step.DoFinish? && HasQueue(w.client, channel) && w.client.queues[Some(channel)] == step.chain {
      var r := w.client.chains[step.chain].running.value;
      var done := Done(r.job, r.replyTo, Settled(r.job, step.outcome));
      assert after == before + [done] && after[|before|..] == [done];
      assert Replies([done]) == Reply(r.job, r.replyTo, Settled(r.job, step.outcome)) + Replies([]);
    } else {
      FinishesNothing(setup, w, step, channel);
      assert after[|before|..] == [];
    }
  }

  lemma KeepsDone(c: Client, c': Client, channel: Channel, arriving: seq<Job>)
    requires KeepsOrder(c, c', channel, arriving)
    ensures QueueOf(c, channel).done <= QueueOf(c', channel).done
  {
  }

  lemma FinishesNothing(setup: Setup, w: World, step: Step, channel: Channel)
    requires Enabled(w, step) && Separate(w.client) && channel in w.client.channels && step != DoClose(channel)
    requires step.DoFinish? ==> !(HasQueue(w.client, channel) && w.client.queues[Some(channel)] == step.chain)
    ensures QueueOf(Next(setup, w, step).client, channel).done == QueueOf(w.client, channel).done
  {
    match step
    case DoClose(other) =>
      CloseKeepsChains(w.client, other);
      assert channel in Remove(w.client.channels, other);
    case DoOpen(other, connects) => OpenKeepsChains(w.client, other, connects);
    case _ =>
  }

  /**
   From `c` to `c'`, the channel keeps its queue, its order and its finished jobs, and gains
   `arriving` at the end.
   */
  predicate KeepsOrder(c: Client, c': Client, channel: Channel, arriving: seq<Job>) {
    Separate(c') && (HasQueue(c, channel) ==> HasQueue(c', channel) && c'.queues[Some(channel)] == c.queues[Some(channel)])
    && Arrivals(QueueOf(c', channel)) == Arrivals(QueueOf(c, channel)) + arriving
    && QueueOf(c, channel).done <= QueueOf(c', channel).done
  }

  lemma StepInOrder(setup: Setup, w: World, step: Step, channel: Channel)
    requires Enabled(w, step) && Separate(w.client) && channel in w.client.channels && step != DoClose(channel)
    ensures channel in Next(setup, w, step).client.channels
    ensures KeepsOrder(w.client, Next(setup, w, step).client, channel, Arriving(setup, w, step, channel))
  {
    match step
    case DoReceive => ReceiveInOrder(setup, w, channel);
    case DoStart(k) => StartInOrder(w.client, k, channel);
    case DoFinish(k, outcome) => FinishInOrder(w.client, k, outcome, channel);
    case DoClose(other) => CloseInOrder(w.client, other, channel);
    case DoOpen(other, connects) => QueuesInOrder(w.client, Open(w.client, other, connects), channel);
    case _ => QueuesInOrder(w.client, w.client, channel);
  }

  lemma QueuesInOrder(c: Client, c': Client, channel: Channel)
    requires Separate(c) && c'.queues == c.queues && c'.chains == c.chains
    ensures KeepsOrder(c, c', channel, [])
  {
    assert QueueOf(c', channel) == QueueOf(c, channel);
    assert Arrivals(QueueOf(c, channel)) + [] == Arrivals(QueueOf(c, channel));
  }

  lemma ReceiveInOrder(setup: Setup, w: World, channel: Channel)
    requires Enabled(w, DoReceive) && Separate(w.client) && channel in w.client.channels
    ensures channel in Next(setup, w, DoReceive).client.channels
    ensures KeepsOrder(w.client, Next(setup, w, DoReceive).client, channel, Arriving(setup, w, DoReceive, channel))
  {
    hide Enqueue, KeepsOrder, JobOf, Announcements;
    if w.inbox[0].Call? {
      EnqueueInOrder(w.client, JobOf(setup, w.client, w.inbox[0]), channel);
    } else {
      QueuesInOrder(w.client, Next(setup, w, DoReceive).client, channel);
    }
  }

  lemma EnqueueInOrder(c: Client, job: Job, channel: Channel)
    requires Separate(c)
    ensures Enqueue(c, job).channels == c.channels
    ensures KeepsOrder(c, Enqueue(c, job), channel, if job.channel == Some(channel) then [job] else [])
  {
    hide Jobs;
    var c' := Enqueue(c, job);
    var before, after := QueueOf(c, channel), QueueOf(c', channel);
    assert Separate(c');
    if job.channel == Some(channel) {
      assert after == before.(waiting := before.waiting + [job]);
    } else {
      assert after == before;
      assert before.waiting + [] == before.waiting;
    }
  }

  lemma StartInOrder(c: Client, k: nat, channel: Channel)
    requires Separate(c) && CanStart(c, k)
    ensures KeepsOrder(c, Start(c, k), channel, [])
  {
    var before, after := QueueOf(c, channel), QueueOf(Start(c, k), channel);
    if HasQueue(c, channel) && c.queues[Some(channel)] == k {
      assert before.waiting == [before.waiting[0]] + after.waiting;
    }
  }

  lemma FinishInOrder(c: Client, k: nat, outcome: Outcome, channel: Channel)
    requires Separate(c) && CanFinish(c, k)
    ensures KeepsOrder(c, Finish(c, k, outcome).0, channel, [])
  {
    var before, after := QueueOf(c, channel), QueueOf(Finish(c, k, outcome).0, channel);
    if HasQueue(c, channel) && c.queues[Some(channel)] == k {
      assert Jobs(after.done) == Jobs(before.done) + [before.running.value.job];
    }
  }

  lemma CloseInOrder(c: Client, other: Channel, channel: Channel)
    requires Separate(c) && channel in c.channels && other != channel
    ensures channel in Close(c, other).channels && KeepsOrder(c, Close(c, other), channel, [])
  {
    CloseKeepsChains(c, other);
    assert channel in Remove(c.channels, other);
  }

  /**
   While a channel stays open, across any reconnects and whatever the other channels do,
   its requests stay in the order they were received, one handler at a time: what it has
   finished is always the beginning of what it received, and its answers are posted in that order.
   */
  lemma {:induction false} ChannelInOrder(setup: Setup, w: World, steps: seq<Step>, channel: Channel)
    requires Runs(setup, w, steps) && Separate(w.client) && channel in w.client.channels
    requires forall i :: 0 <= i < |steps| ==> steps[i] != DoClose(channel)
    ensures var before, after := QueueOf(w.client, channel), QueueOf(After(setup, w, steps).client, channel);
      var received := Arrivals(before) + ArrivingIn(setup, w, steps, channel);
      Arrivals(after) == received && before.done <= after.done && Jobs(after.done) <= received
      && AnsweringIn(setup, w, steps, channel) == Replies(after.done[|before.done|..])
    decreases |steps|
  {
    hide Next, QueueOf, Arriving, Answering, Replies;
    if steps == [] {
      assert Arrivals(QueueOf(w.client, channel)) + [] == Arrivals(QueueOf(w.client, channel));
      var done := QueueOf(w.client, channel).done;
      NoReplies(done[|done|..]);
    } else {
      StepInOrder(setup, w, steps[0], channel);
      StepPosts(setup, w, steps[0], channel);
      var w' := Next(setup, w, steps[0]);
      ChannelInOrder(setup, w', steps[1..], channel);
      RepliesBetween(QueueOf(w.client, channel).done, QueueOf(w'.client, channel).done, QueueOf(After(setup, w, steps).client, channel).done);
      assert (Arrivals(QueueOf(w.client, channel)) + Arriving(setup, w, steps[0], channel)) + ArrivingIn(setup, w', steps[1..], channel)
          == Arrivals(QueueOf(w.client, channel)) + (Arriving(setup, w, steps[0], channel) + ArrivingIn(setup, w', steps[1..], channel));
    }
  }

  lemma NoReplies(done: seq<Done>)
    requires done == []
    ensures Replies(done) == []
  {
  }

  lemma RepliesBetween(first: seq<Done>, second: seq<Done>, third: seq<Done>)
    requires first <= second <= third
    ensures first <= third
    ensures Replies(third[|first|..]) == Replies(second[|first|..]) + Replies(third[|second|..])
  {
    RepliesAppend(second[|first|..], third[|second|..]);
    assert third[|first|..] == second[|first|..] + third[|second|..];
  }

  // ---- independence of channels ----

  /** Finishes the running handler of chain `k`, then runs its waiting jobs one after another. */
  function DrainSteps(chain: Chain, k: nat, outcomes: Job -> Outcome): seq<Step> {
    (if chain.running.Some? then [DoFinish(k, outcomes(chain.running.value.job))] else []) + DrainWaiting(chain.waiting, k, outcomes)
  }

  function DrainWaiting(waiting: seq<Job>, k: nat, outcomes: Job -> Outcome): seq<Step> {
    if waiting == [] then []
    else [DoStart(k), DoFinish(k, outcomes(waiting[0]))] + DrainWaiting(waiting[1..], k, outcomes)
  }

  lemma RunsCons(setup: Setup, w: World, step: Step, steps: seq<Step>)
    requires Enabled(w, step) && Runs(setup, Next(setup, w, step), steps)
    ensures Runs(setup, w, [step] + steps)
    ensures After(setup, w, [step] + steps) == After(setup, Next(setup, w, step), steps)
  {
    assert ([step] + steps)[1..] == steps;
  }

  /** Everything but chain `k`, the posts and the losses is as it was. */
  predicate OnlyChain(w: World, w': World, k: nat) {
    w'.server == w.server && w'.inbox == w.inbox && w'.client == w.client.(chains := w'.client.chains)
    && |w'.client.chains| == |w.client.chains| && forall j :: 0 <= j < |w.client.chains| && j != k ==> w'.client.chains[j] == w.client.chains[j]
  }

  /** The posts are those there were and then the answers of the jobs that chain `k` finished, in their order. */
  predicate PostsInOrder(w: World, w': World, k: nat)
    requires k < |w.client.chains| && k < |w'.client.chains|
  {
    var before, after := w.client.chains[k].done, w'.client.chains[k].done;
    before <= after && w'.posts == w.posts + Replies(after[|before|..])
  }

  lemma PostsThen(w: World, w1: World, w2: World, k: nat)
    requires k < |w.client.chains| && k < |w1.client.chains| && k < |w2.client.chains|
    requires PostsInOrder(w, w1, k) && PostsInOrder(w1, w2, k)
    ensures PostsInOrder(w, w2, k)
  {
    hide Replies;
    RepliesBetween(w.client.chains[k].done, w1.client.chains[k].done, w2.client.chains[k].done);
  }

  lemma PostsStay(w: World, k: nat)
    requires k < |w.client.chains|
    ensures PostsInOrder(w, w, k)
  {
    var done := w.client.chains[k].done;
    assert done[|done|..] == [] && w.posts + [] == w.posts;
  }

  lemma FinishPosts(setup: Setup, w: World, k: nat, outcome: Outcome)
    requires CanFinish(w.client, k)
    ensures PostsInOrder(w, Next(setup, w, DoFinish(k, outcome)), k)
  {
    var r := w.client.chains[k].running.value;
    var before, after := w.client.chains[k].done, Next(setup, w, DoFinish(k, outcome)).client.chains[k].done;
    var done := Done(r.job, r.replyTo, Settled(r.job, outcome));
    assert after == before + [done] && after[|before|..] == [done];
    assert Replies([done]) == Reply(r.job, r.replyTo, Settled(r.job, outcome)) + Replies([]);
  }

  lemma {:induction false} DrainsWaiting(setup: Setup, w: World, k: nat, outcomes: Job -> Outcome)
    requires k < |w.client.chains| && w.client.chains[k].running == None
    ensures var steps := DrainWaiting(w.client.chains[k].waiting, k, outcomes);
      Runs(setup, w, steps)
      && var w' := After(setup, w, steps);
        OnlyChain(w, w', k) && Empty(w'.client.chains[k]) && Jobs(w'.client.chains[k].done) == Arrivals(w.client.chains[k])
        && PostsInOrder(w, w', k)
    decreases |w.client.chains[k].waiting|
  {
    var chain := w.client.chains[k];
    if chain.waiting == [] {
      assert Arrivals(chain) == Jobs(chain.done);
      PostsStay(w, k);
    } else {
      var job := chain.waiting[0];
      var finish := DoFinish(k, outcomes(job));
      ServesOne(setup, w, k, outcomes(job));
      var w1 := Next(setup, w, DoStart(k));
      var w2 := Next(setup, w1, finish);
      DrainsWaiting(setup, w2, k, outcomes);
      hide Next, Arrivals, Jobs, PostsInOrder;
      PostsThen(w, w2, After(setup, w2, DrainWaiting(chain.waiting[1..], k, outcomes)), k);
      var rest := DrainWaiting(chain.waiting[1..], k, outcomes);
      RunsCons(setup, w1, finish, rest);
      RunsCons(setup, w, DoStart(k), [finish] + rest);
      assert [DoStart(k)] + ([finish] + rest) == [DoStart(k), finish] + rest;
    }
  }

  /** One waiting job is handled and answered. */
  lemma ServesOne(setup: Setup, w: World, k: nat, outcome: Outcome)
    requires CanStart(w.client, k)
    ensures CanFinish(Next(setup, w, DoStart(k)).client, k)
    ensures var w' := Next(setup, Next(setup, w, DoStart(k)), DoFinish(k, outcome));
      OnlyChain(w, w', k) && w'.client.chains[k].running == None
      && w'.client.chains[k].waiting == w.client.chains[k].waiting[1..] && PostsInOrder(w, w', k)
      && Arrivals(w'.client.chains[k]) == Arrivals(w.client.chains[k])
  {
    var chain := w.client.chains[k];
    var w2 := Next(setup, Next(setup, w, DoStart(k)), DoFinish(k, outcome));
    FinishPosts(setup, Next(setup, w, DoStart(k)), k, outcome);
    assert Jobs(w2.client.chains[k].done) == Jobs(chain.done) + [chain.waiting[0]];
    assert chain.waiting == [chain.waiting[0]] + chain.waiting[1..];
  }

  /** Whatever handlers of other channels are stuck, a channel's own steps answer all it has received, in order. */
  lemma StuckHandlersBlockNoOther(setup: Setup, w: World, k: nat, outcomes: Job -> Outcome)
    requires k < |w.client.chains|
    ensures var steps := DrainSteps(w.client.chains[k], k, outcomes);
      Runs(setup, w, steps)
      && var w' := After(setup, w, steps);
        OnlyChain(w, w', k) && Empty(w'.client.chains[k]) && Jobs(w'.client.chains[k].done) == Arrivals(w.client.chains[k])
        && PostsInOrder(w, w', k)
  {
    var chain := w.client.chains[k];
    if chain.running == None {
      DrainsWaiting(setup, w, k, outcomes);
      assert DrainSteps(chain, k, outcomes) == DrainWaiting(chain.waiting, k, outcomes);
    } else {
      var outcome := outcomes(chain.running.value.job);
      var w1 := Next(setup, w, DoFinish(k, outcome));
      assert Jobs(w1.client.chains[k].done) == Jobs(chain.done) + [chain.running.value.job];
      assert OnlyChain(w, w1, k) && w1.client.chains[k].waiting == chain.waiting && w1.client.chains[k].running == None;
      assert Arrivals(w1.client.chains[k]) == Arrivals(chain);
      FinishPosts(setup, w, k, outcome);
      hide Next, Arrivals, Jobs, PostsInOrder;
      DrainsWaiting(setup, w1, k, outcomes);
      PostsThen(w, w1, After(setup, w1, DrainWaiting(chain.waiting, k, outcomes)), k);
      RunsCons(setup, w, DoFinish(k, outcome), DrainWaiting(chain.waiting, k, outcomes));
    }
  }

  // ---- the objects ----

  /** `createRuntimeBridge`. A handler's start and end are calls of their own: the promise chain makes them. */
  class Bridge {
    var channels: seq<Channel>
    var queues: map<Option<Channel>, nat>
    var chains: seq<Chain>
    var stream: bool
    var session: Option<nat>
    var readies: nat
    const setup: Setup

    ghost function State(): Client
      reads this
    {
      Client(channels, queues, chains, stream, session, readies)
    }

    constructor (setup: Setup)
      ensures State() == CLOSED && this.setup == setup
    {
      this.setup := setup;
      channels, queues, chains, stream, session, readies := [], map[], [], false, None, 0;
    }

    /** `receive`. */
    method OnMessage(m: Message) returns (posts: seq<Post>)
      modifies this
      ensures (State(), posts) == Receive(setup, old(State()), m)
    {
      hide Announcements, FindChannel;
      posts := [];
      if m.Malformed? { return; }
      if m.Ready? {
        session := Some(m.session);
        readies := readies + 1;
        posts := AnnounceAll();
        return;
      }
      var channel := Answering(m.name);
      var job := Job(m.id, m.name, m.params, channel, session, readies);
      if channel in queues && queues[channel] < |chains| {
        var k := queues[channel];
        chains := chains[k := chains[k].(waiting := chains[k].waiting + [job])];
      } else {
        queues := queues[channel := |chains|];
        chains := chains + [Chain([], None, [job])];
      }
    }

    /** On `bridge.ready`, what every open channel announces. */
    method AnnounceAll() returns (posts: seq<Post>)
      ensures posts == Announcements(setup, session, channels)
    {
      posts := [];
      var i := 0;
      while i < |channels|
        invariant 0 <= i <= |channels|
        invariant posts + Announcements(setup, session, channels[i..]) == Announcements(setup, session, channels)
      {
        var sent := Notify(setup.announces(channels[i]));
        assert channels[i..][0] == channels[i] && channels[i..][1..] == channels[i + 1..];
        posts := posts + sent;
        i := i + 1;
      }
      assert posts + [] == posts;
    }

    /** The first open channel that has a handler for `name`. */
    method Answering(name: string) returns (channel: Option<Channel>)
      ensures channel == FindChannel(setup, channels, name)
    {
      channel := None;
      var i := 0;
      while i < |channels| && channel == None
        invariant 0 <= i <= |channels|
        invariant FindChannel(setup, channels, name) == if channel == None then FindChannel(setup, channels[i..], name) else channel
      {
        assert channels[i..][0] == channels[i] && channels[i..][1..] == channels[i + 1..];
        if setup.handles(channels[i], name) { channel := Some(channels[i]); }
        i := i + 1;
      }
    }

    /** The first `then` of a promise chain: the handler is called. */
    method StartHandler(k: nat)
      requires CanStart(State(), k)
      modifies this`chains
      ensures State() == Start(old(State()), k)
    {
      var chain := chains[k];
      var replyTo := session;
      chains := chains[k := chain.(running := Some(Running(chain.waiting[0], replyTo)), waiting := chain.waiting[1..])];
    }

    /** The second `then`: its result or its error is posted. */
    method FinishHandler(k: nat, outcome: Outcome) returns (posts: seq<Post>)
      requires CanFinish(State(), k)
      modifies this`chains
      ensures (State(), posts) == Finish(old(State()), k, outcome)
    {
      var chain := chains[k];
      var Running(job, replyTo) := chain.running.value;
      var answer := if job.channel == None then Failure("unknown bridge method " + job.name) else outcome;
      posts := [];
      if job.id.Some? && replyTo.Some? {
        posts := [Post(replyTo.value, Answer(job.id.value, answer))];
      }
      chains := chains[k := chain.(done := chain.done + [Done(job, replyTo, answer)], running := None)];
    }

    method Notify(notices: seq<Notice>) returns (posts: seq<Post>)
      ensures posts == Notices(session, notices)
    {
      posts := [];
      var i := 0;
      while i < |notices|
        invariant 0 <= i <= |notices|
        invariant posts + Notices(session, notices[i..]) == Notices(session, notices)
      {
        assert notices[i..][0] == notices[i] && notices[i..][1..] == notices[i + 1..];
        if session.Some? { posts := posts + [Post(session.value, Notification(notices[i]))]; }
        i := i + 1;
      }
      assert posts + [] == posts;
    }

    method OpenChannel(channel: Channel, connects: bool)
      modifies this`channels, this`stream
      ensures State() == Open(old(State()), channel, connects)
    {
      if channel !in channels { channels := channels + [channel]; }
      if !stream { stream := connects; }
    }

    /** What `open` answered: a second call changes nothing. */
    method CloseChannel(channel: Channel)
      modifies this
      ensures State() == Close(old(State()), channel)
    {
      if channel !in channels { return; }
      channels := Remove(channels, channel);
      queues := queues - {Some(channel)};
      if channels != [] { return; }
      stream := false;
      session := None;
      queues := map[];
    }
  }

  /** `mockDocumentBridge`. */
  class DocumentBridge {
    var queue: seq<Message>
    var answers: map<nat, Outcome>
    var announcements: seq<Notice>
    var session: nat
    var nextId: nat

    ghost function State(): Server
      reads this
    {
      Server(queue, answers, announcements, session, nextId)
    }

    constructor ()
      ensures State() == IDLE
    {
      queue, answers, announcements, session, nextId := [], map[], [], 0, 1;
    }

    method Request(name: string, params: string) returns (id: nat)
      modifies this
      ensures State() == Issue(old(State()), name, params) && id == old(nextId)
    {
      id := nextId;
      nextId := nextId + 1;
      queue := queue + [Call(Some(id), name, params)];
    }

    /** `GET /v1/kits/bridge`. */
    method Get() returns (messages: seq<Message>)
      modifies this
      ensures (State(), messages) == Stream(old(State()))
    {
      session := session + 1;
      messages := [Ready(session)] + queue;
      queue := [];
    }

    /** `POST /v1/kits/bridge?session=…`. */
    method Accepts(p: Post)
      modifies this
      ensures State() == Accept(old(State()), p)
    {
      match p.body {
        case Notification(n) =>
          if n.name == "documents.open" { announcements := announcements + [n]; }
        case Answer(id, outcome) => answers := answers[id := outcome];
      }
    }
  }
}

/** One streaming run as interleaved steps: a generating worker, a bounded channel,
    a forwarder, the host, and the cancel token (lib.rs, `run_stream`). */
module Pipeline {
  import opened Options
  import opened StreamDeltas
  import opened Wire

  const STREAM_CHANNEL_DEPTH: nat := 32

  /** What the worker does when nobody interferes: sink call `k` emits `emit(k)`,
      and after the last call it ends with `finish`.  A run that is cut short by the
      cancel flag after `k` calls ends with `cutShort(k)`. */
  datatype Script = Script(
    wire: StreamMethod,
    calls: nat,
    emit: nat -> seq<StreamItem>,
    finish: StreamItem,
    cutShort: nat -> StreamItem,
    sinkReportsLoss: bool)

  ghost predicate ValidScript(c: Script) {
    && (forall k, i :: 0 <= i < |c.emit(k)| ==> c.emit(k)[i].Delta?)
    && !c.finish.Delta?
    && forall k :: !c.cutShort(k).Delta?
  }

  datatype Worker =
    | Generating(k: nat)
    | InSink(items: seq<StreamItem>, k: nat)
    | Ending(item: StreamItem)
    | Gone

  datatype Verdict = Ok | Cancelled | OutputLost | Failed(message: string)

  datatype Forwarder =
    | Receiving
    | Outputting(chunks: seq<Chunk>, last: bool)
    | Joining(verdict: Verdict)
    | Returned(verdict: Verdict)

  /** `produced` is everything that went into the channel, `taken` how much of it
      the forwarder took out. */
  datatype State = State(
    worker: Worker,
    forwarder: Forwarder,
    queue: seq<StreamItem>,
    flag: bool,
    cancelled: bool,
    produced: seq<StreamItem>,
    taken: nat,
    delivered: seq<Chunk>)

  const START := State(Generating(0), Receiving, [], false, false, [], 0, [])

  /** The receiver exists until the drain loop is left. */
  predicate Open(s: State) {
    s.forwarder.Receiving? || s.forwarder.Outputting?
  }

  predicate HasRoom(s: State) {
    |s.queue| < STREAM_CHANNEL_DEPTH
  }

  datatype Action =
    | SinkCall | SendItem | SendRefused | FinishScript | NoticeFlag | SendLast | LastRefused
    | Receive | NoticeCancel | EndOfChannel | HostAccepts | HostIsGone | JoinWorker
    | HostCancels

  predicate Enabled(c: Script, s: State, a: Action) {
    match a
    case SinkCall => s.worker.Generating? && s.worker.k < c.calls
    case SendItem => s.worker.InSink? && s.worker.items != [] && Open(s) && HasRoom(s)
    case SendRefused => s.worker.InSink? && s.worker.items != [] && !Open(s)
    case FinishScript => s.worker.Generating? && s.worker.k >= c.calls
    case NoticeFlag => s.worker.Generating? && s.flag
    case SendLast => s.worker.Ending? && Open(s) && HasRoom(s)
    case LastRefused => s.worker.Ending? && !Open(s)
    case Receive => s.forwarder.Receiving? && !s.cancelled && s.queue != []
    case NoticeCancel => s.forwarder.Receiving? && s.cancelled
    case EndOfChannel => s.forwarder.Receiving? && !s.cancelled && s.queue == [] && s.worker.Gone?
    case HostAccepts => s.forwarder.Outputting? && s.forwarder.chunks != []
    case HostIsGone => s.forwarder.Outputting? && s.forwarder.chunks != []
    case JoinWorker => s.forwarder.Joining? && s.worker.Gone?
    case HostCancels => !s.cancelled
  }

  /** A sink call with items to send stays in the sink until they are sent. */
  function Continue(items: seq<StreamItem>, k: nat): Worker {
    if items == [] then Generating(k) else InSink(items, k)
  }

  function Put(s: State, item: StreamItem): State {
    s.(queue := s.queue + [item], produced := s.produced + [item])
  }

  /** After the forwarder took `item` out of the channel. */
  function Forward(c: Script, item: StreamItem): Forwarder {
    match item
    case Delta(_, _, _) => Outputting(EncodeItem(c.wire, item), false)
    case Final(_, _, _, _) => Outputting(EncodeItem(c.wire, item), true)
    case Error(message) => Joining(Failed(message))
  }

  function AfterOutput(chunks: seq<Chunk>, last: bool): Forwarder {
    if chunks != [] then Outputting(chunks, last)
    else if last then Joining(Ok)
    else Receiving
  }

  function Next(c: Script, s: State, a: Action): State
    requires Enabled(c, s, a)
  {
    match a
    case SinkCall =>
      if s.flag then s.(worker := Ending(c.cutShort(s.worker.k)))
      else s.(worker := Continue(c.emit(s.worker.k), s.worker.k + 1))
    case SendItem => Put(s, s.worker.items[0]).(worker := Continue(s.worker.items[1..], s.worker.k))
    case SendRefused =>
      s.(flag := true,
         worker := if c.sinkReportsLoss then Ending(c.cutShort(s.worker.k)) else Generating(s.worker.k))
    case FinishScript => s.(worker := Ending(c.finish))
    case NoticeFlag => s.(worker := Ending(c.cutShort(s.worker.k)))
    case SendLast => Put(s, s.worker.item).(worker := Gone)
    case LastRefused => s.(worker := Gone)
    case Receive => s.(queue := s.queue[1..], taken := s.taken + 1, forwarder := Forward(c, s.queue[0]))
    case NoticeCancel => s.(flag := true, forwarder := Joining(Cancelled))
    case EndOfChannel => s.(forwarder := Joining(Ok))
    case HostAccepts =>
      s.(delivered := s.delivered + [s.forwarder.chunks[0]],
         forwarder := AfterOutput(s.forwarder.chunks[1..], s.forwarder.last))
    case HostIsGone => s.(flag := true, forwarder := Joining(OutputLost))
    case JoinWorker => s.(forwarder := Returned(s.forwarder.verdict))
    case HostCancels => s.(cancelled := true)
  }

  // ---- Safety ----

  /** Items of the sink calls from `k` on, and the terminal item. */
  function ItemsFrom(c: Script, k: nat): seq<StreamItem>
    decreases c.calls - k
  {
    if k >= c.calls then [] else c.emit(k) + ItemsFrom(c, k + 1)
  }

  function Plan(c: Script): seq<StreamItem> {
    ItemsFrom(c, 0) + [c.finish]
  }

  /** What an undisturbed worker still has to put into the channel. */
  function Rest(c: Script, w: Worker): seq<StreamItem> {
    match w
    case Generating(k) => ItemsFrom(c, k) + [c.finish]
    case InSink(items, k) => items + ItemsFrom(c, k) + [c.finish]
    case Ending(item) => [item]
    case Gone => []
  }

  function InFlight(f: Forwarder): seq<Chunk> {
    if f.Outputting? then f.chunks else []
  }

  /** While the receiver exists: nobody raised the flag, what was produced and what
      the worker still holds is the plan, the channel holds what was produced and
      not taken, and what was taken has been delivered or is in flight. */
  ghost predicate OpenInvariant(c: Script, s: State) {
    && !s.flag
    && s.produced + Rest(c, s.worker) == Plan(c)
    && s.taken <= |s.produced|
    && s.queue == s.produced[s.taken..]
    && s.delivered + InFlight(s.forwarder) == EncodeAll(c.wire, s.produced[..s.taken])
    && (s.forwarder.Receiving? ==> s.taken < |Plan(c)|)
    && (s.forwarder.Outputting? ==>
          && s.forwarder.chunks != []
          && (s.forwarder.last ==> s.taken == |Plan(c)| && c.finish.Final?)
          && (!s.forwarder.last ==> s.taken < |Plan(c)|))
  }

  ghost predicate Invariant(c: Script, s: State) {
    && |s.queue| <= STREAM_CHANNEL_DEPTH
    && (s.worker.InSink? ==> s.worker.items != [])
    && (s.forwarder.Returned? ==> s.worker.Gone?)
    && (Open(s) ==> OpenInvariant(c, s))
    && s.delivered <= EncodeAll(c.wire, Plan(c))
    && (s.forwarder == Joining(Ok) || s.forwarder == Returned(Ok) ==>
          s.delivered == EncodeAll(c.wire, Plan(c)) && c.finish.Final?)
  }

  lemma {:induction false} ItemsAreDeltas(c: Script, k: nat)
    requires ValidScript(c)
    ensures forall i :: 0 <= i < |ItemsFrom(c, k)| ==> ItemsFrom(c, k)[i].Delta?
    decreases c.calls - k
  {
    if k < c.calls {
      ItemsAreDeltas(c, k + 1);
    }
  }

  lemma PlanShape(c: Script, i: nat)
    requires ValidScript(c) && i < |Plan(c)|
    ensures Plan(c)[i].Delta? <==> i < |Plan(c)| - 1
  {
    ItemsAreDeltas(c, 0);
  }

  lemma RestContinue(c: Script, items: seq<StreamItem>, k: nat)
    ensures Rest(c, Continue(items, k)) == items + ItemsFrom(c, k) + [c.finish]
  {
    if items == [] {
      assert items + ItemsFrom(c, k) == ItemsFrom(c, k);
    }
  }

  /** A worker step that puts nothing into the channel keeps what is left to put. */
  lemma WorkerKeepsRest(c: Script, s: State, a: Action)
    requires Enabled(c, s, a) && !s.flag
    requires a.SinkCall? || a.FinishScript?
    ensures Rest(c, Next(c, s, a).worker) == Rest(c, s.worker)
  {
    if a.SinkCall? {
      RestContinue(c, c.emit(s.worker.k), s.worker.k + 1);
    } else {
      assert ItemsFrom(c, s.worker.k) == [];
      assert [] + [c.finish] == [c.finish];
    }
  }

  /** A send moves the head of the rest into the channel. */
  lemma SendMovesHead(c: Script, s: State, a: Action)
    requires Enabled(c, s, a) && (a.SendItem? || a.SendLast?)
    ensures var t := Next(c, s, a);
      && t.produced + Rest(c, t.worker) == s.produced + Rest(c, s.worker)
      && |t.produced| == |s.produced| + 1 && s.produced == t.produced[..|s.produced|]
      && t.queue == s.queue + [t.produced[|s.produced|]]
  {
    if a.SendItem? {
      var items := s.worker.items;
      RestContinue(c, items[1..], s.worker.k);
      assert items == [items[0]] + items[1..];
    }
  }

  lemma SendKeepsOpen(c: Script, s: State, a: Action)
    requires OpenInvariant(c, s) && Enabled(c, s, a) && (a.SendItem? || a.SendLast?)
    ensures OpenInvariant(c, Next(c, s, a))
  {
    hide Rest, Plan, EncodeAll;
    SendMovesHead(c, s, a);
    var t := Next(c, s, a);
    assert t.produced[..t.taken] == s.produced[..s.taken];
    assert t.produced[t.taken..] == s.produced[s.taken..] + [t.produced[|s.produced|]];
  }

  lemma Cut<T>(s: seq<T>, n: nat)
    requires n < |s|
    ensures s[..n + 1] == s[..n] + [s[n]]
  {
  }

  lemma EncodeTaken(c: Script, items: seq<StreamItem>, n: nat)
    requires n < |items|
    ensures EncodeAll(c.wire, items[..n + 1]) == EncodeAll(c.wire, items[..n]) + EncodeItem(c.wire, items[n])
  {
    hide EncodeAll, EncodeItem;
    Cut(items, n);
    EncodeAllAppend(c.wire, items[..n], [items[n]]);
    EncodeOne(c.wire, items[n]);
  }

  lemma DeliveredIsPrefix(c: Script, s: State)
    requires OpenInvariant(c, s)
    ensures s.delivered + InFlight(s.forwarder) <= EncodeAll(c.wire, Plan(c))
    ensures s.taken == |Plan(c)| ==> s.delivered + InFlight(s.forwarder) == EncodeAll(c.wire, Plan(c))
  {
    hide Rest, EncodeAll, Plan;
    var plan := Plan(c);
    assert s.produced[..s.taken] == plan[..s.taken];
    EncodeAllAppend(c.wire, plan[..s.taken], plan[s.taken..]);
    assert plan[..s.taken] + plan[s.taken..] == plan;
    if s.taken == |plan| {
      assert plan[..s.taken] == plan;
    }
  }

  lemma ReceiveKeepsInvariant(c: Script, s: State)
    requires ValidScript(c) && Invariant(c, s) && Enabled(c, s, Receive)
    ensures Invariant(c, Next(c, s, Receive))
  {
    hide Rest, EncodeAll, Plan, ValidScript;
    var t := Next(c, s, Receive);
    var item := s.queue[0];
    assert item == s.produced[s.taken] == Plan(c)[s.taken];
    PlanShape(c, s.taken);
    EncodeTaken(c, s.produced, s.taken);
    assert t.queue == s.produced[t.taken..];
    PlanEnds(c);
  }

  lemma PlanEnds(c: Script)
    ensures Plan(c) != [] && Plan(c)[|Plan(c)| - 1] == c.finish
  {
  }

  lemma OutputKeepsInvariant(c: Script, s: State)
    requires Invariant(c, s) && Enabled(c, s, HostAccepts)
    ensures Invariant(c, Next(c, s, HostAccepts))
  {
    hide Rest, EncodeAll, Plan;
    var t := Next(c, s, HostAccepts);
    var chunks := s.forwarder.chunks;
    DeliveredIsPrefix(c, s);
    assert t.delivered + chunks[1..] == s.delivered + chunks;
    assert t.delivered <= s.delivered + chunks;
    if chunks[1..] == [] {
      assert t.delivered + [] == t.delivered;
    }
  }

  lemma NoEndOfChannel(c: Script, s: State)
    requires Invariant(c, s)
    ensures !Enabled(c, s, EndOfChannel)
  {
  }

  /** Every step of every participant keeps the invariant. */
  lemma StepKeepsInvariant(c: Script, s: State, a: Action)
    requires ValidScript(c) && Invariant(c, s) && Enabled(c, s, a)
    ensures Invariant(c, Next(c, s, a))
  {
    hide Rest, EncodeAll, Plan, ValidScript;
    match a {
      case SinkCall =>
        if Open(s) {
          WorkerKeepsRest(c, s, a);
        }
      case FinishScript =>
        if Open(s) {
          WorkerKeepsRest(c, s, a);
        }
      case SendItem => SendKeepsOpen(c, s, a);
      case SendLast => SendKeepsOpen(c, s, a);
      case Receive => ReceiveKeepsInvariant(c, s);
      case HostAccepts => OutputKeepsInvariant(c, s);
      case EndOfChannel => NoEndOfChannel(c, s);
      case _ =>
    }
  }

  /** A schedule that is possible from `s`, and where it leads. */
  predicate Possible(c: Script, s: State, schedule: seq<Action>)
    decreases |schedule|
  {
    schedule == [] ||
    (Enabled(c, s, schedule[0]) && Possible(c, Next(c, s, schedule[0]), schedule[1..]))
  }

  function Execute(c: Script, s: State, schedule: seq<Action>): State
    requires Possible(c, s, schedule)
    decreases |schedule|
  {
    if schedule == [] then s else Execute(c, Next(c, s, schedule[0]), schedule[1..])
  }

  lemma StartInvariant(c: Script)
    requires ValidScript(c)
    ensures Invariant(c, START)
  {
    assert [] + Plan(c) == Plan(c);
    assert START.produced[..0] == [];
  }

  lemma {:induction false} ExecuteKeepsInvariant(c: Script, s: State, schedule: seq<Action>)
    requires ValidScript(c) && Invariant(c, s) && Possible(c, s, schedule)
    ensures Invariant(c, Execute(c, s, schedule))
    decreases |schedule|
  {
    hide Invariant, Next, Enabled, ValidScript;
    if schedule != [] {
      StepKeepsInvariant(c, s, schedule[0]);
      ExecuteKeepsInvariant(c, Next(c, s, schedule[0]), schedule[1..]);
    }
  }

  /** In every interleaving the host has received an in-order prefix of the chunks
      planned, and never waits on a channel that ended without a verdict.  A run
      that returns Ok delivered all of them, with exactly one done chunk, the last. */
  lemma FaithfulDelivery(c: Script, schedule: seq<Action>)
    requires ValidScript(c) && Possible(c, START, schedule)
    ensures var s := Execute(c, START, schedule);
      && s.delivered <= EncodeAll(c.wire, Plan(c))
      && !Enabled(c, s, EndOfChannel)
      && |s.queue| <= 32
      && (s.forwarder == Returned(Ok) ==>
            && c.finish.Final?
            && s.delivered == EncodeAll(c.wire, Plan(c))
            && DoneExactlyLast(s.delivered))
  {
    StartInvariant(c);
    ExecuteKeepsInvariant(c, START, schedule);
    var s := Execute(c, START, schedule);
    NoEndOfChannel(c, s);
    if s.forwarder == Returned(Ok) {
      ItemsAreDeltas(c, 0);
      FinalEndsStream(c.wire, ItemsFrom(c, 0), c.finish);
    }
  }

  /** A run that returns Ok has told the host the usage of the final item, with the
      last chunk and no other. */
  lemma OkDeliversUsage(c: Script, schedule: seq<Action>)
    requires ValidScript(c) && Possible(c, START, schedule)
    ensures var s := Execute(c, START, schedule);
      s.forwarder == Returned(Ok) ==> c.finish.Final? && UsageExactlyLast(s.delivered, c.finish.usage)
  {
    hide Execute, Possible, EncodeAll;
    FaithfulDelivery(c, schedule);
    if Execute(c, START, schedule).forwarder == Returned(Ok) {
      ItemsAreDeltas(c, 0);
      FinalCarriesUsage(c.wire, ItemsFrom(c, 0), c.finish);
    }
  }

  // ---- Verdicts ----

  /** The verdict, once there is one. */
  function Decided(f: Forwarder): Option<Verdict> {
    match f
    case Joining(v) => Some(v)
    case Returned(v) => Some(v)
    case _ => None
  }

  /** A verdict stands, and is the end of cancelling and of losing output. */
  lemma {:induction false} VerdictStands(c: Script, s: State, schedule: seq<Action>)
    requires Decided(s.forwarder).Some? && Possible(c, s, schedule)
    ensures Decided(Execute(c, s, schedule).forwarder) == Decided(s.forwarder)
    ensures NoticeCancel !in schedule && HostIsGone !in schedule
    decreases |schedule|
  {
    if schedule != [] {
      VerdictStands(c, Next(c, s, schedule[0]), schedule[1..]);
    }
  }

  /** What a schedule tells about the verdict it leads to. */
  predicate VerdictFits(c: Script, v: Verdict, cancelled: bool, schedule: seq<Action>) {
    && (v == Cancelled <==> NoticeCancel in schedule)
    && (v == OutputLost <==> HostIsGone in schedule)
    && (v == Cancelled ==> cancelled || HostCancels in schedule)
    && (v == Ok ==> c.finish.Final?)
    && (v.Failed? ==> c.finish == Error(v.message))
  }

  /** The step that takes the receiver away decides. */
  lemma StepDecides(c: Script, s: State, a: Action)
    requires ValidScript(c) && Invariant(c, s) && Open(s) && Enabled(c, s, a) && !Open(Next(c, s, a))
    ensures Decided(Next(c, s, a).forwarder).Some?
    ensures VerdictFits(c, Decided(Next(c, s, a).forwarder).value, s.cancelled, [a])
  {
    hide EncodeAll, EncodeItem, Plan, Rest;
    if a.Receive? {
      assert s.queue[0] == s.produced[s.taken] == Plan(c)[s.taken];
      PlanShape(c, s.taken);
      PlanEnds(c);
    }
    if a.EndOfChannel? {
      NoEndOfChannel(c, s);
    }
  }

  lemma OpenStep(c: Script, s: State, a: Action)
    requires Enabled(c, s, a) && Open(s) && Open(Next(c, s, a))
    ensures !a.NoticeCancel? && !a.HostIsGone?
    ensures Next(c, s, a).cancelled ==> s.cancelled || a.HostCancels?
  {
  }

  lemma {:induction false} VerdictFitsAlways(c: Script, s: State, schedule: seq<Action>)
    requires ValidScript(c) && Invariant(c, s) && Open(s) && Possible(c, s, schedule)
    ensures var d := Decided(Execute(c, s, schedule).forwarder);
      d.Some? ==> VerdictFits(c, d.value, s.cancelled, schedule)
    decreases |schedule|
  {
    hide Invariant, ValidScript, Enabled, Next;
    if schedule != [] {
      var a, t := schedule[0], Next(c, s, schedule[0]);
      assert schedule == [a] + schedule[1..];
      StepKeepsInvariant(c, s, a);
      if Open(t) {
        OpenStep(c, s, a);
        VerdictFitsAlways(c, t, schedule[1..]);
      } else {
        StepDecides(c, s, a);
        VerdictStands(c, t, schedule[1..]);
      }
    }
  }

  /** What a run returns: a cancel the forwarder noticed and a host that went away are
      reported as such; any other run returns Ok when the worker ended with a final
      item and the worker's own message when it ended with an error. */
  lemma VerdictExactly(c: Script, schedule: seq<Action>)
    requires ValidScript(c) && Possible(c, START, schedule)
    requires Execute(c, START, schedule).forwarder.Returned?
    ensures var v := Execute(c, START, schedule).forwarder.verdict;
      && (v == Cancelled <==> NoticeCancel in schedule)
      && (v == OutputLost <==> HostIsGone in schedule)
      && (v == Cancelled ==> HostCancels in schedule)
      && (NoticeCancel !in schedule && HostIsGone !in schedule ==>
            v == if c.finish.Final? then Ok else Failed(c.finish.message))
  {
    hide Execute, Possible, Plan;
    StartInvariant(c);
    VerdictFitsAlways(c, START, schedule);
  }

  // ---- Progress ----

  predicate Internal(a: Action) {
    !a.HostAccepts? && !a.HostIsGone? && !a.HostCancels?
  }

  /** The worker cannot move: it is gone, or it waits for room in a full channel. */
  predicate WorkerWaits(s: State) {
    s.worker.Gone? || ((s.worker.InSink? || s.worker.Ending?) && Open(s) && !HasRoom(s))
  }

  /** Some step of worker or forwarder, wherever one is possible. */
  function Mover(c: Script, s: State): Action {
    if !WorkerWaits(s) then
      match s.worker
      case Generating(k) => if k < c.calls then SinkCall else FinishScript
      case InSink(_, _) => if Open(s) then SendItem else SendRefused
      case Ending(_) => if Open(s) then SendLast else LastRefused
      case Gone => JoinWorker
    else if s.forwarder.Receiving? then
      if s.cancelled then NoticeCancel else if s.queue != [] then Receive else EndOfChannel
    else JoinWorker
  }

  /** The pipeline stands still exactly when it has returned, or when the host has
      not yet answered a send and the worker has nothing more it can do. */
  lemma StandstillExactly(c: Script, s: State)
    requires Invariant(c, s)
    ensures (forall a :: Internal(a) ==> !Enabled(c, s, a))
       <==> s.forwarder.Returned? || (s.forwarder.Outputting? && WorkerWaits(s))
  {
    hide OpenInvariant, EncodeAll, Plan;
    if !(s.forwarder.Returned? || (s.forwarder.Outputting? && WorkerWaits(s))) {
      assert Internal(Mover(c, s)) && Enabled(c, s, Mover(c, s));
    }
  }

  /** While it waits for the host, both answers of the host are possible steps; and
      once the receiver is gone the worker is never held up again. */
  lemma HostCanAnswer(c: Script, s: State)
    requires Invariant(c, s)
    ensures s.forwarder.Outputting? ==> Enabled(c, s, HostAccepts) && Enabled(c, s, HostIsGone)
    ensures !Open(s) && !s.worker.Gone? ==> !WorkerWaits(s) && Enabled(c, s, Mover(c, s))
  {
    hide EncodeAll, Plan;
  }

  function ItemsLeft(c: Script, w: Worker): nat {
    match w
    case Generating(k) => |ItemsFrom(c, k)| + 1
    case InSink(items, k) => |items| + |ItemsFrom(c, k)| + 1
    case Ending(_) => 1
    case Gone => 0
  }

  function CallsLeft(c: Script, w: Worker): nat {
    if (w.Generating? || w.InSink?) && w.k < c.calls then c.calls - w.k else 0
  }

  function WorkerPhase(w: Worker): nat {
    match w
    case Generating(_) => 2
    case InSink(_, _) => 2
    case Ending(_) => 1
    case Gone => 0
  }

  function ForwarderWeight(f: Forwarder): nat {
    match f
    case Receiving => 2
    case Outputting(chunks, _) => 2 + |chunks|
    case Joining(_) => 1
    case Returned(_) => 0
  }

  /** What is left to do, over all participants. */
  function Weight(c: Script, s: State): nat {
    4 * ItemsLeft(c, s.worker) + CallsLeft(c, s.worker) + WorkerPhase(s.worker)
    + 3 * |s.queue| + ForwarderWeight(s.forwarder) + (if s.cancelled then 0 else 1)
  }

  lemma WorkerStepWeighs(c: Script, s: State, a: Action)
    requires Enabled(c, s, a) && (a.SinkCall? || a.SendItem? || a.SendRefused? || a.FinishScript? || a.NoticeFlag?)
    ensures Weight(c, Next(c, s, a)) < Weight(c, s)
  {
    hide EncodeItem, EncodeAll;
    if a.SinkCall? {
      RestContinue(c, c.emit(s.worker.k), s.worker.k + 1);
    }
  }

  /** Every step of every participant uses up some of it. */
  lemma StepWeighs(c: Script, s: State, a: Action)
    requires Enabled(c, s, a)
    ensures Weight(c, Next(c, s, a)) < Weight(c, s)
  {
    match a {
      case SinkCall => WorkerStepWeighs(c, s, a);
      case SendItem => WorkerStepWeighs(c, s, a);
      case SendRefused => WorkerStepWeighs(c, s, a);
      case FinishScript => WorkerStepWeighs(c, s, a);
      case NoticeFlag => WorkerStepWeighs(c, s, a);
      case _ =>
    }
  }

  /** So no interleaving goes on for longer than the initial weight. */
  lemma {:induction false} SchedulesAreBounded(c: Script, s: State, schedule: seq<Action>)
    requires Possible(c, s, schedule)
    ensures |schedule| + Weight(c, Execute(c, s, schedule)) <= Weight(c, s)
    decreases |schedule|
  {
    hide Weight, Next, Enabled;
    if schedule != [] {
      StepWeighs(c, s, schedule[0]);
      SchedulesAreBounded(c, Next(c, s, schedule[0]), schedule[1..]);
    }
  }

  /** No stuck pipeline: every schedule is shorter than four steps per planned item
      plus one per sink call and a constant, and a schedule that cannot be continued
      except by a cancel request has returned. */
  lemma EveryRunReturns(c: Script, schedule: seq<Action>)
    requires ValidScript(c) && Possible(c, START, schedule)
    ensures |schedule| <= 4 * |Plan(c)| + c.calls + 5
    ensures var s := Execute(c, START, schedule);
      (forall a :: a != HostCancels ==> !Enabled(c, s, a)) ==> s.forwarder.Returned? && s.worker.Gone?
  {
    SchedulesAreBounded(c, START, schedule);
    StartInvariant(c);
    ExecuteKeepsInvariant(c, START, schedule);
    var s := Execute(c, START, schedule);
    StandstillExactly(c, s);
    HostCanAnswer(c, s);
  }

  // ---- Stopping the worker ----

  /** When the forwarder gave up for a cancel or a lost output, the flag is up. */
  predicate FlagUp(s: State) {
    Decided(s.forwarder) == Some(Cancelled) || Decided(s.forwarder) == Some(OutputLost) ==> s.flag
  }

  lemma {:induction false} FlagUpAlways(c: Script, s: State, schedule: seq<Action>)
    requires FlagUp(s) && Possible(c, s, schedule)
    ensures FlagUp(Execute(c, s, schedule))
    decreases |schedule|
  {
    hide EncodeItem;
    if schedule != [] {
      FlagUpAlways(c, Next(c, s, schedule[0]), schedule[1..]);
    }
  }

  /** Steps a stopped worker has left at most. */
  function StepsLeft(w: Worker): nat {
    match w
    case InSink(_, _) => 3
    case Generating(_) => 2
    case Ending(_) => 1
    case Gone => 0
  }

  predicate WorkerAction(a: Action) {
    a.SinkCall? || a.SendItem? || a.SendRefused? || a.FinishScript? || a.NoticeFlag? || a.SendLast? || a.LastRefused?
  }

  /** Once the flag is up and the receiver gone, the worker is done within three steps,
      however much of its script is left, and puts nothing into the channel. */
  lemma StoppedWorkerEnds(c: Script, s: State, a: Action)
    requires s.flag && !Open(s) && Enabled(c, s, a)
    ensures Next(c, s, a).flag && !Open(Next(c, s, a)) && Next(c, s, a).produced == s.produced
    ensures if WorkerAction(a) then StepsLeft(Next(c, s, a).worker) < StepsLeft(s.worker)
            else Next(c, s, a).worker == s.worker
  {
  }

  // ---- Cancellation ----

  /** Once the flag is up - the forwarder noticed a cancel, or the host walked away -
      the verdict is an error. */
  ghost predicate FlagMeansFailure(s: State) {
    && (s.flag ==> !Open(s))
    && (s.forwarder == Joining(Ok) || s.forwarder == Returned(Ok) ==> s.worker.Gone? && !s.flag)
  }

  lemma StepKeepsFlag(c: Script, s: State, a: Action)
    requires ValidScript(c) && Invariant(c, s) && FlagMeansFailure(s) && Enabled(c, s, a)
    ensures FlagMeansFailure(Next(c, s, a))
  {
    hide EncodeAll, EncodeItem;
    if a.HostAccepts? && s.forwarder.last {
      assert s.produced == Plan(c);
    }
    if a.EndOfChannel? {
      NoEndOfChannel(c, s);
    }
  }

  lemma {:induction false} FlagMeansFailureAlways(c: Script, s: State, schedule: seq<Action>)
    requires ValidScript(c) && Invariant(c, s) && FlagMeansFailure(s) && Possible(c, s, schedule)
    ensures FlagMeansFailure(Execute(c, s, schedule))
    decreases |schedule|
  {
    hide Invariant, Next, Enabled, ValidScript, FlagMeansFailure;
    if schedule != [] {
      StepKeepsInvariant(c, s, schedule[0]);
      StepKeepsFlag(c, s, schedule[0]);
      FlagMeansFailureAlways(c, Next(c, s, schedule[0]), schedule[1..]);
    }
  }

  /** A run that reports success never raised the flag: no cancel request stopped it
      and no output was lost. */
  lemma OkMeansUndisturbed(c: Script, schedule: seq<Action>)
    requires ValidScript(c) && Possible(c, START, schedule)
    ensures var s := Execute(c, START, schedule);
      s.forwarder == Returned(Ok) ==> !s.flag
  {
    StartInvariant(c);
    FlagMeansFailureAlways(c, START, schedule);
  }
}

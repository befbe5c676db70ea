/** Scoring documents with and without the cache (reranker.rs of reranker-runner). */
module Reranker {
  import opened Options
  import opened RerankerCache

  /** What one score depends on.  The cache key leaves the instruction out. */
  datatype Ask = Ask(instruction: Option<string>, query: string, document: string)

  /** Key and scoring function, cache settings. */
  datatype Setup = Setup(
    key: (string, string) -> string,
    score: Ask -> real,
    capacity: nat,
    ttl: nat)

  /** One request; the cancel token is polled before each document that is scored,
      scoring document `i` may fail this time, `clock` gives the time of each cache
      operation. */
  datatype Job = Job(
    instruction: Option<string>,
    query: string,
    documents: seq<string>,
    cancelled: nat -> bool,
    fails: nat -> bool,
    clock: nat -> nat)

  datatype Reply = Scores(scores: seq<real>, hits: nat, misses: nat) | Cancelled

  function AskOf(j: Job, i: nat): Ask
    requires i < |j.documents|
  {
    Ask(j.instruction, j.query, j.documents[i])
  }

  function OwnScore(s: Setup, a: Ask): real {
    s.score(a)
  }

  /** What scoring document `i` yields now; a failed inference counts 0. */
  function Scored(j: Job, s: Setup, i: nat): real
    requires i < |j.documents|
  {
    if j.fails(i) then 0.0 else OwnScore(s, AskOf(j, i))
  }

  function KeyOf(s: Setup, a: Ask): string {
    s.key(a.query, a.document)
  }

  // ---- The four phases ----

  /** Phase 1 over the first `n` documents: hits, and the cache afterwards. */
  function Check(es: Entries, j: Job, s: Setup, n: nat): (r: (seq<Option<real>>, Entries))
    requires n <= |j.documents|
    ensures |r.0| == n && |r.1| <= |es| && (DistinctKeys(es) ==> DistinctKeys(r.1))
  {
    if n == 0 then ([], es)
    else
      var (results, es') := Check(es, j, s, n - 1);
      var (hit, es'') := Get(es', KeyOf(s, AskOf(j, n - 1)), j.clock(n - 1), s.ttl);
      (results + [hit], es'')
  }

  /** Positions of the misses. */
  function Missing(results: seq<Option<real>>): (r: seq<nat>)
    ensures |r| <= |results|
    ensures forall k :: 0 <= k < |r| ==> r[k] < |results|
  {
    if results == [] then []
    else
      var n := |results| - 1;
      Missing(results[..n]) + if results[n].None? then [n] else []
  }

  /** Phase 2 over the first `n` of the given documents. */
  function Sequential(j: Job, s: Setup, which: seq<nat>, n: nat): (r: Option<seq<real>>)
    requires n <= |which| && forall k :: 0 <= k < |which| ==> which[k] < |j.documents|
    ensures r.Some? ==> |r.value| == n && forall k :: 0 <= k < n ==> r.value[k] == Scored(j, s, which[k])
  {
    if n == 0 then Some([])
    else
      var front := Sequential(j, s, which, n - 1);
      if front.None? || j.cancelled(n - 1) then None
      else Some(front.value + [Scored(j, s, which[n - 1])])
  }

  /** Phase 3 over the first `n` misses. */
  function Save(es: Entries, j: Job, s: Setup, which: seq<nat>, scores: seq<real>, n: nat): (r: Entries)
    requires s.capacity > 0 && |es| <= s.capacity && n <= |which| <= |scores|
    requires forall k :: 0 <= k < |which| ==> which[k] < |j.documents|
    ensures |r| <= s.capacity && (DistinctKeys(es) ==> DistinctKeys(r))
  {
    if n == 0 then es
    else Put(Save(es, j, s, which, scores, n - 1), KeyOf(s, AskOf(j, which[n - 1])), scores[n - 1],
             j.clock(|j.documents| + n - 1), s.capacity)
  }

  /** Phase 4: hits stay, misses take the new scores in turn. */
  function Merge(results: seq<Option<real>>, scores: seq<real>): (r: seq<real>)
    requires |Missing(results)| <= |scores|
    ensures |r| == |results|
  {
    if results == [] then []
    else
      var n := |results| - 1;
      Merge(results[..n], scores) +
        [if results[n].Some? then results[n].value else scores[|Missing(results[..n])|]]
  }

  function Serve(es: Entries, j: Job, s: Setup): (r: (Entries, Reply))
    requires s.capacity > 0 && WellFormed(es, s.capacity)
    ensures WellFormed(r.0, s.capacity)
  {
    var (results, es') := Check(es, j, s, |j.documents|);
    var which := Missing(results);
    var scores := Sequential(j, s, which, |which|);
    if scores.None? then (es', Cancelled)
    else (Save(es', j, s, which, scores.value, |which|),
          Scores(Merge(results, scores.value), |results| - |which|, |which|))
  }

  // ---- When the cache is right ----

  /** Asks that share a key share their score: no hash collision between different
      documents, and no two instructions that score a document differently. */
  predicate Compatible(s: Setup, asks: set<Ask>) {
    forall a, b :: a in asks && b in asks && KeyOf(s, a) == KeyOf(s, b) ==> OwnScore(s, a) == OwnScore(s, b)
  }

  predicate DrawnFrom(j: Job, asks: set<Ask>) {
    forall i :: 0 <= i < |j.documents| ==> AskOf(j, i) in asks
  }

  // ---- Requests as cache histories ----

  /** Lookups of the first `n` documents. */
  function LookupOps(j: Job, s: Setup, n: nat): (ops: seq<Op>)
    requires n <= |j.documents|
    ensures forall op :: op in ops ==> op.Looked?
  {
    if n == 0 then [] else LookupOps(j, s, n - 1) + [Looked(KeyOf(s, AskOf(j, n - 1)), j.clock(n - 1))]
  }

  /** What the first `n` of the scored documents store. */
  function SaveOps(j: Job, s: Setup, which: seq<nat>, n: nat): seq<Op>
    requires n <= |which| && forall k :: 0 <= k < |which| ==> which[k] < |j.documents|
  {
    if n == 0 then []
    else
      var i := which[n - 1];
      SaveOps(j, s, which, n - 1) +
        [Stored(KeyOf(s, AskOf(j, i)), Scored(j, s, i), j.clock(|j.documents| + n - 1), j.fails(i))]
  }

  lemma ReplaySnoc(h: seq<Op>, op: Op, s: Setup)
    requires s.capacity > 0
    ensures Replay(h + [op], s.ttl, s.capacity) == Apply(Replay(h, s.ttl, s.capacity), op, s.ttl, s.capacity)
  {
    hide Apply, DistinctKeys;
    assert (h + [op])[..|h|] == h;
  }

  lemma {:induction false} CheckReplays(h: seq<Op>, j: Job, s: Setup, n: nat)
    requires s.capacity > 0 && n <= |j.documents|
    ensures Check(Replay(h, s.ttl, s.capacity), j, s, n).1 == Replay(h + LookupOps(j, s, n), s.ttl, s.capacity)
  {
    hide Get, DistinctKeys, Replay, KeyOf;
    if n == 0 {
      assert h + [] == h;
    } else {
      CheckReplays(h, j, s, n - 1);
      var op := Looked(KeyOf(s, AskOf(j, n - 1)), j.clock(n - 1));
      ReplaySnoc(h + LookupOps(j, s, n - 1), op, s);
      assert h + LookupOps(j, s, n) == h + LookupOps(j, s, n - 1) + [op];
    }
  }

  lemma {:induction false} SaveReplays(h: seq<Op>, j: Job, s: Setup, which: seq<nat>, scores: seq<real>, n: nat)
    requires s.capacity > 0 && n <= |which| <= |scores|
    requires forall k :: 0 <= k < |which| ==> which[k] < |j.documents| && scores[k] == Scored(j, s, which[k])
    ensures Save(Replay(h, s.ttl, s.capacity), j, s, which, scores, n)
         == Replay(h + SaveOps(j, s, which, n), s.ttl, s.capacity)
  {
    hide Put, DistinctKeys, Replay, KeyOf, Scored;
    if n == 0 {
      assert h + [] == h;
    } else {
      SaveReplays(h, j, s, which, scores, n - 1);
      var i := which[n - 1];
      var op := Stored(KeyOf(s, AskOf(j, i)), Scored(j, s, i), j.clock(|j.documents| + n - 1), j.fails(i));
      ReplaySnoc(h + SaveOps(j, s, which, n - 1), op, s);
      assert h + SaveOps(j, s, which, n) == h + SaveOps(j, s, which, n - 1) + [op];
    }
  }

  /** What a request does to the cache: all lookups, then, unless it was cancelled, the
      scores of the misses. */
  function JobOps(es: Entries, j: Job, s: Setup): seq<Op> {
    var which := Missing(Check(es, j, s, |j.documents|).0);
    LookupOps(j, s, |j.documents|) +
      if Sequential(j, s, which, |which|).Some? then SaveOps(j, s, which, |which|) else []
  }

  lemma ServeReplays(h: seq<Op>, j: Job, s: Setup)
    requires s.capacity > 0
    ensures var es := Replay(h, s.ttl, s.capacity);
      Serve(es, j, s).0 == Replay(h + JobOps(es, j, s), s.ttl, s.capacity)
  {
    hide Replay, Get, Put, DistinctKeys, Scored, Merge, Missing, Check, Save, LookupOps, SaveOps;
    var es := Replay(h, s.ttl, s.capacity);
    var looked := h + LookupOps(j, s, |j.documents|);
    CheckReplays(h, j, s, |j.documents|);
    var which := Missing(Check(es, j, s, |j.documents|).0);
    var scores := Sequential(j, s, which, |which|);
    if scores.Some? {
      SaveReplays(looked, j, s, which, scores.value, |which|);
      assert h + JobOps(es, j, s) == looked + SaveOps(j, s, which, |which|);
    } else {
      assert h + JobOps(es, j, s) == looked;
    }
  }

  // ---- The exact reply ----

  lemma {:induction false} LookupsStoreNothing(h: seq<Op>, ops: seq<Op>, key: string)
    requires forall op :: op in ops ==> op.Looked?
    ensures LastStored(h + ops, key) == LastStored(h, key)
    decreases |ops|
  {
    if ops == [] {
      assert h + ops == h;
    } else {
      var front := ops[..|ops| - 1];
      assert (h + ops)[..|h + ops| - 1] == h + front;
      assert ops[|ops| - 1] in ops;
      LookupsStoreNothing(h, front, key);
    }
  }

  /** Document `i` was found: its answer is the score stored last under its key, alive
      when it was looked up. */
  predicate Remembered(x: real, j: Job, s: Setup, i: nat, h: seq<Op>)
    requires i < |j.documents|
  {
    var o := LastStored(h, KeyOf(s, AskOf(j, i)));
    o.Some? && o.value.score == x && 0 < s.ttl && j.clock(i) < o.value.now + s.ttl
  }

  predicate AllRemembered(results: seq<Option<real>>, j: Job, s: Setup, h: seq<Op>)
    requires |results| <= |j.documents|
  {
    forall i :: 0 <= i < |results| && results[i].Some? ==> Remembered(results[i].value, j, s, i, h)
  }

  lemma {:induction false} HitsAreRemembered(h: seq<Op>, j: Job, s: Setup, n: nat)
    requires s.capacity > 0 && n <= |j.documents|
    ensures AllRemembered(Check(Replay(h, s.ttl, s.capacity), j, s, n).0, j, s, h)
  {
    hide Get, DistinctKeys, Replay, LastStored;
    if n > 0 {
      HitsAreRemembered(h, j, s, n - 1);
      CheckReplays(h, j, s, n - 1);
      var key := KeyOf(s, AskOf(j, n - 1));
      var ops := LookupOps(j, s, n - 1);
      HitIsLastStored(h + ops, key, j.clock(n - 1), s.ttl, s.capacity);
      LookupsStoreNothing(h, ops, key);
    }
  }

  /** The answer for document `i`: scored now after a miss, remembered after a hit. */
  predicate ExactAnswer(x: real, j: Job, s: Setup, i: nat, hit: bool, h: seq<Op>)
    requires i < |j.documents|
  {
    if hit then Remembered(x, j, s, i, h) else x == Scored(j, s, i)
  }

  /** The reply to `j` after the history `h`, with the hits and misses of `results`. */
  predicate ExactReply(j: Job, s: Setup, r: Reply, h: seq<Op>, results: seq<Option<real>>) {
    r.Scores? ==>
      && |r.scores| == |results| == |j.documents| == r.hits + r.misses
      && r.misses == |Missing(results)|
      && forall i :: 0 <= i < |results| ==> ExactAnswer(r.scores[i], j, s, i, results[i].Some?, h)
  }

  lemma {:induction false} MergeIsExact(results: seq<Option<real>>, scores: seq<real>, j: Job, s: Setup, h: seq<Op>)
    requires |results| <= |j.documents| && |Missing(results)| <= |scores|
    requires AllRemembered(results, j, s, h)
    requires forall k :: 0 <= k < |Missing(results)| ==> scores[k] == Scored(j, s, Missing(results)[k])
    ensures forall i :: 0 <= i < |results| ==>
      ExactAnswer(Merge(results, scores)[i], j, s, i, results[i].Some?, h)
    decreases |results|
  {
    hide Scored, Remembered;
    if results != [] {
      var n := |results| - 1;
      var front := results[..n];
      assert Missing(front) <= Missing(results);
      forall k | 0 <= k < |Missing(front)| ensures scores[k] == Scored(j, s, Missing(front)[k]) {
        assert Missing(front)[k] == Missing(results)[k];
      }
      MergeIsExact(front, scores, j, s, h);
      if results[n].None? {
        assert Missing(results)[|Missing(front)|] == n;
      }
    }
  }

  /** After every history of the cache, with any keys, instructions, failures and
      cancellations: a miss is answered with what scoring yields now, a hit with the
      live score stored last under the key, each in its place. */
  lemma ServeIsExact(h: seq<Op>, j: Job, s: Setup)
    requires s.capacity > 0
    ensures var es := Replay(h, s.ttl, s.capacity);
      ExactReply(j, s, Serve(es, j, s).1, h, Check(es, j, s, |j.documents|).0)
  {
    hide Replay, DistinctKeys, Scored, AllRemembered, Put, Get, Merge, Missing, ExactAnswer, Save, Check;
    var es := Replay(h, s.ttl, s.capacity);
    HitsAreRemembered(h, j, s, |j.documents|);
    var results := Check(es, j, s, |j.documents|).0;
    var which := Missing(results);
    var scores := Sequential(j, s, which, |which|);
    if scores.Some? {
      MergeIsExact(results, scores.value, j, s, h);
    }
  }

  lemma {:induction false} SequentialCancels(j: Job, s: Setup, which: seq<nat>, n: nat)
    requires n <= |which| && forall k :: 0 <= k < |which| ==> which[k] < |j.documents|
    ensures Sequential(j, s, which, n).None? <==> exists k :: 0 <= k < n && j.cancelled(k)
  {
    hide Scored;
    if n > 0 {
      SequentialCancels(j, s, which, n - 1);
    }
  }

  /** A request is cancelled exactly when the cancel is found at a poll before one of
      the misses, and then it has stored nothing; without misses it never is. */
  lemma CancelledExactly(es: Entries, j: Job, s: Setup)
    requires s.capacity > 0 && WellFormed(es, s.capacity)
    ensures var (results, es') := Check(es, j, s, |j.documents|);
      && (Serve(es, j, s).1.Cancelled? <==> exists k :: 0 <= k < |Missing(results)| && j.cancelled(k))
      && (Serve(es, j, s).1.Cancelled? ==> Serve(es, j, s).0 == es')
  {
    hide Check, Missing, Merge, Save, Sequential, DistinctKeys;
    var which := Missing(Check(es, j, s, |j.documents|).0);
    SequentialCancels(j, s, which, |which|);
  }

  /** The misses are the documents without a hit, in order. */
  lemma {:induction false} MissingExactly(results: seq<Option<real>>, i: nat)
    ensures i in Missing(results) <==> i < |results| && results[i].None?
    ensures forall k, l :: 0 <= k < l < |Missing(results)| ==> Missing(results)[k] < Missing(results)[l]
    decreases |results|
  {
    if results != [] {
      MissingExactly(results[..|results| - 1], i);
    }
  }

  // ---- When replies are right ----

  /** A stored score is that of whatever it may be looked up for, or the 0 of a failed
      inference. */
  predicate OpFair(op: Op, s: Setup, asks: set<Ask>) {
    op.Stored? ==> forall a :: a in asks && KeyOf(s, a) == op.key ==>
      op.score == if op.failed then 0.0 else OwnScore(s, a)
  }

  predicate HistoryFair(h: seq<Op>, s: Setup, asks: set<Ask>) {
    forall op :: op in h ==> OpFair(op, s, asks)
  }

  lemma {:induction false} LastStoredIsIn(h: seq<Op>, key: string)
    ensures LastStored(h, key).Some? ==> LastStored(h, key).value in h
  {
    if h != [] {
      LastStoredIsIn(h[..|h| - 1], key);
    }
  }

  lemma {:induction false} SavesAreFair(j: Job, s: Setup, which: seq<nat>, n: nat, asks: set<Ask>)
    requires n <= |which| && forall k :: 0 <= k < |which| ==> which[k] < |j.documents|
    requires DrawnFrom(j, asks) && Compatible(s, asks)
    ensures HistoryFair(SaveOps(j, s, which, n), s, asks)
  {
    hide OwnScore, KeyOf, OpFair;
    if n > 0 {
      SavesAreFair(j, s, which, n - 1, asks);
      SaveIsFair(j, s, which[n - 1], j.clock(|j.documents| + n - 1), asks);
    }
  }

  lemma SaveIsFair(j: Job, s: Setup, i: nat, now: nat, asks: set<Ask>)
    requires i < |j.documents| && DrawnFrom(j, asks) && Compatible(s, asks)
    ensures OpFair(Stored(KeyOf(s, AskOf(j, i)), Scored(j, s, i), now, j.fails(i)), s, asks)
  {
    hide OwnScore, KeyOf;
    assert AskOf(j, i) in asks;
  }

  /** `x` is the document's own score; or it is the 0 of an inference that failed just
      now, or of the last one under its key, which failed and has not expired. */
  predicate Fair(x: real, j: Job, s: Setup, i: nat, h: seq<Op>)
    requires i < |j.documents|
  {
    var o := LastStored(h, KeyOf(s, AskOf(j, i)));
    || x == OwnScore(s, AskOf(j, i))
    || (x == 0.0 && (j.fails(i) || (o.Some? && o.value.failed && 0 < s.ttl && j.clock(i) < o.value.now + s.ttl)))
  }

  lemma ExactIsFair(x: real, j: Job, s: Setup, i: nat, hit: bool, h: seq<Op>, asks: set<Ask>)
    requires i < |j.documents| && DrawnFrom(j, asks) && HistoryFair(h, s, asks)
    requires ExactAnswer(x, j, s, i, hit, h)
    ensures Fair(x, j, s, i, h)
  {
    hide OwnScore;
    if hit {
      LastStoredIsIn(h, KeyOf(s, AskOf(j, i)));
      assert OpFair(LastStored(h, KeyOf(s, AskOf(j, i))).value, s, asks);
      assert AskOf(j, i) in asks;
    }
  }

  /** Every document has its own score in its own place, failures aside. */
  predicate RightReply(j: Job, s: Setup, r: Reply, h: seq<Op>) {
    r.Scores? ==>
      && |r.scores| == |j.documents| == r.hits + r.misses
      && forall i :: 0 <= i < |r.scores| ==> Fair(r.scores[i], j, s, i, h)
  }

  lemma JobIsFair(es: Entries, j: Job, s: Setup, asks: set<Ask>)
    requires DrawnFrom(j, asks) && Compatible(s, asks)
    ensures HistoryFair(JobOps(es, j, s), s, asks)
  {
    hide OpFair, Check, Missing, Compatible, DrawnFrom, SaveOps, Scored;
    var looked := LookupOps(j, s, |j.documents|);
    forall op | op in looked ensures OpFair(op, s, asks) {
      LookIsFair(op, s, asks);
    }
    var which := Missing(Check(es, j, s, |j.documents|).0);
    SavesAreFair(j, s, which, |which|, asks);
  }

  lemma LookIsFair(op: Op, s: Setup, asks: set<Ask>)
    requires op.Looked?
    ensures OpFair(op, s, asks)
  {
  }

  /** One request after a fair history: every document gets its own score in its own
      place, hits and misses add up, and the history stays fair - when the request was
      cancelled half-way, too. */
  lemma ServeIsRight(h: seq<Op>, j: Job, s: Setup, asks: set<Ask>)
    requires s.capacity > 0 && HistoryFair(h, s, asks) && Compatible(s, asks) && DrawnFrom(j, asks)
    ensures var es := Replay(h, s.ttl, s.capacity);
      RightReply(j, s, Serve(es, j, s).1, h) && HistoryFair(h + JobOps(es, j, s), s, asks)
  {
    hide Replay, Serve, Check, Missing, Compatible, DrawnFrom, Fair, ExactAnswer, JobOps, OpFair;
    var es := Replay(h, s.ttl, s.capacity);
    ServeIsExact(h, j, s);
    JobIsFair(es, j, s, asks);
    var results := Check(es, j, s, |j.documents|).0;
    var r := Serve(es, j, s).1;
    if r.Scores? {
      forall i | 0 <= i < |r.scores| ensures Fair(r.scores[i], j, s, i, h) {
        ExactIsFair(r.scores[i], j, s, i, results[i].Some?, h, asks);
      }
    }
  }

  // ---- Runs ----

  /** Cache and replies after serving `jobs` one after the other. */
  function ServeAll(jobs: seq<Job>, s: Setup): (r: (Entries, seq<Reply>))
    requires s.capacity > 0
    ensures WellFormed(r.0, s.capacity) && |r.1| == |jobs|
  {
    if jobs == [] then ([], [])
    else
      var (es, replies) := ServeAll(jobs[..|jobs| - 1], s);
      var (es', reply) := Serve(es, jobs[|jobs| - 1], s);
      (es', replies + [reply])
  }

  predicate JobsFrom(jobs: seq<Job>, asks: set<Ask>) {
    forall i :: 0 <= i < |jobs| ==> DrawnFrom(jobs[i], asks)
  }

  /** Everything the run has done to the cache. */
  function HistoryOf(jobs: seq<Job>, s: Setup): seq<Op>
    requires s.capacity > 0
  {
    if jobs == [] then []
    else
      var front := jobs[..|jobs| - 1];
      HistoryOf(front, s) + JobOps(ServeAll(front, s).0, jobs[|jobs| - 1], s)
  }

  lemma {:induction false} RunReplays(jobs: seq<Job>, s: Setup)
    requires s.capacity > 0
    ensures ServeAll(jobs, s).0 == Replay(HistoryOf(jobs, s), s.ttl, s.capacity)
    decreases |jobs|
  {
    hide Serve, JobOps, Get, Put, DistinctKeys;
    if jobs != [] {
      var front := jobs[..|jobs| - 1];
      RunReplays(front, s);
      hide Replay;
      ServeReplays(HistoryOf(front, s), jobs[|jobs| - 1], s);
    }
  }

  /** Request `i` of a run: what is in the cache when it comes, and its reply. */
  lemma {:induction false} RequestOfRun(jobs: seq<Job>, s: Setup, i: nat)
    requires s.capacity > 0 && i < |jobs|
    ensures ServeAll(jobs, s).1[i] == Serve(Replay(HistoryOf(jobs[..i], s), s.ttl, s.capacity), jobs[i], s).1
    decreases |jobs|
  {
    hide Serve, Replay, HistoryOf, DistinctKeys;
    var n := |jobs| - 1;
    if i == n {
      RunReplays(jobs[..n], s);
    } else {
      RequestOfRun(jobs[..n], s, i);
      assert jobs[..n][..i] == jobs[..i];
    }
  }

  predicate RepliesRight(jobs: seq<Job>, s: Setup)
    requires s.capacity > 0
  {
    forall i :: 0 <= i < |jobs| ==> RightReply(jobs[i], s, ServeAll(jobs, s).1[i], HistoryOf(jobs[..i], s))
  }

  /** Every reply of every run, exactly. */
  lemma RunIsExact(jobs: seq<Job>, s: Setup, i: nat)
    requires s.capacity > 0 && i < |jobs|
    ensures var h := HistoryOf(jobs[..i], s);
      ExactReply(jobs[i], s, ServeAll(jobs, s).1[i], h,
                 Check(Replay(h, s.ttl, s.capacity), jobs[i], s, |jobs[i].documents|).0)
  {
    hide Serve, Replay, HistoryOf, Check, ExactReply, ServeAll;
    RequestOfRun(jobs, s, i);
    ServeIsExact(HistoryOf(jobs[..i], s), jobs[i], s);
  }

  lemma {:induction false} HistoryIsFair(jobs: seq<Job>, s: Setup, asks: set<Ask>)
    requires s.capacity > 0 && Compatible(s, asks) && JobsFrom(jobs, asks)
    ensures HistoryFair(HistoryOf(jobs, s), s, asks)
    decreases |jobs|
  {
    hide Compatible, DrawnFrom, JobOps, ServeAll, OpFair;
    if jobs != [] {
      var front := jobs[..|jobs| - 1];
      HistoryIsFair(front, s, asks);
      JobIsFair(ServeAll(front, s).0, jobs[|jobs| - 1], s, asks);
    }
  }

  lemma RunIsRight(jobs: seq<Job>, s: Setup, asks: set<Ask>)
    requires s.capacity > 0 && Compatible(s, asks) && JobsFrom(jobs, asks)
    ensures RepliesRight(jobs, s)
  {
    hide Serve, ServeAll, Replay, HistoryOf, Compatible, DrawnFrom, RightReply, HistoryFair;
    forall i | 0 <= i < |jobs|
      ensures RightReply(jobs[i], s, ServeAll(jobs, s).1[i], HistoryOf(jobs[..i], s))
    {
      HistoryIsFair(jobs[..i], s, asks);
      RequestOfRun(jobs, s, i);
      ServeIsRight(HistoryOf(jobs[..i], s), jobs[i], s, asks);
    }
  }

  /** One document asked for at time `now`. */
  function Attempt(a: Ask, fails: bool, now: nat): Job {
    Job(a.instruction, a.query, [a.document], (n: nat) => false, (n: nat) => fails, (n: nat) => now)
  }

  function Single(a: Ask): Job {
    Attempt(a, false, 0)
  }

  lemma CheckStep(es: Entries, j: Job, s: Setup, n: nat)
    requires n < |j.documents|
    ensures var (results, es') := Check(es, j, s, n);
      var (hit, es'') := Get(es', KeyOf(s, AskOf(j, n)), j.clock(n), s.ttl);
      Check(es, j, s, n + 1) == (results + [hit], es'')
    ensures Check(es, j, s, 0) == ([], es)
  {
    hide Get, DistinctKeys, KeyOf;
  }

  lemma SequentialStep(j: Job, s: Setup, which: seq<nat>, n: nat)
    requires n < |which| && forall k :: 0 <= k < |which| ==> which[k] < |j.documents|
    ensures Sequential(j, s, which, n + 1) ==
      var front := Sequential(j, s, which, n);
      if front.None? || j.cancelled(n) then None else Some(front.value + [Scored(j, s, which[n])])
    ensures Sequential(j, s, which, 0) == Some([])
  {
    hide Scored;
  }

  lemma SaveStep(es: Entries, j: Job, s: Setup, which: seq<nat>, scores: seq<real>, n: nat)
    requires s.capacity > 0 && |es| <= s.capacity && n < |which| <= |scores|
    requires forall k :: 0 <= k < |which| ==> which[k] < |j.documents|
    ensures Save(es, j, s, which, scores, n + 1)
         == Put(Save(es, j, s, which, scores, n), KeyOf(s, AskOf(j, which[n])), scores[n],
                j.clock(|j.documents| + n), s.capacity)
  {
    hide Put, DistinctKeys, KeyOf;
  }

  lemma SaveNothing(es: Entries, j: Job, s: Setup, which: seq<nat>, scores: seq<real>)
    requires s.capacity > 0 && |es| <= s.capacity && |which| <= |scores|
    requires forall k :: 0 <= k < |which| ==> which[k] < |j.documents|
    ensures Save(es, j, s, which, scores, 0) == es
  {
  }

  lemma CheckAttempt(es: Entries, a: Ask, fails: bool, now: nat, s: Setup)
    ensures var (hit, es') := Get(es, KeyOf(s, a), now, s.ttl);
      Check(es, Attempt(a, fails, now), s, 1) == ([hit], es')
  {
    hide Get, DistinctKeys, KeyOf;
    var j := Attempt(a, fails, now);
    assert AskOf(j, 0) == a && j.clock(0) == now;
    CheckStep(es, j, s, 0);
    var hit := Get(es, KeyOf(s, a), now, s.ttl).0;
    assert [] + [hit] == [hit];
  }

  lemma AttemptScores(a: Ask, fails: bool, now: nat, s: Setup)
    ensures var j := Attempt(a, fails, now);
      AskOf(j, 0) == a && Scored(j, s, 0) == if fails then 0.0 else OwnScore(s, a)
  {
  }

  lemma OneMissing(x: real)
    ensures Missing([None]) == [0] && Merge([None], [x]) == [x]
  {
    var results: seq<Option<real>> := [None];
    assert results[..0] == [];
    assert Missing([]) == [] && Merge([], [x]) == [];
  }

  lemma AttemptMisses(es: Entries, a: Ask, fails: bool, now: nat, s: Setup)
    requires s.capacity > 0 && WellFormed(es, s.capacity)
    requires Get(es, KeyOf(s, a), now, s.ttl).0.None?
    ensures var x := if fails then 0.0 else OwnScore(s, a);
      Serve(es, Attempt(a, fails, now), s)
        == (Put(Get(es, KeyOf(s, a), now, s.ttl).1, KeyOf(s, a), x, now, s.capacity), Scores([x], 0, 1))
  {
    hide Get, Put, OwnScore, DistinctKeys, Missing, Merge, Check, Sequential, Save, Scored, KeyOf;
    var j := Attempt(a, fails, now);
    var x := if fails then 0.0 else OwnScore(s, a);
    AttemptScores(a, fails, now, s);
    CheckAttempt(es, a, fails, now, s);
    var (results, es') := Check(es, j, s, 1);
    OneMissing(x);
    SequentialStep(j, s, [0], 0);
    assert [] + [x] == [x];
    SaveStep(es', j, s, [0], [x], 0);
    SaveNothing(es', j, s, [0], [x]);
    assert j.clock(1) == now;
  }

  lemma AttemptHits(es: Entries, a: Ask, fails: bool, now: nat, s: Setup)
    requires s.capacity > 0 && WellFormed(es, s.capacity)
    requires Get(es, KeyOf(s, a), now, s.ttl).0.Some?
    ensures Serve(es, Attempt(a, fails, now), s).1 == Scores([Get(es, KeyOf(s, a), now, s.ttl).0.value], 1, 0)
  {
    hide Get, Put, OwnScore, DistinctKeys;
    var j := Attempt(a, fails, now);
    assert AskOf(j, 0) == a;
    CheckAttempt(es, a, fails, now, s);
    var (results, es') := Check(es, j, s, 1);
    assert results[..0] == [];
    assert Missing(results) == [];
    assert Merge([], []) == [];
  }

  /** The 0 of a failed inference is served to the next request exactly as long as it
      lives, although that request could have scored the document. */
  lemma FailureIsServedExactly(es: Entries, a: Ask, s: Setup, now: nat, later: nat)
    requires s.capacity > 0 && WellFormed(es, s.capacity)
    requires Get(es, KeyOf(s, a), now, s.ttl).0.None?
    ensures var es' := Serve(es, Attempt(a, true, now), s).0;
      Serve(es', Attempt(a, false, later), s).1 ==
        if 0 < s.ttl && later < now + s.ttl then Scores([0.0], 1, 0) else Scores([OwnScore(s, a)], 0, 1)
  {
    hide Get, Put, OwnScore, Serve, DistinctKeys;
    var kept := Get(es, KeyOf(s, a), now, s.ttl).1;
    AttemptMisses(es, a, true, now, s);
    PutThenGet(kept, KeyOf(s, a), 0.0, now, later, s.ttl, s.capacity);
    var es' := Serve(es, Attempt(a, true, now), s).0;
    if 0 < s.ttl && later < now + s.ttl {
      AttemptHits(es', a, false, later, s);
    } else {
      AttemptMisses(es', a, false, later, s);
    }
  }

  lemma {:induction false} NeverFailedStores(j: Job, s: Setup, which: seq<nat>, n: nat)
    requires n <= |which| && forall k :: 0 <= k < |which| ==> which[k] < |j.documents|
    requires forall i :: !j.fails(i)
    ensures forall op :: op in SaveOps(j, s, which, n) ==> op.Stored? && !op.failed
  {
    if n > 0 {
      NeverFailedStores(j, s, which, n - 1);
    }
  }

  /** Nothing a single successful request stores stands for a failure. */
  lemma SingleDoesNotFail(a: Ask, s: Setup)
    requires s.capacity > 0
    ensures var o := LastStored(HistoryOf([Single(a)], s), KeyOf(s, a)); o.Some? ==> !o.value.failed
  {
    hide Check, Missing, LookupOps, SaveOps, KeyOf, ServeAll;
    var j, jobs := Single(a), [Single(a)];
    assert jobs[..|jobs| - 1] == [];
    var which := Missing(Check(ServeAll([], s).0, j, s, |j.documents|).0);
    NeverFailedStores(j, s, which, |which|);
    LastStoredIsIn(HistoryOf(jobs, s), KeyOf(s, a));
  }

  lemma CollisionAnswersWrong(a: Ask, b: Ask, s: Setup)
    requires s.capacity > 0 && s.ttl > 0
    requires KeyOf(s, a) == KeyOf(s, b) && OwnScore(s, a) != OwnScore(s, b)
    ensures !RepliesRight([Single(a), Single(b)], s)
  {
    hide OwnScore, Serve, HistoryOf, LastStored;
    SingleDoesNotFail(a, s);
    var jobs := [Single(a), Single(b)];
    var first := ServeAll([Single(a)], s).0;
    assert jobs[..1] == [Single(a)] && [Single(a)][..0] == [];
    assert ServeAll([], s) == ([], []);
    assert Get([], KeyOf(s, a), 0, s.ttl) == (None, []);
    AttemptMisses([], a, false, 0, s);
    assert first == Put([], KeyOf(s, a), OwnScore(s, a), 0, s.capacity);
    PutThenGet([], KeyOf(s, a), OwnScore(s, a), 0, 0, s.ttl, s.capacity);
    AttemptHits(first, b, false, 0, s);
    var r := ServeAll(jobs, s).1[1];
    assert r == Scores([OwnScore(s, a)], 1, 0);
    assert AskOf(Single(b), 0) == b && !Single(b).fails(0);
    assert !Fair(r.scores[0], jobs[1], s, 0, HistoryOf(jobs[..1], s));
  }

  ghost predicate AlwaysRight(s: Setup, asks: set<Ask>)
    requires s.capacity > 0
  {
    forall jobs :: JobsFrom(jobs, asks) ==> RepliesRight(jobs, s)
  }

  /** Cached scoring equals uncached scoring over every run of requests, with any
      hits, misses, expiries, evictions, failures and cancellations, if and only if
      asks that share a key share their score. */
  lemma CachedScoringExact(s: Setup, asks: set<Ask>)
    requires s.capacity > 0 && s.ttl > 0
    ensures AlwaysRight(s, asks) <==> Compatible(s, asks)
  {
    if Compatible(s, asks) {
      forall jobs | JobsFrom(jobs, asks) ensures RepliesRight(jobs, s) {
        RunIsRight(jobs, s, asks);
      }
    } else {
      hide RepliesRight, OwnScore;
      var a, b :| a in asks && b in asks && KeyOf(s, a) == KeyOf(s, b) && OwnScore(s, a) != OwnScore(s, b);
      CollisionAnswersWrong(a, b, s);
      assert JobsFrom([Single(a), Single(b)], asks);
    }
  }

  /** What a caller can check: with one instruction throughout and a key that tells
      queries and documents apart, the cache never shows. */
  lemma OneInstructionIsSafe(s: Setup, asks: set<Ask>, instruction: Option<string>)
    requires s.capacity > 0 && s.ttl > 0
    requires forall a :: a in asks ==> a.instruction == instruction
    requires forall a, b :: a in asks && b in asks && KeyOf(s, a) == KeyOf(s, b) ==>
      a.query == b.query && a.document == b.document
    ensures Compatible(s, asks) && AlwaysRight(s, asks)
  {
    forall a, b | a in asks && b in asks && KeyOf(s, a) == KeyOf(s, b) ensures OwnScore(s, a) == OwnScore(s, b) {
      assert a == b;
    }
    CachedScoringExact(s, asks);
  }

  /** The instruction is not part of the key: asking the same question about the
      same document under another instruction answers with the old score. */
  lemma InstructionIsNotInKey(s: Setup, query: string, document: string, i1: Option<string>, i2: Option<string>)
    requires s.capacity > 0 && s.ttl > 0
    requires OwnScore(s, Ask(i1, query, document)) != OwnScore(s, Ask(i2, query, document))
    ensures !RepliesRight([Single(Ask(i1, query, document)), Single(Ask(i2, query, document))], s)
  {
    CollisionAnswersWrong(Ask(i1, query, document), Ask(i2, query, document), s);
  }

  // ---- The reranker ----

  class LlamaReranker {
    const setup: Setup
    const cache: Cache

    ghost predicate Valid()
      reads this, cache
    {
      cache.Valid() && setup.capacity == cache.capacity && setup.ttl == cache.ttl
    }

    constructor (setup: Setup)
      requires setup.capacity > 0
      ensures Valid() && this.setup == setup && fresh(cache) && cache.entries == []
    {
      this.setup := setup;
      cache := new Cache(setup.capacity, setup.ttl);
    }

    method ComputeScoresSequential(j: Job, which: seq<nat>) returns (scores: Option<seq<real>>)
      requires forall k :: 0 <= k < |which| ==> which[k] < |j.documents|
      ensures scores == Sequential(j, setup, which, |which|)
    {
      var out: seq<real> := [];
      for n := 0 to |which|
        invariant Sequential(j, setup, which, n) == Some(out)
      {
        if j.cancelled(n) {
          StaysCancelled(j, setup, which, n + 1, |which|);
          return None;
        }
        if j.fails(which[n]) {
          out := out + [0.0];
        } else {
          out := out + [setup.score(AskOf(j, which[n]))];
        }
      }
      return Some(out);
    }

    method CheckCache(j: Job) returns (results: seq<Option<real>>, missing: seq<nat>)
      requires Valid()
      modifies cache`entries
      ensures Valid()
      ensures (results, cache.entries) == Check(old(cache.entries), j, setup, |j.documents|)
      ensures missing == Missing(results)
    {
      results, missing := [], [];
      ghost var start := cache.entries;
      for idx := 0 to |j.documents|
        invariant Valid()
        invariant (results, cache.entries) == Check(start, j, setup, idx)
        invariant missing == Missing(results)
      {
        hide Get;
        var hit := cache.Lookup(KeyOf(setup, AskOf(j, idx)), j.clock(idx));
        assert (results + [hit])[..idx] == results;
        if hit.None? {
          missing := missing + [idx];
        }
        results := results + [hit];
      }
    }

    method SaveScores(j: Job, which: seq<nat>, scores: seq<real>)
      requires Valid() && |which| == |scores|
      requires forall k :: 0 <= k < |which| ==> which[k] < |j.documents|
      modifies cache`entries
      ensures Valid()
      ensures cache.entries == Save(old(cache.entries), j, setup, which, scores, |which|)
    {
      hide Put, DistinctKeys, KeyOf, Save;
      ghost var start := cache.entries;
      SaveNothing(start, j, setup, which, scores);
      for i := 0 to |which|
        invariant Valid()
        invariant cache.entries == Save(start, j, setup, which, scores, i)
      {
        SaveStep(start, j, setup, which, scores, i);
        cache.Store(KeyOf(setup, AskOf(j, which[i])), scores[i], j.clock(|j.documents| + i));
      }
    }

    method MergeScores(results: seq<Option<real>>, scores: seq<real>) returns (merged: seq<real>)
      requires |scores| == |Missing(results)|
      ensures merged == Merge(results, scores)
    {
      merged := [];
      var next := 0;
      assert results[..0] == [];
      for i := 0 to |results|
        invariant next == |Missing(results[..i])| <= |scores|
        invariant merged == Merge(results[..i], scores)
      {
        MissingGrows(results, i);
        assert results[..i + 1][..i] == results[..i];
        if results[i].Some? {
          merged := merged + [results[i].value];
        } else {
          merged := merged + [scores[next]];
          next := next + 1;
        }
      }
      assert results[..|results|] == results;
    }

    method ComputeScoresWithCache(j: Job) returns (reply: Reply)
      requires Valid()
      modifies cache`entries
      ensures Valid()
      ensures (cache.entries, reply) == Serve(old(cache.entries), j, setup)
    {
      hide Check, Missing, Sequential, Save, Merge;
      var results, missing := CheckCache(j);
      var scores := ComputeScoresSequential(j, missing);
      if scores.None? {
        return Cancelled;
      }
      SaveScores(j, missing, scores.value);
      var merged := MergeScores(results, scores.value);
      return Scores(merged, |results| - |missing|, |missing|);
    }
  }

  lemma {:induction false} StaysCancelled(j: Job, s: Setup, which: seq<nat>, n: nat, m: nat)
    requires n <= m <= |which| && forall k :: 0 <= k < |which| ==> which[k] < |j.documents|
    requires Sequential(j, s, which, n).None?
    ensures Sequential(j, s, which, m).None?
  {
    if n < m {
      StaysCancelled(j, s, which, n, m - 1);
    }
  }

  lemma {:induction false} MissingGrows(results: seq<Option<real>>, i: nat)
    requires i < |results|
    ensures |Missing(results[..i])| <= |Missing(results[..i + 1])| <= |Missing(results)|
    ensures |Missing(results[..i + 1])| == |Missing(results[..i])| + (if results[i].None? then 1 else 0)
    decreases |results|
  {
    assert results[..i + 1][..i] == results[..i];
    if i + 1 < |results| {
      var front := results[..|results| - 1];
      MissingGrows(front, i);
      assert front[..i] == results[..i] && front[..i + 1] == results[..i + 1];
    } else {
      assert results[..i + 1] == results;
    }
  }
}

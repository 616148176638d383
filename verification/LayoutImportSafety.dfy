/**
 What every run of the import batch keeps: each planned source is in exactly one place, children are linked to their
 tickets, imports run only with consent, and the effects happen once and in order.
 */
module LayoutImportSafety {
  import opened Basics
  import opened LayoutImport

  // ---------- Places ----------

  function Count(q: seq<nat>, i: nat): nat {
    if q == [] then 0 else One(q[0] == i) + Count(q[1..], i)
  }

  lemma {:induction false} CountAppend(q: seq<nat>, x: nat, i: nat)
    ensures Count(q + [x], i) == Count(q, i) + One(x == i)
  {
    if q == [] {
      assert [x][1..] == [];
    } else {
      CountAppend(q[1..], x, i);
      assert (q + [x])[1..] == q[1..] + [x];
    }
  }

  /** 0 for a source in `open`, 1 for any other. */
  function Due(i: nat, open: set<nat>): nat {
    if i in open then 0 else 1
  }

  /** How many of the four places source `i` is in: concluded, awaiting a ticket, the active job, the queue. */
  function Places(b: Batch, i: nat): nat
    requires i < |b.sources|
  {
    One(b.sources[i].result.Some?) + One(b.sources[i].ticket.Some?) + One(b.active == Some(i)) + Count(b.queue, i)
  }

  /** Every source is in exactly one place, except those in `open`, which are in none. */
  ghost predicate Placed(b: Batch, open: set<nat>) {
    InRange(b) && forall i :: 0 <= i < |b.sources| ==> Places(b, i) == Due(i, open)
  }

  ghost predicate Linked(b: Batch) {
    && (forall t :: t in b.tickets ==>
          t <= b.nextTicket && b.tickets[t] < |b.sources| && b.sources[b.tickets[t]].ticket == Some(t))
    && (forall i :: 0 <= i < |b.sources| && b.sources[i].ticket.Some? ==>
          b.sources[i].ticket.value in b.tickets && b.tickets[b.sources[i].ticket.value] == i)
  }

  /** What consent is asked for is asked before it runs; a host-cache hit has not been asked about. */
  predicate SourceConsent(s: Source) {
    && (s.hostCacheHit ==> !s.gated && s.plan == Hit)
    && (s.plan == Miss ==> s.gated ==> s.needsConfirmation)
    && (s.plan != Miss && !s.result.Some? ==> !s.needsConfirmation)
  }

  ghost predicate Consented(b: Batch) {
    && InRange(b)
    && (forall i :: 0 <= i < |b.sources| ==> SourceConsent(b.sources[i]))
    && (forall k :: 0 <= k < |b.queue| ==> var s := b.sources[b.queue[k]]; s.gated ==> s.confirmed)
    && (b.active.Some? ==> var s := b.sources[b.active.value]; s.gated ==> s.confirmed)
  }

  /** Everything the launching and job functions leave alone. */
  predicate SameSetting(b: Batch, n: Batch) {
    n == b.(sources := n.sources, tickets := n.tickets, queue := n.queue, active := n.active, nextTicket := n.nextTicket)
    && |n.sources| == |b.sources|
  }

  // ---------- The small edits ----------

  lemma ConcludePlaces(b: Batch, i: nat, s: Source, open: set<nat>)
    requires Placed(b, open) && i in open && i < |b.sources|
    requires s.result.Some? && s.ticket == b.sources[i].ticket
    ensures Placed(Edit(b, i, s), open - {i})
  {
    forall j | 0 <= j < |b.sources| ensures Places(Edit(b, i, s), j) == Due(j, open - {i}) {
      assert Places(b, j) == Due(j, open);
    }
  }

  lemma AwaitLinked(b: Batch, i: nat)
    requires Linked(b) && i < |b.sources| && b.sources[i].ticket.None?
    ensures Linked(Await(b, i))
  {
  }

  lemma AwaitPlaces(b: Batch, i: nat, open: set<nat>)
    requires Placed(b, open) && Linked(b) && i in open && i < |b.sources|
    ensures Placed(Await(b, i), open - {i}) && Linked(Await(b, i))
  {
    assert Places(b, i) == 0;
    AwaitLinked(b, i);
    forall j | 0 <= j < |b.sources| ensures Places(Await(b, i), j) == Due(j, open - {i}) {
      assert Places(b, j) == Due(j, open);
    }
  }

  lemma ReleasePlaces(b: Batch, t: nat)
    requires Placed(b, {}) && Linked(b) && t in b.tickets
    ensures Placed(Release(b, t), {b.tickets[t]}) && Linked(Release(b, t))
  {
    var i := b.tickets[t];
    forall j | 0 <= j < |b.sources| ensures Places(Release(b, t), j) == Due(j, {i}) {
      assert Places(b, j) == 1;
    }
  }

  lemma EnqueuePlaces(b: Batch, i: nat, open: set<nat>)
    requires Placed(b, open) && i in open && i < |b.sources|
    ensures Placed(b.(queue := b.queue + [i]), open - {i})
  {
    forall j | 0 <= j < |b.sources| ensures Places(b.(queue := b.queue + [i]), j) == Due(j, open - {i}) {
      assert Places(b, j) == Due(j, open);
      CountAppend(b.queue, i, j);
    }
  }

  lemma TakePlaces(b: Batch, open: set<nat>)
    requires Placed(b, open) && b.queue != []
    ensures b.queue[0] !in open && Placed(b.(queue := b.queue[1..]), open + {b.queue[0]})
  {
    var i := b.queue[0];
    assert Places(b, i) == Due(i, open);
    forall j | 0 <= j < |b.sources| ensures Places(b.(queue := b.queue[1..]), j) == Due(j, open + {i}) {
      assert Places(b, j) == Due(j, open);
    }
  }

  lemma ActivatePlaces(b: Batch, i: nat, open: set<nat>)
    requires Placed(b, open) && i in open && i < |b.sources| && b.active.None?
    ensures Placed(b.(active := Some(i)), open - {i})
  {
    forall j | 0 <= j < |b.sources| ensures Places(b.(active := Some(i)), j) == Due(j, open - {i}) {
      assert Places(b, j) == Due(j, open);
    }
  }

  lemma RetirePlaces(b: Batch)
    requires Placed(b, {}) && b.active.Some?
    ensures Placed(b.(active := None), {b.active.value})
  {
    var i := b.active.value;
    forall j | 0 <= j < |b.sources| ensures Places(b.(active := None), j) == Due(j, {i}) {
      assert Places(b, j) == 1;
    }
  }

  lemma EditLinked(b: Batch, i: nat, s: Source)
    requires Linked(b) && i < |b.sources| && s.ticket == b.sources[i].ticket
    ensures Linked(Edit(b, i, s))
  {
  }

  // ---------- startNextJob ----------

  lemma {:induction false} StartNextJobKeeps(b: Batch, env: Env, open: set<nat>)
    requires Placed(b, open) && Linked(b)
    ensures Placed(StartNextJob(b, env), open) && Linked(StartNextJob(b, env))
    ensures SameSetting(b, StartNextJob(b, env))
    decreases |b.queue|
  {
    if b.stage == Running && b.active.None? && b.queue != [] {
      var i := b.queue[0];
      var n := b.(queue := b.queue[1..]);
      TakePlaces(b, open);
      if !env.session(i) || !env.starts(i) {
        ConcludePlaces(n, i, n.sources[i].(result := Some(Failed)), open + {i});
        EditLinked(n, i, n.sources[i].(result := Some(Failed)));
        assert open + {i} - {i} == open;
        StartNextJobKeeps(SetResult(n, i, Failed), env, open);
      } else {
        ActivatePlaces(n, i, open + {i});
        assert open + {i} - {i} == open;
      }
    }
  }

  /** After startNextJob a waiting queue means an active job. */
  lemma {:induction false} StartNextJobBusy(b: Batch, env: Env)
    requires InRange(b)
    ensures b.stage == Running ==> StartNextJob(b, env).queue == [] || StartNextJob(b, env).active.Some?
    decreases |b.queue|
  {
    if b.stage == Running && b.active.None? && b.queue != [] {
      var i := b.queue[0];
      if !env.session(i) || !env.starts(i) {
        StartNextJobBusy(SetResult(b.(queue := b.queue[1..]), i, Failed), env);
      }
    }
  }

  /** It only ever adds results. */
  lemma {:induction false} StartNextJobSource(b: Batch, env: Env, j: nat)
    requires InRange(b) && j < |b.sources|
    ensures j < |StartNextJob(b, env).sources|
    ensures StartNextJob(b, env).sources[j].(result := None) == b.sources[j].(result := None)
    decreases |b.queue|
  {
    if b.stage == Running && b.active.None? && b.queue != [] {
      var i := b.queue[0];
      if !env.session(i) || !env.starts(i) {
        var n := SetResult(b.(queue := b.queue[1..]), i, Failed);
        assert n.sources[j].(result := None) == b.sources[j].(result := None);
        StartNextJobSource(n, env, j);
      }
    }
  }

  lemma {:induction false} StartNextJobConsent(b: Batch, env: Env)
    requires Consented(b)
    ensures Consented(StartNextJob(b, env))
    decreases |b.queue|
  {
    if b.stage == Running && b.active.None? && b.queue != [] {
      var i := b.queue[0];
      if !env.session(i) || !env.starts(i) {
        StartNextJobConsent(SetResult(b.(queue := b.queue[1..]), i, Failed), env);
      }
    }
  }

  // ---------- Planning ----------

  /** Planning concludes a source exactly when it leaves it nothing to do, and asks before it lets an import through. */
  lemma PlanViaProviderResult(s: Source, f: Facts, c: Config)
    requires s.plan == Done && s.result.None? && !s.hostCacheHit && !s.needsConfirmation && !s.gated
    ensures var p := PlanViaProvider(s, f, c);
      && (p.plan == Done <==> p.result.Some?) && SourceConsent(p) && !p.hostCacheHit && p.ticket == s.ticket
      && (p.plan != Miss && p.result.None? ==> !p.gated)
  {
  }

  /** An untrusted or oversized import is never planned without asking, a refused one never at all. */
  lemma ImportsNeedConsent(f: Facts, c: Config)
    requires f.valid && f.cache == Absent && f.session && f.query.Answer?
    ensures var p := PlanSource(f, c);
      && (p.plan == Miss ==> f.query.trust != Refused && !f.query.materialized)
      && (p.plan == Miss && (f.query.trust == NeedsConfirmation || (c.limit > 0 && f.query.estimate > c.limit)) ==>
            c.interactive && p.needsConfirmation)
      && (f.query.trust == Refused && f.query.named && f.query.placed ==> p.result == Some(Failed))
  {
  }

  lemma PlanSourceResult(f: Facts, c: Config)
    ensures var p := PlanSource(f, c);
      (p.plan == Done <==> p.result.Some?) && SourceConsent(p) && p.ticket.None? && !p.confirmed
  {
  }

  /** The provider has named and placed the source and does not refuse it. */
  predicate Offered(f: Facts) {
    f.session && f.query.Answer? && f.query.named && f.query.placed && f.query.trust != Refused
  }

  /** No provider knows where the source is; the path saved in the layout decides. */
  predicate FallsBack(f: Facts) {
    !f.session || f.query.NoAnswer? || (f.query.named && !f.query.placed)
  }

  predicate MustAsk(f: Facts, c: Config)
    requires f.query.Answer?
  {
    f.query.trust == NeedsConfirmation || (c.limit > 0 && f.query.estimate > c.limit)
  }

  /** What the provider's word makes of a source: loaded already, a file to load, an import, or a failure. */
  lemma ProviderDecides(s: Source, f: Facts, c: Config)
    requires s.plan == Done && s.result.None? && !s.needsConfirmation
    ensures var p := PlanViaProvider(s, f, c);
      && (p.result == Some(AlreadyLoaded) <==> (FallsBack(f) && f.savedLoaded) || (Offered(f) && f.query.loaded))
      && (p.plan == Hit <==> (FallsBack(f) && !f.savedLoaded && f.savedExists)
                             || (Offered(f) && !f.query.loaded && f.query.materialized && f.query.onDisk))
      && (p.plan == Miss <==> Offered(f) && !f.query.loaded && !f.query.materialized && (MustAsk(f, c) ==> c.interactive))
      && (p.needsConfirmation <==> p.plan == Miss && MustAsk(f, c))
      && (p.result.Some? ==> p.result.value == AlreadyLoaded || p.result.value == Failed)
      && (p.plan == Done <==> p.result.Some?)
  {
    if Offered(f) {
      MissDecides(s, f, c);
    } else if FallsBack(f) {
      assert PlanViaProvider(s, f, c) == ClassifyFallback(s, f);
    } else {
      assert PlanViaProvider(s, f, c) == Concluded(s, Failed);
    }
  }

  lemma MissDecides(s: Source, f: Facts, c: Config)
    requires s.plan == Done && s.result.None? && !s.needsConfirmation && f.query.Answer?
    ensures var p := PlanMiss(s, f.query, c);
      && (p.plan == Miss <==> (MustAsk(f, c) ==> c.interactive))
      && (p.needsConfirmation <==> p.plan == Miss && MustAsk(f, c))
      && (p.plan == Done <==> p.result.Some?) && p.plan != Hit && (p.result.Some? ==> p.result.value == Failed)
  {
  }

  /** A cached copy is used before the provider is asked; a source without a usable reference falls back to its path. */
  lemma PlanningDecides(f: Facts, c: Config)
    ensures var p := PlanSource(f, c);
      && (p.hostCacheHit <==> f.valid && f.cache == Cached(false)) && (p.hostCacheHit ==> p.plan == Hit)
      && (f.valid && f.cache == Cached(true) ==> p.result == Some(AlreadyLoaded))
      && (f.valid && f.cache == Contended ==> p.result == Some(Failed))
      && (f.valid && f.cache == Absent ==> p == PlanViaProvider(UNPLANNED, f, c))
      && (!f.valid ==>
            && p.plan != Miss && (p.result == Some(AlreadyLoaded) <==> f.savedLoaded)
            && (p.plan == Hit <==> !f.savedLoaded && f.savedExists))
  {
    PlanSourceResult(f, c);
  }

  /** A source replanned after its cached copy failed follows the provider, and what it would have to ask about fails. */
  lemma ReplanDecides(s: Source, f: Facts, c: Config)
    requires s.result.None? && !s.needsConfirmation
    ensures var p := Replan(s, f, c);
      && (p.result == Some(AlreadyLoaded) <==> (FallsBack(f) && f.savedLoaded) || (Offered(f) && f.query.loaded))
      && (p.plan == Miss <==> Offered(f) && !f.query.loaded && !f.query.materialized && !MustAsk(f, c))
      && (p.plan == Done <==> p.result.Some?) && !p.needsConfirmation
  {
    ProviderDecides(s.(plan := Done, hostCacheHit := false), f, c);
  }

  lemma ReplanResult(s: Source, f: Facts, c: Config)
    requires SourceConsent(s) && s.hostCacheHit && s.result.None? && s.ticket.None?
    ensures var p := Replan(s, f, c);
      && (p.plan == Done <==> p.result.Some?) && SourceConsent(p) && !p.hostCacheHit && p.ticket.None?
      && (p.plan == Miss ==> !p.gated)
  {
    PlanViaProviderResult(s.(plan := Done, hostCacheHit := false), f, c);
  }

  // ---------- Cache-hit loads and the quarantine path ----------

  /** A source to be loaded: in no place yet. */
  ghost predicate Ready(b: Batch, i: nat, open: set<nat>) {
    Placed(b, open) && Linked(b) && Consented(b) && i in open && i < |b.sources|
  }

  lemma ReadyIsNowhere(b: Batch, i: nat, open: set<nat>)
    requires Ready(b, i, open)
    ensures b.sources[i].result.None? && b.sources[i].ticket.None? && b.active != Some(i) && Count(b.queue, i) == 0
  {
    assert Places(b, i) == 0;
  }

  lemma {:induction false} CountedIsThere(q: seq<nat>, k: nat)
    requires k < |q|
    ensures Count(q, q[k]) > 0
  {
    if k > 0 { CountedIsThere(q[1..], k - 1); }
  }

  lemma EditConsent(b: Batch, i: nat, s: Source, open: set<nat>)
    requires Ready(b, i, open) && SourceConsent(s)
    ensures Consented(Edit(b, i, s))
  {
    ReadyIsNowhere(b, i, open);
    forall k | 0 <= k < |b.queue| ensures b.queue[k] != i { CountedIsThere(b.queue, k); }
  }

  lemma AcceptKeeps(b: Batch, i: nat, open: set<nat>)
    requires Ready(b, i, open)
    ensures var n := Await(b, i);
      Placed(n, open - {i}) && Linked(n) && Consented(n) && SameSetting(b, n)
  {
    AwaitPlaces(b, i, open);
    ReadyIsNowhere(b, i, open);
    EditConsent(b, i, b.sources[i].(ticket := Some(b.nextTicket + 1)), open);
  }

  lemma ConcludeKeeps(b: Batch, i: nat, s: Source, open: set<nat>)
    requires Ready(b, i, open) && s.result.Some? && s.ticket.None? && SourceConsent(s)
    ensures var n := Edit(b, i, s);
      Placed(n, open - {i}) && Linked(n) && Consented(n) && SameSetting(b, n)
  {
    ReadyIsNowhere(b, i, open);
    ConcludePlaces(b, i, s, open);
    EditLinked(b, i, s);
    EditConsent(b, i, s, open);
  }

  lemma StartHitLoadKeeps(b: Batch, i: nat, env: Env, open: set<nat>)
    requires Ready(b, i, open)
    ensures var n := StartHitLoad(b, i, env);
      Placed(n, open - {i}) && Linked(n) && Consented(n) && SameSetting(b, n)
    decreases if b.sources[i].hostCacheHit then 3 else 0
  {
    ReadyIsNowhere(b, i, open);
    if env.accepts(i, b.sources[i].hostCacheHit) {
      AcceptKeeps(b, i, open);
    } else if b.sources[i].hostCacheHit {
      FailureKeeps(b, i, env, open);
    } else {
      ConcludeKeeps(b, i, Concluded(b.sources[i], Failed), open);
    }
  }

  lemma RequeueKeeps(b: Batch, i: nat, env: Env, open: set<nat>)
    requires Ready(b, i, open) && !b.sources[i].gated
    ensures var n := StartNextJob(b.(queue := b.queue + [i]), env);
      Placed(n, open - {i}) && Linked(n) && Consented(n) && SameSetting(b, n)
  {
    var q := b.(queue := b.queue + [i]);
    EnqueuePlaces(b, i, open);
    assert Linked(q) && Consented(q);
    StartNextJobKeeps(q, env, open - {i});
    StartNextJobConsent(q, env);
  }

  lemma FailureKeeps(b: Batch, i: nat, env: Env, open: set<nat>)
    requires Ready(b, i, open) && b.sources[i].hostCacheHit
    ensures var n := HandleCacheLoadFailure(b, i, env);
      Placed(n, open - {i}) && Linked(n) && Consented(n) && SameSetting(b, n)
    decreases 2
  {
    ReadyIsNowhere(b, i, open);
    if b.stage != Running {
      ConcludeKeeps(b, i, Concluded(b.sources[i].(hostCacheHit := false), Cancelled), open);
    } else {
      var s := Replan(b.sources[i], env.refacts(i), b.config);
      ReplanResult(b.sources[i], env.refacts(i), b.config);
      if s.plan == Done {
        ConcludeKeeps(b, i, s, open);
      } else {
        ReplacedIsReady(b, i, s, open);
        ResumeKeeps(Edit(b, i, s), i, env, open);
      }
    }
  }

  lemma ResumeKeeps(b: Batch, i: nat, env: Env, open: set<nat>)
    requires Ready(b, i, open) && !b.sources[i].hostCacheHit && b.sources[i].plan != Done
    requires b.sources[i].plan == Miss ==> !b.sources[i].gated
    ensures var n := Resume(b, i, env);
      Placed(n, open - {i}) && Linked(n) && Consented(n) && SameSetting(b, n)
    decreases 1
  {
    if b.sources[i].plan == Hit {
      StartHitLoadKeeps(b, i, env, open);
    } else {
      RequeueKeeps(b, i, env, open);
    }
  }

  lemma ReplacedIsReady(b: Batch, i: nat, s: Source, open: set<nat>)
    requires Ready(b, i, open) && s.result.None? && s.ticket.None? && SourceConsent(s)
    ensures Ready(Edit(b, i, s), i, open)
  {
    ReadyIsNowhere(b, i, open);
    EditLinked(b, i, s);
    EditConsent(b, i, s, open);
    forall j | 0 <= j < |b.sources| ensures Places(Edit(b, i, s), j) == Due(j, open) {
      assert Places(b, j) == Due(j, open);
    }
  }

  /** Loading source `i` at most adds a result to any other source. */
  lemma StartHitLoadOther(b: Batch, i: nat, env: Env, j: nat)
    requires InRange(b) && i < |b.sources| && j < |b.sources| && j != i
    ensures j < |StartHitLoad(b, i, env).sources|
    ensures StartHitLoad(b, i, env).sources[j].(result := None) == b.sources[j].(result := None)
    decreases if b.sources[i].hostCacheHit then 3 else 0
  {
    if !env.accepts(i, b.sources[i].hostCacheHit) && b.sources[i].hostCacheHit {
      FailureOther(b, i, env, j);
    }
  }

  lemma FailureOther(b: Batch, i: nat, env: Env, j: nat)
    requires InRange(b) && i < |b.sources| && j < |b.sources| && j != i
    ensures j < |HandleCacheLoadFailure(b, i, env).sources|
    ensures HandleCacheLoadFailure(b, i, env).sources[j].(result := None) == b.sources[j].(result := None)
    decreases 2
  {
    if b.stage == Running {
      ReplanClearsHit(b.sources[i], env.refacts(i), b.config);
      ResumeOther(Edit(b, i, Replan(b.sources[i], env.refacts(i), b.config)), i, env, j);
    }
  }

  lemma ResumeOther(b: Batch, i: nat, env: Env, j: nat)
    requires InRange(b) && i < |b.sources| && j < |b.sources| && j != i && !b.sources[i].hostCacheHit
    ensures j < |Resume(b, i, env).sources|
    ensures Resume(b, i, env).sources[j].(result := None) == b.sources[j].(result := None)
    decreases 1
  {
    if b.sources[i].plan == Hit {
      StartHitLoadOther(b, i, env, j);
    } else if b.sources[i].plan == Miss {
      StartNextJobSource(b.(queue := b.queue + [i]), env, j);
    }
  }

  // ---------- start() ----------

  /** The sources start()'s loop still has to launch. */
  function Unlaunched(b: Batch, k: nat): set<nat> {
    set i: nat | k <= i < |b.sources| && b.sources[i].plan != Done
  }

  lemma LaunchOne(b: Batch, k: nat, env: Env)
    requires Placed(b, Unlaunched(b, k)) && Linked(b) && Consented(b) && k < |b.sources|
    requires b.sources[k].plan == Miss && b.sources[k].gated ==> b.sources[k].confirmed
    ensures var n := if b.sources[k].plan == Hit then StartHitLoad(b, k, env)
                     else if b.sources[k].plan == Miss then b.(queue := b.queue + [k]) else b;
      && SameSetting(b, n) && Linked(n) && Consented(n) && Placed(n, Unlaunched(b, k) - {k})
      && Unlaunched(n, k + 1) == Unlaunched(b, k) - {k}
  {
    var n := if b.sources[k].plan == Hit then StartHitLoad(b, k, env)
             else if b.sources[k].plan == Miss then b.(queue := b.queue + [k]) else b;
    var open := Unlaunched(b, k);
    if b.sources[k].plan == Hit {
      StartHitLoadKeeps(b, k, env, open);
      forall j: nat | k < j < |b.sources| ensures n.sources[j].plan == b.sources[j].plan {
        StartHitLoadOther(b, k, env, j);
      }
    } else if b.sources[k].plan == Miss {
      EnqueuePlaces(b, k, open);
    } else {
      assert open - {k} == open;
    }
  }

  /** Asked for and not confirmed is what the prompt leaves behind only when it was declined. */
  ghost predicate Answered(b: Batch, k: nat) {
    forall i :: k <= i < |b.sources| && b.sources[i].plan == Miss && b.sources[i].gated ==> b.sources[i].confirmed
  }

  lemma LaunchOneAnswered(b: Batch, k: nat, env: Env)
    requires InRange(b) && k < |b.sources| && Answered(b, k)
    ensures var n := if b.sources[k].plan == Hit then StartHitLoad(b, k, env)
                     else if b.sources[k].plan == Miss then b.(queue := b.queue + [k]) else b;
      Answered(n, k + 1)
  {
    if b.sources[k].plan == Hit {
      var n := StartHitLoad(b, k, env);
      forall j | k < j < |n.sources| && n.sources[j].plan == Miss && n.sources[j].gated ensures n.sources[j].confirmed {
        StartHitLoadShape(b, k, env);
        StartHitLoadOther(b, k, env, j);
      }
    }
  }

  lemma {:induction false} LaunchKeeps(b: Batch, k: nat, env: Env)
    requires Placed(b, Unlaunched(b, k)) && Linked(b) && Consented(b) && k <= |b.sources| && Answered(b, k)
    ensures var n := Launch(b, k, env);
      Placed(n, {}) && Linked(n) && Consented(n) && SameSetting(b, n)
    decreases |b.sources| - k
  {
    if k == |b.sources| {
      assert Unlaunched(b, k) == {};
    } else {
      var n := if b.sources[k].plan == Hit then StartHitLoad(b, k, env)
               else if b.sources[k].plan == Miss then b.(queue := b.queue + [k]) else b;
      StartHitLoadShape(b, k, env);
      LaunchOne(b, k, env);
      LaunchOneAnswered(b, k, env);
      LaunchKeeps(n, k + 1, env);
    }
  }
}

/**
 The life of a chat request around the election: the elected model's reservations are completed when usage is recorded,
 and cancelled by the deferred Close on every path that does not get there.
 */
module ChatUseCases {
  import opened Basics
  import opened Limiters
  import opened LimiterHistories
  import opened LimiterPools
  import opened ReservationSets
  import opened Elections
  import CT = ChatTypes
  import R = Reducers

  /** What token reservations are charged: the reported total if there is one, else the estimate. */
  function ActualTokens(usage: Option<CT.Usage>, estimatedTokens: nat): nat {
    if usage.Some? && usage.value.input + usage.value.output > 0 then usage.value.input + usage.value.output else estimatedTokens
  }

  /** What the upstream does with a request that is not streamed. */
  datatype Reply = Refusal | Reply(usage: Option<CT.Usage>)

  /**
   What comes of a stream: the events of the upstream, whether it breaks off after them, and how many events have been
   taken when the client is found to have left, and sent when a send fails.
   */
  datatype Stream = Stream(events: seq<CT.Event>, broken: bool, leaves: Option<nat>, fails: Option<nat>)

  datatype Outcome = NoUpstream | Failed | Recorded(usage: Option<CT.Usage>)

  function ReplyOutcome(r: Reply): Outcome {
    match r
    case Refusal => Failed
    case Reply(usage) => Recorded(usage)
  }

  /** The events that reach the reducer, unless a send fails before. */
  function Taken(s: Stream): seq<CT.Event> {
    if s.leaves.Some? && s.leaves.value < |s.events| then s.events[..s.leaves.value] else s.events
  }

  /** Usage is recorded, as the events taken report it, unless the upstream breaks off while the client is there, or a send fails. */
  function StreamOutcome(s: Stream): Outcome {
    var gone := s.leaves.Some? && s.leaves.value < |s.events|;
    if (s.broken && !gone) || (s.fails.Some? && s.fails.value < |Taken(s)|) then Failed
    else Recorded(R.Run(R.EMPTY, Taken(s)).resp.usage)
  }

  /**
   Usage is recorded exactly if no send failed, and the client left or the upstream came to its end; and what is recorded
   are the last counts in the events taken until then.
   */
  lemma RecordedWhat(s: Stream, f: R.UsageField)
    ensures var left := s.leaves.Some? && s.leaves.value < |s.events|;
            var n := if left then s.leaves.value else |s.events|;
            && (StreamOutcome(s).Recorded? <==> (s.fails.None? || s.fails.value >= n) && (left || !s.broken))
            && (StreamOutcome(s).Recorded? ==> R.FieldOf(StreamOutcome(s).usage, f) == R.LastReport(f, s.events[..n]))
            && StreamOutcome(s) != NoUpstream
  {
    R.UsageIsLastReport(Taken(s), f);
    assert s.events[..|s.events|] == s.events;
    hide R.Run, R.LastReport;
  }

  /** What a stream is charged: the last counts it has reported, or the estimate if it has reported none. */
  lemma ReportedIsCharged(es: seq<CT.Event>, est: nat)
    ensures var total := R.LastReport(R.InputTokens, es) + R.LastReport(R.OutputTokens, es);
            ActualTokens(R.Run(R.EMPTY, es).resp.usage, est) == if total > 0 then total else est
  {
    R.UsageIsLastReport(es, R.InputTokens);
    R.UsageIsLastReport(es, R.OutputTokens);
    hide R.Run, R.LastReport;
  }

  /**
   The calls by which a request has chosen are those of one election, and no more: all candidates were probed, those that
   can be granted were tried in order, up to the winner, or all of them, and each wait given up.
   */
  ghost predicate Chosen(before: seq<Call>, now: seq<Call>, scopes: seq<Limiter>, candidates: seq<Model>, est: nat, won: bool, r: Record) {
    && now == before + Flat(r.probes) + AllCalls(r.attempts)
    && AllProbed(r.probes, candidates, est) && AllMade(r.attempts, candidates, est, won)
    && Tried(DelaysOf(r.probes), TriedModels(r.attempts), won)
    && FiniteIfGrantable(scopes, candidates, est, DelaysOf(r.probes)) && NoneRefused(r.attempts, candidates, est)
    && (won ==> r.attempts != [] && r.attempts[|r.attempts| - 1].model == r.winner)
  }

  /** What a request has done: its probes and attempts, the candidate elected, and the tickets settled in the end. */
  datatype Record = Record(probes: seq<seq<Call>>, attempts: seq<Attempt>, winner: nat, requests: seq<nat>, tokens: seq<nat>)

  /** Token limiters are buckets and quotas. */
  ghost predicate TokensMetered(m: Model, scopes: seq<Limiter>)
    requires ModelInPool(m, |scopes|)
  {
    && (forall k | 0 <= k < |m.upstream.tokens| :: !scopes[m.upstream.tokens[k]].Concurrency?)
    && (forall k | 0 <= k < |m.own.tokens| :: !scopes[m.own.tokens[k]].Concurrency?)
  }

  /**
   The tickets of a request whose usage was recorded: whatever was acquired is released; of those listed, a permit is
   returned, a request counted once, tokens charged at the actual use; nothing else of the request is charged.
   */
  ghost predicate Charged(before: seq<Ticket>, now: seq<Ticket>, me: nat, scopes: seq<Limiter>,
                          requests: set<nat>, tokens: set<nat>, actual: nat)
  {
    && |before| <= |now|
    && (forall i | 0 <= i < |before| && before[i].owner == me :: now[i] == before[i])
    && (forall i | |before| <= i < |now| && now[i].owner == me :: ChargedTicket(scopes, now[i], i in requests, i in tokens, actual))
  }

  ghost predicate ChargedTicket(scopes: seq<Limiter>, t: Ticket, request: bool, token: bool, actual: nat) {
    && t.limiter < |scopes|
    && (t.acquired ==> t.released)
    && t.charge == if !t.acquired || !(request || token) || scopes[t.limiter].Concurrency? then 0
                   else if token then actual else 1
  }

  class ChatModel {
    const pool: LimiterPool
    const reservations: ReservationSet
    const me: nat
    const estimatedTokens: nat
    ghost const before: seq<Ticket>
    ghost const reqs: seq<nat>
    ghost const toks: seq<nat>

    ghost predicate Open()
      reads this, reservations, pool
    {
      && reservations.pool == pool && reservations.me == me
      && reservations.Holding(before, reqs, toks, estimatedTokens)
      && forall k | 0 <= k < |toks| :: toks[k] < |pool.scopes| && !pool.scopes[toks[k]].Concurrency?
    }

    ghost predicate Closed()
      reads this, reservations, pool
    {
      reservations.pool == pool && reservations.me == me && pool.Valid() && reservations.requests == [] && reservations.tokens == []
    }

    constructor (pool: LimiterPool, rs: ReservationSet, me: nat, est: nat, ghost before: seq<Ticket>, ghost reqs: seq<nat>, ghost toks: seq<nat>)
      requires rs.pool == pool && rs.me == me && rs.Holding(before, reqs, toks, est)
      requires forall k | 0 <= k < |toks| :: toks[k] < |pool.scopes| && !pool.scopes[toks[k]].Concurrency?
      ensures Open() && this.pool == pool && this.reservations == rs && this.me == me && this.before == before
      ensures this.estimatedTokens == est && this.reqs == reqs && this.toks == toks
    {
      this.pool, reservations, this.me, estimatedTokens := pool, rs, me, est;
      this.before, this.reqs, this.toks := before, reqs, toks;
    }

    method RecordUsage(usage: Option<CT.Usage>)
      requires Open()
      modifies reservations, pool
      ensures Closed() && Moves(pool.log, me) == Moves(old(pool.log), me)
      ensures Charged(before, pool.tickets, me, pool.scopes, old(SetOf(reservations.requests)), old(SetOf(reservations.tokens)),
                      ActualTokens(usage, estimatedTokens))
      ensures Listed(before, pool.tickets, me, old(reservations.requests), old(reservations.tokens), reqs, toks, estimatedTokens)
    {
      var actualTokens := estimatedTokens;
      if usage.Some? {
        var tokenUsage := usage.value.input + usage.value.output;
        if tokenUsage > 0 {
          actualTokens := tokenUsage;
        }
      }
      ghost var ts, requests, tokens := pool.tickets, reservations.requests, reservations.tokens;
      reservations.Complete(actualTokens, before, reqs, toks, estimatedTokens);
      CompletedIsCharged(pool.scopes, before, ts, pool.tickets, me, requests, tokens, reqs, toks, estimatedTokens, actualTokens);
      CompletedStaysListed(pool.scopes, before, ts, pool.tickets, me, requests, tokens, reqs, toks, estimatedTokens, actualTokens);
    }

    /** Runs on every path out of the use case; after RecordUsage there is nothing left to cancel. */
    method Close()
      requires Open() || Closed()
      modifies reservations, pool
      ensures Closed() && Moves(pool.log, me) == Moves(old(pool.log), me)
      ensures old(Closed()) ==> pool.tickets == old(pool.tickets)
      ensures old(Open()) ==> Books(before, pool.tickets, me, {})
    {
      reservations.Cancel(false, before, reqs, toks, estimatedTokens, []);
    }

    /** Other requests act while this one talks to its upstream. */
    method Meanwhile()
      requires Open()
      modifies pool
      ensures Open() && Moves(pool.log, me) == Moves(old(pool.log), me)
    {
      ghost var ts := pool.tickets;
      reservations.HoldingBooks(before, reqs, toks, estimatedTokens);
      pool.Interfere(me);
      reservations.HoldingKept(ts, before, reqs, toks, estimatedTokens);
    }
  }

  lemma CompletedIsCharged(scopes: seq<Limiter>, before: seq<Ticket>, ts: seq<Ticket>, now: seq<Ticket>, me: nat,
                           requests: seq<nat>, tokens: seq<nat>, reqs: seq<nat>, toks: seq<nat>, est: nat, actual: nat)
    requires Collected(before, ts, me, requests, tokens, reqs, toks, est)
    requires forall i | 0 <= i < |ts| :: ts[i].limiter < |scopes| && TicketOk(scopes[ts[i].limiter], ts[i])
    requires forall k | 0 <= k < |toks| :: toks[k] < |scopes| && !scopes[toks[k]].Concurrency?
    requires Kept(Completed(scopes, Completed(scopes, ts, requests, None), tokens, Some(actual)), now, me)
    ensures Charged(before, now, me, scopes, SetOf(requests), SetOf(tokens), actual)
  {
    var end := Completed(scopes, Completed(scopes, ts, requests, None), tokens, Some(actual));
    forall i | 0 <= i < |before| && before[i].owner == me ensures now[i] == before[i] {
      ChargedAt(scopes, before, ts, now, me, requests, tokens, reqs, toks, est, actual, i);
    }
    forall i | |before| <= i < |now| && now[i].owner == me
      ensures ChargedTicket(scopes, now[i], i in SetOf(requests), i in SetOf(tokens), actual)
    {
      assert i < |end|;
      ChargedAt(scopes, before, ts, now, me, requests, tokens, reqs, toks, est, actual, i);
    }
  }

  lemma ChargedAt(scopes: seq<Limiter>, before: seq<Ticket>, ts: seq<Ticket>, now: seq<Ticket>, me: nat,
                  requests: seq<nat>, tokens: seq<nat>, reqs: seq<nat>, toks: seq<nat>, est: nat, actual: nat, i: nat)
    requires Collected(before, ts, me, requests, tokens, reqs, toks, est)
    requires i < |ts| && ts[i].limiter < |scopes| && TicketOk(scopes[ts[i].limiter], ts[i])
    requires forall k | 0 <= k < |toks| :: toks[k] < |scopes| && !scopes[toks[k]].Concurrency?
    requires Kept(Completed(scopes, Completed(scopes, ts, requests, None), tokens, Some(actual)), now, me)
    ensures now[i].owner == ts[i].owner
    ensures i < |before| && before[i].owner == me ==> now[i] == before[i]
    ensures i >= |before| && now[i].owner == me ==> ChargedTicket(scopes, now[i], i in SetOf(requests), i in SetOf(tokens), actual)
  {
    var ts' := Completed(scopes, ts, requests, None);
    CompletedAt(scopes, ts, requests, None, i);
    CompletedAt(scopes, ts', tokens, Some(actual), i);
    if ts[i].owner == me {
      assert now[i] == Completed(scopes, ts', tokens, Some(actual))[i];
      CompletedTicketIsCharged(scopes, before, ts, now[i], me, requests, tokens, reqs, toks, est, actual, i);
    }
  }

  lemma CompletedTicketIsCharged(scopes: seq<Limiter>, before: seq<Ticket>, ts: seq<Ticket>, t: Ticket, me: nat,
                                 requests: seq<nat>, tokens: seq<nat>, reqs: seq<nat>, toks: seq<nat>, est: nat, actual: nat, i: nat)
    requires Collected(before, ts, me, requests, tokens, reqs, toks, est)
    requires i < |ts| && ts[i].owner == me && ts[i].limiter < |scopes| && TicketOk(scopes[ts[i].limiter], ts[i])
    requires forall k | 0 <= k < |toks| :: toks[k] < |scopes| && !scopes[toks[k]].Concurrency?
    requires !(i in requests && i in tokens) ==>
               t == if i in tokens then CompletedTicket(scopes[ts[i].limiter], ts[i], Some(actual))
                    else if i in requests then CompletedTicket(scopes[ts[i].limiter], ts[i], None) else ts[i]
    ensures i < |before| ==> t == before[i]
    ensures i >= |before| ==> ChargedTicket(scopes, t, i in SetOf(requests), i in SetOf(tokens), actual)
  {
    if i in requests {
      var k :| 0 <= k < |requests| && requests[k] == i;
      assert i in SetOf(requests);
    } else if i in tokens {
      var k :| 0 <= k < |tokens| && tokens[k] == i;
      assert i in SetOf(tokens);
    }
  }

  /** The ids are of tickets the request has made since, one for each of these limiters, in order. */
  ghost predicate Listed(before: seq<Ticket>, now: seq<Ticket>, me: nat, requests: seq<nat>, tokens: seq<nat>,
                         reqs: seq<nat>, toks: seq<nat>, est: nat)
  {
    && Names(now, requests, reqs, 1) && Names(now, tokens, toks, est) && Apart(requests, tokens)
    && forall id <- SetOf(requests) + SetOf(tokens) :: |before| <= id < |now| && now[id].owner == me
  }

  lemma CompletedStaysListed(scopes: seq<Limiter>, before: seq<Ticket>, ts: seq<Ticket>, now: seq<Ticket>, me: nat,
                             requests: seq<nat>, tokens: seq<nat>, reqs: seq<nat>, toks: seq<nat>, est: nat, actual: nat)
    requires Collected(before, ts, me, requests, tokens, reqs, toks, est)
    requires forall i | 0 <= i < |ts| :: ts[i].limiter < |scopes|
    requires Kept(Completed(scopes, Completed(scopes, ts, requests, None), tokens, Some(actual)), now, me)
    ensures Listed(before, now, me, requests, tokens, reqs, toks, est)
  {
    forall i | 0 <= i < |ts| ensures now[i].SameTerms(ts[i]) {
      CompletedAt(scopes, ts, requests, None, i);
      CompletedAt(scopes, Completed(scopes, ts, requests, None), tokens, Some(actual), i);
    }
    NamesKept(ts, now, requests, reqs, 1);
    NamesKept(ts, now, tokens, toks, est);
  }

  /**
   A request's tickets at the end. Without usage all are cancelled: nothing is charged, whatever was acquired is
   released. With usage those of one candidate, one for each of its limiters, are completed, and all others cancelled.
   */
  ghost predicate SettledAs(before: seq<Ticket>, now: seq<Ticket>, me: nat, scopes: seq<Limiter>, est: nat, outcome: Outcome,
                            candidates: seq<Model>, r: Record)
  {
    match outcome
    case NoUpstream => Books(before, now, me, {})
    case Failed => Books(before, now, me, {})
    case Recorded(usage) =>
      && r.winner < |candidates|
      && Listed(before, now, me, r.requests, r.tokens, RequestLimiters(candidates[r.winner]), TokenLimiters(candidates[r.winner], est), est)
      && Charged(before, now, me, scopes, SetOf(r.requests), SetOf(r.tokens), ActualTokens(usage, est))
  }

  /** Each reservation the request has acquired since has been settled by exactly one call, ever. */
  ghost predicate OnceEach(scopes: seq<Limiter>, log: seq<Call>, before: seq<Ticket>, now: seq<Ticket>, me: nat) {
    forall id | |before| <= id < |now| && now[id].owner == me && now[id].acquired :: Settlements(scopes, log, id) == 1
  }

  lemma SettledMeansOnce(pool: LimiterPool, before: seq<Ticket>, me: nat)
    requires pool.Valid()
    requires forall i | |before| <= i < |pool.tickets| && pool.tickets[i].owner == me && pool.tickets[i].acquired :: pool.tickets[i].released
    ensures OnceEach(pool.scopes, pool.log, before, pool.tickets, me)
  {
    forall id | |before| <= id < |pool.tickets| && pool.tickets[id].owner == me && pool.tickets[id].acquired
      ensures Settlements(pool.scopes, pool.log, id) == 1
    {
      SettledExactlyOnce(pool.scopes, pool.log, id);
    }
  }

  lemma SettledOnEveryPath(pool: LimiterPool, before: seq<Ticket>, me: nat, est: nat, outcome: Outcome, candidates: seq<Model>, r: Record)
    requires pool.Valid() && SettledAs(before, pool.tickets, me, pool.scopes, est, outcome, candidates, r)
    ensures OnceEach(pool.scopes, pool.log, before, pool.tickets, me)
  {
    hide LimiterPool.Valid, Settlements;
    SettledMeansOnce(pool, before, me);
  }

  /** Elects a candidate; the record says how, and which. */
  method ElectForChat(pool: LimiterPool, candidates: seq<Model>, est: nat, me: nat) returns (model: ChatModel?, ghost r: Record)
    requires pool.Valid() && est > 0
    requires forall i | 0 <= i < |candidates| :: ModelInPool(candidates[i], |pool.scopes|) && TokensMetered(candidates[i], pool.scopes)
    modifies pool
    ensures pool.Valid() && Chosen(Moves(old(pool.log), me), Moves(pool.log, me), pool.scopes, candidates, est, model != null, r)
    ensures model == null ==> Books(old(pool.tickets), pool.tickets, me, {})
    ensures model != null ==>
              && fresh(model) && fresh(model.reservations) && model.Open()
              && model.pool == pool && model.me == me && model.before == old(pool.tickets) && model.estimatedTokens == est
              && r.winner < |candidates|
              && model.reqs == RequestLimiters(candidates[r.winner]) && model.toks == TokenLimiters(candidates[r.winner], est)
  {
    hide LimiterPool.Valid, Moves, Books, AllMade, Tried, AllProbed, FiniteIfGrantable, NoneRefused;
    ghost var before, probes, attempts := pool.tickets, [], [];
    var elected, rs;
    elected, rs, probes, attempts := ElectFromCandidates(pool, candidates, est, me, false);
    model, r := null, Record(probes, attempts, if elected.Some? then elected.value else 0, [], []);
    if rs != null {
      ghost var m := candidates[r.winner];
      MeteredTokens(m, est, pool.scopes);
      model := new ChatModel(pool, rs, me, est, before, RequestLimiters(m), TokenLimiters(m, est));
    }
  }

  lemma MeteredTokens(m: Model, est: nat, scopes: seq<Limiter>)
    requires ModelInPool(m, |scopes|) && TokensMetered(m, scopes)
    ensures forall k | 0 <= k < |TokenLimiters(m, est)| :: TokenLimiters(m, est)[k] < |scopes| && !scopes[TokenLimiters(m, est)[k]].Concurrency?
  {
  }

  /** A request that is not streamed: it ends as the upstream replies, and each reservation is settled once, accordingly. */
  method Chat(pool: LimiterPool, candidates: seq<Model>, est: nat, me: nat, reply: Reply) returns (outcome: Outcome, ghost r: Record)
    requires pool.Valid() && est > 0
    requires forall i | 0 <= i < |candidates| :: ModelInPool(candidates[i], |pool.scopes|) && TokensMetered(candidates[i], pool.scopes)
    modifies pool
    ensures outcome == NoUpstream || outcome == ReplyOutcome(reply)
    ensures pool.Valid() && Chosen(Moves(old(pool.log), me), Moves(pool.log, me), pool.scopes, candidates, est, outcome != NoUpstream, r)
    ensures SettledAs(old(pool.tickets), pool.tickets, me, pool.scopes, est, outcome, candidates, r)
    ensures OnceEach(pool.scopes, pool.log, old(pool.tickets), pool.tickets, me)
  {
    hide LimiterPool.Valid, Listed, Charged, Books, OnceEach, Settlements, ActualTokens, Moves, Chosen;
    ghost var before, calls, now := pool.tickets, Moves(pool.log, me), [];
    var model;
    model, r := ElectForChat(pool, candidates, est, me);
    now := Moves(pool.log, me);
    if model == null {
      outcome := NoUpstream;
    } else {
      model.Meanwhile();
      match reply {
        case Refusal =>
          outcome := Failed;
        case Reply(usage) =>
          SameChoice(calls, now, pool.scopes, candidates, est, r, model.reservations.requests, model.reservations.tokens);
          r := r.(requests := model.reservations.requests, tokens := model.reservations.tokens);
          model.RecordUsage(usage);
          outcome := Recorded(usage);
      }
      model.Close();
    }
    SettledOnEveryPath(pool, before, me, est, outcome, candidates, r);
  }

  lemma SameChoice(before: seq<Call>, now: seq<Call>, scopes: seq<Limiter>, candidates: seq<Model>, est: nat, r: Record,
                   requests: seq<nat>, tokens: seq<nat>)
    requires Chosen(before, now, scopes, candidates, est, true, r)
    ensures Chosen(before, now, scopes, candidates, est, true, r.(requests := requests, tokens := tokens))
  {
    hide Flat, AllCalls, AllProbed, AllMade, Tried, FiniteIfGrantable, NoneRefused;
  }

  /** A streaming request: it ends as the stream does, and each reservation is settled once, accordingly. */
  method ChatStream(pool: LimiterPool, candidates: seq<Model>, est: nat, me: nat, stream: Stream) returns (outcome: Outcome, ghost r: Record)
    requires pool.Valid() && est > 0
    requires forall i | 0 <= i < |candidates| :: ModelInPool(candidates[i], |pool.scopes|) && TokensMetered(candidates[i], pool.scopes)
    modifies pool
    ensures outcome == NoUpstream || outcome == StreamOutcome(stream)
    ensures pool.Valid() && Chosen(Moves(old(pool.log), me), Moves(pool.log, me), pool.scopes, candidates, est, outcome != NoUpstream, r)
    ensures SettledAs(old(pool.tickets), pool.tickets, me, pool.scopes, est, outcome, candidates, r)
    ensures OnceEach(pool.scopes, pool.log, old(pool.tickets), pool.tickets, me)
  {
    hide LimiterPool.Valid, Listed, Charged, Books, OnceEach, Settlements, ActualTokens, Moves, Chosen;
    ghost var before, calls, now := pool.tickets, Moves(pool.log, me), [];
    var model;
    model, r := ElectForChat(pool, candidates, est, me);
    now := Moves(pool.log, me);
    if model == null {
      outcome := NoUpstream;
    } else {
      outcome := Relay(model, stream);
      if outcome.Recorded? {
        SameChoice(calls, now, pool.scopes, candidates, est, r, model.reservations.requests, model.reservations.tokens);
        r := r.(requests := model.reservations.requests, tokens := model.reservations.tokens);
        model.RecordUsage(outcome.usage);
      }
      model.Close();
    }
    SettledOnEveryPath(pool, before, me, est, outcome, candidates, r);
  }

  /** The loop over the events: each is reduced and sent on, until the stream ends, breaks, or the client is gone. */
  method Relay(model: ChatModel, stream: Stream) returns (outcome: Outcome)
    requires model.Open()
    modifies model.pool
    ensures model.Open() && Moves(model.pool.log, model.me) == Moves(old(model.pool.log), model.me)
    ensures outcome == StreamOutcome(stream)
  {
    hide ChatModel.Open, Moves, R.ChatEventReducer.Valid, R.ChatEventReducer.Value, R.Reduced;
    var reducer := new R.ChatEventReducer();
    for i := 0 to |stream.events|
      invariant model.Open() && Moves(model.pool.log, model.me) == Moves(old(model.pool.log), model.me)
      invariant fresh(reducer) && (forall k | 0 <= k < |reducer.contents| :: fresh(reducer.contents[k])) && reducer.Valid()
      invariant reducer.Value() == R.Run(R.EMPTY, stream.events[..i])
      invariant (stream.leaves.Some? ==> i <= stream.leaves.value) && (stream.fails.Some? ==> i <= stream.fails.value)
    {
      model.Meanwhile();
      if stream.leaves.Some? && stream.leaves.value <= i {
        UsageSoFar(reducer);
        return Recorded(reducer.usage);
      }
      assert stream.events[..i + 1] == stream.events[..i] + [stream.events[i]];
      R.RunAppend(R.EMPTY, stream.events[..i], stream.events[i]);
      reducer.Reduce(stream.events[i]);
      assert forall k | 0 <= k < |reducer.contents| :: reducer.contents[k] in reducer.contents;
      if stream.fails.Some? && stream.fails.value <= i {
        return Failed;
      }
    }
    assert stream.events[..|stream.events|] == stream.events;
    if stream.broken {
      return Failed;
    }
    UsageSoFar(reducer);
    return Recorded(reducer.usage);
  }

  lemma UsageSoFar(reducer: R.ChatEventReducer)
    ensures reducer.Value().resp.usage == reducer.usage
  {
  }
}

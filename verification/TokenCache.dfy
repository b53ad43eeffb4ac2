/**
 The cached access token. GetToken alone is a class method; any number of overlapping calls are a state
 machine whose steps are the lock operations, the reads of the field and the end of a fetch.
 */
module TokenCache {
  import opened Api

  /** Thirty seconds. */
  const LEEWAY := 30

  /** `expiry` is the exp claim of the access token, section 4.1.4 of RFC 7519. */
  datatype Token = Token(text: string, expiry: int)

  datatype Result = Got(token: Token) | Failed(msg: string)

  predicate Good(t: Option<Token>, now: int) {
    t.Some? && t.value.expiry - LEEWAY > now
  }

  /** What a call that runs alone leaves in the cache, given what a fetch would answer. */
  function CacheAfter(cached: Option<Token>, entry: int, reply: Result): Option<Token> {
    if Good(cached, entry) then cached
    else match reply
      case Got(t) => Some(t)
      case Failed(_) => cached
  }

  function Answer(cached: Option<Token>, entry: int, reply: Result): Result {
    if Good(cached, entry) then Got(cached.value)
    else match reply
      case Got(t) => Got(t)
      case Failed(msg) => Failed("unable to rotate token: " + msg)
  }

  class CachedToken {
    var token: Option<Token>

    constructor ()
      ensures token == None
    {
      token := None;
    }

    /** Under the read lock. */
    method FastPath(now: int) returns (r: Option<Token>)
      ensures r.Some? <==> Good(token, now)
      ensures r.Some? ==> r == token
    {
      var read := token;
      r := if Good(read, now) then read else None;
    }

    /** Under the write lock; the cache may have been filled since the fast path. */
    method SlowPath(now: int, fetch: Result) returns (r: Result)
      modifies this
      ensures token == CacheAfter(old(token), now, fetch) && r == Answer(old(token), now, fetch)
    {
      if Good(token, now) {
        return Got(token.value);
      }
      if fetch.Failed? {
        return Failed("unable to rotate token: " + fetch.msg);
      }
      token := Some(fetch.token);
      r := fetch;
    }

    method GetToken(now: int, fetch: Result) returns (r: Result)
      modifies this
      ensures token == CacheAfter(old(token), now, fetch) && r == Answer(old(token), now, fetch)
      ensures r.Got? ==> token == Some(r.token) && (r.token.expiry - 30 > now || r == fetch)
      ensures r.Failed? ==> fetch.Failed? && r.msg == "unable to rotate token: " + fetch.msg && token == old(token)
      ensures old(token).Some? && old(token).value.expiry - 30 > now ==> r == Got(old(token).value)
      ensures old(token).None? || old(token).value.expiry - 30 <= now ==> (r.Got? <==> fetch.Got?)
    {
      var hit := FastPath(now);
      if hit.Some? {
        return Got(hit.value);
      }
      r := SlowPath(now, fetch);
    }
  }

  // Overlapping calls. A caller stands for one call of GetToken.

  datatype Phase =
    | Entered(entry: int)
    | Reading(entry: int)
    | HasRead(entry: int, seen: Option<Token>)
    | Missed(entry: int)
    | Holding(entry: int)
    | Fetching(entry: int)
    | Returned(entry: int, result: Result, fetched: bool)

  /** A call at the moment it takes effect: on reading a good token, or when its fetch ends. */
  datatype Call = Call(who: nat, entry: int, reply: Option<Result>, result: Result)

  datatype State = State(cached: Option<Token>, readers: set<nat>, writer: Option<nat>, phase: map<nat, Phase>,
                         log: seq<Call>)

  const START := State(None, {}, None, map[], [])

  datatype Event =
    | Enter(who: nat, now: int) | RLock(who: nat) | Read(who: nat) | RUnlock(who: nat)
    | Lock(who: nat) | Check(who: nat) | FetchEnd(who: nat, reply: Result)

  predicate Enabled(s: State, e: Event) {
    if e.Enter? then e.who !in s.phase
    else e.who in s.phase && match e
      case RLock(c) => s.phase[c].Entered? && s.writer.None?
      case Read(c) => s.phase[c].Reading?
      case RUnlock(c) => s.phase[c].HasRead?
      case Lock(c) => s.phase[c].Missed? && s.writer.None? && s.readers == {}
      case Check(c) => s.phase[c].Holding?
      case FetchEnd(c, _) => s.phase[c].Fetching?
  }

  function Next(s: State, e: Event): State
    requires Enabled(s, e)
  {
    match e
    case Enter(c, now) => s.(phase := s.phase[c := Entered(now)])
    case RLock(c) => s.(phase := s.phase[c := Reading(s.phase[c].entry)], readers := s.readers + {c})
    case Read(c) =>
      var entry := s.phase[c].entry;
      s.(phase := s.phase[c := HasRead(entry, s.cached)],
         log := if Good(s.cached, entry) then s.log + [Call(c, entry, None, Got(s.cached.value))] else s.log)
    case RUnlock(c) =>
      var p := s.phase[c];
      s.(readers := s.readers - {c},
         phase := s.phase[c := if Good(p.seen, p.entry) then Returned(p.entry, Got(p.seen.value), false)
           else Missed(p.entry)])
    case Lock(c) => s.(phase := s.phase[c := Holding(s.phase[c].entry)], writer := Some(c))
    case Check(c) =>
      var entry := s.phase[c].entry;
      if Good(s.cached, entry) then
        s.(phase := s.phase[c := Returned(entry, Got(s.cached.value), false)], writer := None,
           log := s.log + [Call(c, entry, None, Got(s.cached.value))])
      else s.(phase := s.phase[c := Fetching(entry)])
    case FetchEnd(c, reply) =>
      var entry := s.phase[c].entry;
      var result := if reply.Got? then reply else Failed("unable to rotate token: " + reply.msg);
      s.(cached := if reply.Got? then Some(reply.token) else s.cached,
         phase := s.phase[c := Returned(entry, result, true)], writer := None,
         log := s.log + [Call(c, entry, Some(reply), result)])
  }

  ghost predicate Legal(s: State, es: seq<Event>)
    decreases |es|
  {
    es == [] || (Enabled(s, es[0]) && Legal(Next(s, es[0]), es[1..]))
  }

  ghost function Run(s: State, es: seq<Event>): State
    requires Legal(s, es)
    decreases |es|
  {
    if es == [] then s else Run(Next(s, es[0]), es[1..])
  }

  /** The cache after the logged calls run one after another, alone. */
  function Replay(log: seq<Call>): Option<Token>
    decreases |log|
  {
    if log == [] then None
    else
      var last := log[|log| - 1];
      CacheAfter(Replay(log[..|log| - 1]), last.entry, last.reply.GetOr(Failed("")))
  }

  /** A logged call answered, and fetched, as it would have alone at its place in the log. */
  ghost predicate Faithful(log: seq<Call>, i: nat)
    requires i < |log|
  {
    var cached := Replay(log[..i]);
    && log[i].result == Answer(cached, log[i].entry, log[i].reply.GetOr(Failed("")))
    && (log[i].reply.None? <==> Good(cached, log[i].entry))
  }

  /** The read-write lock keeps writers alone. */
  ghost predicate LockHeld(s: State) {
    && (forall c :: c in s.readers <==> c in s.phase && (s.phase[c].Reading? || s.phase[c].HasRead?))
    && (forall c :: s.writer == Some(c) <==> c in s.phase && (s.phase[c].Holding? || s.phase[c].Fetching?))
    && (s.writer.Some? ==> s.readers == {})
  }

  /** The result a caller will return is settled. */
  ghost predicate Settled(p: Phase) {
    p.Returned? || (p.HasRead? && Good(p.seen, p.entry))
  }

  ghost predicate LoggedAs(call: Call, c: nat, p: Phase) {
    && call.who == c && call.entry == p.entry
    && (p.HasRead? && p.seen.Some? ==> call.reply.None? && call.result == Got(p.seen.value))
    && (p.Returned? ==> call.result == p.result && (call.reply.Some? <==> p.fetched))
  }

  ghost predicate LogSound(s: State) {
    forall i :: 0 <= i < |s.log| ==>
      s.log[i].who in s.phase && Settled(s.phase[s.log[i].who])
        && LoggedAs(s.log[i], s.log[i].who, s.phase[s.log[i].who])
  }

  ghost predicate InLog(log: seq<Call>, c: nat) {
    exists i :: 0 <= i < |log| && log[i].who == c
  }

  /** Calls whose result is settled are in the log, once; the others are not. */
  ghost predicate LogMatches(s: State) {
    && LogSound(s)
    && (forall i, j :: 0 <= i < j < |s.log| ==> s.log[i].who != s.log[j].who)
    && (forall c :: c in s.phase && Settled(s.phase[c]) ==> InLog(s.log, c))
  }

  ghost predicate Inv(s: State) {
    && LockHeld(s) && LogMatches(s)
    && s.cached == Replay(s.log)
    && (forall i :: 0 <= i < |s.log| ==> Faithful(s.log, i))
    && (forall c :: c in s.phase && s.phase[c].Fetching? ==> !Good(s.cached, s.phase[c].entry))
  }

  lemma StepKeepsLock(s: State, e: Event)
    requires LockHeld(s) && Enabled(s, e)
    ensures LockHeld(Next(s, e))
  {
  }

  /** A step settles at most its own caller, and logs it then. */
  lemma StepLogs(s: State, e: Event)
    requires Enabled(s, e)
    ensures var s' := Next(s, e); var c := e.who;
      && s'.phase == s.phase[c := s'.phase[c]]
      && (s'.log == s.log || (s'.log == s.log + [s'.log[|s.log|]] && LoggedAs(s'.log[|s.log|], c, s'.phase[c])))
      && (s'.log != s.log <==> Settled(s'.phase[c]) && !(c in s.phase && Settled(s.phase[c])))
      && (c in s.phase && Settled(s.phase[c]) ==>
            Settled(s'.phase[c]) && forall call :: LoggedAs(call, c, s.phase[c]) ==> LoggedAs(call, c, s'.phase[c]))
  {
  }

  lemma StepKeepsLog(s: State, e: Event)
    requires LogMatches(s) && Enabled(s, e)
    ensures LogMatches(Next(s, e))
  {
    hide Next, Settled, LoggedAs, Enabled;
    StepLogs(s, e);
    var s' := Next(s, e);
    forall c | c in s'.phase && Settled(s'.phase[c]) ensures InLog(s'.log, c) {
      if c in s.phase && Settled(s.phase[c]) {
        var i :| 0 <= i < |s.log| && s.log[i].who == c;
        assert s'.log[i].who == c;
      } else {
        LoggedWho(s'.log[|s.log|], c, s'.phase[c]);
        assert s'.log[|s.log|].who == c;
      }
    }
    if s'.log != s.log { LoggedWho(s'.log[|s.log|], e.who, s'.phase[e.who]); }
  }

  lemma LoggedWho(call: Call, c: nat, p: Phase)
    requires LoggedAs(call, c, p)
    ensures call.who == c
  {
  }

  lemma StepKeepsReplay(s: State, e: Event)
    requires Inv(s) && Enabled(s, e)
    ensures var s' := Next(s, e); s'.cached == Replay(s'.log) && forall i :: 0 <= i < |s'.log| ==> Faithful(s'.log, i)
  {
    var s' := Next(s, e);
    assert s'.log == s.log || s'.log[..|s.log|] == s.log;
    forall i | 0 <= i < |s'.log| ensures Faithful(s'.log, i) {
      if i < |s.log| {
        assert s'.log[..i] == s.log[..i];
        assert Faithful(s.log, i);
      }
    }
  }

  lemma StepKeepsInv(s: State, e: Event)
    requires Inv(s) && Enabled(s, e)
    ensures Inv(Next(s, e))
  {
    hide LogMatches, Faithful, Replay;
    StepKeepsLock(s, e);
    StepKeepsLog(s, e);
    StepKeepsReplay(s, e);
  }

  lemma {:induction false} RunKeepsInv(s: State, es: seq<Event>)
    requires Inv(s) && Legal(s, es)
    ensures Inv(Run(s, es))
    decreases |es|
  {
    if es != [] {
      StepKeepsInv(s, es[0]);
      RunKeepsInv(Next(s, es[0]), es[1..]);
    }
  }

  lemma {:induction false} LogGrows(s: State, es: seq<Event>)
    requires Legal(s, es)
    ensures s.log <= Run(s, es).log
    decreases |es|
  {
    if es != [] {
      LogGrows(Next(s, es[0]), es[1..]);
    }
  }

  /** A call that had returned before another began comes before it in the log. */
  ghost predicate InOrder(before: State, after: State) {
    && before.log <= after.log
    && forall i, j :: 0 <= i < |after.log| && 0 <= j < |after.log| ==>
         var c, c' := after.log[i].who, after.log[j].who;
         c in before.phase && before.phase[c].Returned? && c' !in before.phase ==> i < j
  }

  lemma ReturnedComesFirst(s: State, s': State)
    requires Inv(s) && Inv(s') && s.log <= s'.log
    ensures InOrder(s, s')
  {
    forall i, j | 0 <= i < |s'.log| && 0 <= j < |s'.log|
      && s'.log[i].who in s.phase && s.phase[s'.log[i].who].Returned? && s'.log[j].who !in s.phase
      ensures i < j
    {
      assert InLog(s.log, s'.log[i].who);
      var k :| 0 <= k < |s.log| && s.log[k].who == s'.log[i].who;
      assert s'.log[k] == s.log[k];
      assert i == k;
    }
  }

  /**
   Every interleaving is equivalent to the settled calls run one at a time: the cache is what they
   leave, each answered what it would have answered in its turn, and each caller that has returned is
   one of them. Their order respects time: at whatever moment the run is cut, calls that had returned
   come before calls that had not begun.
   */
  lemma Linearizable(es: seq<Event>, later: seq<Event>)
    requires Legal(START, es) && Legal(Run(START, es), later)
    ensures var s := Run(Run(START, es), later);
      && s.cached == Replay(s.log)
      && (forall i :: 0 <= i < |s.log| ==> Faithful(s.log, i))
      && LogMatches(s)
      && InOrder(Run(START, es), s)
  {
    RunKeepsInv(START, es);
    RunKeepsInv(Run(START, es), later);
    LogGrows(Run(START, es), later);
    hide Inv;
    ReturnedComesFirst(Run(START, es), Run(Run(START, es), later));
  }

  /** A writer holds the lock alone: no second one, and no reader meanwhile. */
  lemma MutualExclusion(es: seq<Event>, c: nat, c': nat)
    requires Legal(START, es)
    requires var s := Run(START, es);
      c in s.phase && c' in s.phase && c != c' && (s.phase[c].Holding? || s.phase[c].Fetching?)
    ensures var s := Run(START, es);
      !s.phase[c'].Holding? && !s.phase[c'].Fetching? && !s.phase[c'].Reading? && !s.phase[c'].HasRead?
  {
    RunKeepsInv(START, es);
    assert LockHeld(Run(START, es));
  }

  /** Every token returned was good past the leeway at the caller's entry, or fetched by that very call. */
  lemma ResultsValid(es: seq<Event>, c: nat)
    requires Legal(START, es)
    requires var s := Run(START, es); c in s.phase && s.phase[c].Returned? && s.phase[c].result.Got?
    ensures var p := Run(START, es).phase[c]; p.fetched || p.result.token.expiry - 30 > p.entry
  {
    RunKeepsInv(START, es);
    var s := Run(START, es);
    assert InLog(s.log, c);
    var i :| 0 <= i < |s.log| && s.log[i].who == c;
    assert Faithful(s.log, i);
  }

  /** While a token is cached, a call in the middle of a fetch entered no earlier than its expiry less the leeway. */
  lemma NoNeedlessFetch(es: seq<Event>, c: nat)
    requires Legal(START, es)
    requires var s := Run(START, es); c in s.phase && s.phase[c].Fetching? && s.cached.Some?
    ensures var s := Run(START, es); s.phase[c].entry >= s.cached.value.expiry - 30
  {
    RunKeepsInv(START, es);
  }

  ghost predicate Stores(call: Call) {
    call.reply.Some? && call.reply.value.Got?
  }

  lemma {:induction false} StoredStays(log: seq<Call>, i: nat, j: nat)
    requires i < j <= |log| && Stores(log[i])
    requires forall k :: 0 <= k < |log| ==> Faithful(log, k)
    requires forall k :: i < k < j ==> !Stores(log[k])
    ensures Replay(log[..j]) == Some(log[i].reply.value.token)
    decreases j
  {
    assert log[..j][..j - 1] == log[..j - 1];
    assert Faithful(log, j - 1);
    if i < j - 1 {
      StoredStays(log, i, j - 1);
    }
  }

  /**
   Of two fetches with no token stored between them, the later caller entered when the first one's token was within the
   leeway of its expiry.
   */
  lemma FetchesApart(es: seq<Event>, i: nat, j: nat)
    requires Legal(START, es)
    requires var log := Run(START, es).log;
      i < j < |log| && Stores(log[i]) && log[j].reply.Some? && forall k :: i < k < j ==> !Stores(log[k])
    ensures var log := Run(START, es).log; log[j].entry >= log[i].reply.value.token.expiry - 30
  {
    RunKeepsInv(START, es);
    var log := Run(START, es).log;
    StoredStays(log, i, j);
    assert Faithful(log, j);
  }
}

/** The ACME client's book of orders: which hostnames have one under way, what challenges are served, and when a
    hostname that failed may be tried again. */
module Acme {
  import opened Common

  type Host = string
  type Token = string
  type Id = nat

  const RENEW_WITHIN: nat := 30 * 24 * 60 * 60
  const FIRST_RETRY_AFTER: nat := 300
  const MAX_RETRY_AFTER: nat := 21600

  datatype Failure = Failure(retryAt: nat, wait: nat)

  function NextWait(last: Option<Failure>): nat {
    if last.None? then FIRST_RETRY_AFTER else Min(last.value.wait * 2, MAX_RETRY_AFTER)
  }

  function Tokens(ts: seq<Token>): set<Token> { set t | t in ts }

  // -------------------------------------------------------- many calls at once --

  /** Where one call of `ensure` is. */
  datatype Call =
    | NotFresh(host: Host)                        // its certificate is not fresh
    | MayTry(host: Host)                          // and it is not waiting after a failure
    | Live(host: Host, tokens: seq<Token>)        // its order is under way
    | Ended(host: Host, tokens: seq<Token>)       // the order's result is on record; it is still to be dropped
    | Freeing(host: Host)                         // its challenges are no longer served
  {
    predicate Holds() { Live? || Ended? || Freeing? }
    predicate Serves(t: Token) { (Live? || Ended?) && t in tokens }
  }

  datatype State = State(
    now: nat,
    ordering: set<Host>,
    challenges: map<Token, string>,
    failed: map<Host, Failure>,
    expires: map<Host, nat>,
    calls: map<Id, Call>,
    failures: map<Host, nat>)  // history: orders of it that failed since one last succeeded

  datatype Step =
    | Tick(t: nat)
    | CheckFresh(id: Id, host: Host)
    | CheckWaiting(id: Id)
    | Begin(id: Id)
    | Answer(id: Id, token: Token, key: string)
    | Finish(id: Id, result: Option<nat>)
    | DropTokens(id: Id)
    | DropHost(id: Id)

  predicate Fresh(s: State, host: Host) { host in s.expires && s.now + RENEW_WITHIN < s.expires[host] }

  predicate Waiting(s: State, host: Host) { host in s.failed && s.now < s.failed[host].retryAt }

  predicate Can(s: State, st: Step) {
    match st
    case Tick(t) => s.now <= t
    case CheckFresh(id, host) => id !in s.calls && !Fresh(s, host)
    case CheckWaiting(id) => id in s.calls && s.calls[id].NotFresh? && !Waiting(s, s.calls[id].host)
    case Begin(id) => id in s.calls && s.calls[id].MayTry?
    case Answer(id, token, key) => id in s.calls && s.calls[id].Live?
    case Finish(id, result) => id in s.calls && s.calls[id].Live?
    case DropTokens(id) => id in s.calls && (s.calls[id].Live? || s.calls[id].Ended?)
    case DropHost(id) => id in s.calls && s.calls[id].Freeing?
  }

  function LastFailure(s: State, host: Host): Option<Failure> { if host in s.failed then Some(s.failed[host]) else None }

  function Failures(s: State, host: Host): nat { if host in s.failures then s.failures[host] else 0 }

  function Do(s: State, st: Step): State
    requires Can(s, st)
  {
    match st
    case Tick(t) => s.(now := t)
    case CheckFresh(id, host) => s.(calls := s.calls[id := NotFresh(host)])
    case CheckWaiting(id) => s.(calls := s.calls[id := MayTry(s.calls[id].host)])
    case Begin(id) =>
      var host := s.calls[id].host;
      if host in s.ordering then s.(calls := s.calls - {id})
      else s.(ordering := s.ordering + {host}, calls := s.calls[id := Live(host, [])])
    case Answer(id, token, key) =>
      s.(challenges := s.challenges[token := key],
         calls := s.calls[id := Live(s.calls[id].host, s.calls[id].tokens + [token])])
    case Finish(id, result) =>
      var host := s.calls[id].host;
      var s' := s.(calls := s.calls[id := Ended(host, s.calls[id].tokens)]);
      if result.Some? then
        s'.(failed := s.failed - {host}, expires := s.expires[host := result.value], failures := s.failures - {host})
      else
        var wait := NextWait(LastFailure(s, host));
        s'.(failed := s.failed[host := Failure(s.now + wait, wait)],
            failures := s.failures[host := Failures(s, host) + 1])
    case DropTokens(id) =>
      s.(challenges := s.challenges - Tokens(s.calls[id].tokens), calls := s.calls[id := Freeing(s.calls[id].host)])
    case DropHost(id) => s.(ordering := s.ordering - {s.calls[id].host}, calls := s.calls - {id})
  }

  /** A client that has loaded the certificates stored before. */
  function NewClient(stored: map<Host, nat>): State { State(0, {}, map[], map[], stored, map[], map[]) }

  ghost predicate IsRun(ss: seq<State>, sts: seq<Step>) {
    && |ss| == |sts| + 1 && ss[0] == NewClient(ss[0].expires)
    && forall k | 0 <= k < |sts| :: Can(ss[k], sts[k]) && Do(ss[k], sts[k]) == ss[k + 1]
  }

  // ---------------------------------------------------------- the client itself --

  class Acme {
    var ordering: set<Host>
    var challenges: map<Token, string>
    var failed: map<Host, Failure>
    var expires: map<Host, nat>   // each hostname's certificate, by when it ends
    ghost var now: nat
    ghost var calls: map<Id, Call>
    ghost var failures: map<Host, nat>

    ghost function View(): State
      reads this
    {
      State(now, ordering, challenges, failed, expires, calls, failures)
    }

    constructor (stored: map<Host, nat>)
      ensures View() == NewClient(stored)
    {
      ordering, challenges, failed, expires := {}, map[], map[], stored;
      now, calls, failures := 0, map[], map[];
    }

    /** Looks whether the hostname needs an order, and may have one. */
    method Look(ghost id: Id, host: Host, time: nat) returns (go: bool)
      requires id !in calls && time == now
      modifies `calls
      ensures go <==> Can(old(View()), CheckFresh(id, host)) && !Waiting(old(View()), host)
      ensures go ==> View() == Do(Do(old(View()), CheckFresh(id, host)), CheckWaiting(id))
      ensures !go ==> View() == old(View())
    {
      var lasts := host in expires && time + RENEW_WITHIN < expires[host];
      var waiting := host in failed && time < failed[host].retryAt;
      if lasts || waiting { return false; }
      calls := calls[id := MayTry(host)];
      assert calls == Do(Do(old(View()), CheckFresh(id, host)), CheckWaiting(id)).calls;
      return true;
    }

    /** Takes the hostname for one order, unless another has it. */
    method Start(ghost id: Id, host: Host) returns (ok: bool)
      requires id in calls && calls[id] == MayTry(host)
      modifies `ordering, `calls
      ensures ok <==> host !in old(ordering)
      ensures View() == Do(old(View()), Begin(id))
    {
      ok := host !in ordering;
      ordering := ordering + {host};
      calls := if ok then calls[id := Live(host, [])] else calls - {id};
    }

    /** Serves a challenge until the order ends. */
    method Answer(ghost id: Id, ghost host: Host, tokens: seq<Token>, token: Token, key: string) returns (tokens': seq<Token>)
      requires id in calls && calls[id] == Live(host, tokens)
      modifies `challenges, `calls
      ensures View() == Do(old(View()), Step.Answer(id, token, key)) && calls[id] == Live(host, tokens')
    {
      challenges := challenges[token := key];
      tokens' := tokens + [token];
      calls := calls[id := Live(host, tokens')];
    }

    /** What an order's end leaves on record. */
    method Record(ghost id: Id, host: Host, ghost tokens: seq<Token>, time: nat, result: Option<nat>)
      requires id in calls && calls[id] == Live(host, tokens) && time == now
      modifies `failed, `expires, `calls, `failures
      ensures View() == Do(old(View()), Finish(id, result))
    {
      ghost var s := View();
      if result.Some? {
        failed := failed - {host};
        expires := expires[host := result.value];
        failures := failures - {host};
      } else {
        var wait := if host in failed then Min(failed[host].wait * 2, MAX_RETRY_AFTER) else FIRST_RETRY_AFTER;
        failed := failed[host := Failure(time + wait, wait)];
        failures := failures[host := Failures(s, host) + 1];
      }
      calls := calls[id := Ended(host, tokens)];
    }

    /** However the order ended, its challenges and its hostname are given back. */
    method Drop(ghost id: Id, host: Host, tokens: seq<Token>)
      requires id in calls && (calls[id] == Live(host, tokens) || calls[id] == Ended(host, tokens))
      modifies `challenges, `ordering, `calls
      ensures View() == Do(Do(old(View()), DropTokens(id)), DropHost(id))
    {
      for i := 0 to |tokens|
        invariant challenges == old(challenges) - Tokens(tokens[..i])
        invariant ordering == old(ordering) && calls == old(calls)
      {
        challenges := challenges - {tokens[i]};
        assert Tokens(tokens[..i + 1]) == Tokens(tokens[..i]) + {tokens[i]};
      }
      assert tokens[..|tokens|] == tokens;
      ordering := ordering - {host};
      calls := calls - {id};
      assert calls == Do(Do(old(View()), DropTokens(id)), DropHost(id)).calls;
    }
  }

  // ------------------------------------------------------------------ exclusion --

  predicate HoldsAt(s: State, id: Id, h: Host) { id in s.calls && s.calls[id].Holds() && s.calls[id].host == h }

  /** The hostnames with an order are the orders', each one's alone. */
  ghost predicate OneOrderEach(s: State) {
    && (forall id, h | HoldsAt(s, id, h) :: h in s.ordering)
    && (forall a, b, h | HoldsAt(s, a, h) && HoldsAt(s, b, h) :: a == b)
    && (forall h | h in s.ordering :: exists id :: HoldsAt(s, id, h))
  }

  /** Which orders a step takes up and gives up. */
  lemma HoldsAfter(s: State, st: Step, id: Id, h: Host)
    requires Can(s, st)
    ensures HoldsAt(Do(s, st), id, h) <==>
      || (HoldsAt(s, id, h) && !(st.DropHost? && st.id == id))
      || (st.Begin? && st.id == id && s.calls[id].host == h && h !in s.ordering)
    ensures h in Do(s, st).ordering <==>
      || (h in s.ordering && !(st.DropHost? && s.calls[st.id].host == h))
      || (st.Begin? && s.calls[st.id].host == h)
  {
  }

  lemma HolderKept(s: State, st: Step, h: Host)
    requires Can(s, st) && h in Do(s, st).ordering
    requires h in s.ordering ==> exists id :: HoldsAt(s, id, h)
    requires forall a, b | HoldsAt(s, a, h) && HoldsAt(s, b, h) :: a == b
    ensures exists id :: HoldsAt(Do(s, st), id, h)
  {
    HoldsAfter(s, st, 0, h);
    if h in s.ordering {
      var id :| HoldsAt(s, id, h);
      HoldsAfter(s, st, id, h);
      assert HoldsAt(Do(s, st), id, h);
    } else {
      HoldsAfter(s, st, st.id, h);
    }
  }

  lemma OneOrderEachKept(s: State, st: Step)
    requires OneOrderEach(s) && Can(s, st)
    ensures OneOrderEach(Do(s, st))
  {
    var s' := Do(s, st);
    forall id, h | HoldsAt(s', id, h) ensures h in s'.ordering {
      HoldsAfter(s, st, id, h);
      if st.DropHost? && s.calls[st.id].host == h { assert HoldsAt(s, st.id, h); }
    }
    forall a, b, h | HoldsAt(s', a, h) && HoldsAt(s', b, h) ensures a == b {
      HoldsAfter(s, st, a, h);
      HoldsAfter(s, st, b, h);
    }
    forall h | h in s'.ordering ensures exists id :: HoldsAt(s', id, h) {
      HolderKept(s, st, h);
    }
  }

  // ------------------------------------------------------------------- backoff --

  function Pow2(n: nat): nat { if n == 0 then 1 else 2 * Pow2(n - 1) }

  /** The kth failure in a row waits min(300 * 2^(k-1), 21600) seconds. */
  predicate WaitsAfter(k: nat, wait: nat)
    requires k > 0
  {
    wait == Min(FIRST_RETRY_AFTER * Pow2(k - 1), MAX_RETRY_AFTER)
  }

  ghost predicate Backoff(s: State) {
    forall h :: (h in s.failed <==> h in s.failures) && (h in s.failures ==> s.failures[h] > 0 && WaitsAfter(s.failures[h], s.failed[h].wait))
  }

  lemma Doubles(k: nat, wait: nat)
    requires k > 0 && WaitsAfter(k, wait)
    ensures WaitsAfter(k + 1, Min(wait * 2, MAX_RETRY_AFTER))
  {
    assert FIRST_RETRY_AFTER * Pow2(k) == 2 * (FIRST_RETRY_AFTER * Pow2(k - 1));
  }

  lemma BackoffKept(s: State, st: Step)
    requires Backoff(s) && Can(s, st)
    ensures Backoff(Do(s, st))
  {
    if st.Finish? && st.result.None? {
      var host := s.calls[st.id].host;
      if host in s.failed { Doubles(s.failures[host], s.failed[host].wait); } else { assert WaitsAfter(1, FIRST_RETRY_AFTER); }
    }
  }

  // ---------------------------------------------------------------- challenges --

  /** Some order that lives serves the token. */
  predicate Served(s: State, t: Token) { exists id :: id in s.calls && s.calls[id].Serves(t) }

  /** Nothing is served but what some live order asked for. */
  ghost predicate NoneStale(s: State) { forall t | t in s.challenges :: Served(s, t) }

  ghost predicate AllServed(s: State) { forall id, t | id in s.calls && s.calls[id].Serves(t) :: t in s.challenges }

  lemma ServerKept(s: State, st: Step, id: Id, t: Token)
    requires Can(s, st) && id in s.calls && s.calls[id].Serves(t) && t in Do(s, st).challenges
    ensures id in Do(s, st).calls && Do(s, st).calls[id].Serves(t)
  {
  }

  lemma ServedKept(s: State, st: Step, t: Token)
    requires Can(s, st) && (t in s.challenges ==> Served(s, t)) && t in Do(s, st).challenges
    ensures Served(Do(s, st), t)
  {
    if st.Answer? && st.token == t {
      assert Do(s, st).calls[st.id].Serves(t);
    } else {
      var id :| id in s.calls && s.calls[id].Serves(t);
      ServerKept(s, st, id, t);
    }
  }

  ghost predicate Inv(s: State) { OneOrderEach(s) && Backoff(s) && NoneStale(s) }

  lemma StepKeepsInv(s: State, st: Step)
    requires Inv(s) && Can(s, st)
    ensures Inv(Do(s, st))
  {
    OneOrderEachKept(s, st);
    BackoffKept(s, st);
    forall t | t in Do(s, st).challenges ensures Served(Do(s, st), t) { ServedKept(s, st, t); }
  }

  lemma {:induction false} EveryStateSound(ss: seq<State>, sts: seq<Step>, k: nat)
    requires IsRun(ss, sts) && k < |ss|
    ensures Inv(ss[k])
  {
    if k > 0 {
      EveryStateSound(ss, sts, k - 1);
      StepKeepsInv(ss[k - 1], sts[k - 1]);
    }
  }

  /** In every run at most one order per hostname lives. */
  lemma OneLiveOrder(ss: seq<State>, sts: seq<Step>, k: nat, a: Id, b: Id)
    requires IsRun(ss, sts) && k < |ss| && a in ss[k].calls && b in ss[k].calls
    requires ss[k].calls[a].Holds() && ss[k].calls[b].Holds() && ss[k].calls[a].host == ss[k].calls[b].host
    ensures a == b
  {
    EveryStateSound(ss, sts, k);
    assert HoldsAt(ss[k], a, ss[k].calls[a].host) && HoldsAt(ss[k], b, ss[k].calls[a].host);
  }

  /** The kth failure in a row waits min(300 * 2^(k-1), 21600) seconds. */
  lemma FailureWaits(ss: seq<State>, sts: seq<Step>, k: nat, h: Host)
    requires IsRun(ss, sts) && k < |ss| && h in ss[k].failed
    ensures h in ss[k].failures && ss[k].failures[h] > 0
    ensures ss[k].failed[h].wait == Min(300 * Pow2(ss[k].failures[h] - 1), 21600)
  {
    EveryStateSound(ss, sts, k);
  }

  /** Another live order serves one of the tokens of the order that is dropped. */
  predicate Shares(s: State, id: Id)
    requires id in s.calls && (s.calls[id].Live? || s.calls[id].Ended?)
  {
    exists other, t :: other in s.calls && other != id && s.calls[other].Serves(t) && t in s.calls[id].tokens
  }

  /** A step keeps every live order's tokens served, unless it drops an order that shares a token with another,
      and then it does not. */
  lemma ServedExactly(s: State, st: Step)
    requires AllServed(s) && Can(s, st)
    ensures AllServed(Do(s, st)) <==> !(st.DropTokens? && Shares(s, st.id))
  {
    var s' := Do(s, st);
    if st.DropTokens? && Shares(s, st.id) {
      var other, t :| other in s.calls && other != st.id && s.calls[other].Serves(t) && t in s.calls[st.id].tokens;
      assert s'.calls[other].Serves(t) && t !in s'.challenges;
    } else if st.Answer? {
      forall id, t | id in s'.calls && s'.calls[id].Serves(t) ensures t in s'.challenges {
        if id == st.id && t != st.token { assert s.calls[id].Serves(t); }
      }
    }
  }

  /** No order is told to answer a token that another live order answers. */
  ghost predicate OwnTokens(ss: seq<State>, sts: seq<Step>)
    requires IsRun(ss, sts)
  {
    forall k | 0 <= k < |sts| && sts[k].Answer? ::
      forall id | id in ss[k].calls && id != sts[k].id :: !ss[k].calls[id].Serves(sts[k].token)
  }

  ghost predicate Apart(s: State) {
    forall a, b, t | a in s.calls && b in s.calls && s.calls[a].Serves(t) && s.calls[b].Serves(t) :: a == b
  }

  lemma ApartKept(s: State, st: Step)
    requires Apart(s) && Can(s, st)
    requires st.Answer? ==> forall id | id in s.calls && id != st.id :: !s.calls[id].Serves(st.token)
    ensures Apart(Do(s, st))
  {
    var s' := Do(s, st);
    forall id, t | id in s'.calls && s'.calls[id].Serves(t)
      ensures id in s.calls && (s.calls[id].Serves(t) || (st.Answer? && st.id == id && st.token == t))
    {
    }
  }

  lemma {:induction false} ApartAndServed(ss: seq<State>, sts: seq<Step>, k: nat)
    requires IsRun(ss, sts) && OwnTokens(ss, sts) && k < |ss|
    ensures Apart(ss[k]) && AllServed(ss[k])
  {
    if k > 0 {
      ApartAndServed(ss, sts, k - 1);
      ApartKept(ss[k - 1], sts[k - 1]);
      ServedExactly(ss[k - 1], sts[k - 1]);
    }
  }

  /** When the CA gives each order tokens of its own, the challenges served are exactly the live orders' tokens. */
  lemma ServedAreLive(ss: seq<State>, sts: seq<Step>, k: nat, t: Token)
    requires IsRun(ss, sts) && OwnTokens(ss, sts) && k < |ss|
    ensures t in ss[k].challenges <==> Served(ss[k], t)
  {
    EveryStateSound(ss, sts, k);
    ApartAndServed(ss, sts, k);
  }

  /** The key that the steps of a run last gave for the token. */
  function LastKey(sts: seq<Step>, t: Token): Option<string> {
    if sts == [] then None
    else
      var last := sts[|sts| - 1];
      if last.Answer? && last.token == t then Some(last.key) else LastKey(sts[..|sts| - 1], t)
  }

  lemma KeyStep(s: State, st: Step, t: Token)
    requires Can(s, st) && t in Do(s, st).challenges
    ensures if st.Answer? && st.token == t then Do(s, st).challenges[t] == st.key
            else t in s.challenges && Do(s, st).challenges[t] == s.challenges[t]
  {
  }

  /** What is served for a token is the key that some order was last told to answer it with. */
  lemma {:induction false} ServesLastKey(ss: seq<State>, sts: seq<Step>, k: nat, t: Token)
    requires IsRun(ss, sts) && k < |ss| && t in ss[k].challenges
    ensures LastKey(sts[..k], t) == Some(ss[k].challenges[t])
  {
    if k > 0 {
      assert sts[..k][..k - 1] == sts[..k - 1];
      KeyStep(ss[k - 1], sts[k - 1], t);
      if t in ss[k - 1].challenges { ServesLastKey(ss, sts, k - 1, t); }
    }
  }

  // ------------------------------------------------------------- starting in time --

  /** The step ends an order of `host`. */
  predicate Ends(s: State, st: Step, host: Host) { st.Finish? && st.id in s.calls && s.calls[st.id].host == host }

  /** The last order of `host` to end between states `i` and `j`, by its step. */
  function LastEnd(ss: seq<State>, sts: seq<Step>, i: nat, j: nat, host: Host): Option<nat>
    requires i <= j < |ss| && |ss| == |sts| + 1
    decreases j
  {
    if i == j then None else if Ends(ss[j - 1], sts[j - 1], host) then Some(j - 1) else LastEnd(ss, sts, i, j - 1, host)
  }

  /** The last to end with a certificate. */
  function LastSuccess(ss: seq<State>, sts: seq<Step>, i: nat, j: nat, host: Host): Option<nat>
    requires i <= j < |ss| && |ss| == |sts| + 1
    decreases j
  {
    if i == j then None
    else if Ends(ss[j - 1], sts[j - 1], host) && sts[j - 1].result.Some? then Some(j - 1)
    else LastSuccess(ss, sts, i, j - 1, host)
  }

  function Expires(s: State, host: Host): Option<nat> { if host in s.expires then Some(s.expires[host]) else None }

  /** What a step does to a hostname's wait and certificate. */
  lemma EndsStep(s: State, st: Step, host: Host)
    requires Can(s, st)
    ensures s.now <= Do(s, st).now
    ensures LastFailure(Do(s, st), host) ==
      if !Ends(s, st, host) then LastFailure(s, host)
      else if st.result.Some? then None
      else Some(Failure(s.now + NextWait(LastFailure(s, host)), NextWait(LastFailure(s, host))))
    ensures Expires(Do(s, st), host) ==
      if Ends(s, st, host) && st.result.Some? then st.result else Expires(s, host)
  {
  }

  lemma NextWaitIs(s: State, host: Host)
    requires Backoff(s)
    ensures NextWait(LastFailure(s, host)) == Min(300 * Pow2(Failures(s, host)), 21600)
  {
    if host in s.failed { Doubles(s.failures[host], s.failed[host].wait); }
  }

  /** The wait that order's failure, the `Failures`th in a row and one more, asks for. */
  function WaitUntil(s: State, host: Host): nat { s.now + Min(300 * Pow2(Failures(s, host)), 21600) }

  /** What step `k` does to the hostname's wait and its certificate. */
  ghost predicate EndsAt(ss: seq<State>, sts: seq<Step>, k: nat, host: Host)
    requires k < |sts| && |ss| == |sts| + 1
  {
    if Ends(ss[k], sts[k], host) then
      if sts[k].result.Some? then LastFailure(ss[k + 1], host).None? && Expires(ss[k + 1], host) == sts[k].result
      else
        && LastFailure(ss[k + 1], host).Some? && LastFailure(ss[k + 1], host).value.retryAt == WaitUntil(ss[k], host)
        && Expires(ss[k + 1], host) == Expires(ss[k], host)
    else LastFailure(ss[k + 1], host) == LastFailure(ss[k], host) && Expires(ss[k + 1], host) == Expires(ss[k], host)
  }

  ghost predicate TimePasses(ss: seq<State>, k: nat)
    requires k + 1 < |ss|
  {
    ss[k].now <= ss[k + 1].now
  }

  lemma RunEnds(ss: seq<State>, sts: seq<Step>, host: Host)
    requires IsRun(ss, sts)
    ensures forall k | 0 <= k < |sts| :: EndsAt(ss, sts, k, host)
    ensures forall k | 0 <= k < |sts| :: TimePasses(ss, k)
  {
    forall k | 0 <= k < |sts| ensures EndsAt(ss, sts, k, host) && TimePasses(ss, k) {
      EveryStateSound(ss, sts, k);
      NextWaitIs(ss[k], host);
      EndsStep(ss[k], sts[k], host);
    }
  }

  lemma {:induction false} Later(ss: seq<State>, i: nat, j: nat)
    requires i <= j < |ss| && forall k | 0 <= k < |ss| - 1 :: TimePasses(ss, k)
    ensures ss[i].now <= ss[j].now
  {
    if i < j {
      Later(ss, i, j - 1);
      assert TimePasses(ss, j - 1);
    }
  }

  /** When a failed order may be tried again. */
  lemma {:induction false} FailureSince(ss: seq<State>, sts: seq<Step>, i: nat, j: nat, host: Host)
    requires i <= j < |ss| && |ss| == |sts| + 1 && forall k | 0 <= k < |sts| :: EndsAt(ss, sts, k, host)
    ensures var end := LastEnd(ss, sts, i, j, host);
            if end.None? then LastFailure(ss[j], host) == LastFailure(ss[i], host)
            else i <= end.value < j && Ends(ss[end.value], sts[end.value], host) &&
                 if sts[end.value].result.Some? then LastFailure(ss[j], host).None?
                 else LastFailure(ss[j], host).Some? &&
                      LastFailure(ss[j], host).value.retryAt == WaitUntil(ss[end.value], host)
  {
    if i < j {
      FailureSince(ss, sts, i, j - 1, host);
      assert EndsAt(ss, sts, j - 1, host);
    }
  }

  lemma {:induction false} CertificateSince(ss: seq<State>, sts: seq<Step>, i: nat, j: nat, host: Host)
    requires i <= j < |ss| && |ss| == |sts| + 1 && forall k | 0 <= k < |sts| :: EndsAt(ss, sts, k, host)
    ensures var end := LastSuccess(ss, sts, i, j, host);
            if end.None? then Expires(ss[j], host) == Expires(ss[i], host)
            else i <= end.value < j && Ends(ss[end.value], sts[end.value], host) &&
                 sts[end.value].result.Some? && Expires(ss[j], host) == sts[end.value].result
  {
    if i < j {
      CertificateSince(ss, sts, i, j - 1, host);
      assert EndsAt(ss, sts, j - 1, host);
    }
  }

  /** A call that looked at step `w`, and did not find its hostname waiting, is too soon at a later moment, as when
      its order begins, if and only if the last order of the hostname to end since has failed and the wait that
      asks for has not run out. */
  lemma TooSoonExactly(ss: seq<State>, sts: seq<Step>, w: nat, j: nat, id: Id)
    requires IsRun(ss, sts) && w < j < |ss| && sts[w] == CheckWaiting(id)
    ensures id in ss[w].calls
    ensures var host := ss[w].calls[id].host;
            var end := LastEnd(ss, sts, w, j, host);
            Waiting(ss[j], host) <==>
              end.Some? && end.value < |sts| && sts[end.value].Finish? && sts[end.value].result.None? &&
              ss[j].now < WaitUntil(ss[end.value], host)
  {
    assert Can(ss[w], sts[w]);
    RunEnds(ss, sts, ss[w].calls[id].host);
    Later(ss, w, j);
    FailureSince(ss, sts, w, j, ss[w].calls[id].host);
  }

  /** And its certificate, which was not fresh when it looked at step `i`, is fresh at a later moment if and only if
      an order of the hostname has ended with one since, and the last of these still is. */
  lemma FreshExactly(ss: seq<State>, sts: seq<Step>, i: nat, j: nat, id: Id, host: Host)
    requires IsRun(ss, sts) && i < j < |ss| && sts[i] == CheckFresh(id, host)
    ensures var end := LastSuccess(ss, sts, i, j, host);
            Fresh(ss[j], host) <==>
              end.Some? && end.value < |sts| && sts[end.value].Finish? && sts[end.value].result.Some? &&
              ss[j].now + RENEW_WITHIN < sts[end.value].result.value
  {
    assert Can(ss[i], sts[i]);
    RunEnds(ss, sts, host);
    Later(ss, i, j);
    CertificateSince(ss, sts, i, j, host);
  }

  // ------------------------------------------------------------------------ runs --

  ghost predicate Reachable(s: State) { exists ss, sts :: IsRun(ss, sts) && ss[|ss| - 1] == s }

  lemma Begins() returns (s: State)
    ensures Reachable(s) && s == State(0, {}, map[], map[], map[], map[], map[])
  {
    s := NewClient(map[]);
    assert IsRun([s], []);
  }

  lemma Takes(s: State, st: Step) returns (s': State)
    requires Reachable(s) && Can(s, st)
    ensures Reachable(s') && s' == Do(s, st)
  {
    s' := Do(s, st);
    var ss, sts :| IsRun(ss, sts) && ss[|ss| - 1] == s;
    var ss', sts' := ss + [s'], sts + [st];
    forall k | 0 <= k < |sts'| ensures Can(ss'[k], sts'[k]) && Do(ss'[k], sts'[k]) == ss'[k + 1] { }
    assert IsRun(ss', sts') && ss'[|ss'| - 1] == s';
  }

  /** Two calls look before either orders. */
  lemma TwoLook(a: Host, b: Host) returns (s: State)
    ensures Reachable(s)
    ensures s == State(0, {}, map[], map[], map[], map[1 := MayTry(a), 2 := MayTry(b)], map[])
  {
    s := Begins();
    s := Takes(s, CheckFresh(1, a));
    s := Takes(s, CheckFresh(2, b));
    s := Takes(s, CheckWaiting(1));
    s := Takes(s, CheckWaiting(2));
  }

  /** Two calls look before either orders; the first fails and is done, and the second begins its order within
      the wait that failure asked for. */
  lemma BegunTooSoon(host: Host) returns (s: State)
    ensures Reachable(s) && Can(s, Begin(2)) && s.calls[2].host == host && host !in s.ordering
    ensures Waiting(s, host)
  {
    s := TwoLook(host, host);
    s := Takes(s, Begin(1));
    s := Takes(s, Finish(1, None));
    s := Takes(s, DropTokens(1));
    s := Takes(s, DropHost(1));
  }

  lemma TwoOrders(a: Host, b: Host) returns (s: State)
    requires a != b
    ensures Reachable(s)
    ensures s == State(0, {a, b}, map[], map[], map[], map[1 := Live(a, []), 2 := Live(b, [])], map[])
  {
    s := TwoLook(a, b);
    s := Takes(s, Begin(1));
    s := Takes(s, Begin(2));
  }

  /** Two live orders answer one token; when the first is dropped the second's challenge is no longer served. */
  lemma SharedTokenLost(a: Host, b: Host, t: Token) returns (s: State)
    requires a != b
    ensures Reachable(s) && 2 in s.calls && s.calls[2].Serves(t) && t !in s.challenges
  {
    s := TwoOrders(a, b);
    s := Takes(s, Step.Answer(1, t, "k1"));
    s := Takes(s, Step.Answer(2, t, "k2"));
    s := Takes(s, DropTokens(1));
  }
}

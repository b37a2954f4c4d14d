/** The drain loop as a specification: while online, shift one record,
    dispatch it (through the interceptor, then the transport), broadcast how
    it settled, and go on unless the outcome carries the EMPTY_STACK or
    REQUEST_QUEUED message. */
module DrainLoop {
  import opened Requests
  import opened Interception

  /** What the environment answers for one dispatch of a drain: whether the
      connection is up when the replayed request is intercepted, how the
      transport settles it if it gets that far, and whether the connection
      is up once it has settled. */
  datatype Reply = Reply(reachableAtSend: bool, outcome: Outcome, reachableAfter: bool)

  /** The environment's reply to the k-th dispatch of a drain. */
  type Environment = nat -> Reply

  /** Whether a settled dispatch ends the drain. */
  predicate StopsDrain(o: Outcome)
  {
    o.Rejected? && o.error.Error? &&
    (o.error.message == EMPTY_STACK || o.error.message == REQUEST_QUEUED)
  }

  /** The broadcast for a dispatched record. */
  function Broadcast(o: Outcome, r: Record): (e: Event)
    ensures e.name == SUCCESS_EVENT <==> o.Resolved?
    ensures e.name == ERROR_EVENT <==> o.Rejected?
    ensures e.outcome == o && e.request == r
  {
    Event(if o.Resolved? then SUCCESS_EVENT else ERROR_EVENT, o, r)
  }

  /** The effect of one step: its outcome, the stack it leaves, what it
      broadcast, what reached the transport and the connection state after. */
  datatype Stepped = Stepped(
    outcome: Outcome,
    stack: seq<Record>,
    events: seq<Event>,
    replayed: seq<Record>,
    online: bool)

  /** One step: the head record is shifted off before it is dispatched; an
      empty stack yields EMPTY_STACK; a replay the interceptor queues again
      goes to the tail and yields REQUEST_QUEUED; otherwise the transport's
      outcome is broadcast. */
  function NextRequest(p: Policy, s: seq<Record>, online: bool, reply: Reply): (st: Stepped)
    ensures !StopsDrain(st.outcome) ==> |st.stack| == |s| - 1
    ensures s == [] ==> st.outcome == Rejected(Error(EMPTY_STACK)) && st.events == [] &&
                        st.stack == [] && st.replayed == [] && st.online == online
    ensures s != [] ==> st.events == [Broadcast(st.outcome, s[0])]
    // A replay queued again goes back at the tail and never reaches the transport.
    ensures s != [] && Requeues(p, reply.reachableAtSend) ==>
              st.stack == s[1..] + [s[0]] && st.replayed == [] &&
              st.outcome == Rejected(Error(REQUEST_QUEUED))
    // Otherwise the head, already shifted off, reaches the transport and settles as it answers.
    ensures s != [] && !Requeues(p, reply.reachableAtSend) ==>
              st.stack == s[1..] && st.replayed == [s[0]] && st.outcome == reply.outcome
    ensures s != [] ==> st.online == reply.reachableAfter
  {
    if s == [] then Stepped(Rejected(Error(EMPTY_STACK)), [], [], [], online)
    else
      var r := s[0];
      assert s == [r] + s[1..];
      if Requeues(p, reply.reachableAtSend) then
        var out := Rejected(Error(REQUEST_QUEUED));
        Stepped(out, s[1..] + [r], [Broadcast(out, r)], [], reply.reachableAfter)
      else
        Stepped(reply.outcome, s[1..], [Broadcast(reply.outcome, r)], [r], reply.reachableAfter)
  }

  /** The effect of a whole drain. */
  datatype Drained = Drained(
    stack: seq<Record>,
    events: seq<Event>,
    replayed: seq<Record>,
    online: bool)

  /** A drain of stack `s` starting with connection state `online`, the
      environment answering dispatch k onwards. */
  function Drain(p: Policy, s: seq<Record>, online: bool, env: Environment, k: nat): (d: Drained)
    // Offline, a drain does nothing at all.
    ensures !online ==> d == Drained(s, [], [], online)
    // One broadcast per dispatch, never more dispatches than records.
    ensures |d.replayed| <= |d.events| <= |s|
    decreases |s|
  {
    if !online then Drained(s, [], [], online)
    else
      var st := NextRequest(p, s, online, env(k));
      if StopsDrain(st.outcome) then
        Drained(st.stack, st.events, st.replayed, st.online)
      else
        var rest := Drain(p, st.stack, st.online, env, k + 1);
        Drained(rest.stack, st.events + rest.events, st.replayed + rest.replayed, rest.online)
  }

  /** One step of an online drain, as the drain loop takes it. */
  lemma DrainStep(p: Policy, s: seq<Record>, env: Environment, k: nat)
    ensures var st := NextRequest(p, s, true, env(k));
      var d := Drain(p, s, true, env, k);
      if StopsDrain(st.outcome) then d == Drained(st.stack, st.events, st.replayed, st.online)
      else
        var rest := Drain(p, st.stack, st.online, env, k + 1);
        d == Drained(rest.stack, st.events + rest.events, st.replayed + rest.replayed, rest.online)
  {
  }

  /** The broadcasts of a drain are about the records in stack order. */
  lemma {:induction false} DrainBroadcastsInOrder(p: Policy, s: seq<Record>, online: bool, env: Environment, k: nat)
    ensures var d := Drain(p, s, online, env, k);
      forall i | 0 <= i < |d.events| :: d.events[i].request == s[i]
    decreases |s|
  {
    var d := Drain(p, s, online, env, k);
    if online && s != [] {
      var st := NextRequest(p, s, online, env(k));
      if !StopsDrain(st.outcome) {
        var rest := Drain(p, s[1..], st.online, env, k + 1);
        DrainBroadcastsInOrder(p, s[1..], st.online, env, k + 1);
        assert d.events == st.events + rest.events;
        forall i | 0 <= i < |d.events|
          ensures d.events[i].request == s[i]
        {
          if i > 0 {
            assert d.events[i] == rest.events[i - 1];
          }
        }
      }
    }
  }

  /** What a drain hands to the transport is a prefix of the stack, in
      stack order. */
  lemma {:induction false} DrainSendsPrefix(p: Policy, s: seq<Record>, online: bool, env: Environment, k: nat)
    ensures var d := Drain(p, s, online, env, k);
      d.replayed == s[..|d.replayed|]
    decreases |s|
  {
    if online && s != [] {
      var st := NextRequest(p, s, online, env(k));
      if !StopsDrain(st.outcome) {
        var rest := Drain(p, s[1..], st.online, env, k + 1);
        DrainSendsPrefix(p, s[1..], st.online, env, k + 1);
        ConsSlices(s, |rest.replayed|, |rest.events|);
      } else {
        assert s[..1] == [s[0]];
      }
    }
  }

  /** What a drain leaves is the undispatched suffix of the stack, or, after
      a re-queue, that suffix followed by the one record queued again. */
  lemma {:induction false} DrainLeavesSuffix(p: Policy, s: seq<Record>, online: bool, env: Environment, k: nat)
    ensures var d := Drain(p, s, online, env, k);
      (|d.replayed| == |d.events| && d.stack == s[|d.events|..]) ||
      (|d.replayed| + 1 == |d.events| && d.stack == s[|d.events|..] + [s[|d.replayed|]])
    decreases |s|
  {
    if online && s != [] {
      var st := NextRequest(p, s, online, env(k));
      if !StopsDrain(st.outcome) {
        var d := Drain(p, s, online, env, k);
        var rest := Drain(p, s[1..], st.online, env, k + 1);
        assert d.stack == rest.stack;
        assert |d.events| == |rest.events| + 1 && |d.replayed| == |rest.replayed| + 1;
        DrainLeavesSuffix(p, s[1..], st.online, env, k + 1);
        ConsSlices(s, |rest.replayed|, |rest.events|);
        if |rest.replayed| < |rest.events| {
          assert s[|d.replayed|] == s[1..][|rest.replayed|];
        }
      } else if Requeues(p, env(k).reachableAtSend) {
        assert s[1..] == s[|st.events|..];
      } else {
        assert st.stack == s[|st.events|..];
      }
    }
  }

  /** Slicing a non-empty sequence after its head. */
  lemma ConsSlices(s: seq<Record>, m: nat, n: nat)
    requires m <= n < |s|
    ensures s[..m + 1] == [s[0]] + s[1..][..m]
    ensures s[n + 1..] == s[1..][n..]
  {
    assert s[..m + 1] == [s[0]] + s[1..m + 1];
  }

  /** A drain never loses or duplicates a record: what is left and what was
      sent are, together, exactly what was there. */
  lemma {:induction false} DrainLosesNothing(p: Policy, s: seq<Record>, online: bool, env: Environment, k: nat)
    ensures var d := Drain(p, s, online, env, k);
      multiset(d.stack) + multiset(d.replayed) == multiset(s)
  {
    var d := Drain(p, s, online, env, k);
    DrainSendsPrefix(p, s, online, env, k);
    DrainLeavesSuffix(p, s, online, env, k);
    SplitKeepsMultiset(s, d.replayed, d.stack, |d.events|);
  }

  /** A sequence split into a sent prefix and a remaining suffix, possibly
      with one record moved from between them to the end, keeps its
      elements. */
  lemma SplitKeepsMultiset(s: seq<Record>, sent: seq<Record>, left: seq<Record>, n: nat)
    requires |sent| <= n <= |s| && sent == s[..|sent|]
    requires (|sent| == n && left == s[n..]) ||
             (|sent| + 1 == n && left == s[n..] + [s[|sent|]])
    ensures multiset(left) + multiset(sent) == multiset(s)
  {
    var m := |sent|;
    if m == n {
      assert s == s[..n] + s[n..];
    } else {
      assert s == s[..m] + [s[m]] + s[n..];
    }
  }

  /** A dispatch that keeps the connection up and whose outcome is not one of
      the two stop messages. */
  predicate Calm(reply: Reply)
  {
    reply.reachableAtSend && reply.reachableAfter && !StopsDrain(reply.outcome)
  }

  /** One calm step of a drain: the head record is dispatched, its outcome
      broadcast, and the drain goes on with the rest of the stack. */
  lemma DrainCalmStep(p: Policy, s: seq<Record>, env: Environment, k: nat)
    requires s != [] && Calm(env(k))
    ensures var d := Drain(p, s, true, env, k);
      var rest := Drain(p, s[1..], true, env, k + 1);
      d == Drained(rest.stack, [Broadcast(env(k).outcome, s[0])] + rest.events,
                   [s[0]] + rest.replayed, rest.online)
  {
  }

  /** While online, and when no dispatch is queued again or answered with a
      stop message, a drain dispatches every record of the stack, in stack
      order, one per step, and ends online with an empty stack. */
  lemma {:induction false} DrainDeliversAll(p: Policy, s: seq<Record>, env: Environment, k: nat)
    requires forall j | k <= j < k + |s| :: Calm(env(j))
    ensures var d := Drain(p, s, true, env, k);
      d.stack == [] && d.replayed == s && d.online && |d.events| == |s|
    decreases |s|
  {
    if s != [] {
      DrainCalmStep(p, s, env, k);
      DrainDeliversAll(p, s[1..], env, k + 1);
    }
  }

  /** Under the same conditions, the i-th broadcast reports how the i-th
      record settled: a failed dispatch is broadcast as an error and the
      drain goes on. */
  lemma {:induction false} DrainBroadcastsEachOutcome(p: Policy, s: seq<Record>, env: Environment, k: nat)
    requires forall j | k <= j < k + |s| :: Calm(env(j))
    ensures var d := Drain(p, s, true, env, k);
      |d.events| >= |s| &&
      forall i {:trigger d.events[i]} | 0 <= i < |s| :: d.events[i] == Broadcast(env(k + i).outcome, s[i])
    decreases |s|
  {
    if s != [] {
      DrainCalmStep(p, s, env, k);
      DrainBroadcastsEachOutcome(p, s[1..], env, k + 1);
      var rest := Drain(p, s[1..], true, env, k + 1);
      var d := Drain(p, s, true, env, k);
      assert d.events == [Broadcast(env(k).outcome, s[0])] + rest.events;
      forall i | 0 <= i < |s|
        ensures d.events[i] == Broadcast(env(k + i).outcome, s[i])
      {
        if i > 0 {
          assert d.events[i] == rest.events[i - 1] && s[i] == s[1..][i - 1];
        }
      }
    }
  }
}

/** In which order the key handler settles keys, and which keys and replies disturb it. */
module KeyOrder {
  import opened Wrappers
  import opened KeyQueue

  /** A key is delivered or left to the compositor (not dropped on arrival). */
  predicate IsSettling(ev: Event) { ev.Notify? || ev.Pass? }

  /** Keys are settled in the order in which they arrived. */
  predicate InOrder(log: seq<Event>) {
    forall i, j | 0 <= i < j < |log| && IsSettling(log[i]) && IsSettling(log[j]) :: log[i].n < log[j].n
  }

  // ---------- the turns that the keys use up ----------

  function Copyable(es: seq<KeyEvent>): seq<KeyEvent> {
    if es == [] then [] else Copyable(Init(es)) + (if Last(es).copyable then [Last(es)] else [])
  }

  function Head(script: seq<Turn>): Turn { if script == [] then SILENCE else script[0] }

  function Tail(script: seq<Turn>): seq<Turn> { if script == [] then [] else script[1..] }

  /** The engine is called for a key other than a bare modifier. */
  predicate Calls(e: KeyEvent, t: Turn) { !e.bypass && t.connected }

  /** The turns left when the waiting keys, and those that arrive meanwhile, are served. */
  function Spend(script: seq<Turn>, waiting: seq<KeyEvent>): seq<Turn>
    decreases |script|, |waiting|
  {
    if waiting == [] then script
    else if waiting[0].modifier then Spend(script, waiting[1..])
    else
      var t := Head(script);
      Spend(Tail(script), waiting[1..] + (if Calls(waiting[0], t) then Copyable(t.during) else []))
  }

  /** The turns left after the keys from the compositor. */
  function SpendAll(script: seq<Turn>, keys: seq<KeyEvent>): seq<Turn>
    decreases |keys|
  {
    if keys == [] then script
    else
      var before := SpendAll(script, Init(keys));
      if Last(keys).modifier then before
      else Spend(Tail(before), if Calls(Last(keys), Head(before)) then Copyable(Head(before).during) else [])
  }

  /** The engine is called for the key and leaves it, without a commit or without an answer,
      and a key that can be copied arrives during the call. */
  predicate Overtaken(e: KeyEvent, t: Turn) {
    && !e.modifier && Calls(e, t)
    && (t.reply.None? || (!t.reply.value.consumed && !t.reply.value.commits))
    && exists k <- t.during :: k.copyable
  }

  /** No key from the compositor is overtaken by keys that arrive during its call. */
  predicate NeverOvertaken(script: seq<Turn>, keys: seq<KeyEvent>) {
    forall n | 0 <= n < |keys| :: !Overtaken(keys[n], Head(SpendAll(script, keys[..n])))
  }

  function Events(q: seq<Job>): (es: seq<KeyEvent>)
    ensures |es| == |q| && forall i | 0 <= i < |q| :: es[i] == q[i].e
  {
    seq(|q|, i requires 0 <= i < |q| => q[i].e)
  }

  lemma {:induction false} ArrivedEvents(d: Desk, es: seq<KeyEvent>)
    ensures Events(ArriveAll(d, es).queue) == Events(d.queue) + Copyable(es)
    ensures ArriveAll(d, es).script == d.script
    decreases |es|
  {
    if es != [] {
      ArrivedEvents(d, Init(es));
      var a := ArriveAll(d, Init(es));
      if Last(es).copyable {
        assert Events(Arrive(a, Last(es)).queue) == Events(a.queue) + [Last(es)];
      }
    }
  }

  lemma CalledEvents(d: Desk, n: nat, t: Turn)
    ensures Events(CallEngine(d, n, t).queue) == Events(d.queue) + Copyable(t.during)
    ensures CallEngine(d, n, t).script == d.script
  {
    ArrivedEvents(Log(d, Begin(n)), t.during);
  }

  lemma {:induction false} DrainSpends(d: Desk)
    ensures Drain(d).script == Spend(d.script, Events(d.queue))
    decreases |d.script|, |d.queue|
  {
    hide Copyable, CallEngine;
    if d.queue != [] {
      ServeShrinks(d);
      DrainSpends(ServeQueued(d));
      var rest := d.(queue := d.queue[1..]);
      var t, at := NextTurn(rest), TakeTurn(rest);
      assert Events(d.queue)[1..] == Events(rest.queue) && Events(rest.queue) + [] == Events(rest.queue);
      CalledEvents(at, d.queue[0].n, t);
    }
  }

  lemma {:induction false} SessionSpends(script: seq<Turn>, keys: seq<KeyEvent>)
    ensures Session(script, keys).script == SpendAll(script, keys) && Session(script, keys).queue == []
    decreases |keys|
  {
    hide Booked, Orderly, Handle;
    SessionProtocol(script, keys);
    if keys != [] {
      SessionSpends(script, Init(keys));
      HandleSpends(Session(script, Init(keys)), Last(keys));
    }
  }

  lemma HandleSpends(d: Desk, e: KeyEvent)
    requires d.queue == []
    ensures Handle(d, e).script ==
            if e.modifier then d.script
            else Spend(Tail(d.script), if Calls(e, Head(d.script)) then Copyable(Head(d.script).during) else [])
  {
    hide Copyable, CallEngine, Drain, Spend;
    var n := d.arrived;
    var a := d.(arrived := n + 1);
    var t, at := NextTurn(a), TakeTurn(a);
    SpendNothing(at.script);
    DrainSpends(Log(Log(at, Commit(n)), Notify(n, false)));
    CalledEvents(at, n, t);
    var called := CallEngine(at, n, t);
    assert Events(at.queue) + Copyable(t.during) == Copyable(t.during);
    DrainSpends(called);
    if t.reply.Some? {
      DrainSpends(CommitIf(called, n, t.reply.value.commits));
      DrainSpends(Log(CommitIf(called, n, t.reply.value.commits), Notify(n, t.reply.value.consumed)));
    }
  }

  lemma SpendNothing(script: seq<Turn>)
    ensures Spend(script, []) == script
  {
  }

  // ---------- what serving adds to the log ----------

  /** From `d` to `r` only events of keys from `low` on are logged, and none of them leaves a
      key to the compositor. */
  predicate Extends(d: Desk, r: Desk, low: nat) {
    && |d.log| <= |r.log| && r.log[..|d.log|] == d.log && low <= d.arrived <= r.arrived
    && (forall i | |d.log| <= i < |r.log| :: r.log[i].n >= low && !r.log[i].Pass?)
    && (forall i | 0 <= i < |r.queue| :: r.queue[i].n >= low)
  }

  predicate From(d: Desk, low: nat) {
    low <= d.arrived && forall i | 0 <= i < |d.queue| :: d.queue[i].n >= low
  }

  lemma ExtendsTwice(d: Desk, m: Desk, r: Desk, low: nat)
    requires Extends(d, m, low) && Extends(m, r, low)
    ensures Extends(d, r, low)
  {
    assert r.log[..|d.log|] == m.log[..|d.log|];
    forall i | |d.log| <= i < |r.log| ensures r.log[i].n >= low && !r.log[i].Pass? {
      if i < |m.log| {
        assert r.log[i] == r.log[..|m.log|][i];
      }
    }
  }

  lemma ExtendsLog(d: Desk, ev: Event, low: nat)
    requires From(d, low) && ev.n >= low && !ev.Pass?
    ensures Extends(d, Log(d, ev), low)
  {
  }

  lemma {:induction false} ExtendsArrivals(d: Desk, es: seq<KeyEvent>, low: nat)
    requires From(d, low)
    ensures Extends(d, ArriveAll(d, es), low)
    decreases |es|
  {
    if es != [] {
      ExtendsArrivals(d, Init(es), low);
      ExtendsArrival(ArriveAll(d, Init(es)), Last(es), low);
      ExtendsTwice(d, ArriveAll(d, Init(es)), ArriveAll(d, es), low);
    }
  }

  lemma ExtendsArrival(d: Desk, e: KeyEvent, low: nat)
    requires From(d, low)
    ensures Extends(d, Arrive(d, e), low)
  {
  }

  lemma ExtendsCall(d: Desk, n: nat, t: Turn, low: nat)
    requires From(d, low) && n >= low
    ensures Extends(d, CallEngine(d, n, t), low)
  {
    hide Extends, ArriveAll;
    ExtendsLog(d, Begin(n), low);
    var begun := Log(d, Begin(n));
    ExtendsArrivals(begun, t.during, low);
    var arrived := ArriveAll(begun, t.during);
    ExtendsFrom(begun, arrived, low);
    ExtendsLog(arrived, End(n, t.reply), low);
    ExtendsTwice(d, begun, arrived, low);
    ExtendsTwice(d, arrived, Log(arrived, End(n, t.reply)), low);
  }

  lemma ExtendsFrom(d: Desk, r: Desk, low: nat)
    requires Extends(d, r, low)
    ensures From(r, low)
  {
  }

  lemma ExtendsFinish(d: Desk, n: nat, commits: bool, consumed: bool, low: nat)
    requires From(d, low) && n >= low
    ensures Extends(d, Log(CommitIf(d, n, commits), Notify(n, consumed)), low)
  {
    hide Extends;
    var c := CommitIf(d, n, commits);
    ExtendsLog(c, Notify(n, consumed), low);
    if commits {
      ExtendsLog(d, Commit(n), low);
      ExtendsTwice(d, c, Log(c, Notify(n, consumed)), low);
    }
  }

  lemma ExtendsRest(d: Desk, at: Desk, r: Desk, low: nat)
    requires From(d, low) && at.log == d.log && at.arrived == d.arrived && Extends(at, r, low)
    ensures Extends(d, r, low)
  {
  }

  /** Serving a queued key ends with its notification. */
  lemma ExtendsServe(d: Desk, low: nat)
    requires From(d, low) && d.queue != []
    ensures var r := ServeQueued(d); Extends(d, r, low) && |r.log| > |d.log| && Last(r.log).Notify?
  {
    hide Extends, CallEngine;
    var n, e := d.queue[0].n, d.queue[0].e;
    var rest := d.(queue := d.queue[1..]);
    var t, at := NextTurn(rest), TakeTurn(rest);
    var r := ServeQueued(d);
    if e.modifier {
      ExtendsFinish(rest, n, false, false, low);
      ExtendsRest(d, rest, r, low);
    } else {
      if e.bypass {
        ExtendsFinish(at, n, t.composing, false, low);
      } else if !t.connected {
        ExtendsFinish(at, n, false, false, low);
      } else {
        var called := CallEngine(at, n, t);
        ExtendsCall(at, n, t, low);
        ExtendsFrom(at, called, low);
        var reply := if t.reply.Some? then t.reply.value else Reply(false, false);
        ExtendsFinish(called, n, reply.commits, reply.consumed, low);
        ExtendsTwice(at, called, r, low);
      }
      ExtendsRest(d, at, r, low);
    }
    Longer(d, r, low);
  }

  lemma Longer(d: Desk, r: Desk, low: nat)
    requires Extends(d, r, low) && d.queue != [] && r == ServeQueued(d)
    ensures |r.log| > |d.log| && Last(r.log).Notify?
  {
    hide CallEngine;
    var rest := d.(queue := d.queue[1..]);
    var t, at := NextTurn(rest), TakeTurn(rest);
    ExtendsLength(at, d.queue[0].n, t);
  }

  lemma ExtendsLength(d: Desk, n: nat, t: Turn)
    ensures |CallEngine(d, n, t).log| > |d.log|
  {
    ArrivalsLength(Log(d, Begin(n)), t.during);
  }

  lemma {:induction false} ArrivalsLength(d: Desk, es: seq<KeyEvent>)
    ensures |ArriveAll(d, es).log| >= |d.log|
    decreases |es|
  {
    if es != [] {
      ArrivalsLength(d, Init(es));
    }
  }

  lemma {:induction false} ExtendsDrain(d: Desk, low: nat)
    requires From(d, low)
    ensures Extends(d, Drain(d), low)
    ensures d.queue != [] ==> exists i :: |d.log| <= i < |Drain(d).log| && Drain(d).log[i].Notify?
    decreases |d.script|, |d.queue|
  {
    hide ServeQueued;
    if d.queue != [] {
      ServeShrinks(d);
      var s := ServeQueued(d);
      ExtendsServe(d, low);
      ExtendsFrom(d, s, low);
      ExtendsDrain(s, low);
      ExtendsTwice(d, s, Drain(d), low);
      var i := |s.log| - 1;
      assert Drain(d).log[i] == Drain(d).log[..|s.log|][i] == Last(s.log);
    }
  }

  // ---------- one key from the compositor ----------

  lemma ArrivedFrom(d: Desk, n: nat, t: Turn)
    requires d.queue == [] && n < d.arrived
    ensures From(CallEngine(d, n, t), n + 1)
  {
    hide ArriveAll;
    var begun := Log(d, Begin(n));
    ExtendsArrivals(begun, t.during, n + 1);
  }

  lemma {:induction false} NothingCopied(d: Desk, es: seq<KeyEvent>)
    ensures ArriveAll(d, es).queue == d.queue <==> forall k <- es :: !k.copyable
    ensures |ArriveAll(d, es).queue| >= |d.queue|
    ensures var r := ArriveAll(d, es);
            |r.log| >= |d.log| && (forall i | |d.log| <= i < |r.log| :: r.log[i].Lost?) && r.log[..|d.log|] == d.log
    decreases |es|
  {
    if es != [] {
      NothingCopied(d, Init(es));
      assert Last(es) in es && forall k <- es :: k == Last(es) || k in Init(es);
      var a := ArriveAll(d, Init(es));
      assert Arrive(a, Last(es)).log[..|d.log|] == a.log[..|d.log|];
    }
  }

  /** A call during which no key is queued logs no notification. */
  lemma QuietCall(d: Desk, n: nat, t: Turn)
    requires d.queue == []
    ensures var r := CallEngine(d, n, t);
            && (r.queue == [] <==> forall k <- t.during :: !k.copyable)
            && |r.log| > |d.log| && r.log[|d.log|] == Begin(n)
            && forall i | |d.log| <= i < |r.log| :: !r.log[i].Notify?
  {
    hide ArriveAll;
    var begun := Log(d, Begin(n));
    NothingCopied(begun, t.during);
    var arrived := ArriveAll(begun, t.during);
    assert arrived.log[|d.log|] == arrived.log[..|begun.log|][|d.log|] == Begin(n);
  }

  /** A notification of a key newer than `n` from index `from` on. */
  predicate NotifiesAfter(log: seq<Event>, from: nat, n: nat) {
    exists i :: from <= i < |log| && log[i].Notify? && log[i].n > n
  }

  predicate NoNotice(log: seq<Event>, from: nat) {
    forall i | from <= i < |log| :: !log[i].Notify?
  }

  /** What handling key `n` amounts to: events of keys from `n` on and then, if the key is left
      to the compositor, that. A newer key is notified before it exactly if it is overtaken. */
  lemma HandleIs(d: Desk, e: KeyEvent) returns (w: Desk, passes: bool)
    requires d.queue == []
    ensures var n := d.arrived;
            && Handle(d, e) == (if passes then Log(w, Pass(n)) else w)
            && Extends(d.(arrived := n + 1), w, n)
            && (Overtaken(e, Head(d.script)) ==> passes && NotifiesAfter(w.log, |d.log|, n))
            && (passes && !Overtaken(e, Head(d.script)) ==> NoNotice(w.log, |d.log|))
            && (Overtaken(e, Head(d.script)) ==> |d.log| < |w.log| && w.log[|d.log|] == Begin(n))
  {
    hide Extends, CallEngine, Drain, NotifiesAfter, NoNotice;
    var n := d.arrived;
    var a := d.(arrived := n + 1);
    var t, at := NextTurn(a), TakeTurn(a);
    if e.modifier {
      w, passes := a, true;
      NothingAdded(a, n);
    } else if e.bypass {
      if t.composing {
        w, passes := DrainFinished(d, at, n, true, false);
      } else {
        w, passes := at, true;
        NothingAdded(at, n);
        ExtendsRest(a, at, at, n);
      }
    } else if !t.connected {
      w, passes := at, true;
      NothingAdded(at, n);
      ExtendsRest(a, at, at, n);
    } else {
      w, passes := Answered(d, at, n, t);
      OvertakenIs(e, t);
    }
  }

  lemma NothingAdded(d: Desk, n: nat)
    requires d.queue == [] && n < d.arrived
    ensures Extends(d, d, n) && NoNotice(d.log, |d.log|)
  {
  }

  lemma OvertakenIs(e: KeyEvent, t: Turn)
    requires !e.modifier && !e.bypass && t.connected
    ensures Overtaken(e, t) <==> !(t.reply.Some? && (t.reply.value.consumed || t.reply.value.commits))
                                 && !forall k <- t.during :: !k.copyable
  {
  }

  /** Notified, then the queue is served. */
  lemma DrainFinished(d: Desk, at: Desk, n: nat, commits: bool, consumed: bool) returns (w: Desk, passes: bool)
    requires at.log == d.log && at.queue == [] && at.arrived == n + 1
    ensures w == Drain(Log(CommitIf(at, n, commits), Notify(n, consumed))) && !passes
    ensures Extends(d.(arrived := n + 1), w, n)
  {
    hide Extends, Drain;
    var noted := Log(CommitIf(at, n, commits), Notify(n, consumed));
    w, passes := Drain(noted), false;
    ExtendsFinish(at, n, commits, consumed, n);
    ExtendsFrom(at, noted, n);
    ExtendsDrain(noted, n);
    ExtendsTwice(at, noted, w, n);
    assert From(d.(arrived := n + 1, queue := []), n);
    ExtendsRest(d.(arrived := n + 1, queue := []), at, w, n);
    SameStart(d.(arrived := n + 1, queue := []), d.(arrived := n + 1), w, n);
  }

  lemma SameStart(d: Desk, d': Desk, r: Desk, low: nat)
    requires Extends(d, r, low) && d.log == d'.log && d.arrived == d'.arrived
    ensures Extends(d', r, low)
  {
  }

  /** The engine is called: what follows depends on its answer. */
  lemma Answered(d: Desk, at: Desk, n: nat, t: Turn) returns (w: Desk, passes: bool)
    requires at.log == d.log && at.queue == [] && at.arrived == n + 1
    ensures var called := CallEngine(at, n, t);
            var leaves := !(t.reply.Some? && (t.reply.value.consumed || t.reply.value.commits));
            && passes == leaves
            && w == (if leaves then Drain(called)
                     else Drain(Log(CommitIf(called, n, t.reply.value.commits), Notify(n, t.reply.value.consumed))))
            && Extends(d.(arrived := n + 1), w, n)
            && (leaves ==> if forall k <- t.during :: !k.copyable then NoNotice(w.log, |d.log|)
                           else NotifiesAfter(w.log, |d.log|, n))
            && |d.log| < |w.log| && w.log[|d.log|] == Begin(n)
  {
    hide Extends, CallEngine, Drain, NotifiesAfter, NoNotice;
    var called := CallEngine(at, n, t);
    passes := !(t.reply.Some? && (t.reply.value.consumed || t.reply.value.commits));
    assert From(at, n);
    ExtendsCall(at, n, t, n);
    ExtendsFrom(at, called, n);
    QuietCall(at, n, t);
    var shown := called;
    if !passes {
      shown := Log(CommitIf(called, n, t.reply.value.commits), Notify(n, t.reply.value.consumed));
      ExtendsFinish(called, n, t.reply.value.commits, t.reply.value.consumed, n);
      ExtendsFrom(called, shown, n);
      ExtendsTwice(at, called, shown, n);
    } else {
      DrainAfterCall(at, called, n, t);
    }
    w := Drain(shown);
    ExtendsDrain(shown, n);
    ExtendsTwice(at, shown, w, n);
    SameStart(at, d.(arrived := n + 1), w, n);
    FirstStays(called, shown, w, |d.log|, n);
  }

  lemma FirstStays(called: Desk, shown: Desk, w: Desk, i: nat, n: nat)
    requires Extends(called, shown, n) || shown == called
    requires Extends(shown, w, n) && i < |called.log|
    ensures i < |w.log| && w.log[i] == called.log[i]
  {
    assert w.log[i] == w.log[..|shown.log|][i];
    assert shown.log[i] == shown.log[..|called.log|][i];
  }

  lemma DrainAfterCall(at: Desk, called: Desk, n: nat, t: Turn)
    requires at.queue == [] && at.arrived == n + 1 && called == CallEngine(at, n, t)
    ensures if forall k <- t.during :: !k.copyable then NoNotice(Drain(called).log, |at.log|)
            else NotifiesAfter(Drain(called).log, |at.log|, n)
  {
    hide CallEngine;
    QuietCall(at, n, t);
    if !forall k <- t.during :: !k.copyable {
      ArrivedFrom(at, n, t);
      ExtendsDrain(called, n + 1);
    }
  }

  // ---------- order over sessions ----------

  /** The log of a session starts with the log of the session without its last key. */
  lemma Continues(script: seq<Turn>, keys: seq<KeyEvent>)
    requires keys != []
    ensures var d, r := Session(script, Init(keys)), Session(script, keys);
            && |d.log| <= |r.log| && r.log[..|d.log|] == d.log
            && forall i | 0 <= i < |d.log| :: r.log[i] == d.log[i] && d.log[i].n < d.arrived
  {
    hide Handle, Booked, Orderly;
    var d := Session(script, Init(keys));
    SessionProtocol(script, Init(keys));
    var w, passes := HandleIs(d, Last(keys));
    assert Highest(d.log) < d.arrived by { BookFacts(d, {}); }
    forall i | 0 <= i < |d.log| ensures d.log[i].n < d.arrived {
      HighestBounds(d.log, i);
    }
    assert w.log[..|d.log|] == d.log;
    assert forall i | 0 <= i < |d.log| :: w.log[i] == w.log[..|d.log|][i];
  }

  /** Between the call of a key and its being left to the compositor there is nothing older. */
  lemma {:induction false} NothingOlder(script: seq<Turn>, keys: seq<KeyEvent>, b: nat, i: nat, j: nat)
    requires var log := Session(script, keys).log;
             b < i < j < |log| && log[j].Pass? && log[b] == Begin(log[j].n)
    ensures Session(script, keys).log[i].n >= Session(script, keys).log[j].n
    decreases |keys|
  {
    hide Handle, Booked, Orderly;
    if keys != [] {
      var d := Session(script, Init(keys));
      SessionProtocol(script, Init(keys));
      Continues(script, keys);
      if j < |d.log| {
        NothingOlder(script, Init(keys), b, i, j);
      } else {
        var w, passes := HandleIs(d, Last(keys));
      }
    }
  }

  /** Which settlements come out of order, in every session: a key that was called and is left
      to the compositor after other keys have been notified since its call. */
  lemma InversionExactly(script: seq<Turn>, keys: seq<KeyEvent>, i: nat, j: nat)
    requires var log := Session(script, keys).log; i < j < |log| && IsSettling(log[i]) && IsSettling(log[j])
    ensures var log := Session(script, keys).log;
            log[i].n > log[j].n <==> log[j].Pass? && exists b :: 0 <= b < i && log[b] == Begin(log[j].n)
  {
    hide Session, Booked;
    SessionProtocol(script, keys);
    var log := Session(script, keys).log;
    SettledInOrder(log, i, j);
    SettledOnce(log, i, j);
    if log[j].Pass? && exists b :: 0 <= b < i && log[b] == Begin(log[j].n) {
      var b :| 0 <= b < i && log[b] == Begin(log[j].n);
      NothingOlder(script, keys, b, i, j);
    }
  }

  lemma {:induction false} SettledOnce(log: seq<Event>, i: nat, j: nat)
    requires Orderly(log) && i < j < |log| && IsSettling(log[i]) && IsSettling(log[j])
    ensures log[i].n != log[j].n
    decreases |log|
  {
    if j < |log| - 1 {
      SettledOnce(Init(log), i, j);
    } else {
      StaysSettled(Init(log), i);
    }
  }

  lemma {:induction false} StaysSettled(log: seq<Event>, i: nat)
    requires i < |log| && IsSettling(log[i])
    ensures StatusOf(log, log[i].n).settled > 0
    decreases |log|
  {
    if i < |log| - 1 {
      StaysSettled(Init(log), i);
    }
  }

  /** On the input: keys are settled in arrival order if and only if no key from the compositor
      is overtaken: called, left without a commit or without an answer, while a key that can be
      copied arrives. */
  lemma {:induction false} OrderedExactly(script: seq<Turn>, keys: seq<KeyEvent>)
    ensures InOrder(Session(script, keys).log) <==> NeverOvertaken(script, keys)
    decreases |keys|
  {
    hide Handle, Booked, Orderly, Overtaken, InOrder, NeverOvertaken, SpendAll;
    if keys == [] {
      NothingToOrder(script);
    } else {
      var d, e := Session(script, Init(keys)), Last(keys);
      OrderedExactly(script, Init(keys));
      SessionSpends(script, Init(keys));
      NeverSnoc(script, keys);
      Continues(script, keys);
      OrderSnoc(script, keys);
    }
  }

  lemma NothingToOrder(script: seq<Turn>)
    ensures InOrder(Session(script, []).log) && NeverOvertaken(script, [])
  {
  }

  lemma NeverSnoc(script: seq<Turn>, keys: seq<KeyEvent>)
    requires keys != []
    ensures NeverOvertaken(script, keys) <==>
            NeverOvertaken(script, Init(keys)) && !Overtaken(Last(keys), Head(SpendAll(script, Init(keys))))
  {
    hide Overtaken, SpendAll;
    assert keys[..|keys| - 1] == Init(keys);
    forall n | 0 <= n < |keys| - 1 ensures keys[..n] == Init(keys)[..n] && keys[n] == Init(keys)[n] {
    }
  }

  lemma OrderSnoc(script: seq<Turn>, keys: seq<KeyEvent>)
    requires keys != []
    ensures var d := Session(script, Init(keys));
            InOrder(Session(script, keys).log) <==> InOrder(d.log) && !Overtaken(Last(keys), Head(d.script))
  {
    hide Handle, Booked, Orderly, Overtaken;
    var d, r := Session(script, Init(keys)), Session(script, keys);
    SessionProtocol(script, Init(keys));
    Continues(script, keys);
    var w, passes := HandleIs(d, Last(keys));
    if Overtaken(Last(keys), Head(d.script)) {
      var i :| |d.log| <= i < |w.log| && w.log[i].Notify? && w.log[i].n > d.arrived;
      assert r.log[i] == w.log[i] && r.log[|w.log|] == Pass(d.arrived);
    } else if InOrder(d.log) {
      forall i, j | 0 <= i < j < |r.log| && IsSettling(r.log[i]) && IsSettling(r.log[j])
        ensures r.log[i].n < r.log[j].n
      {
        InversionExactly(script, keys, i, j);
        SessionProtocol(script, keys);
        SettledOnce(r.log, i, j);
        if r.log[i].n > r.log[j].n {
          var b :| 0 <= b < i && r.log[b] == Begin(r.log[j].n);
          LastPass(d, w, passes, i, j, b, r);
        }
      }
    }
  }

  lemma LastPass(d: Desk, w: Desk, passes: bool, i: nat, j: nat, b: nat, r: Desk)
    requires Extends(d.(arrived := d.arrived + 1), w, d.arrived)
    requires r == if passes then Log(w, Pass(d.arrived)) else w
    requires forall k | 0 <= k < |d.log| :: r.log[k] == d.log[k] && d.log[k].n < d.arrived
    requires passes ==> NoNotice(w.log, |d.log|)
    requires b < i < j < |r.log| && r.log[j].Pass? && r.log[b] == Begin(r.log[j].n) && r.log[i].Notify?
    ensures j < |d.log|
  {
  }

  // ---------- a session out of order ----------

  /** A plain key that can be copied. */
  const PLAIN := KeyEvent(false, false, true)

  const LEFT := Some(Reply(false, false))
  const TAKEN := Some(Reply(true, false))

  lemma ServesSecond(d: Desk)
    requires d == Desk([Turn(false, true, TAKEN, [])], [Job(1, PLAIN)], 2, [Begin(0), End(0, LEFT)])
    ensures Drain(d) == Desk([], [], 2, [Begin(0), End(0, LEFT), Begin(1), End(1, TAKEN), Notify(1, true)])
  {
    var at := Desk([], [], 2, [Begin(0), End(0, LEFT)]);
    assert d.script[1..] == [] && d.queue[1..] == [];
    assert ServeQueued(d) == Desk([], [], 2, [Begin(0), End(0, LEFT), Begin(1), End(1, TAKEN), Notify(1, true)]);
    assert Drain(ServeQueued(d)) == ServeQueued(d);
  }

  /** The first key is left by the engine, a second one arrives during its call and is taken:
      the second is settled first. */
  lemma OutOfOrder()
    ensures var script := [Turn(false, true, LEFT, [PLAIN]), Turn(false, true, TAKEN, [])];
            && Session(script, [PLAIN]).log
               == [Begin(0), End(0, LEFT), Begin(1), End(1, TAKEN), Notify(1, true), Pass(0)]
            && !InOrder(Session(script, [PLAIN]).log)
  {
    hide Drain;
    var script := [Turn(false, true, LEFT, [PLAIN]), Turn(false, true, TAKEN, [])];
    var a := Desk([Turn(false, true, TAKEN, [])], [], 1, []);
    assert Init([PLAIN]) == [] && script[1..] == a.script;
    var d := Session(script, []);
    assert d == Desk(script, [], 0, []);
    assert ArriveAll(Log(a, Begin(0)), [PLAIN]) == Arrive(Log(a, Begin(0)), PLAIN) by {
      assert ArriveAll(Log(a, Begin(0)), []) == Log(a, Begin(0));
    }
    var called := CallEngine(a, 0, script[0]);
    assert called == Desk([Turn(false, true, TAKEN, [])], [Job(1, PLAIN)], 2, [Begin(0), End(0, LEFT)]);
    ServesSecond(called);
    assert Handle(d, PLAIN) == Log(Drain(called), Pass(0));
    var log := Session(script, [PLAIN]).log;
    assert log[4] == Notify(1, true) && log[5] == Pass(0);
  }
}

/** The key handler of the GNOME extension (unim-gnome-extension/key_handler.js): while the
    engine is being called synchronously, the main loop may hand in more keys. */
module KeyQueue {
  import opened Wrappers

  /** What matters of a key event: a bare modifier, a Ctrl/Alt/Super combination that is no
      toggle, and whether the event can be copied. */
  datatype KeyEvent = KeyEvent(modifier: bool, bypass: bool, copyable: bool)

  datatype Reply = Reply(consumed: bool, commits: bool)

  /** The world during one key: is text being composed, is the daemon connected, what does
      it reply (None: the call failed), which keys arrive before it replies. */
  datatype Turn = Turn(composing: bool, connected: bool, reply: Option<Reply>, during: seq<KeyEvent>)

  const SILENCE := Turn(false, false, None, [])

  /** Keys are named by the order in which they arrive. `Lost` is a notification as consumed
      because the event could not be copied. */
  datatype Event =
    | Begin(n: nat)
    | End(n: nat, reply: Option<Reply>)
    | Commit(n: nat)
    | Notify(n: nat, consumed: bool)
    | Lost(n: nat)
    | Pass(n: nat)

  datatype Job = Job(n: nat, e: KeyEvent)

  /** Turns still to come, the queue, the number of keys so far, everything observable. */
  datatype Desk = Desk(script: seq<Turn>, queue: seq<Job>, arrived: nat, log: seq<Event>)

  // ---------- what the handler does ----------

  function Log(d: Desk, ev: Event): Desk { d.(log := d.log + [ev]) }

  function NextTurn(d: Desk): Turn {
    if d.script == [] then SILENCE else d.script[0]
  }

  function TakeTurn(d: Desk): Desk {
    if d.script == [] then d else d.(script := d.script[1..])
  }

  /** A key that arrives while the engine is busy. */
  function Arrive(d: Desk, e: KeyEvent): Desk {
    var a := d.(arrived := d.arrived + 1);
    if e.copyable then a.(queue := d.queue + [Job(d.arrived, e)]) else Log(a, Lost(d.arrived))
  }

  function ArriveAll(d: Desk, es: seq<KeyEvent>): Desk
    decreases |es|
  {
    if es == [] then d else Arrive(ArriveAll(d, Init(es)), Last(es))
  }

  function CallEngine(d: Desk, n: nat, t: Turn): Desk {
    Log(ArriveAll(Log(d, Begin(n)), t.during), End(n, t.reply))
  }

  function CommitIf(d: Desk, n: nat, commits: bool): Desk {
    if commits then Log(d, Commit(n)) else d
  }

  /** The first key of the queue. */
  function ServeQueued(d: Desk): Desk
    requires d.queue != []
  {
    var n, e := d.queue[0].n, d.queue[0].e;
    var rest := d.(queue := d.queue[1..]);
    if e.modifier then Log(rest, Notify(n, false))
    else
      var t, at := NextTurn(rest), TakeTurn(rest);
      if e.bypass then Log(CommitIf(at, n, t.composing), Notify(n, false))
      else if !t.connected then Log(at, Notify(n, false))
      else
        var called := CallEngine(at, n, t);
        match t.reply
        case None => Log(called, Notify(n, false))
        case Some(r) => Log(CommitIf(called, n, r.commits), Notify(n, r.consumed))
  }

  lemma ArriveAllFrame(d: Desk, es: seq<KeyEvent>)
    ensures ArriveAll(d, es).script == d.script
    ensures es == [] ==> ArriveAll(d, es) == d
    decreases |es|
  {
  }

  lemma ServeShrinks(d: Desk)
    requires d.queue != []
    ensures var r := ServeQueued(d);
            |r.script| < |d.script| || (r.script == d.script && |r.queue| < |d.queue|)
  {
    var n := d.queue[0].n;
    var rest := d.(queue := d.queue[1..]);
    ArriveAllFrame(Log(TakeTurn(rest), Begin(n)), NextTurn(rest).during);
  }

  function Drain(d: Desk): Desk
    decreases |d.script|, |d.queue|
  {
    if d.queue == [] then d
    else
      ServeShrinks(d);
      Drain(ServeQueued(d))
  }

  /** A key from the compositor while nothing is being processed. */
  function Handle(d: Desk, e: KeyEvent): Desk {
    var n := d.arrived;
    var a := d.(arrived := n + 1);
    if e.modifier then Log(a, Pass(n))
    else
      var t, at := NextTurn(a), TakeTurn(a);
      if e.bypass then
        if t.composing then Drain(Log(Log(at, Commit(n)), Notify(n, false))) else Log(at, Pass(n))
      else if !t.connected then Log(at, Pass(n))
      else
        var called := CallEngine(at, n, t);
        match t.reply
        case None => Log(Drain(called), Pass(n))
        case Some(r) =>
          var shown := CommitIf(called, n, r.commits);
          if !r.consumed && !r.commits then Log(Drain(shown), Pass(n))
          else Drain(Log(shown, Notify(n, r.consumed)))
  }

  function Session(script: seq<Turn>, keys: seq<KeyEvent>): Desk
    decreases |keys|
  {
    if keys == [] then Desk(script, [], 0, []) else Handle(Session(script, Init(keys)), Last(keys))
  }

  lemma {:induction false} DrainNeverPasses(d: Desk)
    requires d.log != [] && !Last(d.log).Pass?
    ensures var r := Drain(d).log; r != [] && !Last(r).Pass?
    decreases |d.script|, |d.queue|
  {
    if d.queue != [] {
      ServeShrinks(d);
      DrainNeverPasses(ServeQueued(d));
    }
  }

  // ---------- the handler as an object ----------

  class KeyHandler {
    var processingKey: bool
    var keyQueue: seq<Job>
    var script: seq<Turn>
    var arrived: nat
    var log: seq<Event>

    constructor (script: seq<Turn>)
      ensures !processingKey && View() == Desk(script, [], 0, [])
    {
      processingKey, keyQueue, this.script, arrived, log := false, [], script, 0, [];
    }

    ghost function View(): Desk
      reads this
    {
      Desk(script, keyQueue, arrived, log)
    }

    method Emit(ev: Event)
      modifies this`log
      ensures View() == Log(old(View()), ev)
    {
      log := log + [ev];
    }

    method ConsultWorld() returns (t: Turn)
      modifies this`script
      ensures t == NextTurn(old(View())) && View() == TakeTurn(old(View()))
    {
      if script == [] {
        return SILENCE;
      }
      t, script := script[0], script[1..];
    }

    /** The synchronous call: while it waits, the main loop may deliver keys, each of which
        enters the handler again. */
    method ProcessKey(n: nat, t: Turn) returns (reply: Option<Reply>)
      requires processingKey
      modifies this
      ensures processingKey && View() == CallEngine(old(View()), n, t) && reply == t.reply
      decreases 1
    {
      Emit(Begin(n));
      ghost var start := View();
      for i := 0 to |t.during|
        invariant processingKey && View() == ArriveAll(start, t.during[..i])
      {
        assert Init(t.during[..i + 1]) == t.during[..i];
        var _ := HandleVfuncKey(t.during[i]);
      }
      assert t.during[..|t.during|] == t.during;
      Emit(End(n, t.reply));
      reply := t.reply;
    }

    /** Returns false when the key is left to the compositor. */
    method HandleVfuncKey(e: KeyEvent) returns (intercepted: bool)
      modifies this
      ensures processingKey == old(processingKey)
      ensures old(processingKey) ==> intercepted && View() == Arrive(old(View()), e)
      ensures !old(processingKey) ==> View() == Handle(old(View()), e)
      ensures !old(processingKey) ==> (intercepted <==> log == [] || Last(log) != Pass(old(arrived)))
      decreases if processingKey then 0 else 2
    {
      hide Drain, ArriveAll;
      var n := arrived;
      arrived := arrived + 1;
      if processingKey {
        if e.copyable {
          keyQueue := keyQueue + [Job(n, e)];
        } else {
          Emit(Lost(n));
        }
        return true;
      }
      if e.modifier {
        Emit(Pass(n));
        return false;
      }
      var t := ConsultWorld();
      if e.bypass {
        if t.composing {
          Emit(Commit(n));
          Emit(Notify(n, false));
          DrainNeverPasses(View());
          DrainKeyQueue();
          return true;
        }
        Emit(Pass(n));
        return false;
      }
      if !t.connected {
        Emit(Pass(n));
        return false;
      }
      processingKey := true;
      var result := ProcessKey(n, t);
      processingKey := false;
      if result.None? {
        DrainKeyQueue();
        Emit(Pass(n));
        return false;
      }
      var consumed, hasCommit := result.value.consumed, result.value.commits;
      if hasCommit {
        Emit(Commit(n));
      }
      if !consumed && !hasCommit {
        DrainKeyQueue();
        Emit(Pass(n));
        return false;
      }
      Emit(Notify(n, consumed));
      DrainNeverPasses(View());
      DrainKeyQueue();
      intercepted := true;
    }

    method DrainKeyQueue()
      requires !processingKey
      modifies this
      ensures !processingKey && View() == Drain(old(View())) && keyQueue == []
      decreases 2, 0
    {
      while keyQueue != []
        invariant !processingKey && Drain(View()) == Drain(old(View()))
        decreases |script|, |keyQueue|
      {
        ServeShrinks(View());
        var entry := keyQueue[0];
        keyQueue := keyQueue[1..];
        if entry.e.modifier {
          Emit(Notify(entry.n, false));
          continue;
        }
        var t := ConsultWorld();
        if entry.e.bypass {
          if t.composing {
            Emit(Commit(entry.n));
          }
          Emit(Notify(entry.n, false));
          continue;
        }
        if !t.connected {
          Emit(Notify(entry.n, false));
          continue;
        }
        processingKey := true;
        var result := ProcessKey(entry.n, t);
        processingKey := false;
        if result.None? {
          Emit(Notify(entry.n, false));
          continue;
        }
        if result.value.commits {
          Emit(Commit(entry.n));
        }
        Emit(Notify(entry.n, result.value.consumed));
      }
    }
  }

  // ---------- what every session keeps ----------

  /** What the log says about one key: was the engine called for it, and was it the newest key
      in the log then; how often is it settled, what was the reply, did it cause a commit. */
  datatype Status = Status(called: bool, newest: bool, settled: nat, consumed: bool, committed: bool)

  const UNTOUCHED := Status(false, false, 0, false, false)

  function Noted(s: Status, ev: Event, highest: int): Status {
    match ev
    case Begin(n) => s.(called := true, newest := highest < n)
    case End(_, r) => s.(consumed := r.Some? && r.value.consumed)
    case Commit(_) => s.(committed := true)
    case Notify(_, _) => s.(settled := s.settled + 1)
    case Lost(_) => s.(settled := s.settled + 1)
    case Pass(_) => s.(settled := s.settled + 1)
  }

  function StatusOf(log: seq<Event>, n: nat): Status {
    if log == [] then UNTOUCHED
    else if Last(log).n == n then Noted(StatusOf(Init(log), n), Last(log), Highest(Init(log)))
    else StatusOf(Init(log), n)
  }

  /** The newest key in the log, -1 before the first. */
  function Highest(log: seq<Event>): (n: int)
    ensures n >= -1
  {
    if log == [] then -1
    else if Last(log).n > Highest(Init(log)) then Last(log).n
    else Highest(Init(log))
  }

  /** The key whose engine call has begun and not ended. */
  function Open(log: seq<Event>): Option<nat> {
    if log == [] then None
    else match Last(log)
      case Begin(n) => Some(n)
      case End(_, _) => None
      case _ => Open(Init(log))
  }

  /** The key of the latest engine call, -1 before the first. */
  function LastCall(log: seq<Event>): (n: int)
    ensures n >= -1
  {
    if log == [] then -1
    else if Last(log).Begin? then Last(log).n
    else LastCall(Init(log))
  }

  /** The key of the latest notification, -1 before the first. */
  function LastNotified(log: seq<Event>): (n: int)
    ensures n >= -1
  {
    if log == [] then -1
    else if Last(log).Notify? then Last(log).n
    else LastNotified(Init(log))
  }

  /** The newest key in the log when a key was last left to the compositor. */
  function PassedUpTo(log: seq<Event>): (n: int)
    ensures n >= -1
  {
    if log == [] then -1
    else if Last(log).Pass? then Highest(log)
    else PassedUpTo(Init(log))
  }

  /** May `ev` follow `log`? Engine calls do not nest and come in arrival order; a key is
      settled once, after its own commit, as the engine replied; a key that caused a commit
      is never left to the compositor. Notifications come in arrival order; a key left to the
      compositor is newer than all keys before its call, or than all keys if there was no call,
      and everything after it is newer than everything before it. */
  predicate MayFollow(log: seq<Event>, ev: Event) {
    var s := StatusOf(log, ev.n);
    && ev.n > PassedUpTo(log)
    && match ev
       case Begin(n) => Open(log).None? && n > LastCall(log) && s == UNTOUCHED
       case End(n, _) => Open(log) == Some(n) && s == Status(true, s.newest, 0, false, false)
       case Commit(_) => Open(log).None? && s.settled == 0 && !s.committed
       case Notify(n, c) => Open(log).None? && s.settled == 0 && c == s.consumed && n > LastNotified(log)
       case Lost(n) => Open(log).Some? && n > Open(log).value && s == UNTOUCHED
       case Pass(n) => Open(log).None? && s == Status(s.called, s.newest, 0, false, false)
                       && if s.called then s.newest else n > Highest(log)
  }

  predicate Orderly(log: seq<Event>) {
    log == [] || (Orderly(Init(log)) && MayFollow(Init(log), Last(log)))
  }

  function StatusAfter(log: seq<Event>, ev: Event, n: nat): Status {
    if ev.n == n then Noted(StatusOf(log, n), ev, Highest(log)) else StatusOf(log, n)
  }

  lemma LogSnoc(log: seq<Event>, ev: Event, n: nat)
    ensures StatusOf(log + [ev], n) == StatusAfter(log, ev, n)
    ensures Highest(log + [ev]) == if ev.n > Highest(log) then ev.n else Highest(log)
    ensures LastNotified(log + [ev]) == if ev.Notify? then ev.n else LastNotified(log)
    ensures PassedUpTo(log + [ev]) == if ev.Pass? then Highest(log + [ev]) else PassedUpTo(log)
    ensures Open(log + [ev]) == match ev case Begin(k) => Some(k) case End(_, _) => None case _ => Open(log)
    ensures LastCall(log + [ev]) == if ev.Begin? then ev.n else LastCall(log)
    ensures Orderly(log + [ev]) <==> Orderly(log) && MayFollow(log, ev)
  {
  }

  predicate Waiting(d: Desk, n: nat) {
    exists i :: 0 <= i < |d.queue| && d.queue[i].n == n
  }

  /** Keys that have arrived are settled exactly once, except the waiting ones and those being
      served; the queue is in arrival order, behind every key that has been taken from it. */
  ghost predicate Booked(d: Desk, serving: set<nat>) {
    && Orderly(d.log) && LastCall(d.log) < d.arrived && Highest(d.log) < d.arrived && LastNotified(d.log) < d.arrived
    && (forall n <- serving :: PassedUpTo(d.log) < n < d.arrived && !Waiting(d, n))
    && (forall i | 0 <= i < |d.queue| :: Behind(d.log, d.queue[i].n) && d.queue[i].n < d.arrived)
    && (forall i, j | 0 <= i < j < |d.queue| :: d.queue[i].n < d.queue[j].n)
    && (forall n: nat | Waiting(d, n) || n >= d.arrived :: StatusOf(d.log, n) == UNTOUCHED)
    && (forall n: nat | n < d.arrived && !Waiting(d, n) && n !in serving :: StatusOf(d.log, n).settled == 1)
  }

  predicate Behind(log: seq<Event>, n: nat) {
    LastCall(log) < n && LastNotified(log) < n && PassedUpTo(log) < n
  }

  /** A key being served may log `ev` without disturbing the books of the others. */
  lemma BookServing(d: Desk, serving: set<nat>, ev: Event)
    requires Booked(d, serving) && ev.n in serving && MayFollow(d.log, ev) && !ev.Pass?
    requires ev.Begin? || ev.Notify? ==> forall i | 0 <= i < |d.queue| :: ev.n < d.queue[i].n
    ensures var r := Log(d, ev);
            && Booked(r, serving)
            && (forall k :: StatusOf(r.log, k) == StatusAfter(d.log, ev, k))
            && Open(r.log) == (match ev case Begin(k) => Some(k) case End(_, _) => None case _ => Open(d.log))
            && LastCall(r.log) == (if ev.Begin? then ev.n else LastCall(d.log))
            && (!ev.Notify? ==> LastNotified(r.log) == LastNotified(d.log))
  {
    hide StatusOf, Open, LastCall, Orderly, MayFollow, Noted, Highest, LastNotified, PassedUpTo;
    var r := Log(d, ev);
    assert ev.n > PassedUpTo(d.log) && ev.n < d.arrived;
    forall k ensures StatusOf(r.log, k) == StatusAfter(d.log, ev, k) {
      LogSnoc(d.log, ev, k);
    }
    LogSnoc(d.log, ev, 0);
    assert forall k :: Waiting(r, k) <==> Waiting(d, k);
  }

  /** A key is done once it is settled. */
  lemma BookDone(d: Desk, serving: set<nat>, n: nat)
    requires Booked(d, serving) && StatusOf(d.log, n).settled == 1
    ensures Booked(d, serving - {n})
  {
  }

  predicate SameCalls(a: seq<Event>, b: seq<Event>) {
    LastCall(a) == LastCall(b) && LastNotified(a) == LastNotified(b)
  }

  lemma BookArrival(d: Desk, serving: set<nat>, n: nat, e: KeyEvent)
    requires Booked(d, serving) && n in serving && Open(d.log) == Some(n)
    ensures var r := Arrive(d, e);
            && Booked(r, serving) && Open(r.log) == Some(n) && SameCalls(r.log, d.log)
            && forall k <- serving :: StatusOf(r.log, k) == StatusOf(d.log, k)
  {
    hide Booked, StatusOf, Open, LastCall, LastNotified;
    if e.copyable {
      BookQueued(d, serving, n, e);
    } else {
      BookLost(d, serving, n);
    }
  }

  lemma BookQueued(d: Desk, serving: set<nat>, n: nat, e: KeyEvent)
    requires Booked(d, serving) && n in serving
    ensures Booked(d.(arrived := d.arrived + 1, queue := d.queue + [Job(d.arrived, e)]), serving)
  {
    hide StatusOf, LastCall, Orderly, Highest, LastNotified, PassedUpTo;
    var r := d.(arrived := d.arrived + 1, queue := d.queue + [Job(d.arrived, e)]);
    assert PassedUpTo(d.log) < n < d.arrived;
    forall k: nat ensures Waiting(r, k) <==> Waiting(d, k) || k == d.arrived {
      if Waiting(d, k) {
        var i :| 0 <= i < |d.queue| && d.queue[i].n == k;
        assert r.queue[i].n == k;
      }
      assert r.queue[|d.queue|].n == d.arrived;
    }
  }

  lemma BookLost(d: Desk, serving: set<nat>, n: nat)
    requires Booked(d, serving) && n in serving && Open(d.log) == Some(n)
    ensures var r := Log(d.(arrived := d.arrived + 1), Lost(d.arrived));
            && Booked(r, serving) && Open(r.log) == Some(n) && SameCalls(r.log, d.log)
            && forall k <- serving :: StatusOf(r.log, k) == StatusOf(d.log, k)
  {
    hide StatusOf, LastCall, Orderly, Highest, LastNotified, PassedUpTo;
    var ev := Lost(d.arrived);
    var r := Log(d.(arrived := d.arrived + 1), ev);
    assert PassedUpTo(d.log) < n < d.arrived;
    forall k ensures StatusOf(r.log, k) == StatusAfter(d.log, ev, k) {
      LogSnoc(d.log, ev, k);
    }
    LogSnoc(d.log, ev, 0);
    assert forall k :: Waiting(r, k) <==> Waiting(d, k);
  }

  lemma {:induction false} BookArrivals(d: Desk, serving: set<nat>, n: nat, es: seq<KeyEvent>)
    requires Booked(d, serving) && n in serving && Open(d.log) == Some(n)
    ensures var r := ArriveAll(d, es);
            && Booked(r, serving) && Open(r.log) == Some(n) && SameCalls(r.log, d.log)
            && forall k <- serving :: StatusOf(r.log, k) == StatusOf(d.log, k)
    decreases |es|
  {
    hide Booked, StatusOf, Arrive;
    if es != [] {
      BookArrivals(d, serving, n, Init(es));
      BookArrival(ArriveAll(d, Init(es)), serving, n, Last(es));
    }
  }

  /** One engine call, whatever arrives during it. */
  lemma BookCall(d: Desk, serving: set<nat>, n: nat, t: Turn)
    requires Booked(d, serving) && n in serving && Open(d.log).None? && LastCall(d.log) < n
    requires StatusOf(d.log, n) == UNTOUCHED && forall i | 0 <= i < |d.queue| :: n < d.queue[i].n
    ensures var r := CallEngine(d, n, t);
            && Booked(r, serving) && Open(r.log).None?
            && StatusOf(r.log, n) == Status(true, Highest(d.log) < n, 0, t.reply.Some? && t.reply.value.consumed, false)
            && (forall k <- serving | k != n :: StatusOf(r.log, k) == StatusOf(d.log, k))
            && LastNotified(r.log) == LastNotified(d.log) && forall i | 0 <= i < |r.queue| :: n < r.queue[i].n
  {
    hide Booked, StatusOf, LastCall, Open, Highest, LastNotified, PassedUpTo;
    BookFacts(d, serving);
    BookServing(d, serving, Begin(n));
    var begun := Log(d, Begin(n));
    BookArrivals(begun, serving, n, t.during);
    var arrived := ArriveAll(begun, t.during);
    BookFacts(arrived, serving);
    BookServing(arrived, serving, End(n, t.reply));
    BookFacts(Log(arrived, End(n, t.reply)), serving);
  }

  lemma BookFacts(d: Desk, serving: set<nat>)
    requires Booked(d, serving)
    ensures forall n <- serving :: PassedUpTo(d.log) < n
    ensures forall i | 0 <= i < |d.queue| :: LastCall(d.log) < d.queue[i].n && LastNotified(d.log) < d.queue[i].n
    ensures Highest(d.log) < d.arrived && Orderly(d.log)
  {
  }

  /** The key is not settled and has caused no commit so far. */
  predicate Replied(s: Status, consumed: bool) {
    s.settled == 0 && s.consumed == consumed && !s.committed
  }

  lemma BookCommit(d: Desk, serving: set<nat>, n: nat, commits: bool, consumed: bool)
    requires Booked(d, serving) && n in serving && Open(d.log).None? && Replied(StatusOf(d.log, n), consumed)
    ensures var r := CommitIf(d, n, commits); var s := StatusOf(r.log, n);
            && Booked(r, serving) && Open(r.log).None? && LastNotified(r.log) == LastNotified(d.log)
            && s.settled == 0 && s.consumed == consumed && r.queue == d.queue
            && forall k <- serving | k != n :: StatusOf(r.log, k) == StatusOf(d.log, k)
  {
    hide Booked, StatusOf, Open, LastNotified, LastCall, PassedUpTo, Highest;
    BookFacts(d, serving);
    if commits {
      BookServing(d, serving, Commit(n));
    }
  }

  /** Commit, if anything, then notify as the engine said: the key is done. */
  lemma BookFinish(d: Desk, serving: set<nat>, n: nat, commits: bool, consumed: bool)
    requires Booked(d, serving) && n in serving && Open(d.log).None? && LastNotified(d.log) < n
    requires Replied(StatusOf(d.log, n), consumed) && forall i | 0 <= i < |d.queue| :: n < d.queue[i].n
    ensures var r := Log(CommitIf(d, n, commits), Notify(n, consumed));
            && Booked(r, serving - {n}) && Open(r.log).None?
            && forall k <- serving | k != n :: StatusOf(r.log, k) == StatusOf(d.log, k)
  {
    hide Booked, StatusOf, Open, LastNotified, LastCall, PassedUpTo, Highest, CommitIf;
    BookCommit(d, serving, n, commits, consumed);
    var c := CommitIf(d, n, commits);
    BookFacts(c, serving);
    BookServing(c, serving, Notify(n, consumed));
    BookDone(Log(c, Notify(n, consumed)), serving, n);
  }

  /** The first waiting key becomes the one being served; the turn taken does not matter. */
  lemma BookTake(d: Desk, serving: set<nat>, script: seq<Turn>)
    requires Booked(d, serving) && d.queue != []
    ensures var n := d.queue[0].n; var r := d.(queue := d.queue[1..], script := script);
            && Booked(r, serving + {n}) && n !in serving
            && StatusOf(d.log, n) == UNTOUCHED && LastCall(d.log) < n && LastNotified(d.log) < n
            && forall i | 0 <= i < |r.queue| :: n < r.queue[i].n
  {
    hide StatusOf, LastCall, Orderly, Highest, LastNotified, PassedUpTo;
    var n := d.queue[0].n;
    var r := d.(queue := d.queue[1..], script := script);
    assert Waiting(d, n);
    forall k: nat ensures Waiting(d, k) <==> Waiting(r, k) || k == n {
      if Waiting(r, k) {
        var i :| 0 <= i < |r.queue| && r.queue[i].n == k;
        assert d.queue[i + 1].n == k;
      }
      if Waiting(d, k) && k != n {
        var i :| 0 <= i < |d.queue| && d.queue[i].n == k;
        assert r.queue[i - 1].n == k;
      }
    }
    assert forall k <- serving :: k != n;
  }

  lemma BookServe(d: Desk, serving: set<nat>)
    requires Booked(d, serving) && d.queue != [] && Open(d.log).None?
    ensures var r := ServeQueued(d);
            && Booked(r, serving) && Open(r.log).None?
            && forall k <- serving :: StatusOf(r.log, k) == StatusOf(d.log, k)
  {
    hide Booked, StatusOf, LastCall, Open, LastNotified, Highest;
    var n, e := d.queue[0].n, d.queue[0].e;
    var rest := d.(queue := d.queue[1..]);
    var more := serving + {n};
    BookTake(d, serving, rest.script);
    BookTake(d, serving, TakeTurn(rest).script);
    assert more - {n} == serving;
    var t, at := NextTurn(rest), TakeTurn(rest);
    if e.modifier {
      BookFinish(rest, more, n, false, false);
    } else if e.bypass {
      BookFinish(at, more, n, t.composing, false);
    } else if !t.connected {
      BookFinish(at, more, n, false, false);
    } else {
      BookCall(at, more, n, t);
      var r := if t.reply.Some? then t.reply.value else Reply(false, false);
      BookFinish(CallEngine(at, n, t), more, n, r.commits, r.consumed);
    }
  }

  lemma {:induction false} BookDrain(d: Desk, serving: set<nat>)
    requires Booked(d, serving) && Open(d.log).None?
    ensures var r := Drain(d);
            && Booked(r, serving) && Open(r.log).None? && r.queue == []
            && forall k <- serving :: StatusOf(r.log, k) == StatusOf(d.log, k)
    decreases |d.script|, |d.queue|
  {
    hide Booked, StatusOf, Open, ServeQueued;
    if d.queue != [] {
      ServeShrinks(d);
      BookServe(d, serving);
      BookDrain(ServeQueued(d), serving);
    }
  }

  /** A new key, while the queue is empty. */
  lemma BookNew(d: Desk, script: seq<Turn>)
    requires Booked(d, {}) && d.queue == []
    ensures var n := d.arrived; var r := d.(arrived := n + 1, script := script);
            && Booked(r, {n}) && StatusOf(r.log, n) == UNTOUCHED
            && LastCall(r.log) < n && LastNotified(r.log) < n && Highest(r.log) < n
  {
    hide StatusOf, LastCall, Orderly, Highest, LastNotified;
    PassedBelow(d.log);
  }

  lemma {:induction false} PassedBelow(log: seq<Event>)
    ensures PassedUpTo(log) <= Highest(log)
  {
    if log != [] {
      PassedBelow(Init(log));
    }
  }

  lemma BookPass(d: Desk, n: nat)
    requires Booked(d, {n}) && d.queue == [] && Open(d.log).None?
    requires var s := StatusOf(d.log, n); Replied(s, false) && if s.called then s.newest else n > Highest(d.log)
    ensures Booked(Log(d, Pass(n)), {}) && Open(Log(d, Pass(n)).log).None?
  {
    hide StatusOf, Open, LastCall, Orderly, Highest, LastNotified, PassedUpTo, Noted;
    var r := Log(d, Pass(n));
    forall k ensures StatusOf(r.log, k) == StatusAfter(d.log, Pass(n), k) {
      LogSnoc(d.log, Pass(n), k);
    }
    LogSnoc(d.log, Pass(n), 0);
    NotedPass(StatusOf(d.log, n), n, Highest(d.log));
    assert n in {n};
    assert MayFollow(d.log, Pass(n));
    assert forall k :: Waiting(r, k) <==> Waiting(d, k);
  }

  lemma NotedPass(s: Status, n: nat, highest: int)
    ensures Noted(s, Pass(n), highest).settled == s.settled + 1
  {
  }

  lemma BookHandle(d: Desk, e: KeyEvent)
    requires Booked(d, {}) && d.queue == [] && Open(d.log).None?
    ensures var r := Handle(d, e); Booked(r, {}) && r.queue == [] && Open(r.log).None?
  {
    hide Booked, StatusOf, LastCall, Open, Drain, LastNotified, Highest, PassedUpTo;
    var n := d.arrived;
    var a := d.(arrived := n + 1);
    BookNew(d, a.script);
    BookNew(d, TakeTurn(a).script);
    assert {n} - {n} == {};
    var t, at := NextTurn(a), TakeTurn(a);
    if e.modifier {
      BookPass(a, n);
    } else if e.bypass {
      if t.composing {
        BookFinish(at, {n}, n, true, false);
        BookDrain(Log(Log(at, Commit(n)), Notify(n, false)), {});
      } else {
        BookPass(at, n);
      }
    } else if !t.connected {
      BookPass(at, n);
    } else {
      BookCall(at, {n}, n, t);
      BookReplied(CallEngine(at, n, t), n, t.reply);
    }
  }

  lemma BookReplied(called: Desk, n: nat, reply: Option<Reply>)
    requires Booked(called, {n}) && Open(called.log).None? && LastNotified(called.log) < n
    requires StatusOf(called.log, n) == Status(true, true, 0, reply.Some? && reply.value.consumed, false)
    requires forall i | 0 <= i < |called.queue| :: n < called.queue[i].n
    ensures var commits := reply.Some? && reply.value.commits;
            var consumed := reply.Some? && reply.value.consumed;
            var r := if !consumed && !commits then Log(Drain(called), Pass(n))
                     else Drain(Log(CommitIf(called, n, commits), Notify(n, consumed)));
            Booked(r, {}) && r.queue == [] && Open(r.log).None?
  {
    hide Booked, StatusOf, Open, Drain, LastNotified, Highest;
    assert {n} - {n} == {};
    var commits, consumed := reply.Some? && reply.value.commits, reply.Some? && reply.value.consumed;
    if !consumed && !commits {
      BookDrain(called, {n});
      BookPass(Drain(called), n);
    } else {
      BookFinish(called, {n}, n, commits, consumed);
      BookDrain(Log(CommitIf(called, n, commits), Notify(n, consumed)), {});
    }
  }

  /** In every session, whatever arrives during whichever engine call: the queue is empty
      when the handler returns, the log is orderly and every key is settled exactly once. */
  lemma {:induction false} SessionProtocol(script: seq<Turn>, keys: seq<KeyEvent>)
    ensures var d := Session(script, keys);
            && d.queue == [] && Orderly(d.log) && Open(d.log).None?
            && Booked(d, {})
            && forall n: nat :: StatusOf(d.log, n).settled == if n < d.arrived then 1 else 0
    decreases |keys|
  {
    hide StatusOf, Handle;
    if keys != [] {
      SessionProtocol(script, Init(keys));
      BookHandle(Session(script, Init(keys)), Last(keys));
    } else {
      forall n: nat {
        NothingLogged(n);
      }
    }
    assert forall n :: !Waiting(Session(script, keys), n);
  }

  lemma NothingLogged(n: nat)
    ensures StatusOf([], n) == UNTOUCHED
  {
  }

  // ---------- what an orderly log means ----------

  lemma {:induction false} OpenedBy(log: seq<Event>, n: nat, i: nat)
    requires i < |log| && log[i] == Begin(n) && Orderly(log)
    requires forall j | i < j < |log| :: !log[j].End?
    ensures Open(log) == Some(n)
    decreases |log|
  {
    if i < |log| - 1 {
      OpenedBy(Init(log), n, i);
    }
  }

  lemma {:induction false} CallsGrow(log: seq<Event>, i: nat)
    requires i < |log| && log[i].Begin? && Orderly(log)
    ensures LastCall(log) >= log[i].n
    decreases |log|
  {
    if i < |log| - 1 {
      CallsGrow(Init(log), i);
    }
  }

  /** Two engine calls: the earlier one is for the earlier key and has ended before the later
      one begins. */
  lemma {:induction false} CallsNeverNest(log: seq<Event>, i: nat, j: nat)
    requires Orderly(log) && i < j < |log| && log[i].Begin? && log[j].Begin?
    ensures log[i].n < log[j].n
    ensures exists m :: i < m < j && log[m].End?
    decreases |log|
  {
    if j == |log| - 1 {
      CallsGrow(Init(log), i);
      if forall m | i < m < j :: !log[m].End? {
        OpenedBy(Init(log), log[i].n, i);
      }
    } else {
      CallsNeverNest(Init(log), i, j);
    }
  }

  lemma {:induction false} OpenIsLatest(log: seq<Event>)
    requires Orderly(log) && Open(log).Some?
    ensures LastCall(log) == Open(log).value
  {
    if !Last(log).Begin? {
      OpenIsLatest(Init(log));
    }
  }

  /** The engine is called at most once for a key, so its reply stands. */
  lemma {:induction false} ReplyStands(log: seq<Event>, i: nat)
    requires Orderly(log) && i < |log| && log[i].End?
    ensures LastCall(log) >= log[i].n && Open(log) != Some(log[i].n)
    ensures StatusOf(log, log[i].n).consumed == (log[i].reply.Some? && log[i].reply.value.consumed)
    decreases |log|
  {
    if i == |log| - 1 {
      OpenIsLatest(Init(log));
    } else {
      ReplyStands(Init(log), i);
    }
  }

  predicate Settles(ev: Event, n: nat) {
    ev.n == n && (ev.Notify? || ev.Pass? || ev.Lost?)
  }

  lemma {:induction false} SettledLater(log: seq<Event>, i: nat)
    requires Orderly(log) && i < |log| && log[i].End? && StatusOf(log, log[i].n).settled > 0
    ensures exists j :: i < j < |log| && Settles(log[j], log[i].n)
    decreases |log|
  {
    if i < |log| - 1 {
      if Settles(Last(log), log[i].n) {
        assert Settles(log[|log| - 1], log[i].n);
      } else {
        SettledLater(Init(log), i);
        var j :| i < j < |Init(log)| && Settles(Init(log)[j], log[i].n);
        assert Settles(log[j], log[i].n);
      }
    }
  }

  lemma {:induction false} HighestBounds(log: seq<Event>, i: nat)
    requires i < |log|
    ensures log[i].n <= Highest(log)
    decreases |log|
  {
    if i < |log| - 1 {
      HighestBounds(Init(log), i);
    }
  }

  /** Every reply of the engine is carried out, in every session: after the call the key is
      notified as the engine said, or left to the compositor if it was not consumed. */
  lemma DeliveredAsReplied(script: seq<Turn>, keys: seq<KeyEvent>, i: nat) returns (j: nat)
    requires i < |Session(script, keys).log| && Session(script, keys).log[i].End?
    ensures var log := Session(script, keys).log; var n := log[i].n;
            var consumed := log[i].reply.Some? && log[i].reply.value.consumed;
            && i < j < |log|
            && (log[j] == Notify(n, consumed) || (!consumed && log[j] == Pass(n)))
  {
    hide StatusOf, Session, Orderly;
    SessionProtocol(script, keys);
    var log := Session(script, keys).log;
    HighestBounds(log, i);
    SettledLater(log, i);
    j :| i < j < |log| && Settles(log[j], log[i].n);
    SettledAsReplied(log, i, j);
  }

  lemma {:induction false} NewestWhenCalled(log: seq<Event>, n: nat) returns (b: nat)
    requires StatusOf(log, n).called && StatusOf(log, n).newest && Orderly(log)
    ensures b < |log| && log[b] == Begin(n) && forall i | 0 <= i < b :: log[i].n < n
    decreases |log|
  {
    if Last(log) == Begin(n) {
      b := |log| - 1;
      forall i | 0 <= i < b ensures log[i].n < n {
        HighestBounds(Init(log), i);
      }
    } else {
      b := NewestWhenCalled(Init(log), n);
    }
  }

  lemma {:induction false} NotifiedBounds(log: seq<Event>, i: nat)
    requires Orderly(log) && i < |log| && log[i].Notify?
    ensures log[i].n <= LastNotified(log)
    decreases |log|
  {
    if i < |log| - 1 {
      NotifiedBounds(Init(log), i);
    }
  }

  lemma {:induction false} PassedBounds(log: seq<Event>, i: nat, k: nat)
    requires Orderly(log) && k <= i < |log| && log[i].Pass?
    ensures log[k].n <= PassedUpTo(log)
    decreases |log|
  {
    if i < |log| - 1 {
      PassedBounds(Init(log), i, k);
      PassedGrows(log);
    } else {
      HighestBounds(log, k);
    }
  }

  lemma PassedGrows(log: seq<Event>)
    requires log != []
    ensures PassedUpTo(Init(log)) <= PassedUpTo(log)
  {
    PassedBelow(Init(log));
  }

  /** Two settlements out of arrival order are a notification and then the leaving of a key
      that was called before it. */
  lemma {:induction false} SettledInOrder(log: seq<Event>, i: nat, j: nat)
    requires Orderly(log) && i < j < |log| && !log[i].Lost? && !log[j].Lost?
    requires Settles(log[i], log[i].n) && Settles(log[j], log[j].n)
    ensures || log[i].n < log[j].n
            || (log[i].Notify? && log[j].Pass? && exists b :: 0 <= b < i && log[b] == Begin(log[j].n))
    decreases |log|
  {
    var before := Init(log);
    if j < |log| - 1 {
      SettledInOrder(before, i, j);
      if b :| 0 <= b < i && before[b] == Begin(before[j].n) {
        assert log[b] == Begin(log[j].n);
      }
    } else if log[i].Pass? {
      PassedBounds(before, i, i);
    } else if log[j].Notify? {
      NotifiedBounds(before, i);
    } else if StatusOf(before, log[j].n).called {
      var b := NewestWhenCalled(before, log[j].n);
      assert log[b] == Begin(log[j].n);
    } else {
      HighestBounds(before, i);
    }
  }

  /** Leaving a key to the compositor closes the books: all that happens later concerns keys
      newer than all the keys seen until then. */
  lemma {:induction false} PassClosesBooks(log: seq<Event>, k: nat, i: nat, j: nat)
    requires Orderly(log) && k <= i < j < |log| && log[i].Pass?
    ensures log[k].n < log[j].n
    decreases |log|
  {
    if j == |log| - 1 {
      PassedBounds(Init(log), i, k);
    } else {
      PassClosesBooks(Init(log), k, i, j);
    }
  }

  /** What can follow a key's engine call: its notification as the engine replied, its being
      left to the compositor if it was not consumed, or its commit, before either of them.
      That one of the first two does follow is `DeliveredAsReplied`. */
  lemma {:induction false} SettledAsReplied(log: seq<Event>, i: nat, j: nat)
    requires Orderly(log) && i < j < |log| && log[i].End? && log[j].n == log[i].n
    ensures var consumed := log[i].reply.Some? && log[i].reply.value.consumed;
            match log[j]
            case Notify(_, c) => c == consumed
            case Pass(_) => !consumed
            case Commit(n) => StatusOf(log[..j], n).settled == 0
            case _ => false
    decreases |log|
  {
    if j == |log| - 1 {
      ReplyStands(Init(log), i);
      CalledIsOlder(Init(log), i);
      assert log[..j] == Init(log);
    } else {
      SettledAsReplied(Init(log), i, j);
      assert Init(log)[..j] == log[..j];
    }
  }

  /** No key is lost after its own engine call: only keys behind the one in the engine are. */
  lemma CalledIsOlder(log: seq<Event>, i: nat)
    requires Orderly(log) && i < |log| && log[i].End?
    ensures Open(log).Some? ==> log[i].n < Open(log).value
    ensures log[i].n <= LastCall(log)
  {
    ReplyStands(log, i);
    if Open(log).Some? {
      OpenIsLatest(log);
    }
  }
}

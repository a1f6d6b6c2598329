/** What the key handler does with each key, event by event: which keys reach the engine, which
    commits reach the application, and how each key is settled. */
module KeyStory {
  import opened Wrappers
  import opened KeyQueue
  import opened KeyOrder

  /** The events of one key, in order. */
  function Of(log: seq<Event>, n: nat): seq<Event> {
    if log == [] then [] else Of(Init(log), n) + (if Last(log).n == n then [Last(log)] else [])
  }

  /** How a key met the handler: straight from the compositor or while the engine was busy, and
      what the world answered. */
  datatype Case = Case(direct: bool, e: KeyEvent, t: Turn)

  /** A key that nobody wants: left to the compositor while that is still possible. */
  function Unwanted(n: nat, direct: bool): Event {
    if direct then Pass(n) else Notify(n, false)
  }

  /** All that should happen to a key. */
  function Story(n: nat, c: Case): (s: seq<Event>)
    ensures forall ev <- s :: ev.n == n
  {
    if !c.direct && !c.e.copyable then [Lost(n)]
    else if c.e.modifier then [Unwanted(n, c.direct)]
    else if c.e.bypass then if c.t.composing then [Commit(n), Notify(n, false)] else [Unwanted(n, c.direct)]
    else if !c.t.connected then [Unwanted(n, c.direct)]
    else [Begin(n), End(n, c.t.reply)] + Answer(n, c.direct, c.t.reply)
  }

  /** What follows the engine's answer. */
  function Answer(n: nat, direct: bool, reply: Option<Reply>): (s: seq<Event>)
    ensures forall ev <- s :: ev.n == n
  {
    match reply
    case None => [Unwanted(n, direct)]
    case Some(r) =>
      if r.commits then [Commit(n), Notify(n, r.consumed)]
      else if r.consumed then [Notify(n, true)]
      else [Unwanted(n, direct)]
  }

  // ---------- which key meets which answer ----------

  /** Answers still to come, waiting keys, the number of keys so far, and the case of each key that
      has had its turn. */
  datatype Book = Book(script: seq<Turn>, waiting: seq<Job>, arrived: nat, cases: map<nat, Case>)

  function Enter(b: Book, n: nat, c: Case): Book { b.(cases := b.cases[n := c]) }

  /** Keys that arrive while the engine is busy wait, or are dropped. */
  function TakeIn(b: Book, es: seq<KeyEvent>): (r: Book)
    ensures r.script == b.script
    decreases |es|
  {
    if es == [] then b
    else
      var a := TakeIn(b, Init(es));
      if Last(es).copyable then a.(arrived := a.arrived + 1, waiting := a.waiting + [Job(a.arrived, Last(es))])
      else Enter(a.(arrived := a.arrived + 1), a.arrived, Case(false, Last(es), SILENCE))
  }

  /** A key has its turn; a bare modifier needs no answer. */
  function HaveTurn(b: Book, n: nat, direct: bool, e: KeyEvent): Book {
    if e.modifier then Enter(b, n, Case(direct, e, SILENCE))
    else
      var t := Head(b.script);
      var a := Enter(b.(script := Tail(b.script)), n, Case(direct, e, t));
      if Calls(e, t) then TakeIn(a, t.during) else a
  }

  function ServeNext(b: Book): (r: Book)
    requires b.waiting != []
    ensures |r.script| < |b.script| || (r.script == b.script && |r.waiting| < |b.waiting|)
  {
    HaveTurn(b.(waiting := b.waiting[1..]), b.waiting[0].n, false, b.waiting[0].e)
  }

  /** Waiting keys have their turns in the order in which they came. */
  function ServeAll(b: Book): Book
    decreases |b.script|, |b.waiting|
  {
    if b.waiting == [] then b else ServeAll(ServeNext(b))
  }

  function Ledger(script: seq<Turn>, keys: seq<KeyEvent>): Book
    decreases |keys|
  {
    if keys == [] then Book(script, [], 0, map[])
    else
      var b := Ledger(script, Init(keys));
      ServeAll(HaveTurn(b.(arrived := b.arrived + 1), b.arrived, true, Last(keys)))
  }

  // ---------- the events of one key ----------

  lemma OfSnoc(log: seq<Event>, ev: Event, n: nat)
    ensures Of(log + [ev], n) == Of(log, n) + (if ev.n == n then [ev] else [])
  {
  }

  lemma OfNothing(n: nat)
    ensures Of([], n) == []
  {
  }

  lemma {:induction false} OfConcat(a: seq<Event>, b: seq<Event>, n: nat)
    ensures Of(a + b, n) == Of(a, n) + Of(b, n)
    decreases |b|
  {
    hide Of;
    if b == [] {
      OfNothing(n);
      assert a + b == a;
    } else {
      var front, ev := Init(b), Last(b);
      assert b == front + [ev] && a + b == a + front + [ev];
      OfConcat(a, front, n);
      OfSnoc(front, ev, n);
      OfSnoc(a + front, ev, n);
    }
  }

  lemma OfOne(ev: Event, n: nat)
    ensures Of([ev], n) == if ev.n == n then [ev] else []
  {
    hide Of;
    OfNothing(n);
    OfSnoc([], ev, n);
    assert [] + [ev] == [ev];
  }

  /** A stretch about one key is all about it, and nothing about another. */
  lemma {:induction false} OfOwn(s: seq<Event>, m: nat, n: nat)
    requires forall ev <- s :: ev.n == m
    ensures Of(s, n) == if m == n then s else []
    decreases |s|
  {
    hide Of;
    if s == [] {
      OfNothing(n);
    } else {
      assert s == Init(s) + [Last(s)] && Last(s) in s;
      OfOwn(Init(s), m, n);
      OfSnoc(Init(s), Last(s), n);
    }
  }

  lemma {:induction false} OfHas(log: seq<Event>, ev: Event)
    ensures ev in log <==> ev in Of(log, ev.n)
    decreases |log|
  {
    if log != [] {
      OfHas(Init(log), ev);
      assert log == Init(log) + [Last(log)];
    }
  }

  // ---------- desk and ledger side by side ----------

  function Entitled(b: Book, n: nat): seq<Event> {
    if n in b.cases then Story(n, b.cases[n]) else []
  }

  /** The desk has logged each key's story except what is still to do; every key that has arrived
      has a case or is waiting. */
  ghost predicate Matches(d: Desk, b: Book, todo: seq<Event>) {
    && d.script == b.script && d.queue == b.waiting && d.arrived == b.arrived
    && (forall n: nat :: Of(d.log, n) + Of(todo, n) == Entitled(b, n))
    && (forall n: nat :: n in b.cases || Waiting(d, n) <==> n < b.arrived)
    && (forall i | 0 <= i < |d.queue| :: d.queue[i].n !in b.cases && d.queue[i].e.copyable)
    && (forall i, j | 0 <= i < j < |d.queue| :: d.queue[i].n != d.queue[j].n)
  }

  /** Only the log changes. */
  lemma Logged(d: Desk, b: Book, ev: Event, todo: seq<Event>)
    requires Matches(d, b, [ev] + todo)
    ensures Matches(Log(d, ev), b, todo)
  {
    hide Of, Entitled;
    forall n: nat ensures Of(Log(d, ev).log, n) + Of(todo, n) == Of(d.log, n) + Of([ev] + todo, n) {
      OfSnoc(d.log, ev, n);
      OfConcat([ev], todo, n);
      OfOne(ev, n);
      assert Of(d.log, n) + [ev] + Of(todo, n) == Of(d.log, n) + ([ev] + Of(todo, n));
    }
    assert forall n :: Waiting(Log(d, ev), n) <==> Waiting(d, n);
  }

  /** A key gets its case: its whole story is to do. */
  lemma Entered(d: Desk, b: Book, d': Desk, b': Book, n: nat, c: Case, todo: seq<Event>)
    requires Matches(d, b, todo) && n !in b.cases && n < b'.arrived
    requires d'.log == d.log && d'.queue == b'.waiting && d'.arrived == b'.arrived && d'.script == b'.script
    requires b'.cases == b.cases[n := c]
    requires d'.arrived == (if n == d.arrived then n + 1 else d.arrived)
    requires forall k: nat | k != n :: Waiting(d', k) <==> Waiting(d, k)
    requires forall i | 0 <= i < |d'.queue| :: d'.queue[i].n !in b'.cases && d'.queue[i].e.copyable
    requires forall i, j | 0 <= i < j < |d'.queue| :: d'.queue[i].n != d'.queue[j].n
    ensures Matches(d', b', Story(n, c) + todo)
  {
    hide Of, Story, Waiting;
    forall k: nat ensures Of(d'.log, k) + Of(Story(n, c) + todo, k) == Entitled(b', k) {
      OfConcat(Story(n, c), todo, k);
      OfOwn(Story(n, c), n, k);
      if k == n {
        assert Of(d.log, n) + Of(todo, n) == [];
        assert |Of(d.log, n)| + |Of(todo, n)| == 0;
        assert Of(d.log, n) == [] && Of(todo, n) == [];
        assert [] + (Story(n, c) + []) == Story(n, c);
      } else {
        assert [] + Of(todo, k) == Of(todo, k);
      }
    }
  }

  lemma QueuedBefore(d: Desk, b: Book, todo: seq<Event>)
    requires Matches(d, b, todo)
    ensures forall i | 0 <= i < |d.queue| :: d.queue[i].n < d.arrived
    ensures !Waiting(d, d.arrived) && d.arrived !in b.cases
  {
    hide Of, Entitled;
    forall i | 0 <= i < |d.queue| ensures d.queue[i].n < d.arrived {
      assert Waiting(d, d.queue[i].n);
    }
  }

  lemma EnteredQueued(d: Desk, b: Book, script: seq<Turn>, c: Case, todo: seq<Event>)
    requires Matches(d, b, todo) && d.queue != []
    ensures var n := d.queue[0].n;
            Matches(d.(queue := d.queue[1..], script := script),
                    Enter(b.(waiting := b.waiting[1..], script := script), n, c), Story(n, c) + todo)
  {
    hide Of, Story, Entitled;
    var n := d.queue[0].n;
    var d' := d.(queue := d.queue[1..], script := script);
    var b' := Enter(b.(waiting := b.waiting[1..], script := script), n, c);
    assert Waiting(d, n);
    forall k: nat | k != n ensures Waiting(d', k) <==> Waiting(d, k) {
      if Waiting(d', k) {
        var i :| 0 <= i < |d'.queue| && d'.queue[i].n == k;
        assert d.queue[i + 1].n == k;
      }
      if Waiting(d, k) {
        var i :| 0 <= i < |d.queue| && d.queue[i].n == k;
        assert d'.queue[i - 1].n == k;
      }
    }
    Entered(d, b, d', b', n, c, todo);
  }

  lemma EnteredNew(d: Desk, b: Book, script: seq<Turn>, c: Case, todo: seq<Event>)
    requires Matches(d, b, todo)
    ensures var n := d.arrived;
            Matches(d.(arrived := n + 1, script := script),
                    Enter(b.(arrived := n + 1, script := script), n, c), Story(n, c) + todo)
  {
    hide Of, Story, Entitled;
    var n := d.arrived;
    var d', b' := d.(arrived := n + 1, script := script), Enter(b.(arrived := n + 1, script := script), n, c);
    QueuedBefore(d, b, todo);
    forall k: nat | k != n ensures Waiting(d', k) <==> Waiting(d, k) {
    }
    Entered(d, b, d', b', n, c, todo);
  }

  lemma Queued(d: Desk, b: Book, e: KeyEvent, todo: seq<Event>)
    requires Matches(d, b, todo) && e.copyable
    ensures var job := Job(d.arrived, e);
            Matches(d.(arrived := d.arrived + 1, queue := d.queue + [job]),
                    b.(arrived := b.arrived + 1, waiting := b.waiting + [job]), todo)
  {
    hide Of, Story;
    var d' := d.(arrived := d.arrived + 1, queue := d.queue + [Job(d.arrived, e)]);
    QueuedBefore(d, b, todo);
    forall k: nat ensures Waiting(d', k) <==> Waiting(d, k) || k == d.arrived {
      if Waiting(d, k) {
        var i :| 0 <= i < |d.queue| && d.queue[i].n == k;
        assert d'.queue[i].n == k;
      }
      assert d'.queue[|d.queue|].n == d.arrived;
    }
  }

  lemma Arrived(d: Desk, b: Book, e: KeyEvent, todo: seq<Event>)
    requires Matches(d, b, todo)
    ensures Matches(Arrive(d, e),
                    if e.copyable then b.(arrived := b.arrived + 1, waiting := b.waiting + [Job(b.arrived, e)])
                    else Enter(b.(arrived := b.arrived + 1), b.arrived, Case(false, e, SILENCE)), todo)
  {
    hide Matches;
    assert d.arrived == b.arrived && d.script == b.script by { Aligned(d, b, todo); }
    if e.copyable {
      Queued(d, b, e, todo);
    } else {
      EnteredNew(d, b, d.script, Case(false, e, SILENCE), todo);
      Logged(d.(arrived := d.arrived + 1), Enter(b.(arrived := b.arrived + 1), b.arrived, Case(false, e, SILENCE)),
             Lost(d.arrived), todo);
    }
  }

  lemma Aligned(d: Desk, b: Book, todo: seq<Event>)
    requires Matches(d, b, todo)
    ensures d.script == b.script && d.queue == b.waiting && d.arrived == b.arrived
  {
  }

  lemma {:induction false} ArrivedAll(d: Desk, b: Book, es: seq<KeyEvent>, todo: seq<Event>)
    requires Matches(d, b, todo)
    ensures Matches(ArriveAll(d, es), TakeIn(b, es), todo)
    decreases |es|
  {
    hide Matches, Arrive;
    if es != [] {
      ArrivedAll(d, b, Init(es), todo);
      Arrived(ArriveAll(d, Init(es)), TakeIn(b, Init(es)), Last(es), todo);
    }
  }

  /** The engine call of a key. */
  lemma Called(d: Desk, b: Book, n: nat, t: Turn, todo: seq<Event>)
    requires Matches(d, b, [Begin(n), End(n, t.reply)] + todo)
    ensures Matches(CallEngine(d, n, t), TakeIn(b, t.during), todo)
  {
    hide Matches, ArriveAll, TakeIn;
    assert [Begin(n), End(n, t.reply)] + todo == [Begin(n)] + ([End(n, t.reply)] + todo);
    Logged(d, b, Begin(n), [End(n, t.reply)] + todo);
    ArrivedAll(Log(d, Begin(n)), b, t.during, [End(n, t.reply)] + todo);
    Logged(ArriveAll(Log(d, Begin(n)), t.during), TakeIn(b, t.during), End(n, t.reply), todo);
  }

  /** Commit, if anything, then notify. */
  lemma Finished(d: Desk, b: Book, n: nat, commits: bool, consumed: bool, todo: seq<Event>)
    requires Matches(d, b, (if commits then [Commit(n)] else []) + [Notify(n, consumed)] + todo)
    ensures Matches(Log(CommitIf(d, n, commits), Notify(n, consumed)), b, todo)
  {
    hide Matches;
    if commits {
      assert [Commit(n)] + [Notify(n, consumed)] + todo == [Commit(n)] + ([Notify(n, consumed)] + todo);
      Logged(d, b, Commit(n), [Notify(n, consumed)] + todo);
    } else {
      assert [] + [Notify(n, consumed)] + todo == [Notify(n, consumed)] + todo;
    }
    Logged(CommitIf(d, n, commits), b, Notify(n, consumed), todo);
  }

  lemma FirstCopyable(d: Desk, b: Book, todo: seq<Event>)
    requires Matches(d, b, todo) && d.queue != []
    ensures d.queue[0].e.copyable
  {
  }

  lemma Served(d: Desk, b: Book, todo: seq<Event>)
    requires Matches(d, b, todo) && d.queue != []
    ensures b.waiting != [] && Matches(ServeQueued(d), ServeNext(b), todo)
  {
    hide Matches, CallEngine, TakeIn;
    Aligned(d, b, todo);
    FirstCopyable(d, b, todo);
    var n, e := d.queue[0].n, d.queue[0].e;
    var rest := d.(queue := d.queue[1..]);
    var t, at := NextTurn(rest), TakeTurn(rest);
    if e.modifier {
      EnteredQueued(d, b, d.script, Case(false, e, SILENCE), todo);
      Logged(rest, ServeNext(b), Notify(n, false), todo);
    } else {
      var entered := Enter(b.(waiting := b.waiting[1..], script := at.script), n, Case(false, e, t));
      EnteredQueued(d, b, at.script, Case(false, e, t), todo);
      assert [] + [Notify(n, false)] == [Notify(n, false)];
      assert [Commit(n)] + [Notify(n, false)] == [Commit(n), Notify(n, false)];
      if e.bypass {
        Finished(at, entered, n, t.composing, false, todo);
      } else if !t.connected {
        Finished(at, entered, n, false, false, todo);
      } else {
        var answer := Answer(n, false, t.reply);
        assert [Begin(n), End(n, t.reply)] + answer + todo == [Begin(n), End(n, t.reply)] + (answer + todo);
        Called(at, entered, n, t, answer + todo);
        AnsweredQueued(CallEngine(at, n, t), TakeIn(entered, t.during), n, t.reply, todo);
      }
    }
  }

  lemma AnsweredQueued(d: Desk, b: Book, n: nat, reply: Option<Reply>, todo: seq<Event>)
    requires Matches(d, b, Answer(n, false, reply) + todo)
    ensures Matches(match reply case None => Log(d, Notify(n, false))
                                case Some(r) => Log(CommitIf(d, n, r.commits), Notify(n, r.consumed)), b, todo)
  {
    hide Matches;
    var r := if reply.Some? then reply.value else Reply(false, false);
    assert Answer(n, false, reply) == (if r.commits then [Commit(n)] else []) + [Notify(n, r.consumed)];
    Finished(d, b, n, r.commits, r.consumed, todo);
  }

  lemma {:induction false} Drained(d: Desk, b: Book, todo: seq<Event>)
    requires Matches(d, b, todo)
    ensures Matches(Drain(d), ServeAll(b), todo) && Drain(d).queue == []
    decreases |d.script|, |d.queue|
  {
    hide Matches, ServeQueued, ServeNext;
    Aligned(d, b, todo);
    if d.queue != [] {
      ServeShrinks(d);
      Served(d, b, todo);
      Drained(ServeQueued(d), ServeNext(b), todo);
    }
  }

  lemma Handled(d: Desk, b: Book, e: KeyEvent)
    requires Matches(d, b, []) && d.queue == []
    ensures var r := Handle(d, e);
            && r.queue == []
            && Matches(r, ServeAll(HaveTurn(b.(arrived := b.arrived + 1), b.arrived, true, e)), [])
  {
    hide Matches, CallEngine, TakeIn, Drain, ServeAll;
    Aligned(d, b, []);
    var n := d.arrived;
    var a := d.(arrived := n + 1);
    var t, at := NextTurn(a), TakeTurn(a);
    if e.modifier {
      var entered := Enter(b.(arrived := n + 1), n, Case(true, e, SILENCE));
      EnteredNew(d, b, d.script, Case(true, e, SILENCE), []);
      LeftAlone(a, entered, n);
    } else {
      var entered := Enter(b.(arrived := n + 1, script := at.script), n, Case(true, e, t));
      EnteredNew(d, b, at.script, Case(true, e, t), []);
      if e.bypass && t.composing {
        assert [Commit(n), Notify(n, false)] + [] == [Commit(n)] + [Notify(n, false)] + [];
        Finished(at, entered, n, true, false, []);
        Drained(Log(Log(at, Commit(n)), Notify(n, false)), entered, []);
      } else if e.bypass || !t.connected {
        LeftAlone(at, entered, n);
      } else {
        var answer := Answer(n, true, t.reply);
        assert [Begin(n), End(n, t.reply)] + answer + [] == [Begin(n), End(n, t.reply)] + answer;
        Called(at, entered, n, t, answer);
        AnsweredDirect(CallEngine(at, n, t), TakeIn(entered, t.during), n, t.reply);
      }
    }
  }

  /** Left to the compositor while nothing waits. */
  lemma LeftAlone(d: Desk, b: Book, n: nat)
    requires Matches(d, b, [Pass(n)] + []) && d.queue == []
    ensures Matches(Log(d, Pass(n)), ServeAll(b), [])
  {
    hide Matches;
    Aligned(d, b, [Pass(n)] + []);
    Logged(d, b, Pass(n), []);
  }

  lemma AnsweredDirect(d: Desk, b: Book, n: nat, reply: Option<Reply>)
    requires Matches(d, b, Answer(n, true, reply))
    ensures var r := match reply
              case None => Log(Drain(d), Pass(n))
              case Some(r) =>
                var shown := CommitIf(d, n, r.commits);
                if !r.consumed && !r.commits then Log(Drain(shown), Pass(n))
                else Drain(Log(shown, Notify(n, r.consumed)));
            r.queue == [] && Matches(r, ServeAll(b), [])
  {
    hide Matches, Drain, ServeAll;
    var r := if reply.Some? then reply.value else Reply(false, false);
    assert [Pass(n)] + [] == [Pass(n)];
    if !r.consumed && !r.commits {
      Drained(d, b, [Pass(n)]);
      Logged(Drain(d), ServeAll(b), Pass(n), []);
    } else {
      assert Answer(n, true, reply) == (if r.commits then [Commit(n)] else []) + [Notify(n, r.consumed)] + [];
      Finished(d, b, n, r.commits, r.consumed, []);
      Drained(Log(CommitIf(d, n, r.commits), Notify(n, r.consumed)), b, []);
    }
  }

  lemma {:induction false} SessionMatches(script: seq<Turn>, keys: seq<KeyEvent>)
    ensures var d := Session(script, keys); d.queue == [] && Matches(d, Ledger(script, keys), [])
    decreases |keys|
  {
    hide Matches, Handle, HaveTurn, ServeAll;
    if keys == [] {
      NothingYet(script);
    } else {
      SessionMatches(script, Init(keys));
      Aligned(Session(script, Init(keys)), Ledger(script, Init(keys)), []);
      Handled(Session(script, Init(keys)), Ledger(script, Init(keys)), Last(keys));
    }
  }

  lemma NothingYet(script: seq<Turn>)
    ensures Matches(Session(script, []), Ledger(script, []), [])
  {
  }

  // ---------- the theorem and what it says about commits ----------

  /** In every session the events of each key are exactly its story: which key the engine is called
      for, which of its answers reach the application, and how the key is settled in the end. */
  lemma EveryStory(script: seq<Turn>, keys: seq<KeyEvent>, n: nat)
    ensures var log, b := Session(script, keys).log, Ledger(script, keys);
            && (n in b.cases <==> n < Session(script, keys).arrived)
            && Of(log, n) == if n in b.cases then Story(n, b.cases[n]) else []
  {
    hide Session, Ledger, Story;
    SessionMatches(script, keys);
    var d, b := Session(script, keys), Ledger(script, keys);
    OfNothing(n);
    assert Of(d.log, n) + [] == Of(d.log, n);
    assert !Waiting(d, n);
  }

  lemma AnswerAlone(n: nat, c: Case, k: nat)
    requires k < |Story(n, c)| && Story(n, c)[k].End?
    ensures k == 1 && Story(n, c)[k] == End(n, c.t.reply) && Story(n, c)[2..] == Answer(n, c.direct, c.t.reply)
  {
  }

  /** What comes after the engine's answer in a key's story. */
  lemma AfterAnswer(n: nat, c: Case, before: seq<Event>, ev: Event, after: seq<Event>)
    requires Story(n, c) == before + ([ev] + after) && ev.End?
    ensures ev.reply == c.t.reply && after == Answer(n, c.direct, c.t.reply)
  {
    hide Story, Answer;
    assert (before + ([ev] + after))[|before|] == ev;
    AnswerAlone(n, c, |before|);
    assert (before + ([ev] + after))[2..] == after;
  }

  /** After the engine's answer a key's commit comes exactly if the answer has one, before the key
      is settled, and nothing else comes. */
  lemma CommittedAsReplied(script: seq<Turn>, keys: seq<KeyEvent>, i: nat)
    requires i < |Session(script, keys).log| && Session(script, keys).log[i].End?
             && Session(script, keys).log[i].reply.Some?
    ensures var log := Session(script, keys).log; var n, r := log[i].n, log[i].reply.value;
            && n in Ledger(script, keys).cases
            && var left := Ledger(script, keys).cases[n].direct && !r.consumed && !r.commits;
               Of(log[i + 1..], n)
               == (if r.commits then [Commit(n)] else []) + [if left then Pass(n) else Notify(n, r.consumed)]
  {
    hide Session, Ledger, Of, Story;
    var log := Session(script, keys).log;
    var n := log[i].n;
    EveryStory(script, keys, n);
    OfHas(log, log[i]);
    Around(log, i);
    OfAround(log[..i], log[i], log[i + 1..]);
    AfterAnswer(n, Ledger(script, keys).cases[n], Of(log[..i], n), log[i], Of(log[i + 1..], n));
  }

  lemma OfAround(before: seq<Event>, ev: Event, after: seq<Event>)
    ensures Of(before + ([ev] + after), ev.n) == Of(before, ev.n) + ([ev] + Of(after, ev.n))
  {
    hide Of;
    OfConcat(before, [ev] + after, ev.n);
    OfConcat([ev], after, ev.n);
    OfOne(ev, ev.n);
  }

  lemma Around(log: seq<Event>, i: nat)
    requires i < |log|
    ensures log == log[..i] + ([log[i]] + log[i + 1..])
  {
  }

  /** The key has text committed: because it is passed by while text is being composed, or because
      the engine was called for it and answered so. */
  predicate Commits(c: Case) {
    && (c.direct || c.e.copyable) && !c.e.modifier
    && if c.e.bypass then c.t.composing
       else c.t.connected && c.t.reply.Some? && c.t.reply.value.commits
  }

  /** No commit is lost and none is made up, for keys from the compositor and for queued ones. */
  lemma CommitsExactly(script: seq<Turn>, keys: seq<KeyEvent>, n: nat)
    ensures Commit(n) in Session(script, keys).log <==>
            n in Ledger(script, keys).cases && Commits(Ledger(script, keys).cases[n])
  {
    hide Session, Ledger, Of;
    EveryStory(script, keys, n);
    OfHas(Session(script, keys).log, Commit(n));
  }
}

/** Runs of a composer: keys, backspaces and commits in any order, with what they emit. */
module Runs {
  import opened Wrappers
  import opened Fold
  import opened Automaton

  datatype Action = Type(s: Stroke) | Erase | Close

  function Act(cfg: Config, st: State, a: Action): Outcome {
    match a
    case Type(s) => Add(cfg, st, s)
    case Erase => Outcome(Remove(cfg.table, st), None)
    case Close => Force(cfg.table, st)
  }

  function Perform(cfg: Config, st: State, actions: seq<Action>): Run
    decreases |actions|
  {
    hide Act;
    if actions == [] then Run(st, "")
    else
      var before := Perform(cfg, st, Init(actions));
      var step := Act(cfg, before.st, Last(actions));
      Run(step.st, before.text + Emit(step.out))
  }

  lemma {:induction false} PerformAppend(cfg: Config, st: State, a: seq<Action>, b: seq<Action>)
    ensures var r := Perform(cfg, st, a); var s := Perform(cfg, r.st, b);
            Perform(cfg, st, a + b) == Run(s.st, r.text + s.text)
    decreases |b|
  {
    hide Act;
    if b == [] {
      assert a + b == a;
    } else {
      assert Init(a + b) == a + Init(b);
      PerformAppend(cfg, st, a, Init(b));
    }
  }

  lemma PerformOne(cfg: Config, st: State, a: Action)
    ensures var o := Act(cfg, st, a); Perform(cfg, st, [a]) == Run(o.st, Emit(o.out))
  {
    hide Act;
    assert Init([a]) == [];
    assert Perform(cfg, st, []) == Run(st, "");
  }

  lemma PerformTwo(cfg: Config, st: State, a: Action, b: Action)
    ensures var x := Act(cfg, st, a); var y := Act(cfg, x.st, b);
            Perform(cfg, st, [a, b]) == Run(y.st, Emit(x.out) + Emit(y.out))
  {
    hide Act, Perform;
    assert [a, b] == [a] + [b];
    PerformAppend(cfg, st, [a], [b]);
    PerformOne(cfg, st, a);
    PerformOne(cfg, Act(cfg, st, a).st, b);
  }
}

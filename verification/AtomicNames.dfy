/** Which temporary names keep concurrent saves whole: exactly those that no two writers share,
    unless both have nothing to write, and that are not the target (src/atomic_io.rs). */
module AtomicNames {
  import opened Wrappers
  import opened AtomicSave

  /** Nobody has started yet; the names are whatever they are. */
  predicate Fresh(x: World) {
    NoLinks(x.disk) && forall i | 0 <= i < |x.writers| :: x.writers[i].stage.Preparing?
  }

  /** No temporary name is the target, and only writers of nothing share one. */
  predicate Apart(x: World) {
    && (forall i | 0 <= i < |x.writers| :: x.writers[i].tmp != x.target)
    && (forall i, j | 0 <= i < j < |x.writers| && x.writers[i].tmp == x.writers[j].tmp ::
          x.writers[i].content == [] && x.writers[j].content == [])
  }

  /** Every schedule keeps the target whole. */
  ghost predicate StaysWhole(x: World) {
    forall cs :: Whole(Content(x.disk, x.target), RunAll(x, cs))
  }

  // ---------- such names are enough ----------

  predicate PastOpening(s: Stage) { s.Writing? || s.Permitting? || s.Renaming? }

  /** A writer of nothing may lose its temporary file to another, but never meets bytes in it. */
  predicate Tame(d: Disk, w: Writer) {
    if w.content == [] then PastOpening(w.stage) && w.tmp in d.names ==> Content(d, w.tmp) == Some([])
    else OnTrack(d, w)
  }

  predicate TameSound(before: Option<Bytes>, x: World) {
    && NoLinks(x.disk) && Apart(x) && Whole(before, x)
    && forall i | 0 <= i < |x.writers| :: Tame(x.disk, x.writers[i])
  }

  /** The name means the same content. */
  predicate SameBytes(d: Disk, d': Disk, p: Path) {
    (p in d.names <==> p in d'.names) && Content(d', p) == Content(d, p)
    && (p in d.names ==> d'.names[p] == d.names[p])
  }

  lemma SameIsSameBytes(d: Disk, d': Disk, p: Path)
    requires NoLinks(d) && Same(d, d', p)
    ensures SameBytes(d, d', p)
  {
  }

  /** A step of a writer of nothing changes the content of no name but its own and, by a
      rename, the target. */
  lemma EmptyAct(x: World, w: Writer, ok: bool, amount: nat)
    requires NoLinks(x.disk) && w.tmp != x.target && w.content == [] && Tame(x.disk, w)
    ensures var (d, stage) := Act(x, w, ok, amount);
            && NoLinks(d) && Tame(d, w.(stage := stage))
            && (forall p | p != w.tmp && p != x.target :: SameBytes(x.disk, d, p))
            && (stage.Saved? && !w.stage.Saved? ==> Content(d, x.target) == Some([]))
            && (!stage.Saved? || w.stage.Saved? ==> SameBytes(x.disk, d, x.target))
            && (SameBytes(x.disk, d, w.tmp) || (w.tmp in d.names ==> Content(d, w.tmp) == Some([])))
  {
    hide NoLinks, Create, CopyMode, Remove, Rename, Same, SameBytes, Content;
    var d := x.disk;
    forall p ensures SameBytes(d, d, p) { BytesRefl(d, p); }
    match w.stage {
      case Opening => EmptyOpens(d, w.tmp, x.umask);
      case Permitting(fd) =>
        ModeOnly(d, fd, x.target);
        OthersTame(d, CopyMode(d, fd, x.target), w);
      case Renaming(_) =>
        if w.tmp in d.names {
          EmptyRenames(d, w.tmp, x.target);
        }
      case Removing => EmptyRemoves(d, w.tmp);
      case _ =>
    }
  }

  lemma BytesRefl(d: Disk, p: Path)
    ensures SameBytes(d, d, p)
  {
  }

  lemma EmptyOpens(d: Disk, tmp: Path, umask: nat)
    requires NoLinks(d)
    ensures var d' := Create(d, tmp, umask).0;
            NoLinks(d') && Content(d', tmp) == Some([]) && forall p | p != tmp :: SameBytes(d, d', p)
  {
    hide Create, NoLinks, SameBytes, Same;
    CreateFrame(d, tmp, umask);
    var d' := Create(d, tmp, umask).0;
    forall p | p != tmp ensures SameBytes(d, d', p) {
      SameIsSameBytes(d, d', p);
    }
  }

  lemma ModeOnly(d: Disk, fd: nat, target: Path)
    requires NoLinks(d)
    ensures var d' := CopyMode(d, fd, target); NoLinks(d') && forall p :: SameBytes(d, d', p)
    ensures CopyMode(d, fd, target).names == d.names
  {
  }

  lemma EmptyRenames(d: Disk, tmp: Path, target: Path)
    requires NoLinks(d) && tmp != target && tmp in d.names && Content(d, tmp) == Some([])
    ensures var d' := Rename(d, tmp, target);
            && NoLinks(d') && Content(d', target) == Some([]) && tmp !in d'.names
            && forall p | p != tmp && p != target :: SameBytes(d, d', p)
  {
    hide Rename, NoLinks, SameBytes, Same;
    RenameFrame(d, tmp, d.names[tmp], [], target);
    var d' := Rename(d, tmp, target);
    forall p | p != tmp && p != target ensures SameBytes(d, d', p) {
      SameIsSameBytes(d, d', p);
    }
  }

  lemma EmptyRemoves(d: Disk, tmp: Path)
    requires NoLinks(d)
    ensures var d' := Remove(d, tmp); NoLinks(d') && tmp !in d'.names && forall p | p != tmp :: SameBytes(d, d', p)
  {
    hide Remove, NoLinks, SameBytes, Same;
    RemoveFrame(d, tmp);
    var d' := Remove(d, tmp);
    forall p | p != tmp ensures SameBytes(d, d', p) {
      SameIsSameBytes(d, d', p);
    }
  }

  /** Any writer's step, seen from the others. */
  lemma TameAct(x: World, w: Writer, ok: bool, amount: nat)
    requires NoLinks(x.disk) && w.tmp != x.target && Tame(x.disk, w)
    ensures var (d, stage) := Act(x, w, ok, amount);
            && NoLinks(d) && Tame(d, w.(stage := stage))
            && (forall p | p != w.tmp && p != x.target :: SameBytes(x.disk, d, p))
            && (stage.Saved? && !w.stage.Saved? ==> Content(d, x.target) == Some(w.content))
            && (!stage.Saved? || w.stage.Saved? ==> SameBytes(x.disk, d, x.target))
            && (w.content == [] ==>
                  SameBytes(x.disk, d, w.tmp) || (w.tmp in d.names ==> Content(d, w.tmp) == Some([])))
  {
    hide NoLinks, Act, Same, SameBytes, OnTrack, Content;
    if w.content == [] {
      EmptyAct(x, w, ok, amount);
    } else {
      ActFrame(x, w, ok, amount);
      var d := Act(x, w, ok, amount).0;
      forall p | Same(x.disk, d, p) ensures SameBytes(x.disk, d, p) {
        SameIsSameBytes(x.disk, d, p);
      }
    }
  }

  lemma OthersTame(d: Disk, d': Disk, v: Writer)
    requires Tame(d, v) && NoLinks(d) && NoLinks(d')
    requires SameBytes(d, d', v.tmp) || (v.content == [] && (v.tmp in d'.names ==> Content(d', v.tmp) == Some([])))
    ensures Tame(d', v)
  {
  }

  lemma CrashedTame(d: Disk, w: Writer)
    ensures Tame(d, w.(stage := Crashed))
  {
  }

  lemma TameStep(before: Option<Bytes>, x: World, c: Choice)
    requires TameSound(before, x)
    ensures TameSound(before, Step(x, c))
  {
    hide NoLinks, Act, SameBytes, Tame, Content, Whole;
    if c.who < |x.writers| {
      var w := x.writers[c.who];
      var y := Step(x, c);
      ApartStays(x, y, c.who);
      match c {
        case Kill(_) =>
          CrashedTame(x.disk, w);
          WholeAfter(before, x, y, c.who);
        case Run(_, ok, amount) =>
          TameAct(x, w, ok, amount);
          var d := Act(x, w, ok, amount).0;
          forall i | 0 <= i < |x.writers| && i != c.who ensures Tame(d, x.writers[i]) {
            OthersTame(x.disk, d, x.writers[i]);
          }
          TargetAfter(before, x, c.who, ok, amount);
      }
    }
  }

  lemma TargetAfter(before: Option<Bytes>, x: World, who: nat, ok: bool, amount: nat)
    requires Whole(before, x) && who < |x.writers|
    requires var w := x.writers[who]; var (d, stage) := Act(x, w, ok, amount);
             && (stage.Saved? && !w.stage.Saved? ==> Content(d, x.target) == Some(w.content))
             && (!stage.Saved? || w.stage.Saved? ==> SameBytes(x.disk, d, x.target))
    ensures Whole(before, Step(x, Run(who, ok, amount)))
  {
    hide Act, Content, Whole;
    var w := x.writers[who];
    var y := Step(x, Run(who, ok, amount));
    var stage := Act(x, w, ok, amount).1;
    if stage.Saved? && !w.stage.Saved? {
      SavedIsWhole(before, y, who);
    } else {
      SavedStays(x, w, ok, amount);
      WholeAfter(before, x, y, who);
    }
  }

  lemma SavedIsWhole(before: Option<Bytes>, y: World, who: nat)
    requires who < |y.writers| && y.writers[who].stage.Saved?
    requires Content(y.disk, y.target) == Some(y.writers[who].content)
    ensures Whole(before, y)
  {
    hide Content;
  }

  lemma ApartStays(x: World, y: World, who: nat)
    requires Apart(x) && who < |x.writers| && y.target == x.target && |y.writers| == |x.writers|
    requires y.writers == x.writers[who := y.writers[who]]
    requires y.writers[who].tmp == x.writers[who].tmp && y.writers[who].content == x.writers[who].content
    ensures Apart(y)
  {
    assert forall i | 0 <= i < |x.writers| ::
      y.writers[i].tmp == x.writers[i].tmp && y.writers[i].content == x.writers[i].content;
  }

  lemma {:induction false} ApartStaysWhole(x: World, cs: seq<Choice>)
    requires Fresh(x) && Apart(x)
    ensures TameSound(Content(x.disk, x.target), RunAll(x, cs))
    decreases |cs|
  {
    hide Step, Apart, Content;
    if cs != [] {
      ApartStaysWhole(x, Init(cs));
      TameStep(Content(x.disk, x.target), RunAll(x, Init(cs)), Last(cs));
    }
  }

  // ---------- and necessary ----------

  lemma {:induction false} RunAppend(x: World, a: seq<Choice>, b: seq<Choice>)
    ensures RunAll(x, a + b) == RunAll(RunAll(x, a), b)
    decreases |b|
  {
    hide Step;
    if b == [] {
      assert a + b == a;
    } else {
      assert Init(a + b) == a + Init(b);
      RunAppend(x, a, Init(b));
    }
  }

  lemma RunTwo(x: World, a: Choice, b: Choice)
    ensures RunAll(x, [a, b]) == Step(Step(x, a), b)
  {
    hide Step;
    assert Init([a, b]) == [a] && Init([a]) == [];
    assert RunAll(x, []) == x;
  }

  /** World `x` with writer `who` at a stage and the disk `d`. */
  function Moved(x: World, d: Disk, who: nat, stage: Stage): World
    requires who < |x.writers|
  {
    x.(disk := d, writers := x.writers[who := x.writers[who].(stage := stage)])
  }

  /** Prepare and open. */
  lemma Opens(x: World, who: nat) returns (cs: seq<Choice>)
    requires who < |x.writers| && x.writers[who].stage.Preparing?
    ensures forall c <- cs :: c.Run? && c.ok
    ensures var (d, fd) := Create(x.disk, x.writers[who].tmp, x.umask);
            RunAll(x, cs) == Moved(x, d, who, Writing(fd, 0))
  {
    hide Create;
    cs := [Run(who, true, 0), Run(who, true, 0)];
    RunTwo(x, cs[0], cs[1]);
  }

  /** Write everything. */
  lemma Writes(x: World, who: nat, fd: nat) returns (cs: seq<Choice>)
    requires who < |x.writers| && x.writers[who].stage == Writing(fd, 0)
    ensures forall c <- cs :: c.Run? && c.ok
    ensures RunAll(x, cs) == Moved(x, Append(x.disk, fd, x.writers[who].content), who, Permitting(fd))
  {
    hide Append;
    var c := x.writers[who].content;
    if c == [] {
      cs := [Run(who, true, 0)];
      AppendNothing(x.disk, fd);
      assert Init(cs) == [] && RunAll(x, []) == x;
    } else {
      cs := [Run(who, true, |c|), Run(who, true, 0)];
      RunTwo(x, cs[0], cs[1]);
      assert c[0..|c|] == c;
    }
  }

  lemma AppendNothing(d: Disk, fd: nat)
    ensures Append(d, fd, []) == d
  {
    if fd < |d.files| {
      assert d.files[fd].bytes + [] == d.files[fd].bytes;
      assert d.files[fd := d.files[fd]] == d.files;
    }
  }

  /** Copy the mode and rename. */
  lemma Installs(x: World, who: nat, fd: nat, bytes: Bytes) returns (cs: seq<Choice>)
    requires NoLinks(x.disk) && who < |x.writers| && x.writers[who].stage == Permitting(fd)
    requires x.writers[who].tmp != x.target && Holds(x.disk, x.writers[who].tmp, fd, bytes)
    ensures forall c <- cs :: c.Run? && c.ok
    ensures var y := RunAll(x, cs);
            && y == Moved(x, y.disk, who, Saved) && Content(y.disk, x.target) == Some(bytes)
            && x.writers[who].tmp !in y.disk.names
  {
    hide CopyMode, Rename, NoLinks;
    cs := [Run(who, true, 0), Run(who, true, 0)];
    RunTwo(x, cs[0], cs[1]);
    var tmp := x.writers[who].tmp;
    CopyModeFrame(x.disk, tmp, fd, bytes, x.target);
    RenameFrame(CopyMode(x.disk, fd, x.target), tmp, fd, bytes, x.target);
  }

  /** The target holds bytes that nobody who succeeded wrote. */
  lemma TornIf(x: World, y: World, cs: seq<Choice>, bytes: Option<Bytes>)
    requires y == RunAll(x, cs) && y.target == x.target && Content(y.disk, y.target) == bytes
    requires bytes != Content(x.disk, x.target)
    requires forall i | 0 <= i < |y.writers| && y.writers[i].stage.Saved? :: bytes != Some(y.writers[i].content)
    ensures !Whole(Content(x.disk, x.target), RunAll(x, cs))
  {
    hide Content, RunAll;
  }

  /** The temporary name is the target: opening or giving up destroys it. */
  lemma TargetTorn(x: World, i: nat) returns (cs: seq<Choice>)
    requires Fresh(x) && i < |x.writers| && x.writers[i].tmp == x.target
    ensures !Whole(Content(x.disk, x.target), RunAll(x, cs))
  {
    hide RunAll, Create, Remove;
    if x.target in x.disk.names {
      cs := [Run(i, true, 0), Run(i, false, 0)] + [Run(i, true, 0)];
      RunAppend(x, cs[..2], cs[2..]);
      assert cs[..2] == [Run(i, true, 0), Run(i, false, 0)] && cs[2..] == [Run(i, true, 0)];
      RunTwo(x, cs[0], cs[1]);
      var y := RunAll(x, cs[..2]);
      OneStep(y, cs[2]);
      RemoveFrame(x.disk, x.target);
      TornIf(x, RunAll(x, cs), cs, None);
    } else {
      cs := Opens(x, i);
      CreateFrame(x.disk, x.target, x.umask);
      TornIf(x, RunAll(x, cs), cs, Some([]));
    }
  }

  lemma OneStep(x: World, c: Choice)
    ensures RunAll(x, [c]) == Step(x, c)
  {
    hide Step;
    assert Init([c]) == [] && RunAll(x, []) == x;
  }

  /** Two writers that share a temporary name: the first writes all, the second truncates the
      file, and the first installs it empty. Every step succeeds, the first reports success, the
      target holds nobody's content, and the second has lost its file: its rename must fail. */
  lemma SharedNameTears(x: World, a: nat, b: nat) returns (cs: seq<Choice>)
    requires Fresh(x) && a < |x.writers| && b < |x.writers| && a != b && x.writers[a].content != []
    requires x.writers[a].tmp == x.writers[b].tmp != x.target && Content(x.disk, x.target) != Some([])
    ensures !Whole(Content(x.disk, x.target), RunAll(x, cs))
    ensures forall c <- cs :: c.Run? && c.ok
    ensures var y := RunAll(x, cs);
            && |y.writers| == |x.writers| && y.writers[a].stage.Saved? && y.writers[b].stage.Writing?
            && Content(y.disk, x.target) == Some([]) && y.writers[b].tmp !in y.disk.names
  {
    hide RunAll, Create, Append, NoLinks, Moved, Content;
    var tmp, c := x.writers[a].tmp, x.writers[a].content;
    var c1 := Opens(x, a);
    CreateFrame(x.disk, tmp, x.umask);
    var x1 := RunAll(x, c1);
    var fd := Create(x.disk, tmp, x.umask).1;
    MovedIs(x, Create(x.disk, tmp, x.umask).0, a, Writing(fd, 0));
    var c2 := Writes(x1, a, fd);
    AppendFrame(x1.disk, tmp, fd, [], c);
    var x2 := RunAll(x1, c2);
    MovedIs(x1, Append(x1.disk, fd, c), a, Permitting(fd));
    var c3 := Opens(x2, b);
    CreateFrame(x2.disk, tmp, x.umask);
    TruncatesSame(x2.disk, tmp, x.umask);
    var x3 := RunAll(x2, c3);
    MovedIs(x2, Create(x2.disk, tmp, x.umask).0, b, Writing(fd, 0));
    var c4 := Installs(x3, a, fd, []);
    var x4 := RunAll(x3, c4);
    MovedIs(x3, x4.disk, a, Saved);
    cs := c1 + c2 + c3 + c4;
    RunAppend(x, c1 + c2 + c3, c4);
    RunAppend(x, c1 + c2, c3);
    RunAppend(x, c1, c2);
    TornIf(x, x4, cs, Some([]));
  }

  /** `b` opens, `a` opens and writes all, `b` writes after it and installs both contents. */
  lemma MixedTorn(x: World, a: nat, b: nat) returns (cs: seq<Choice>)
    requires Fresh(x) && a < |x.writers| && b < |x.writers| && a != b && x.writers[a].content != []
    requires x.writers[a].tmp == x.writers[b].tmp != x.target && Content(x.disk, x.target) == Some([])
    ensures !Whole(Content(x.disk, x.target), RunAll(x, cs)) && forall c <- cs :: c.Run? && c.ok
  {
    hide RunAll, Create, Append, NoLinks, Moved, Content;
    var tmp, ca, cb := x.writers[a].tmp, x.writers[a].content, x.writers[b].content;
    var c1 := Opens(x, b);
    CreateFrame(x.disk, tmp, x.umask);
    var x1 := RunAll(x, c1);
    var fd := Create(x.disk, tmp, x.umask).1;
    MovedIs(x, Create(x.disk, tmp, x.umask).0, b, Writing(fd, 0));
    var c2 := Opens(x1, a);
    CreateFrame(x1.disk, tmp, x.umask);
    TruncatesSame(x1.disk, tmp, x.umask);
    var x2 := RunAll(x1, c2);
    MovedIs(x1, Create(x1.disk, tmp, x.umask).0, a, Writing(fd, 0));
    var c3 := Writes(x2, a, fd);
    AppendFrame(x2.disk, tmp, fd, [], ca);
    var x3 := RunAll(x2, c3);
    MovedIs(x2, Append(x2.disk, fd, ca), a, Permitting(fd));
    assert [] + ca == ca;
    var c4 := Writes(x3, b, fd);
    AppendFrame(x3.disk, tmp, fd, ca, cb);
    var x4 := RunAll(x3, c4);
    MovedIs(x3, Append(x3.disk, fd, cb), b, Permitting(fd));
    var c5 := Installs(x4, b, fd, ca + cb);
    var x5 := RunAll(x4, c5);
    MovedIs(x4, x5.disk, b, Saved);
    cs := c1 + c2 + c3 + c4 + c5;
    RunAppend(x, c1 + c2 + c3 + c4, c5);
    RunAppend(x, c1 + c2 + c3, c4);
    RunAppend(x, c1 + c2, c3);
    RunAppend(x, c1, c2);
    assert |ca + cb| > |cb|;
    TornIf(x, x5, cs, Some(ca + cb));
  }

  lemma TruncatesSame(d: Disk, tmp: Path, umask: nat)
    requires tmp in d.names && d.names[tmp] < |d.files|
    ensures Create(d, tmp, umask).1 == d.names[tmp]
  {
  }

  lemma MovedIs(x: World, d: Disk, who: nat, stage: Stage)
    requires who < |x.writers|
    ensures var y := Moved(x, d, who, stage);
            && y.disk == d && y.target == x.target && y.umask == x.umask && |y.writers| == |x.writers|
            && y.writers[who] == x.writers[who].(stage := stage)
            && forall i | 0 <= i < |x.writers| && i != who :: y.writers[i] == x.writers[i]
  {
  }

  /** Names that are not apart: a schedule in which every step succeeds, or one that gives up,
      after which the target is neither what it was nor what a successful writer wrote. */
  lemma NotApartTorn(x: World) returns (cs: seq<Choice>)
    requires Fresh(x) && !Apart(x)
    ensures !Whole(Content(x.disk, x.target), RunAll(x, cs))
  {
    hide RunAll, Content, NoLinks, Whole;
    if i :| 0 <= i < |x.writers| && x.writers[i].tmp == x.target {
      cs := TargetTorn(x, i);
    } else {
      var i, j :| 0 <= i < j < |x.writers| && x.writers[i].tmp == x.writers[j].tmp
                  && (x.writers[i].content != [] || x.writers[j].content != []);
      var a, b := if x.writers[i].content != [] then i else j, if x.writers[i].content != [] then j else i;
      if Content(x.disk, x.target) == Some([]) {
        cs := MixedTorn(x, a, b);
      } else {
        cs := SharedNameTears(x, a, b);
      }
    }
  }

  /** From writers that have not started, whatever their names and contents: every schedule
      keeps the target whole if and only if no temporary name is the target and only writers
      of nothing share one. */
  lemma WholeExactly(x: World)
    requires Fresh(x)
    ensures StaysWhole(x) <==> Apart(x)
  {
    hide RunAll, Content, NoLinks, Whole, Apart;
    if Apart(x) {
      forall cs ensures Whole(Content(x.disk, x.target), RunAll(x, cs)) {
        ApartStaysWhole(x, cs);
      }
    } else {
      var cs := NotApartTorn(x);
    }
  }

  /** When every writer has something to write, names of their own are exactly what it takes. */
  lemma OwnNamesExactly(x: World)
    requires Fresh(x) && forall i | 0 <= i < |x.writers| :: x.writers[i].content != []
    ensures StaysWhole(x) <==> OwnNames(x)
  {
    hide StaysWhole, Fresh;
    WholeExactly(x);
  }
}

/** Saving a file by writing a temporary one and renaming it (src/atomic_io.rs), as steps of
    any number of writers that interleave, fail and crash at will. */
module AtomicSave {
  import opened Wrappers

  type Path = string
  type Bytes = seq<bv8>

  datatype File = File(bytes: Bytes, mode: nat)

  /** Names point to files; a renamed file keeps its identity. */
  datatype Disk = Disk(names: map<Path, nat>, files: seq<File>)

  /** Where a writer stands. `fd` is the temporary file it has open or has closed. */
  datatype Stage =
    | Preparing
    | Opening
    | Writing(fd: nat, n: nat)
    | Permitting(fd: nat)
    | Renaming(fd: nat)
    | Removing
    | Saved
    | Failed
    | Crashed

  datatype Writer = Writer(tmp: Path, content: Bytes, stage: Stage)

  datatype World = World(target: Path, umask: nat, disk: Disk, writers: seq<Writer>)

  /** The scheduler lets a writer take its next step, which succeeds or not (a write moves
      `amount` more bytes at most), or kills it. */
  datatype Choice = Run(who: nat, ok: bool, amount: nat) | Kill(who: nat)

  function Min(a: nat, b: nat): nat { if a <= b then a else b }

  /** Create or truncate the temporary file. */
  function Create(d: Disk, tmp: Path, umask: nat): (r: (Disk, nat)) {
    if tmp in d.names && d.names[tmp] < |d.files| then
      var fd := d.names[tmp];
      (d.(files := d.files[fd := d.files[fd].(bytes := [])]), fd)
    else
      var fd := |d.files|;
      (Disk(d.names[tmp := fd], d.files + [File([], umask)]), fd)
  }

  function Append(d: Disk, fd: nat, more: Bytes): Disk {
    if fd < |d.files| then d.(files := d.files[fd := d.files[fd].(bytes := d.files[fd].bytes + more)]) else d
  }

  /** Give the temporary file the mode of the target, if there is one. */
  function CopyMode(d: Disk, fd: nat, target: Path): Disk {
    if target in d.names && d.names[target] < |d.files| && fd < |d.files| then
      d.(files := d.files[fd := d.files[fd].(mode := d.files[d.names[target]].mode)])
    else d
  }

  function Rename(d: Disk, tmp: Path, target: Path): Disk
    requires tmp in d.names
  {
    var file := d.names[tmp];
    d.(names := (map p | p in d.names && p != tmp :: d.names[p])[target := file])
  }

  function Remove(d: Disk, p: Path): Disk {
    d.(names := map q | q in d.names && q != p :: d.names[q])
  }

  /** One step of one writer: its disk and its next stage. */
  function Act(x: World, w: Writer, ok: bool, amount: nat): (Disk, Stage) {
    match w.stage
    case Preparing => (x.disk, if ok then Opening else Failed)
    case Opening =>
      if ok then var (d, fd) := Create(x.disk, w.tmp, x.umask); (d, Writing(fd, 0)) else (x.disk, Removing)
    case Writing(fd, n) =>
      if !ok then (x.disk, Removing)
      else if n >= |w.content| then (x.disk, Permitting(fd))
      else
        var m := Min(n + amount, |w.content|);
        (Append(x.disk, fd, w.content[n..m]), Writing(fd, m))
    case Permitting(fd) => (if ok then CopyMode(x.disk, fd, x.target) else x.disk, Renaming(fd))
    case Renaming(fd) =>
      if ok && w.tmp in x.disk.names then (Rename(x.disk, w.tmp, x.target), Saved) else (x.disk, Removing)
    case Removing => (if ok then Remove(x.disk, w.tmp) else x.disk, Failed)
    case _ => (x.disk, w.stage)
  }

  function Step(x: World, c: Choice): World {
    if c.who >= |x.writers| then x
    else
      var w := x.writers[c.who];
      match c
      case Kill(_) =>
        if w.stage.Saved? || w.stage.Failed? then x
        else x.(writers := x.writers[c.who := w.(stage := Crashed)])
      case Run(_, ok, amount) =>
        var (d, stage) := Act(x, w, ok, amount);
        x.(disk := d, writers := x.writers[c.who := w.(stage := stage)])
  }

  function RunAll(x: World, cs: seq<Choice>): World
    decreases |cs|
  {
    if cs == [] then x else Step(RunAll(x, Init(cs)), Last(cs))
  }

  // ---------- what every interleaving keeps ----------

  /** The content under a name. */
  function Content(d: Disk, p: Path): Option<Bytes> {
    if p in d.names && d.names[p] < |d.files| then Some(d.files[d.names[p]].bytes) else None
  }

  /** No two names for one file. */
  predicate NoLinks(d: Disk) {
    && (forall p <- d.names :: d.names[p] < |d.files|)
    && (forall p, q | p in d.names && q in d.names && p != q :: d.names[p] != d.names[q])
  }

  /** Every writer has a temporary name of its own, different from the target. */
  predicate OwnNames(x: World) {
    && (forall i | 0 <= i < |x.writers| :: x.writers[i].tmp != x.target)
    && (forall i, j | 0 <= i < j < |x.writers| :: x.writers[i].tmp != x.writers[j].tmp)
  }

  /** A writer's temporary file holds exactly what it has written so far. */
  predicate OnTrack(d: Disk, w: Writer) {
    match w.stage
    case Writing(fd, n) => n <= |w.content| && Holds(d, w.tmp, fd, w.content[..n])
    case Permitting(fd) => Holds(d, w.tmp, fd, w.content)
    case Renaming(fd) => Holds(d, w.tmp, fd, w.content)
    case _ => true
  }

  predicate Holds(d: Disk, p: Path, fd: nat, bytes: Bytes) {
    p in d.names && d.names[p] == fd && fd < |d.files| && d.files[fd].bytes == bytes
  }

  /** The target holds what it held at first, or all of what a successful writer saved. */
  predicate Whole(before: Option<Bytes>, x: World) {
    || Content(x.disk, x.target) == before
    || exists i ::
         && 0 <= i < |x.writers| && x.writers[i].stage.Saved?
         && Content(x.disk, x.target) == Some(x.writers[i].content)
  }

  predicate Sound(before: Option<Bytes>, x: World) {
    && NoLinks(x.disk) && OwnNames(x) && Whole(before, x)
    && forall i | 0 <= i < |x.writers| :: OnTrack(x.disk, x.writers[i])
  }

  /** The name `p` means the same file with the same content and mode. */
  predicate Same(d: Disk, d': Disk, p: Path) {
    && (p in d'.names <==> p in d.names)
    && (p in d.names && d.names[p] < |d.files| ==>
          d'.names[p] == d.names[p] && d.names[p] < |d'.files| && d'.files[d.names[p]] == d.files[d.names[p]])
  }

  ghost predicate OnlyTouches(d: Disk, d': Disk, tmp: Path) {
    forall p | p != tmp :: Same(d, d', p)
  }

  lemma CreateFrame(d: Disk, tmp: Path, umask: nat)
    requires NoLinks(d)
    ensures var (d', fd) := Create(d, tmp, umask); NoLinks(d') && OnlyTouches(d, d', tmp) && Holds(d', tmp, fd, [])
  {
  }

  lemma AppendFrame(d: Disk, tmp: Path, fd: nat, bytes: Bytes, more: Bytes)
    requires NoLinks(d) && Holds(d, tmp, fd, bytes)
    ensures var d' := Append(d, fd, more); NoLinks(d') && OnlyTouches(d, d', tmp) && Holds(d', tmp, fd, bytes + more)
  {
  }

  lemma CopyModeFrame(d: Disk, tmp: Path, fd: nat, bytes: Bytes, target: Path)
    requires NoLinks(d) && Holds(d, tmp, fd, bytes)
    ensures var d' := CopyMode(d, fd, target); NoLinks(d') && OnlyTouches(d, d', tmp) && Holds(d', tmp, fd, bytes)
  {
  }

  lemma RemoveFrame(d: Disk, tmp: Path)
    requires NoLinks(d)
    ensures var d' := Remove(d, tmp); NoLinks(d') && OnlyTouches(d, d', tmp) && tmp !in d'.names
  {
  }

  lemma RenameFrame(d: Disk, tmp: Path, fd: nat, bytes: Bytes, target: Path)
    requires NoLinks(d) && Holds(d, tmp, fd, bytes) && tmp != target
    ensures var d' := Rename(d, tmp, target);
            && NoLinks(d') && Content(d', target) == Some(bytes) && tmp !in d'.names
            && forall p | p != tmp && p != target :: Same(d, d', p)
  {
  }

  /** A writer's step touches only its own temporary name and, by a rename, the target. */
  lemma ActFrame(x: World, w: Writer, ok: bool, amount: nat)
    requires NoLinks(x.disk) && w.tmp != x.target && OnTrack(x.disk, w)
    ensures var (d, stage) := Act(x, w, ok, amount);
            && NoLinks(d) && OnTrack(d, w.(stage := stage))
            && (forall p | p != w.tmp && p != x.target :: Same(x.disk, d, p))
            && (stage.Saved? && !w.stage.Saved? ==> Content(d, x.target) == Some(w.content))
            && (!stage.Saved? || w.stage.Saved? ==> Same(x.disk, d, x.target))
  {
    hide NoLinks, Create, Append, CopyMode, Remove, Rename, Same;
    var d := x.disk;
    forall p ensures Same(d, d, p) { SameRefl(d, p); }
    match w.stage {
      case Opening => CreateFrame(d, w.tmp, x.umask);
      case Writing(fd, n) =>
        assert w.content[..|w.content|] == w.content;
        if n < |w.content| {
          var m := Min(n + amount, |w.content|);
          AppendFrame(d, w.tmp, fd, w.content[..n], w.content[n..m]);
          assert w.content[..n] + w.content[n..m] == w.content[..m];
        }
      case Permitting(fd) => CopyModeFrame(d, w.tmp, fd, w.content, x.target);
      case Renaming(fd) => RenameFrame(d, w.tmp, fd, w.content, x.target);
      case Removing => RemoveFrame(d, w.tmp);
      case _ =>
    }
  }

  lemma SameRefl(d: Disk, p: Path)
    ensures Same(d, d, p)
  {
  }

  lemma OthersOnTrack(d: Disk, d': Disk, v: Writer)
    requires OnTrack(d, v) && Same(d, d', v.tmp)
    ensures OnTrack(d', v)
  {
  }

  lemma SameContent(d: Disk, d': Disk, p: Path)
    requires Same(d, d', p) && NoLinks(d)
    ensures Content(d', p) == Content(d, p)
  {
  }

  lemma StepSound(before: Option<Bytes>, x: World, c: Choice)
    requires Sound(before, x)
    ensures Sound(before, Step(x, c))
  {
    hide NoLinks, Act, Same, OnTrack, Content;
    if c.who < |x.writers| {
      var w := x.writers[c.who];
      var y := Step(x, c);
      match c {
        case Kill(_) =>
          CrashedOnTrack(x.disk, w);
          WholeAfter(before, x, y, c.who);
        case Run(_, ok, amount) =>
          ActFrame(x, w, ok, amount);
          var (d, stage) := Act(x, w, ok, amount);
          forall i | 0 <= i < |x.writers| && i != c.who ensures OnTrack(d, x.writers[i]) {
            OthersOnTrack(x.disk, d, x.writers[i]);
          }
          if stage.Saved? && !w.stage.Saved? {
            assert y.writers[c.who].stage.Saved? && Content(y.disk, y.target) == Some(y.writers[c.who].content);
          } else {
            SameContent(x.disk, d, x.target);
            SavedStays(x, w, ok, amount);
            WholeAfter(before, x, y, c.who);
          }
      }
    }
  }

  lemma CrashedOnTrack(d: Disk, w: Writer)
    ensures OnTrack(d, w.(stage := Crashed))
  {
  }

  lemma SavedStays(x: World, w: Writer, ok: bool, amount: nat)
    ensures w.stage.Saved? ==> Act(x, w, ok, amount).1.Saved?
  {
  }

  lemma WholeAfter(before: Option<Bytes>, x: World, y: World, who: nat)
    requires Whole(before, x) && who < |x.writers| && y.target == x.target
    requires Content(y.disk, y.target) == Content(x.disk, x.target)
    requires |y.writers| == |x.writers| && y.writers == x.writers[who := y.writers[who]]
    requires y.writers[who].content == x.writers[who].content
             && (x.writers[who].stage.Saved? ==> y.writers[who].stage.Saved?)
    ensures Whole(before, y)
  {
    hide Content;
    if Content(x.disk, x.target) != before {
      var i :| 0 <= i < |x.writers| && x.writers[i].stage.Saved?
        && Content(x.disk, x.target) == Some(x.writers[i].content);
      assert y.writers[i].stage.Saved?;
    }
  }

  /** Nobody has started yet. */
  predicate Initial(x: World) {
    && NoLinks(x.disk) && OwnNames(x)
    && forall i | 0 <= i < |x.writers| :: x.writers[i].stage.Preparing?
  }

  /** Under every schedule, with every failure, partial write and crash, the target always
      holds its first content or the whole content of a writer that succeeded. */
  lemma {:induction false} AlwaysWhole(x: World, cs: seq<Choice>)
    requires Initial(x)
    ensures Sound(Content(x.disk, x.target), RunAll(x, cs))
    decreases |cs|
  {
    hide Step;
    if cs != [] {
      AlwaysWhole(x, Init(cs));
      StepSound(Content(x.disk, x.target), RunAll(x, Init(cs)), Last(cs));
    }
  }

  /** A writer that is about to rename always finds its own file, and the rename puts exactly
      its content in place: nobody else's steps can disturb it. */
  lemma RenameUndisturbed(x: World, cs: seq<Choice>, who: nat, amount: nat)
    requires Initial(x) && who < |x.writers| && who < |RunAll(x, cs).writers|
    requires RunAll(x, cs).writers[who].stage.Renaming?
    ensures var y := RunAll(x, cs + [Run(who, true, amount)]);
            && who < |y.writers| && y.writers[who].stage.Saved?
            && Content(y.disk, x.target) == Some(x.writers[who].content)
  {
    hide NoLinks, Act, Same, Content;
    AlwaysWhole(x, cs);
    WritersStay(x, cs);
    assert Init(cs + [Run(who, true, amount)]) == cs;
    var y := RunAll(x, cs);
    ActFrame(y, y.writers[who], true, amount);
    RenameSucceeds(y, y.writers[who], amount);
  }

  lemma RenameSucceeds(x: World, w: Writer, amount: nat)
    requires w.stage.Renaming? && OnTrack(x.disk, w)
    ensures Act(x, w, true, amount).1.Saved?
  {
  }

  /** Writers keep their names and contents. */
  lemma {:induction false} WritersStay(x: World, cs: seq<Choice>)
    ensures var y := RunAll(x, cs);
            && y.target == x.target && y.umask == x.umask && |y.writers| == |x.writers|
            && forall i | 0 <= i < |x.writers| ::
              y.writers[i].content == x.writers[i].content && y.writers[i].tmp == x.writers[i].tmp
    decreases |cs|
  {
    hide Act;
    if cs != [] {
      WritersStay(x, Init(cs));
    }
  }

  // ---------- the mode of the target ----------

  function Mode(d: Disk, p: Path): Option<nat> {
    if p in d.names && d.names[p] < |d.files| then Some(d.files[d.names[p]].mode) else None
  }

  /** No step that copies the mode fails. */
  predicate ModesCopied(x: World, c: Choice) {
    c.Run? && c.who < |x.writers| && x.writers[c.who].stage.Permitting? ==> c.ok
  }

  ghost predicate AllModesCopied(x: World, cs: seq<Choice>) {
    forall n | 0 <= n < |cs| :: ModesCopied(RunAll(x, cs[..n]), cs[n])
  }

  /** The target has mode `m`, and so has every file about to replace it. */
  predicate ModeKept(m: nat, x: World) {
    && Mode(x.disk, x.target) == Some(m)
    && forall i | 0 <= i < |x.writers| && x.writers[i].stage.Renaming? :: Mode(x.disk, x.writers[i].tmp) == Some(m)
  }

  lemma ActMode(m: nat, x: World, w: Writer, ok: bool, amount: nat)
    requires NoLinks(x.disk) && w.tmp != x.target && OnTrack(x.disk, w) && Mode(x.disk, x.target) == Some(m)
    requires w.stage.Permitting? ==> ok
    requires w.stage.Renaming? ==> Mode(x.disk, w.tmp) == Some(m)
    ensures var (d, stage) := Act(x, w, ok, amount);
            Mode(d, x.target) == Some(m) && (stage.Renaming? ==> Mode(d, w.tmp) == Some(m))
  {
    hide NoLinks, Same, Act;
    ActFrame(x, w, ok, amount);
    match w.stage {
      case Permitting(fd) => CopiedMode(x, w, fd, amount);
      case Renaming(fd) => RenamedMode(m, x, w, ok, amount);
      case _ =>
        PlainStage(x, w, ok, amount);
        SameMode(x.disk, Act(x, w, ok, amount).0, x.target);
    }
  }

  lemma PlainStage(x: World, w: Writer, ok: bool, amount: nat)
    requires !w.stage.Permitting? && !w.stage.Renaming?
    ensures !Act(x, w, ok, amount).1.Renaming?
    ensures Act(x, w, ok, amount).1.Saved? <==> w.stage.Saved?
  {
  }

  lemma CopiedMode(x: World, w: Writer, fd: nat, amount: nat)
    requires NoLinks(x.disk) && w.tmp != x.target && OnTrack(x.disk, w) && w.stage == Permitting(fd)
    requires Mode(x.disk, x.target).Some?
    ensures var (d, stage) := Act(x, w, true, amount);
            && Mode(d, x.target) == Mode(x.disk, x.target) && Mode(d, w.tmp) == Mode(x.disk, x.target)
  {
  }

  lemma RenamedMode(m: nat, x: World, w: Writer, ok: bool, amount: nat)
    requires NoLinks(x.disk) && w.tmp != x.target && OnTrack(x.disk, w) && w.stage.Renaming?
    requires Mode(x.disk, x.target) == Some(m) && Mode(x.disk, w.tmp) == Some(m)
    ensures var (d, stage) := Act(x, w, ok, amount); Mode(d, x.target) == Some(m) && !stage.Renaming?
  {
  }

  lemma SameMode(d: Disk, d': Disk, p: Path)
    requires Same(d, d', p) && NoLinks(d)
    ensures Mode(d', p) == Mode(d, p)
  {
  }

  /** If the target exists and no mode copy fails, its mode never changes: saving does not
      let the default mode of new files through. */
  lemma {:induction false} ModePreserved(x: World, cs: seq<Choice>, m: nat)
    requires Initial(x) && Mode(x.disk, x.target) == Some(m) && AllModesCopied(x, cs)
    ensures ModeKept(m, RunAll(x, cs))
    decreases |cs|
  {
    hide Step, ModesCopied, Mode;
    if cs != [] {
      var n := |cs| - 1;
      assert cs[..n] == Init(cs);
      assert ModesCopied(RunAll(x, cs[..n]), cs[n]);
      forall k | 0 <= k < n ensures ModesCopied(RunAll(x, Init(cs)[..k]), Init(cs)[k]) {
        assert Init(cs)[..k] == cs[..k];
      }
      ModePreserved(x, Init(cs), m);
      AlwaysWhole(x, Init(cs));
      StepMode(m, Content(x.disk, x.target), RunAll(x, Init(cs)), Last(cs));
    }
  }

  lemma StepMode(m: nat, before: Option<Bytes>, x: World, c: Choice)
    requires Sound(before, x) && ModeKept(m, x) && ModesCopied(x, c)
    ensures ModeKept(m, Step(x, c))
  {
    hide NoLinks, Act, Same, OnTrack, Content, Mode, Whole;
    if c.who < |x.writers| && c.Run? {
      var w := x.writers[c.who];
      ActMode(m, x, w, c.ok, c.amount);
      ActFrame(x, w, c.ok, c.amount);
      var d := Act(x, w, c.ok, c.amount).0;
      forall i | 0 <= i < |x.writers| && i != c.who && x.writers[i].stage.Renaming?
        ensures Mode(d, x.writers[i].tmp) == Some(m)
      {
        SameMode(x.disk, d, x.writers[i].tmp);
      }
    }
  }

  // ---------- the code takes these steps ----------

  /** Which system calls succeed, and how much each write takes. */
  datatype Luck = Luck(prepare: bool, create: bool, writes: seq<nat>, full: bool, chmod: bool, rename: bool,
                       remove: bool)

  function Sum(ns: seq<nat>): nat {
    if ns == [] then 0 else Sum(Init(ns)) + Last(ns)
  }

  /** Every write takes something until `size` bytes are written; after the listed ones, one
      more takes all the rest or nothing. */
  ghost predicate Finishes(size: nat, writes: seq<nat>, full: bool) {
    exists k | 0 <= k <= |writes| ::
      && (forall i | 0 <= i < k :: writes[i] > 0)
      && (Sum(writes[..k]) >= size || (k == |writes| && full))
  }

  /** Every step that a save cannot do without succeeds. */
  ghost predicate Succeeds(luck: Luck, size: nat) {
    luck.prepare && luck.create && Finishes(size, luck.writes, luck.full) && luck.rename
  }

  lemma SumSnoc(writes: seq<nat>, i: nat)
    requires i < |writes|
    ensures Sum(writes[..i + 1]) == Sum(writes[..i]) + writes[i]
  {
    assert Init(writes[..i + 1]) == writes[..i];
  }

  lemma {:induction false} SumGrows(writes: seq<nat>, i: nat, k: nat)
    requires i <= k <= |writes|
    ensures Sum(writes[..i]) <= Sum(writes[..k])
  {
    if i < k {
      SumGrows(writes, i, k - 1);
      SumSnoc(writes, k - 1);
    }
  }

  lemma NothingSummed(writes: seq<nat>)
    ensures Sum(writes[..0]) == 0
  {
  }

  /** All bytes are written when the loop ends there. */
  lemma FinishesHere(size: nat, writes: seq<nat>, full: bool, i: nat)
    requires i <= |writes| && forall j | 0 <= j < i :: writes[j] > 0
    requires Sum(writes[..i]) >= size || (i == |writes| && full)
    ensures Finishes(size, writes, full)
  {
  }

  /** A write of nothing while bytes are left ends the save. */
  lemma FailsHere(size: nat, writes: seq<nat>, full: bool, i: nat)
    requires i <= |writes| && Sum(writes[..i]) < size && (if i < |writes| then writes[i] == 0 else !full)
    ensures !Finishes(size, writes, full)
  {
    if Finishes(size, writes, full) {
      var k :| 0 <= k <= |writes| && (forall j | 0 <= j < k :: writes[j] > 0)
            && (Sum(writes[..k]) >= size || (k == |writes| && full));
      if k <= i {
        SumGrows(writes, k, i);
      }
    }
  }

  /** Only the bytes of one file have changed. */
  predicate Lengthened(d: Disk, d': Disk, fd: nat) {
    && d'.names == d.names && |d'.files| == |d.files|
    && forall k | 0 <= k < |d.files| ::
         d'.files[k].mode == d.files[k].mode && (k != fd ==> d'.files[k] == d.files[k])
  }

  lemma LengthenedNot(d: Disk, fd: nat)
    ensures Lengthened(d, d, fd)
  {
  }

  lemma LengthenedTwice(d: Disk, d': Disk, d'': Disk, fd: nat)
    requires Lengthened(d, d', fd) && Lengthened(d', d'', fd)
    ensures Lengthened(d, d'', fd)
  {
  }

  lemma AppendLengthens(d: Disk, tmp: Path, fd: nat, bytes: Bytes, more: Bytes)
    requires Holds(d, tmp, fd, bytes)
    ensures Lengthened(d, Append(d, fd, more), fd) && Holds(Append(d, fd, more), tmp, fd, bytes + more)
  {
  }

  /** The temporary file created and, as far as it went, filled. */
  predicate Prepared(d: Disk, tmp: Path, umask: nat, fd: nat, d': Disk) {
    Create(d, tmp, umask).1 == fd && Lengthened(Create(d, tmp, umask).0, d', fd)
  }

  function Permit(d: Disk, fd: nat, target: Path, chmod: bool): Disk {
    if chmod then CopyMode(d, fd, target) else d
  }

  lemma PermitKeepsNames(d: Disk, fd: nat, target: Path, chmod: bool)
    ensures Permit(d, fd, target, chmod).names == d.names
  {
  }

  lemma PreparedName(d: Disk, tmp: Path, umask: nat, fd: nat, d': Disk, target: Path, chmod: bool)
    requires Prepared(d, tmp, umask, fd, d')
    ensures tmp in d'.names && tmp in Permit(d', fd, target, chmod).names
  {
  }

  /** What a save that succeeds leaves behind. */
  lemma Installed(d: Disk, tmp: Path, umask: nat, fd: nat, d': Disk, content: Bytes, target: Path, chmod: bool)
    requires Prepared(d, tmp, umask, fd, d') && Holds(d', tmp, fd, content)
    ensures tmp in Permit(d', fd, target, chmod).names
    ensures var r := Rename(Permit(d', fd, target, chmod), tmp, target);
            && Content(r, target) == Some(content) && (tmp != target ==> tmp !in r.names)
            && (chmod && Mode(d, target).Some? ==> Mode(r, target) == Mode(d, target))
            && (Mode(d, tmp).None? && (!chmod || Mode(d, target).None?) ==> Mode(r, target) == Some(umask))
  {
  }

  /** Until the rename only the temporary name is touched. */
  lemma Untouched(d: Disk, tmp: Path, umask: nat, fd: nat, d': Disk, target: Path, chmod: bool, p: Path)
    requires NoLinks(d) && Prepared(d, tmp, umask, fd, d') && p != tmp
    ensures Same(d, Permit(d', fd, target, chmod), p)
  {
  }

  lemma UntouchedAfter(d: Disk, d': Disk, tmp: Path, target: Path, p: Path)
    requires Same(d, d', p) && p != tmp
    ensures Same(d, Remove(d', tmp), p)
    ensures tmp in d'.names && p != target ==> Same(d, Rename(d', tmp, target), p)
    ensures tmp !in Remove(d', tmp).names
  {
  }

  /** What a save that fails after the directories are there leaves behind. */
  lemma GivenUp(d: Disk, tmp: Path, umask: nat, fd: nat, d': Disk, target: Path, chmod: bool, remove: bool)
    requires Prepared(d, tmp, umask, fd, d')
    ensures var left := Permit(d', fd, target, chmod);
            var r := if remove then Remove(left, tmp) else left;
            && (remove ==> tmp !in r.names)
            && (NoLinks(d) ==> forall p | p != tmp :: Same(d, r, p))
  {
    hide Permit, Same, NoLinks, Remove, Prepared;
    var left := Permit(d', fd, target, chmod);
    var r := if remove then Remove(left, tmp) else left;
    if NoLinks(d) {
      forall p | p != tmp ensures Same(d, r, p) {
        Untouched(d, tmp, umask, fd, d', target, chmod, p);
        UntouchedAfter(d, left, tmp, target, p);
      }
    }
    RemovedName(left, tmp);
  }

  lemma CreatedHolds(d: Disk, tmp: Path, umask: nat)
    ensures var (d', fd) := Create(d, tmp, umask); Holds(d', tmp, fd, [])
  {
  }

  lemma NeverOpened(d: Disk, tmp: Path)
    ensures forall p :: Same(d, d, p)
    ensures tmp !in Remove(d, tmp).names
    ensures forall p | p != tmp :: Same(d, Remove(d, tmp), p)
  {
  }

  lemma RemovedName(d: Disk, tmp: Path)
    ensures tmp !in Remove(d, tmp).names
  {
  }

  lemma RunMore(x: World, cs: seq<Choice>, c: Choice)
    ensures RunAll(x, cs + [c]) == Step(RunAll(x, cs), c)
  {
  }

  lemma RunNothing(x: World)
    ensures RunAll(x, []) == x
  {
  }

  class Volume {
    var disk: Disk
    const target: Path
    const umask: nat

    constructor (target: Path, umask: nat, disk: Disk)
      ensures this.target == target && this.umask == umask && this.disk == disk
    {
      this.target, this.umask, this.disk := target, umask, disk;
    }

    /** This writer alone, at a stage. */
    ghost function Alone(tmp: Path, content: Bytes, stage: Stage): World
      reads this
    {
      World(target, umask, disk, [Writer(tmp, content, stage)])
    }

    /** Write until all is written; a write of nothing is an error. */
    method WriteAll(fd: nat, tmp: Path, content: Bytes, writes: seq<nat>, full: bool, ghost x: World,
                    ghost cs: seq<Choice>)
      returns (ok: bool, ghost more: seq<Choice>)
      requires RunAll(x, cs) == Alone(tmp, content, Writing(fd, 0)) && Holds(disk, tmp, fd, [])
      modifies this
      ensures RunAll(x, more) == Alone(tmp, content, if ok then Permitting(fd) else Removing)
      ensures ok <==> Finishes(|content|, writes, full)
      ensures Lengthened(old(disk), disk, fd) && (ok ==> Holds(disk, tmp, fd, content))
    {
      hide Append, RunAll, Sum, Finishes, Holds;
      more := cs;
      var n, i := 0, 0;
      NothingSummed(writes);
      LengthenedNot(disk, fd);
      assert content[..0] == [];
      while n < |content|
        invariant n <= |content| && i <= |writes| && (forall j | 0 <= j < i :: writes[j] > 0)
        invariant n == Min(Sum(writes[..i]), |content|) || (i == |writes| && full && n == |content|)
        invariant Holds(disk, tmp, fd, content[..n]) && Lengthened(old(disk), disk, fd)
        invariant RunAll(x, more) == Alone(tmp, content, Writing(fd, n))
        decreases |writes| - i, |content| - n
      {
        var amount := if i < |writes| then writes[i] else if full then |content| - n else 0;
        RunMore(x, more, Run(0, amount > 0, amount));
        more := more + [Run(0, amount > 0, amount)];
        if amount == 0 {
          FailsHere(|content|, writes, full, i);
          return false, more;
        }
        var m := Min(n + amount, |content|);
        AppendLengthens(disk, tmp, fd, content[..n], content[n..m]);
        LengthenedTwice(old(disk), disk, Append(disk, fd, content[n..m]), fd);
        assert content[..n] + content[n..m] == content[..m];
        if i < |writes| { SumSnoc(writes, i); }
        disk := Append(disk, fd, content[n..m]);
        n := m;
        if i < |writes| { i := i + 1; }
      }
      FinishesHere(|content|, writes, full, i);
      assert content[..|content|] == content;
      RunMore(x, more, Run(0, true, 0));
      more := more + [Run(0, true, 0)];
      ok := true;
    }

    method CleanUp(tmp: Path, content: Bytes, luck: Luck, ghost x: World,
                   ghost cs: seq<Choice>) returns (ghost more: seq<Choice>)
      requires RunAll(x, cs) == Alone(tmp, content, Removing)
      modifies this
      ensures RunAll(x, more) == Alone(tmp, content, Failed)
      ensures disk == if luck.remove then Remove(old(disk), tmp) else old(disk)
    {
      hide Remove, RunAll;
      RunMore(x, cs, Run(0, luck.remove, 0));
      more := cs + [Run(0, luck.remove, 0)];
      if luck.remove {
        disk := Remove(disk, tmp);
      }
    }

    /** Make the directories and open the temporary file. */
    method OpenTemporary(tmp: Path, content: Bytes, luck: Luck) returns (fd: Option<nat>, ghost cs: seq<Choice>)
      modifies this
      ensures RunAll(old(Alone(tmp, content, Preparing)), cs)
              == Alone(tmp, content, match fd case Some(n) => Writing(n, 0) case None => Failed)
      ensures fd.Some? <==> luck.prepare && luck.create
      ensures fd.Some? ==> (disk, fd.value) == Create(old(disk), tmp, umask)
      ensures fd.None? ==> disk == if luck.prepare && luck.remove then Remove(old(disk), tmp) else old(disk)
    {
      hide Create, CopyMode, Rename, Remove, Append, RunAll;
      ghost var x := Alone(tmp, content, Preparing);
      RunNothing(x);
      RunMore(x, [], Run(0, luck.prepare, 0));
      cs := [] + [Run(0, luck.prepare, 0)];
      if !luck.prepare {
        return None, cs;
      }
      RunMore(x, cs, Run(0, luck.create, 0));
      cs := cs + [Run(0, luck.create, 0)];
      if !luck.create {
        cs := CleanUp(tmp, content, luck, x, cs);
        return None, cs;
      }
      var (created, n) := Create(disk, tmp, umask);
      disk := created;
      fd := Some(n);
    }

    /** Copy the mode and rename. */
    method Install(fd: nat, tmp: Path, content: Bytes, luck: Luck, ghost x: World, ghost cs: seq<Choice>)
      returns (ok: bool, ghost more: seq<Choice>)
      requires RunAll(x, cs) == Alone(tmp, content, Permitting(fd))
      modifies this
      ensures RunAll(x, more) == Alone(tmp, content, if ok then Saved else Failed)
      ensures tmp in old(disk.names) ==>
        && (ok <==> luck.rename)
        && var d := Permit(old(disk), fd, target, luck.chmod);
           && tmp in d.names
           && disk == if ok then Rename(d, tmp, target) else if luck.remove then Remove(d, tmp) else d
    {
      hide Create, CopyMode, Rename, Remove, Append, RunAll;
      PermitKeepsNames(disk, fd, target, luck.chmod);
      RunMore(x, cs, Run(0, luck.chmod, 0));
      more := cs + [Run(0, luck.chmod, 0)];
      if luck.chmod {
        disk := CopyMode(disk, fd, target);
      }
      RunMore(x, more, Run(0, luck.rename, 0));
      more := more + [Run(0, luck.rename, 0)];
      if !luck.rename || tmp !in disk.names {
        more := CleanUp(tmp, content, luck, x, more);
        return false, more;
      }
      disk := Rename(disk, tmp, target);
      ok := true;
    }

    /** The save is a run of the writer's steps, and what it does follows from the luck alone. It
        succeeds if and only if every step but the copying of the mode and the cleaning up does.
        Then the target holds exactly the content, under the mode it had if that could be
        copied, or else under that of a new file. If not, the target is as it was, and the
        temporary name is gone if it could be removed. No other name is touched. */
    method AtomicWrite(tmp: Path, content: Bytes, luck: Luck) returns (ok: bool, ghost cs: seq<Choice>)
      modifies this
      ensures RunAll(old(Alone(tmp, content, Preparing)), cs) == Alone(tmp, content, if ok then Saved else Failed)
      ensures ok <==> Succeeds(luck, |content|)
      ensures ok ==> Content(disk, target) == Some(content) && (tmp != target ==> tmp !in disk.names)
      ensures ok && luck.chmod && Mode(old(disk), target).Some? ==> Mode(disk, target) == Mode(old(disk), target)
      ensures ok && Mode(old(disk), tmp).None? && (!luck.chmod || Mode(old(disk), target).None?)
              ==> Mode(disk, target) == Some(umask)
      ensures !ok && NoLinks(old(disk)) && tmp != target ==> Same(old(disk), disk, target)
      ensures !ok && luck.prepare && luck.remove ==> tmp !in disk.names
      ensures !luck.prepare ==> disk == old(disk)
      ensures NoLinks(old(disk)) ==> forall p | p != tmp && p != target :: Same(old(disk), disk, p)
    {
      hide RunAll, NoLinks, Create, CopyMode, Same, Content, Mode, Holds, Finishes, Rename, Remove;
      ghost var x := Alone(tmp, content, Preparing);
      ghost var d := disk;
      var fd;
      fd, cs := OpenTemporary(tmp, content, luck);
      if fd.None? {
        NeverOpened(d, tmp);
        return false, cs;
      }
      CreatedHolds(d, tmp, umask);
      var written;
      written, cs := WriteAll(fd.value, tmp, content, luck.writes, luck.full, x, cs);
      GivenUp(d, tmp, umask, fd.value, disk, target, false, luck.remove);
      if !written {
        cs := CleanUp(tmp, content, luck, x, cs);
        return false, cs;
      }
      ghost var filled := disk;
      PreparedName(d, tmp, umask, fd.value, disk, target, luck.chmod);
      ok, cs := Install(fd.value, tmp, content, luck, x, cs);
      Installed(d, tmp, umask, fd.value, filled, content, target, luck.chmod);
      GivenUp(d, tmp, umask, fd.value, filled, target, luck.chmod, luck.remove);
      if NoLinks(d) {
        forall p | p != tmp && p != target ensures Same(d, disk, p) {
          Untouched(d, tmp, umask, fd.value, filled, target, luck.chmod, p);
          UntouchedAfter(d, Permit(filled, fd.value, target, luck.chmod), tmp, target, p);
        }
      }
    }
  }
}

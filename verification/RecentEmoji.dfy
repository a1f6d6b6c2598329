/** The recently used emoji (src/emoji/recent.rs): each use moves the emoji to the front and
    cuts the stored list to one page. */
module RecentEmoji {
  import opened Wrappers

  const RECENT_MAX := 81

  type Emoji = string

  function Take(s: seq<Emoji>, n: nat): (r: seq<Emoji>)
    ensures |r| <= n && r <= s
  {
    if |s| <= n then s else s[..n]
  }

  function Without(s: seq<Emoji>, e: Emoji): (r: seq<Emoji>)
    ensures e !in r && |r| <= |s|
  {
    if s == [] then [] else Without(Init(s), e) + (if Last(s) == e then [] else [Last(s)])
  }

  /** One use, as the code does it. */
  function Touched(list: seq<Emoji>, e: Emoji): seq<Emoji> {
    Take([e] + Without(list, e), RECENT_MAX)
  }

  class RecentStore {
    var stored: seq<Emoji>

    constructor ()
      ensures stored == []
    {
      stored := [];
    }

    /** Writing the file is best effort: when it fails the stored list stays. */
    method TouchRecent(e: Emoji, writable: bool) returns (list: seq<Emoji>)
      modifies this
      ensures list == Touched(old(stored), e)
      ensures stored == if writable then list else old(stored)
    {
      list := [];
      for i := 0 to |stored|
        invariant list == Without(stored[..i], e)
      {
        assert Init(stored[..i + 1]) == stored[..i];
        if stored[i] != e {
          list := list + [stored[i]];
        }
      }
      assert stored[..|stored|] == stored;
      list := [e] + list;
      if |list| > RECENT_MAX {
        list := list[..RECENT_MAX];
      }
      if writable {
        stored := list;
      }
    }
  }

  /** The stored list after a history of uses. */
  function AfterHistory(h: seq<Emoji>): seq<Emoji>
    decreases |h|
  {
    if h == [] then [] else Touched(AfterHistory(Init(h)), Last(h))
  }

  // ---------- what the list should be ----------

  function Reversed(s: seq<Emoji>): (r: seq<Emoji>)
    ensures |r| == |s|
  {
    if s == [] then [] else [Last(s)] + Reversed(Init(s))
  }

  /** Each emoji once, where it occurs first. */
  function Distinct(s: seq<Emoji>): (r: seq<Emoji>)
    ensures forall e :: e in r <==> e in s
    ensures forall i, j | 0 <= i < j < |r| :: r[i] != r[j]
  {
    if s == [] then []
    else
      assert s == Init(s) + [Last(s)];
      Distinct(Init(s)) + (if Last(s) in Init(s) then [] else [Last(s)])
  }

  lemma DistinctSnoc(s: seq<Emoji>, x: Emoji)
    ensures Distinct(s + [x]) == Distinct(s) + (if x in s then [] else [x])
  {
  }

  lemma WithoutSnoc(s: seq<Emoji>, x: Emoji, e: Emoji)
    ensures Without(s + [x], e) == Without(s, e) + (if x == e then [] else [x])
  {
  }

  lemma {:induction false} DistinctCons(e: Emoji, s: seq<Emoji>)
    ensures Distinct([e] + s) == [e] + Without(Distinct(s), e)
    decreases |s|
  {
    hide Distinct, Without;
    if s == [] {
      DistinctAlone(e);
    } else {
      var front, x := Init(s), Last(s);
      assert s == front + [x] && [e] + s == [e] + front + [x];
      DistinctCons(e, front);
      DistinctSnoc(front, x);
      DistinctSnoc([e] + front, x);
      WithoutSnoc(Distinct(front), x, e);
      var d, w := Distinct(front), Without(Distinct(front), e);
      if x in front {
        assert x in [e] + front;
        assert d + [] == d && [e] + w + [] == [e] + w;
      } else if x == e {
        assert x in [e] + front;
        assert w + [] == w && [e] + w + [] == [e] + w;
      } else {
        assert x !in [e] + front;
        assert [e] + w + [x] == [e] + (w + [x]);
      }
    }
  }

  lemma DistinctAlone(e: Emoji)
    ensures Distinct([e] + []) == [e] + Without(Distinct([]), e)
  {
    hide Distinct, Without;
    DistinctSnoc([], e);
    DistinctNothing();
    WithoutNothing(e);
    assert [e] + [] == [] + [e];
  }

  lemma DistinctNothing()
    ensures Distinct([]) == []
  {
  }

  lemma WithoutNothing(e: Emoji)
    ensures Without([], e) == []
  {
  }

  /** Removing one element commutes with cutting, up to one position. */
  lemma {:induction false} WithoutPrefix(d: seq<Emoji>, e: Emoji, n: nat)
    requires n <= |d| && forall i, j | 0 <= i < j < |d| :: d[i] != d[j]
    ensures Without(d[..n], e) <= Without(d, e)
    ensures |Without(d[..n], e)| >= n - 1
    decreases |d|
  {
    if n < |d| {
      WithoutPrefix(Init(d), e, n);
      assert Init(d)[..n] == d[..n];
    } else {
      assert d[..n] == d;
      if n > 0 {
        WithoutPrefix(Init(d), e, n - 1);
        assert Init(d)[..n - 1] == Init(d);
        if Last(d) == e {
          Absent(Init(d), e);
        }
      }
    }
  }

  lemma {:induction false} Absent(d: seq<Emoji>, e: Emoji)
    requires e !in d
    ensures Without(d, e) == d
  {
    hide Without;
    if d == [] {
      WithoutNothing(e);
    } else {
      assert d == Init(d) + [Last(d)];
      Absent(Init(d), e);
      WithoutSnoc(Init(d), Last(d), e);
    }
  }

  /** Cutting before a use loses nothing that belongs in the list after it. */
  lemma CutIsHarmless(d: seq<Emoji>, e: Emoji)
    requires forall i, j | 0 <= i < j < |d| :: d[i] != d[j]
    ensures Touched(Take(d, 81), e) == Take([e] + Without(d, e), 81)
  {
    if |d| > RECENT_MAX {
      WithoutPrefix(d, e, RECENT_MAX);
      var short, long := [e] + Without(d[..RECENT_MAX], e), [e] + Without(d, e);
      assert short <= long && |short| >= RECENT_MAX;
      assert short[..RECENT_MAX] == long[..RECENT_MAX];
    }
  }

  /** After any history the list is the first 81 distinct emoji of the reversed history,
      though it has been cut at every step. */
  lemma {:induction false} MostRecentlyUsed(h: seq<Emoji>)
    ensures AfterHistory(h) == Take(Distinct(Reversed(h)), 81)
    decreases |h|
  {
    hide Touched;
    if h != [] {
      MostRecentlyUsed(Init(h));
      DistinctCons(Last(h), Reversed(Init(h)));
      CutIsHarmless(Distinct(Reversed(Init(h))), Last(h));
    }
  }
}

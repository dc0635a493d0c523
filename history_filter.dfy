/** The `filteredIdeas` list of `src/components/features/HistorySidebar.tsx`:
    the ideas the chosen filter keeps, newest first.

    `Array.prototype.sort` is stable, so ideas with the same `createdAt`
    keep their order; `SortNewestFirst` is the stable insertion sort with the
    comparator `b.createdAt - a.createdAt`. */
module HistoryFilter {
  import opened IdeaEngine

  /** The filter buttons: `'all'`, `'liked'` and `'todo'`. */
  datatype FilterMode = All | Liked | Todo

  /** The `filter` callback. */
  predicate Keep(mode: FilterMode, idea: Idea)
  {
    match mode
    case Liked => idea.liked
    case Todo => idea.checked
    case All => true
  }

  /** `ideas.filter(...)`: the ideas the mode keeps, in their order. */
  function Select(mode: FilterMode, ideas: seq<Idea>): (r: seq<Idea>)
    ensures |r| <= |ideas|
    ensures mode == All ==> r == ideas
  {
    if ideas == [] then []
    else
      assert ideas == [ideas[0]] + ideas[1..];
      (if Keep(mode, ideas[0]) then [ideas[0]] else []) + Select(mode, ideas[1..])
  }

  /** The filter keeps each idea the mode selects as often as it occurs and
      drops every other. */
  lemma {:induction false} SelectCount(mode: FilterMode, ideas: seq<Idea>)
    ensures forall x :: multiset(Select(mode, ideas))[x]
                        == if Keep(mode, x) then multiset(ideas)[x] else 0
    decreases |ideas|
  {
    if ideas != [] {
      SelectCount(mode, ideas[1..]);
      assert ideas == [ideas[0]] + ideas[1..];
    }
  }

  /** Filtering a concatenation filters each part in place: the kept ideas
      stay in their history order. */
  lemma {:induction false} SelectAppend(mode: FilterMode, a: seq<Idea>, b: seq<Idea>)
    ensures Select(mode, a + b) == Select(mode, a) + Select(mode, b)
    decreases |a|
  {
    if a == [] {
      assert a + b == b;
    } else {
      var head := if Keep(mode, a[0]) then [a[0]] else [];
      assert (a + b)[0] == a[0] && (a + b)[1..] == a[1..] + b;
      SelectAppend(mode, a[1..], b);
      calc {
        Select(mode, a + b);
        head + Select(mode, a[1..] + b);
        head + (Select(mode, a[1..]) + Select(mode, b));
        (head + Select(mode, a[1..])) + Select(mode, b);
        Select(mode, a) + Select(mode, b);
      }
    }
  }

  /** Newest first: `createdAt` never increases along the list. */
  predicate NewestFirst(s: seq<Idea>)
  {
    forall i, j :: 0 <= i < j < |s| ==> s[i].createdAt >= s[j].createdAt
  }

  /** Puts `x` before the first idea that is not newer than it. */
  function Insert(x: Idea, s: seq<Idea>): (r: seq<Idea>)
    ensures multiset(r) == multiset(s) + multiset{x}
  {
    if s == [] || s[0].createdAt <= x.createdAt then [x] + s
    else
      assert s == [s[0]] + s[1..];
      [s[0]] + Insert(x, s[1..])
  }

  /** `.sort((a, b) => b.createdAt - a.createdAt)`. */
  function SortNewestFirst(s: seq<Idea>): (r: seq<Idea>)
    ensures multiset(r) == multiset(s)
  {
    if s == [] then []
    else
      assert s == [s[0]] + s[1..];
      Insert(s[0], SortNewestFirst(s[1..]))
  }

  /** `filteredIdeas`. */
  function FilteredIdeas(mode: FilterMode, ideas: seq<Idea>): seq<Idea>
  {
    SortNewestFirst(Select(mode, ideas))
  }

  /** `Insert(x, s)` starts with `x` or with the first idea of `s`. */
  lemma InsertHead(x: Idea, s: seq<Idea>)
    ensures |Insert(x, s)| > 0
    ensures Insert(x, s)[0] == x || (s != [] && Insert(x, s)[0] == s[0])
  {
    assert |Insert(x, s)| == |multiset(Insert(x, s))| == |s| + 1;
  }

  /** Inserting into a newest-first list keeps it newest first. */
  lemma {:induction false} InsertNewestFirst(x: Idea, s: seq<Idea>)
    requires NewestFirst(s)
    ensures NewestFirst(Insert(x, s))
    decreases |s|
  {
    if s != [] && s[0].createdAt > x.createdAt {
      var tail := Insert(x, s[1..]);
      InsertNewestFirst(x, s[1..]);
      InsertHead(x, s[1..]);
      var r := [s[0]] + tail;
      assert s[0].createdAt >= tail[0].createdAt;
      forall i, j | 0 <= i < j < |r| ensures r[i].createdAt >= r[j].createdAt {
        if i == 0 {
          assert r[j] == tail[j - 1];
          assert tail[0].createdAt >= tail[j - 1].createdAt;
        } else {
          assert r[i] == tail[i - 1] && r[j] == tail[j - 1];
        }
      }
    }
  }

  /** The sort orders newest first. */
  lemma {:induction false} SortIsNewestFirst(s: seq<Idea>)
    ensures NewestFirst(SortNewestFirst(s))
    decreases |s|
  {
    if s != [] {
      SortIsNewestFirst(s[1..]);
      InsertNewestFirst(s[0], SortNewestFirst(s[1..]));
    }
  }

  /** The ideas of `s` created at time `t`, in order. */
  function At(s: seq<Idea>, t: int): seq<Idea>
  {
    if s == [] then []
    else (if s[0].createdAt == t then [s[0]] else []) + At(s[1..], t)
  }

  lemma AtCons(y: Idea, s: seq<Idea>, t: int)
    ensures At([y] + s, t) == (if y.createdAt == t then [y] else []) + At(s, t)
  {
    assert ([y] + s)[1..] == s;
  }

  /** `x` comes first among the ideas of its own time after insertion: the
      ideas it is put after are strictly newer. */
  lemma {:induction false} InsertAt(x: Idea, s: seq<Idea>, t: int)
    ensures At(Insert(x, s), t) == (if x.createdAt == t then [x] else []) + At(s, t)
    decreases |s|
  {
    if s == [] || s[0].createdAt <= x.createdAt {
      AtCons(x, s, t);
    } else {
      var tail := Insert(x, s[1..]);
      InsertAt(x, s[1..], t);
      AtCons(s[0], tail, t);
      AtCons(s[0], s[1..], t);
      assert s == [s[0]] + s[1..];
    }
  }

  /** The sort is stable: the ideas created at the same time keep their order. */
  lemma {:induction false} SortStable(s: seq<Idea>, t: int)
    ensures At(SortNewestFirst(s), t) == At(s, t)
    decreases |s|
  {
    if s != [] {
      SortStable(s[1..], t);
      InsertAt(s[0], SortNewestFirst(s[1..]), t);
    }
  }

  /** `filteredIdeas` holds exactly the ideas the mode keeps, each as often as
      in the history and unchanged, newest first and no longer than the
      history; with `'all'` it is a reordering of the whole history. */
  lemma FilteredIdeasSpec(mode: FilterMode, ideas: seq<Idea>)
    ensures var r := FilteredIdeas(mode, ideas);
      NewestFirst(r)
      && |r| <= |ideas|
      && (forall x :: multiset(r)[x] == if Keep(mode, x) then multiset(ideas)[x] else 0)
      && (forall x :: x in r <==> x in ideas && Keep(mode, x))
      && (mode == All ==> multiset(r) == multiset(ideas))
  {
    var sel := Select(mode, ideas);
    var r := SortNewestFirst(sel);
    SortIsNewestFirst(sel);
    SelectCount(mode, ideas);
    assert |r| == |multiset(r)| == |multiset(sel)| == |sel|;
    forall x ensures x in r <==> x in ideas && Keep(mode, x) {
      assert x in r <==> multiset(r)[x] > 0;
      assert x in ideas <==> multiset(ideas)[x] > 0;
    }
    if mode == All {
      assert forall x :: multiset(r)[x] == multiset(ideas)[x];
    }
  }

  /** Ideas created at the same time appear in `filteredIdeas` in their
      history order. */
  lemma FilteredIdeasStable(mode: FilterMode, ideas: seq<Idea>, t: int)
    ensures At(FilteredIdeas(mode, ideas), t) == At(Select(mode, ideas), t)
    ensures mode == All ==> At(FilteredIdeas(mode, ideas), t) == At(ideas, t)
  {
    SortStable(Select(mode, ideas), t);
  }
}

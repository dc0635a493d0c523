/** `generateIdeaBatch` of `src/lib/ideaEngine.ts`: a batch of ideas in which a
    title already used is re-drawn a bounded number of times.

    The calls of `generateIdea` made while building a batch are numbered from
    0; `calls(force, k)` is the idea call `k` returns when made with the given
    `forceProcedural` flag. `SlotsFrom` states, slot by slot, how many re-draws
    each iteration of the outer loop makes and how many calls it uses up; the
    idea it accepts is the output of its last call. `FillBatch` is the pair of
    loops itself, and `GenerateIdeaBatch` runs it on `generateIdea`. */
module IdeaBatch {
  import opened Wrappers
  import opened IdeaEngine

  /** The re-draw bound of the inner `while` loop. */
  const MaxAttempts: nat := 10

  /** The idea returned by call number `k` of `generateIdea`, made with the
      given `forceProcedural` flag. */
  type Calls = (bool, int) -> Idea

  /** The titles of those ideas: all the retry loop looks at. */
  type Titles = (bool, int) -> string

  /** The calls of the source: call `k` draws its randomness from `draw(k)`. */
  function Generator(c: Catalog, niche: Option<string>, draw: int -> Draw): Calls
    requires Complete(c)
  {
    (force: bool, k: int) => GenerateIdea(c, niche, force, draw(k))
  }

  function TitlesOf(calls: Calls): Titles
  {
    (force: bool, k: int) => calls(force, k).title
  }

  /** The state of one outer iteration: the re-draws made so far and the
      number of the next call. The idea in hand is the output of the last call
      made, `next - 1`, which forced the procedural branch exactly when it was
      the third or a later re-draw. */
  datatype Slot = Slot(attempts: nat, next: int)

  function Forced(s: Slot): bool
  {
    s.attempts > 2
  }

  /** The idea in hand in state `s`, and its title. */
  function InHand(calls: Calls, s: Slot): Idea
  {
    calls(Forced(s), s.next - 1)
  }

  function TitleInHand(titles: Titles, s: Slot): string
  {
    titles(Forced(s), s.next - 1)
  }

  /** The inner retry loop from state `Slot(attempts, next)`: it re-draws
      while the title in hand is used, at most `MaxAttempts` times in all. It
      stops with at most `MaxAttempts` re-draws, one call per re-draw, and a
      fresh title unless it used up every re-draw. */
  function Retry(used: set<string>, titles: Titles, attempts: nat, next: int): (s: Slot)
    requires attempts <= MaxAttempts
    ensures attempts <= s.attempts <= MaxAttempts
    ensures s.next == next + (s.attempts - attempts)
    ensures s.attempts < MaxAttempts ==> TitleInHand(titles, s) !in used
    decreases MaxAttempts - attempts
  {
    if TitleInHand(titles, Slot(attempts, next)) in used && attempts < MaxAttempts then
      Retry(used, titles, attempts + 1, next + 1)
    else
      Slot(attempts, next)
  }

  /** One outer iteration starting at call `next`: a first unforced call,
      then the retry loop. */
  function FillSlot(used: set<string>, titles: Titles, next: int): (s: Slot)
    ensures s.attempts <= MaxAttempts
    ensures s.next == next + 1 + s.attempts
    ensures s.attempts < MaxAttempts ==> TitleInHand(titles, s) !in used
  {
    Retry(used, titles, 0, next + 1)
  }

  /** The next `n` slots of a batch, given the titles `used` so far and the
      number `next` of the next call: each slot is filled against the titles
      accepted before it and starts at the call after the previous slot's. */
  function SlotsFrom(n: nat, used: set<string>, next: int, titles: Titles): (ss: seq<Slot>)
    ensures |ss| == n
  {
    if n == 0 then []
    else
      var s := FillSlot(used, titles, next);
      [s] + SlotsFrom(n - 1, used + {TitleInHand(titles, s)}, s.next, titles)
  }

  /** A non-empty run of slots is its first slot followed by the rest. */
  lemma SlotsFromHead(n: nat, used: set<string>, next: int, titles: Titles)
    requires n > 0
    ensures var s := FillSlot(used, titles, next);
      SlotsFrom(n, used, next, titles)
      == [s] + SlotsFrom(n - 1, used + {TitleInHand(titles, s)}, s.next, titles)
  {
  }

  /** The slots of a batch of `n` ideas. */
  function Slots(n: nat, titles: Titles): (ss: seq<Slot>)
    ensures |ss| == n
  {
    SlotsFrom(n, {}, 0, titles)
  }

  /** The ideas the slots accept, in order. */
  function Accepted(calls: Calls, ss: seq<Slot>): (ideas: seq<Idea>)
    ensures |ideas| == |ss|
    ensures forall i :: 0 <= i < |ss| ==> ideas[i] == InHand(calls, ss[i])
  {
    seq(|ss|, i requires 0 <= i < |ss| => InHand(calls, ss[i]))
  }

  /** The batch of `n` ideas `generateIdeaBatch` builds from `calls`. */
  function Batch(n: nat, calls: Calls): (ideas: seq<Idea>)
    ensures |ideas| == n
  {
    Accepted(calls, Slots(n, TitlesOf(calls)))
  }

  /** One step of the outer loop: filling the next slot moves it from the
      slots still to come to the slots done. */
  lemma OuterStep(n: nat, i: nat, done: seq<Slot>, used: set<string>, next: int, titles: Titles)
    requires i < n
    requires done + SlotsFrom(n - i, used, next, titles) == Slots(n, titles)
    ensures var s := FillSlot(used, titles, next);
      (done + [s]) + SlotsFrom(n - (i + 1), used + {TitleInHand(titles, s)}, s.next, titles)
      == Slots(n, titles)
  {
    var s := FillSlot(used, titles, next);
    var rest := SlotsFrom(n - (i + 1), used + {TitleInHand(titles, s)}, s.next, titles);
    SlotsFromHead(n - i, used, next, titles);
    assert (done + [s]) + rest == done + ([s] + rest);
  }

  /** The title of the idea in hand is the title `TitlesOf` gives. */
  lemma TitleOfInHand(calls: Calls, s: Slot)
    ensures InHand(calls, s).title == TitleInHand(TitlesOf(calls), s)
  {
  }

  /** One turn of the retry loop: re-drawing a used title moves to the next
      state of the same retry. */
  lemma RetryStep(used: set<string>, calls: Calls, attempts: nat, next: int)
    requires attempts < MaxAttempts && InHand(calls, Slot(attempts, next)).title in used
    ensures Retry(used, TitlesOf(calls), attempts, next)
      == Retry(used, TitlesOf(calls), attempts + 1, next + 1)
  {
    TitleOfInHand(calls, Slot(attempts, next));
  }

  /** Leaving the retry loop: the state reached is the one `Retry` stops in. */
  lemma RetryStop(used: set<string>, calls: Calls, attempts: nat, next: int)
    requires attempts <= MaxAttempts
    requires !(InHand(calls, Slot(attempts, next)).title in used && attempts < MaxAttempts)
    ensures Retry(used, TitlesOf(calls), attempts, next) == Slot(attempts, next)
  {
    TitleOfInHand(calls, Slot(attempts, next));
  }

  /** Accepting one more slot appends its idea. */
  lemma AcceptedSnoc(calls: Calls, ss: seq<Slot>, s: Slot)
    ensures Accepted(calls, ss + [s]) == Accepted(calls, ss) + [InHand(calls, s)]
  {
  }

  /** The titles in hand at the end of the slots `ss`. */
  function TitlesIn(titles: Titles, ss: seq<Slot>): set<string>
  {
    if ss == [] then {} else {TitleInHand(titles, ss[0])} + TitlesIn(titles, ss[1..])
  }

  /** Every slot's title is among the titles of the slots. */
  lemma {:induction false} TitlesInHas(titles: Titles, ss: seq<Slot>, j: nat)
    requires j < |ss|
    ensures TitleInHand(titles, ss[j]) in TitlesIn(titles, ss)
    decreases |ss|
  {
    if j > 0 {
      TitlesInHas(titles, ss[1..], j - 1);
    }
  }

  /** Filling one more slot adds its title, even one already there. */
  lemma {:induction false} TitlesInSnoc(titles: Titles, ss: seq<Slot>, s: Slot)
    ensures TitlesIn(titles, ss + [s]) == TitlesIn(titles, ss) + {TitleInHand(titles, s)}
    decreases |ss|
  {
    if ss != [] {
      assert (ss + [s])[1..] == ss[1..] + [s];
      TitlesInSnoc(titles, ss[1..], s);
    } else {
      assert [] + [s] == [s];
    }
  }

  /** The end of one outer iteration: pushing the idea in hand and adding its
      title moves every outer-loop fact on to the next slot. */
  lemma SlotDone(n: nat, i: nat, slots: seq<Slot>, used: set<string>, start: int, calls: Calls,
                 batch: seq<Idea>, s: Slot, idea: Idea)
    requires i < n && |slots| == i
    requires slots + SlotsFrom(n - i, used, start, TitlesOf(calls)) == Slots(n, TitlesOf(calls))
    requires batch == Accepted(calls, slots) && used == TitlesIn(TitlesOf(calls), slots)
    requires s == FillSlot(used, TitlesOf(calls), start) && idea == InHand(calls, s)
    ensures (slots + [s]) + SlotsFrom(n - (i + 1), used + {idea.title}, s.next, TitlesOf(calls))
      == Slots(n, TitlesOf(calls))
    ensures batch + [idea] == Accepted(calls, slots + [s])
    ensures used + {idea.title} == TitlesIn(TitlesOf(calls), slots + [s])
  {
    TitleOfInHand(calls, s);
    OuterStep(n, i, slots, used, start, TitlesOf(calls));
    AcceptedSnoc(calls, slots, s);
    TitlesInSnoc(TitlesOf(calls), slots, s);
  }

  /** One iteration of the outer loop up to the push: a first call, then the
      retry loop while the title is used and fewer than `MaxAttempts`
      re-draws were made. It ends in the state `FillSlot` gives, holding the
      output of its last call. */
  method FillOne(usedTitles: set<string>, calls: Calls, start: int)
    returns (idea: Idea, call: int, attempts: nat)
    ensures Slot(attempts, call) == FillSlot(usedTitles, TitlesOf(calls), start)
    ensures idea == InHand(calls, Slot(attempts, call))
  {
    ghost var goal := FillSlot(usedTitles, TitlesOf(calls), start);
    idea := calls(false, start);
    call := start + 1;
    attempts := 0;
    while idea.title in usedTitles && attempts < MaxAttempts
      invariant attempts <= MaxAttempts
      invariant idea == InHand(calls, Slot(attempts, call))
      invariant Retry(usedTitles, TitlesOf(calls), attempts, call) == goal
    {
      RetryStep(usedTitles, calls, attempts, call);
      idea := calls(attempts > 1, call);
      call := call + 1;
      attempts := attempts + 1;
    }
    RetryStop(usedTitles, calls, attempts, call);
  }

  /** The two loops of `generateIdeaBatch`, drawing ideas from `calls`:
      exactly `count` ideas (none for a count of zero or less), the ones the
      slots accept, in order; `usedTitles` always holds the titles of the
      slots done, which are the titles pushed. */
  method FillBatch(count: int, calls: Calls) returns (batch: seq<Idea>)
    ensures |batch| == if count > 0 then count else 0
    ensures batch == Batch(|batch|, calls)
  {
    ghost var n: nat := if count > 0 then count else 0;
    ghost var target := Slots(n, TitlesOf(calls));
    batch := [];
    var usedTitles: set<string> := {};
    var call := 0;
    ghost var slots: seq<Slot> := [];
    var i := 0;
    while i < count
      invariant 0 <= i <= n && |slots| == i
      invariant slots + SlotsFrom(n - i, usedTitles, call, TitlesOf(calls)) == target
      invariant batch == Accepted(calls, slots)
      invariant usedTitles == TitlesIn(TitlesOf(calls), slots)
    {
      var idea, next, attempts := FillOne(usedTitles, calls, call);
      SlotDone(n, i, slots, usedTitles, call, calls, batch, Slot(attempts, next), idea);
      usedTitles := usedTitles + {idea.title};
      batch := batch + [idea];
      slots := slots + [Slot(attempts, next)];
      call := next;
      i := i + 1;
    }
  }

  /** `generateIdeaBatch(count, niche)`: the batch loops run on
      `generateIdea`, whose call `k` takes its randomness from `draw(k)`. */
  method GenerateIdeaBatch(c: Catalog, count: int, niche: Option<string>, draw: int -> Draw)
    returns (batch: seq<Idea>)
    requires Complete(c)
    ensures |batch| == if count > 0 then count else 0
    ensures batch == Batch(|batch|, Generator(c, niche, draw))
  {
    batch := FillBatch(count, Generator(c, niche, draw));
  }

  /** Slots use consecutive calls: each slot starts at the call after the
      previous slot's last, makes one call plus one per re-draw, and re-draws
      at most `MaxAttempts` times. */
  lemma {:induction false} SlotCalls(n: nat, used: set<string>, next: int, titles: Titles, k: nat)
    requires k < n
    ensures var ss := SlotsFrom(n, used, next, titles);
      ss[k].attempts <= MaxAttempts
      && ss[k].next == (if k == 0 then next else ss[k - 1].next) + 1 + ss[k].attempts
    decreases n
  {
    var ss := SlotsFrom(n, used, next, titles);
    var s := FillSlot(used, titles, next);
    var rest := SlotsFrom(n - 1, used + {TitleInHand(titles, s)}, s.next, titles);
    SlotsFromHead(n, used, next, titles);
    if k == 1 {
      SlotCalls(n - 1, used + {TitleInHand(titles, s)}, s.next, titles, 0);
      assert ss[1] == rest[0] && ss[0] == s;
    } else if k > 1 {
      SlotCalls(n - 1, used + {TitleInHand(titles, s)}, s.next, titles, k - 1);
      assert ss[k] == rest[k - 1] && ss[k - 1] == rest[k - 2];
    }
  }

  /** The titles of a run that starts with `s`. */
  lemma TitlesInCons(titles: Titles, s: Slot, rest: seq<Slot>)
    ensures TitlesIn(titles, [s] + rest) == {TitleInHand(titles, s)} + TitlesIn(titles, rest)
  {
    assert ([s] + rest)[1..] == rest;
  }

  /** Indexing into `[x] + rest` past its head. */
  lemma ConsAt<T>(ss: seq<T>, x: T, rest: seq<T>, k: nat)
    requires ss == [x] + rest && 0 < k < |ss|
    ensures ss[k] == rest[k - 1] && ss[..k] == [x] + rest[..k - 1]
    ensures k > 1 ==> ss[k - 1] == rest[k - 2]
  {
  }

  /** What `usedTitles` holds: slot `k` is filled against the titles given at
      the start together with the titles accepted by the slots before it,
      duplicates included, from the call after the previous slot's last. */
  lemma {:induction false} SlotUsed(n: nat, used: set<string>, next: int, titles: Titles, k: nat)
    requires k < n
    ensures var ss := SlotsFrom(n, used, next, titles);
      ss[k] == FillSlot(used + TitlesIn(titles, ss[..k]), titles, if k == 0 then next else ss[k - 1].next)
    decreases n
  {
    var ss := SlotsFrom(n, used, next, titles);
    var s := FillSlot(used, titles, next);
    var used' := used + {TitleInHand(titles, s)};
    var rest := SlotsFrom(n - 1, used', s.next, titles);
    SlotsFromHead(n, used, next, titles);
    if k == 0 {
      assert ss[..0] == [];
      assert used + TitlesIn(titles, ss[..0]) == used;
    } else {
      SlotUsed(n - 1, used', s.next, titles, k - 1);
      ConsAt(ss, s, rest, k);
      TitlesInCons(titles, s, rest[..k - 1]);
      assert used + TitlesIn(titles, ss[..k]) == used' + TitlesIn(titles, rest[..k - 1]);
      assert ss[k - 1].next == if k - 1 == 0 then s.next else rest[k - 2].next;
      assert ss[k] == rest[k - 1];
    }
  }

  /** A slot that did not use up its re-draws accepted a title that is
      neither among the titles given at the start nor taken by an earlier
      slot. */
  lemma FreshTitle(n: nat, used: set<string>, next: int, titles: Titles, k: nat)
    requires k < n
    ensures var ss := SlotsFrom(n, used, next, titles);
      ss[k].attempts < MaxAttempts ==>
        TitleInHand(titles, ss[k]) !in used
        && forall j :: 0 <= j < k ==> TitleInHand(titles, ss[j]) != TitleInHand(titles, ss[k])
  {
    var ss := SlotsFrom(n, used, next, titles);
    SlotUsed(n, used, next, titles, k);
    forall j | 0 <= j < k ensures TitleInHand(titles, ss[j]) in TitlesIn(titles, ss[..k]) {
      TitlesInHas(titles, ss[..k], j);
      assert ss[..k][j] == ss[j];
    }
  }

  /** When no slot exhausted its re-draws, the batch has no repeated title. */
  lemma DistinctTitlesUnlessExhausted(n: nat, calls: Calls)
    requires forall k :: 0 <= k < n ==> Slots(n, TitlesOf(calls))[k].attempts < MaxAttempts
    ensures var ideas := Batch(n, calls);
      forall i, j :: 0 <= i < j < n ==> ideas[i].title != ideas[j].title
  {
    var titles := TitlesOf(calls);
    var ss := Slots(n, titles);
    forall i, j | 0 <= i < j < n ensures Batch(n, calls)[i].title != Batch(n, calls)[j].title {
      FreshTitle(n, {}, 0, titles, j);
      assert Batch(n, calls)[i].title == TitleInHand(titles, ss[i]);
      assert Batch(n, calls)[j].title == TitleInHand(titles, ss[j]);
    }
  }

  /** Idea `k` of a batch is the output of the last call of slot `k`. */
  lemma BatchAt(n: nat, calls: Calls, k: nat, s: Slot)
    requires k < n && s == Slots(n, TitlesOf(calls))[k]
    ensures Batch(n, calls)[k] == calls(Forced(s), s.next - 1)
  {
  }

  /** Every call of the generator on a sound catalog returns a well-formed
      idea (an app or a game, with six open steps), a game exactly for the
      gaming niche, and an adjective-noun idea when the call forces the
      procedural branch. */
  lemma GeneratorIdea(c: Catalog, niche: Option<string>, draw: int -> Draw, force: bool, k: int)
    requires Sound(c)
    ensures var idea := Generator(c, niche, draw)(force, k);
      idea.title != "" && idea.description != ""
      && (idea.difficulty == "Medium" || idea.difficulty == "Hard")
      && (idea.kind == "Game" || idea.kind == "App")
      && (idea.kind == "Game" <==> niche == Some("Gaming"))
      && |idea.steps| == 6 && (forall i :: 0 <= i < |idea.steps| ==> !idea.steps[i].completed)
      && !idea.liked && !idea.checked
      && (force ==> ProceduralShape(c, idea, niche))
  {
    assert Generator(c, niche, draw)(force, k) == GenerateIdea(c, niche, force, draw(k));
    GeneratedWellFormed(c, niche, force, draw(k));
    GameIffGamingNiche(c, niche, force, draw(k));
  }

  /** A batch drawn from a sound catalog: every idea is well formed (an app
      or a game, with six open steps), is a game exactly when the batch is
      for the gaming niche, and is an adjective-noun idea whenever its slot
      needed more than two re-draws. */
  lemma BatchIdeas(c: Catalog, n: nat, niche: Option<string>, draw: int -> Draw, k: nat)
    requires Sound(c) && k < n
    ensures var calls := Generator(c, niche, draw);
      var idea := Batch(n, calls)[k];
      idea.title != "" && idea.description != ""
      && (idea.difficulty == "Medium" || idea.difficulty == "Hard")
      && (idea.kind == "Game" || idea.kind == "App")
      && (idea.kind == "Game" <==> niche == Some("Gaming"))
      && |idea.steps| == 6 && (forall i :: 0 <= i < |idea.steps| ==> !idea.steps[i].completed)
      && !idea.liked && !idea.checked
      && (Forced(Slots(n, TitlesOf(calls))[k]) ==> ProceduralShape(c, idea, niche))
  {
    var calls := Generator(c, niche, draw);
    var s := Slots(n, TitlesOf(calls))[k];
    BatchAt(n, calls, k, s);
    GeneratorIdea(c, niche, draw, Forced(s), s.next - 1);
  }
}

/** Pipe pairs: how one is spawned (`addPipe`, script.js:94-103), how the list
    scrolls and drops pipes that left the screen (`updatePipes`,
    script.js:115-123), and the spawn cadence of the game loop
    (script.js:164). */
module Pipes {
  const PipeWidth: real := 70.0
  const PipeGap: real := 150.0
  /** Pixels a pipe moves left per running tick. */
  const PipeSpeed: real := 3.0
  /** A pipe is spawned on every running tick whose frame is a multiple of this. */
  const SpawnInterval: nat := 90

  /** One pipe pair: left edge `x`, height of the top pipe, height of the bottom pipe. */
  datatype Pipe = Pipe(x: real, top: real, bottom: real)

  /** The pipe `addPipe` appends when `Math.random()` returned `r`. */
  function SpawnedPipe(r: real, width: real, height: real): (p: Pipe)
    requires 0.0 <= r < 1.0
    ensures p.x == width
    // the gap invariant: top + gap + bottom fill the canvas height
    ensures p.top + p.bottom + PipeGap == height
    // margins: 20 px above the gap at least, more than 60 px of bottom pipe
    ensures height > 230.0 ==> 20.0 <= p.top < height - 210.0 && p.bottom > 60.0
    // on a canvas too short for the margins the range turns around
    ensures height < 230.0 ==> height - 210.0 < p.top <= 20.0
    ensures height == 230.0 ==> p.top == 20.0
  {
    var span := height - PipeGap - 80.0;
    var drawn := r * span;
    SpawnRange(r, span, drawn);
    var top := drawn + 20.0;
    Pipe(width, top, height - top - PipeGap)
  }

  /** `r * span` for `r` in [0, 1) lies between 0 (included) and `span` (excluded). */
  lemma SpawnRange(r: real, span: real, drawn: real)
    requires 0.0 <= r < 1.0 && drawn == r * span
    ensures span > 0.0 ==> 0.0 <= drawn < span
    ensures span < 0.0 ==> span < drawn <= 0.0
    ensures span == 0.0 ==> drawn == 0.0
  {
    var rest := 1.0 - r;
    assert span - drawn == rest * span;
    if span > 0.0 {
      assert rest * span > 0.0;
    } else if span < 0.0 {
      var depth := -span;
      assert rest * depth > 0.0;
      assert r * depth >= 0.0;
      assert drawn - span == rest * depth;
      assert -drawn == r * depth;
    }
  }

  /** What a pipe always satisfies on a canvas of the given size. */
  predicate WellFormed(p: Pipe, width: real, height: real)
  {
    p.top + p.bottom + PipeGap == height &&
    -PipeWidth <= p.x <= width &&
    (height > 230.0 ==> 20.0 <= p.top < height - 210.0 && p.bottom > 60.0)
  }

  /** Insertion order is left-to-right screen order. */
  predicate SortedByX(s: seq<Pipe>)
  {
    forall i, j :: 0 <= i < j < |s| ==> s[i].x <= s[j].x
  }

  function Shift(p: Pipe): Pipe
  {
    p.(x := p.x - PipeSpeed)
  }

  /** A pipe is removed once `x + pipeWidth < 0`. */
  predicate OnScreen(p: Pipe)
  {
    p.x + PipeWidth >= 0.0
  }

  /** The pipe list after `updatePipes`: every pipe moved left, those that
      left the screen dropped. */
  function Scroll(s: seq<Pipe>): (r: seq<Pipe>)
    ensures |r| <= |s|
    ensures forall q | q in r :: OnScreen(q)
  {
    if s == [] then []
    else
      var p := Shift(s[0]);
      (if OnScreen(p) then [p] else []) + Scroll(s[1..])
  }

  /** `Scroll` from position `i` on handles the pipe at `i`, then the rest. */
  lemma ScrollStep(s: seq<Pipe>, i: nat)
    requires i < |s|
    ensures Scroll(s[i..]) == (if OnScreen(Shift(s[i])) then [Shift(s[i])] else []) + Scroll(s[i + 1..])
  {
  }

  /** One iteration of the back-to-front loop of `updatePipes` at index `i`:
      when everything after `i` is already scrolled, moving the pipe at `i`
      and splicing it out if it left the screen leaves everything from `i` on
      scrolled, and nothing before `i` touched. */
  lemma BackToFrontStep(before: seq<Pipe>, current: seq<Pipe>, i: nat)
    requires i < |before| && current == before[..i + 1] + Scroll(before[i + 1..])
    ensures var moved := current[i := Shift(current[i])];
            (if moved[i].x + PipeWidth < 0.0 then moved[..i] + moved[i + 1..] else moved)
              == before[..i] + Scroll(before[i..])
  {
  }

  /** Exactly the moved pipes that are still on screen survive. */
  lemma {:induction false} ScrollMembers(s: seq<Pipe>, q: Pipe)
    ensures q in Scroll(s) <==> exists i :: 0 <= i < |s| && q == Shift(s[i]) && OnScreen(q)
  {
    if s != [] {
      ScrollMembers(s[1..], q);
      if q in Scroll(s) {
        if q != Shift(s[0]) || !OnScreen(q) {
          assert q in Scroll(s[1..]);
          var i :| 0 <= i < |s[1..]| && q == Shift(s[1..][i]) && OnScreen(q);
          assert s[1..][i] == s[i + 1];
        }
      }
      if exists i :: 0 <= i < |s| && q == Shift(s[i]) && OnScreen(q) {
        var i :| 0 <= i < |s| && q == Shift(s[i]) && OnScreen(q);
        if i > 0 {
          assert s[1..][i - 1] == s[i];
        }
      }
    }
  }

  /** Scrolling keeps relative order: it works on each part of a list separately. */
  lemma {:induction false} ScrollAppend(a: seq<Pipe>, b: seq<Pipe>)
    ensures Scroll(a + b) == Scroll(a) + Scroll(b)
  {
    if a == [] {
      assert a + b == b;
    } else {
      assert (a + b)[0] == a[0];
      assert (a + b)[1..] == a[1..] + b;
      ScrollAppend(a[1..], b);
    }
  }

  /** While no pipe leaves the screen, none is dropped and each moves left by exactly `PipeSpeed`. */
  lemma {:induction false} ScrollAllOnScreen(s: seq<Pipe>)
    requires forall i :: 0 <= i < |s| ==> OnScreen(Shift(s[i]))
    ensures |Scroll(s)| == |s|
    ensures forall i :: 0 <= i < |s| ==> Scroll(s)[i] == Shift(s[i])
  {
    if s != [] {
      assert OnScreen(Shift(s[0]));
      assert forall i :: 0 <= i < |s[1..]| ==> s[1..][i] == s[i + 1];
      ScrollAllOnScreen(s[1..]);
    }
  }

  /** Scrolling keeps the pipes in left-to-right order. */
  lemma {:induction false} ScrollSorted(s: seq<Pipe>)
    requires SortedByX(s)
    ensures SortedByX(Scroll(s))
  {
    if s != [] {
      var t := Scroll(s[1..]);
      ScrollSorted(s[1..]);
      var p := Shift(s[0]);
      if OnScreen(p) {
        forall j | 0 <= j < |t|
          ensures p.x <= t[j].x
        {
          ScrollMembers(s[1..], t[j]);
          var k :| 0 <= k < |s[1..]| && t[j] == Shift(s[1..][k]) && OnScreen(t[j]);
          assert s[1..][k] == s[k + 1];
        }
        assert Scroll(s) == [p] + t;
      } else {
        assert Scroll(s) == t;
      }
    }
  }

  /** Scrolling keeps every pipe well-formed. */
  lemma ScrollWellFormed(s: seq<Pipe>, width: real, height: real)
    requires forall p | p in s :: WellFormed(p, width, height)
    ensures forall q | q in Scroll(s) :: WellFormed(q, width, height)
  {
    forall q | q in Scroll(s)
      ensures WellFormed(q, width, height)
    {
      ScrollMembers(s, q);
      var i :| 0 <= i < |s| && q == Shift(s[i]) && OnScreen(q);
      assert s[i] in s;
    }
  }

  predicate SpawnsAt(frame: nat)
  {
    frame % SpawnInterval == 0
  }

  /** How many of the `n` frames `start`, ..., `start + n - 1` spawn a pipe. */
  function SpawnCount(start: nat, n: nat): nat
  {
    if n == 0 then 0
    else SpawnCount(start, n - 1) + (if SpawnsAt(start + n - 1) then 1 else 0)
  }

  /** The spawn cadence: the multiples of `SpawnInterval` in a window of
      frames; for a run starting on a spawn frame, one spawn frame at once and
      then one every `SpawnInterval` ticks. */
  lemma {:induction false} SpawnCadence(start: nat, n: nat)
    ensures SpawnCount(start, n)
         == (start + n + SpawnInterval - 1) / SpawnInterval - (start + SpawnInterval - 1) / SpawnInterval
    ensures SpawnsAt(start) && n > 0 ==> SpawnCount(start, n) == (n - 1) / SpawnInterval + 1
  {
    if n > 0 {
      SpawnCadence(start, n - 1);
      var k := start + n - 1;
      var q, m := k / 90, k % 90;
      assert k == 90 * q + m;
      assert (k + 90) / 90 == q + 1;
      assert (k + 89) / 90 == if m == 0 then q else q + 1;
    }
    if start % 90 == 0 && n > 0 {
      var a := start / 90;
      assert start + n + 89 == 90 * (a + 1) + (n - 1);
      assert (start + n + 89) / 90 == a + 1 + (n - 1) / 90;
      assert (start + 89) / 90 == a;
    }
  }

  /** A pipe spawned on a tick survives that tick's scroll: it ends up, moved
      left once, at the end of the list, after the scrolled older pipes. So
      every spawn frame of a running tick adds exactly one pipe. */
  lemma SpawnSurvivesScroll(s: seq<Pipe>, r: real, width: real, height: real)
    requires 0.0 <= r < 1.0 && width > 0.0
    ensures Scroll(s + [SpawnedPipe(r, width, height)]) == Scroll(s) + [Shift(SpawnedPipe(r, width, height))]
  {
    var p := SpawnedPipe(r, width, height);
    ScrollAppend(s, [p]);
    assert [p][1..] == [];
  }
}

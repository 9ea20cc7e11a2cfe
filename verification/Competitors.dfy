// The two competitor agents: side effects counted in one file, finished steps
// remembered in another, and a memory file kept within a budget.
module Competitors {
  import opened Types
  import opened Text

  // ----- the protocol of one run, and of any sequence of restarts -----

  function Range(n: nat): (r: seq<nat>)
    ensures |r| == n && forall i :: 0 <= i < n ==> r[i] == i
  {
    seq(n, i => i)
  }

  function Line(step: nat): string { "did step-" + Show(step) }

  // Durable progress: the first `done` steps are recorded as completed, and the
  // effects fired so far left these lines, oldest first.
  datatype Progress = Progress(done: nat, fired: seq<string>, crashes: nat)

  const FRESH: Progress := Progress(0, [], 0)

  // The lines of the steps lo..hi.
  function Lines(lo: nat, hi: nat): (r: seq<string>)
    requires lo <= hi
    ensures |r| == hi - lo
  {
    seq(hi - lo, i requires 0 <= i < hi - lo => Line(lo + i))
  }

  predicate Crashes(p: Progress, n: nat, crashAt: int) { p.done <= crashAt < n }

  // A run fires every step not yet completed; the step it crashes in has fired
  // but is not recorded.
  function AfterRun(p: Progress, n: nat, crashAt: int): Progress
    requires p.done <= n
  {
    if Crashes(p, n, crashAt) then Progress(crashAt, p.fired + Lines(p.done, crashAt + 1), p.crashes + 1)
    else Progress(n, p.fired + Lines(p.done, n), p.crashes)
  }

  function AfterRuns(p: Progress, n: nat, crashPoints: seq<int>): (q: Progress)
    requires p.done <= n
    ensures p.done <= q.done <= n
    decreases |crashPoints|
  {
    if crashPoints == [] then p else AfterRuns(AfterRun(p, n, crashPoints[0]), n, crashPoints[1..])
  }

  // For any number of steps and any sequence of restarts, wherever each of them
  // crashes: effects fired = steps completed + crashes hit.
  lemma {:induction false} EffectsAreStepsPlusCrashes(p: Progress, n: nat, crashPoints: seq<int>)
    requires p.done <= n && |p.fired| == p.done + p.crashes
    ensures var q := AfterRuns(p, n, crashPoints); |q.fired| == q.done + q.crashes
    decreases |crashPoints|
  {
    if crashPoints != [] {
      EffectsAreStepsPlusCrashes(AfterRun(p, n, crashPoints[0]), n, crashPoints[1..]);
    }
  }

  // So a run that finishes has overcounted by exactly the crashes before it.
  lemma OvercountIsCrashes(n: nat, crashPoints: seq<int>, last: int)
    requires !Crashes(AfterRuns(FRESH, n, crashPoints), n, last)
    ensures var q := AfterRun(AfterRuns(FRESH, n, crashPoints), n, last);
            q.done == n && |q.fired| == n + AfterRuns(FRESH, n, crashPoints).crashes
  {
    EffectsAreStepsPlusCrashes(FRESH, n, crashPoints);
  }

  // Each crash repeats one step: a step fires once for its completion and once
  // for every crash inside it.
  function Firings(lines: seq<string>, step: nat): nat {
    if lines == [] then 0 else Firings(lines[..|lines| - 1], step) + if lines[|lines| - 1] == Line(step) then 1 else 0
  }

  function CrashesIn(p: Progress, n: nat, crashPoints: seq<int>, step: nat): nat
    requires p.done <= n
    decreases |crashPoints|
  {
    if crashPoints == [] then 0
    else
      (if Crashes(p, n, crashPoints[0]) && crashPoints[0] == step then 1 else 0)
      + CrashesIn(AfterRun(p, n, crashPoints[0]), n, crashPoints[1..], step)
  }

  lemma LineInjective(a: nat, b: nat)
    requires Line(a) == Line(b)
    ensures a == b
  {
    assert Line(a)[|"did step-"|..] == Show(a);
    assert Line(b)[|"did step-"|..] == Show(b);
    ShowInjective(a, b);
  }

  lemma {:induction false} FiringsOfLines(before: seq<string>, lo: nat, hi: nat, step: nat)
    requires lo <= hi
    ensures Firings(before + Lines(lo, hi), step) == Firings(before, step) + if lo <= step < hi then 1 else 0
    decreases hi
  {
    if lo == hi {
      assert before + Lines(lo, hi) == before;
    } else {
      var all := before + Lines(lo, hi);
      assert all[..|all| - 1] == before + Lines(lo, hi - 1);
      assert all[|all| - 1] == Line(hi - 1);
      FiringsOfLines(before, lo, hi - 1, step);
      if Line(hi - 1) == Line(step) { LineInjective(hi - 1, step); }
    }
  }

  lemma {:induction false} EachCrashRepeatsItsStep(p: Progress, n: nat, crashPoints: seq<int>, step: nat)
    requires p.done <= n
    ensures var q := AfterRuns(p, n, crashPoints);
            var completed := if p.done <= step < q.done then 1 else 0;
            Firings(q.fired, step) == Firings(p.fired, step) + completed + CrashesIn(p, n, crashPoints, step)
    decreases |crashPoints|
  {
    if crashPoints != [] {
      var c := crashPoints[0];
      if Crashes(p, n, c) {
        FiringsOfLines(p.fired, p.done, c + 1, step);
      } else {
        FiringsOfLines(p.fired, p.done, n, step);
      }
      EachCrashRepeatsItsStep(AfterRun(p, n, c), n, crashPoints[1..], step);
    }
  }

  // ----- memory within a budget -----

  const CHAR_BUDGET: nat := 2200
  const BOOTSTRAP_BUDGET: nat := 8

  // Characters written for these lines, one newline each.
  function Size(lines: seq<string>): nat {
    if lines == [] then 0 else |lines[0]| + 1 + Size(lines[1..])
  }

  predicate IsSuffix(a: seq<string>, b: seq<string>) { |a| <= |b| && a == b[|b| - |a|..] }

  function TrimMemory(lines: seq<string>, budget: nat): seq<string> {
    if lines != [] && Size(lines) > budget then TrimMemory(lines[1..], budget) else lines
  }

  lemma {:induction false} SizeOfSuffix(lines: seq<string>, k: nat)
    requires k <= |lines|
    ensures Size(lines[k..]) <= Size(lines)
  {
    if k == 0 {
      assert lines[0..] == lines;
    } else {
      SizeOfSuffix(lines[1..], k - 1);
      assert lines[1..][k - 1..] == lines[k..];
    }
  }

  // The kept lines are the longest suffix within the budget.
  lemma {:induction false} TrimIsLongestSuffix(lines: seq<string>, budget: nat, k: nat)
    requires k <= |lines|
    ensures IsSuffix(TrimMemory(lines, budget), lines) && Size(TrimMemory(lines, budget)) <= budget
    ensures Size(lines[k..]) <= budget <==> |lines| - k <= |TrimMemory(lines, budget)|
  {
    if lines != [] && Size(lines) > budget {
      TrimIsLongestSuffix(lines[1..], budget, if k == 0 then 0 else k - 1);
      assert lines[0..] == lines;
      if k > 0 { assert lines[1..][k - 1..] == lines[k..]; }
    } else {
      SizeOfSuffix(lines, k);
    }
  }

  lemma {:induction false} SizeSnoc(lines: seq<string>, line: string)
    ensures Size(lines + [line]) == Size(lines) + |line| + 1
  {
    if lines == [] {
      assert lines + [line] == [line];
    } else {
      assert (lines + [line])[1..] == lines[1..] + [line];
      SizeSnoc(lines[1..], line);
    }
  }

  // Trimming at every save is trimming the whole history once.
  lemma {:induction false} TrimIncrementally(lines: seq<string>, line: string, budget: nat)
    ensures TrimMemory(TrimMemory(lines, budget) + [line], budget) == TrimMemory(lines + [line], budget)
  {
    if lines != [] && Size(lines) > budget {
      TrimIncrementally(lines[1..], line, budget);
      SizeSnoc(lines, line);
      assert (lines + [line])[1..] == lines[1..] + [line];
    }
  }

  // The last lines of a history.
  function LastLines(lines: seq<string>, k: nat): seq<string> {
    if |lines| <= k then lines else lines[|lines| - k..]
  }

  // A suffix that still holds the last k lines of a history.
  predicate Covers(kept: seq<string>, history: seq<string>, k: nat) {
    IsSuffix(kept, history) && (|kept| >= k || kept == history)
  }

  lemma LastOfCover(kept: seq<string>, history: seq<string>, line: string, k: nat)
    requires Covers(kept, history, k)
    ensures Covers(kept + [line], history + [line], k)
    ensures LastLines(kept + [line], k) == LastLines(history + [line], k)
  {
    assert (history + [line])[|history| - |kept|..] == kept + [line];
  }

  lemma LastCovers(history: seq<string>, k: nat)
    ensures Covers(LastLines(history, k), history, k)
  {
  }

  // ----- the agents -----

  datatype SavedState = SavedState(completed: seq<nat>, memory: seq<string>)

  datatype Outcome = Killed | Finished(completed: seq<nat>, sideEffectCount: nat)

  // What a run answers: nothing if it is killed.
  function Reported(p: Progress, n: nat, crashAt: int): Outcome
    requires p.done <= n
  {
    if Crashes(p, n, crashAt) then Killed else Finished(Range(n), |AfterRun(p, n, crashAt).fired|)
  }

  // One step fired: recorded as completed, or cut off by a crash.
  function Fired(p: Progress, crash: bool): Progress {
    Progress(if crash then p.done else p.done + 1, p.fired + [Line(p.done)], if crash then p.crashes + 1 else p.crashes)
  }

  // How far a run from base has come when it has dealt with the steps before
  // this one.
  predicate Underway(base: Progress, p: Progress, step: nat) {
    p.done == (if step < base.done then base.done else step) && p.crashes == base.crashes
    && p.fired == base.fired + Lines(base.done, p.done)
  }

  lemma OneMore(base: Progress, p: Progress, n: nat, crashAt: int)
    requires base.done <= p.done < n && Underway(base, p, p.done) && !(base.done <= crashAt < p.done)
    ensures Underway(base, Fired(p, false), p.done + 1)
    ensures crashAt == p.done ==> Fired(p, true) == AfterRun(base, n, crashAt)
    ensures Range(p.done) + [p.done] == Range(p.done + 1)
  {
    assert Lines(base.done, p.done) + [Line(p.done)] == Lines(base.done, p.done + 1);
    Glue(base.fired, Lines(base.done, p.done), [Line(p.done)]);
  }

  lemma RunEnds(base: Progress, p: Progress, n: nat, crashAt: int)
    requires base.done <= n && Underway(base, p, n) && !(base.done <= crashAt < n)
    ensures p == AfterRun(base, n, crashAt) && p.done == n && !Crashes(base, n, crashAt)
  {
  }

  lemma UnderwayAtStart(base: Progress)
    ensures Underway(base, base, 0)
  {
    assert base.fired + Lines(base.done, base.done) == base.fired;
  }

  class HermesAgent {
    var stateFile: Option<SavedState>
    var memoryFile: seq<string>
    var counterFile: Option<nat>
    ghost var progress: Progress

    // The files say how far the history has come; before the first run there
    // need be none.
    ghost predicate Valid(n: nat)
      reads this
    {
      && progress.done <= n && |progress.fired| == progress.done + progress.crashes
      && (counterFile == Some(|progress.fired|) || (counterFile.None? && progress == FRESH))
      && (stateFile == Some(SavedState(Range(progress.done), TrimMemory(progress.fired, CHAR_BUDGET)))
          || (stateFile.None? && progress == FRESH))
    }

    method Bump()
      modifies this`counterFile
      ensures counterFile == Some(if old(counterFile).Some? then old(counterFile).value + 1 else 1)
    {
      var current := if counterFile.Some? then counterFile.value else 0;
      counterFile := Some(current + 1);
    }

    // Trims before writing: the state file and the memory file hold the same.
    method SaveState(completed: seq<nat>, memory: seq<string>) returns (kept: seq<string>)
      modifies this`stateFile, this`memoryFile
      ensures kept == TrimMemory(memory, CHAR_BUDGET) && stateFile == Some(SavedState(completed, kept))
              && memoryFile == kept
    {
      kept := memory;
      while kept != [] && Size(kept) > CHAR_BUDGET
        invariant TrimMemory(kept, CHAR_BUDGET) == TrimMemory(memory, CHAR_BUDGET)
        decreases |kept|
      {
        kept := kept[1..];
      }
      stateFile := Some(SavedState(completed, kept));
      memoryFile := kept;
    }

    // Fires one step and saves; a crash strikes between the save and the record.
    method RunStep(completed: seq<nat>, memory: seq<string>, crash: bool)
      returns (completed': seq<nat>, memory': seq<string>)
      requires counterFile == Some(|progress.fired|) || (counterFile.None? && progress == FRESH)
      requires |progress.fired| == progress.done + progress.crashes
      requires completed == Range(progress.done) && memory == TrimMemory(progress.fired, CHAR_BUDGET)
      modifies this
      ensures progress == Fired(old(progress), crash) && Valid(progress.done)
      ensures completed' == Range(progress.done) && memory' == TrimMemory(progress.fired, CHAR_BUDGET)
      ensures counterFile == Some(|progress.fired|)
    {
      TrimIncrementally(progress.fired, Line(progress.done), CHAR_BUDGET);
      var step := |completed|;
      Bump();
      memory' := memory + [Line(step)];
      completed' := if crash then completed else completed + [step];
      assert completed + [step] == Range(step + 1);
      memory' := SaveState(completed', memory');
      progress := Fired(progress, crash);
    }

    method RunWorkload(n: nat, crashAt: int, resume: bool) returns (r: Outcome)
      requires n > 0 && (resume ==> Valid(n))
      modifies this
      ensures Valid(n)
      ensures var p := if resume then old(progress) else FRESH;
              progress == AfterRun(p, n, crashAt) && r == Reported(p, n, crashAt)
    {
      hide Lines, Line, Range, AfterRun;
      var state := if resume && stateFile.Some? then stateFile.value else SavedState([], []);
      if !resume { counterFile := Some(0); }
      ghost var base := if resume then progress else FRESH;
      progress := base;
      var completed, memory := state.completed, state.memory;
      UnderwayAtStart(base);
      for step := 0 to n
        invariant Underway(base, progress, step) && progress.done <= n && !(base.done <= crashAt < step)
        invariant completed == Range(progress.done) && memory == TrimMemory(progress.fired, CHAR_BUDGET)
        invariant |progress.fired| == progress.done + progress.crashes
        invariant if resume || step > 0 then Valid(n) else counterFile == Some(0) && progress == FRESH
      {
        if step < progress.done { assert completed[step] == step; }
        if step in completed { continue; }
        OneMore(base, progress, n, crashAt);
        completed, memory := RunStep(completed, memory, crashAt == step);
        if crashAt == step { return Killed; }
      }
      RunEnds(base, progress, n, crashAt);
      r := Finished(completed, counterFile.value);
    }
  }

  class OpenClawAgent {
    var stateFile: Option<SavedState>
    var memoryFile: seq<string>
    var counterFile: Option<nat>
    ghost var progress: Progress

    // The state file may hold more than the budget; the memory file never does.
    ghost predicate Valid(n: nat)
      reads this
    {
      && progress.done <= n && |progress.fired| == progress.done + progress.crashes
      && (counterFile == Some(|progress.fired|) || (counterFile.None? && progress == FRESH))
      && match stateFile
         case None => progress == FRESH
         case Some(s) =>
           && s.completed == Range(progress.done) && Covers(s.memory, progress.fired, BOOTSTRAP_BUDGET)
           && memoryFile == LastLines(progress.fired, BOOTSTRAP_BUDGET)
    }

    method Bump()
      modifies this`counterFile
      ensures counterFile == Some(if old(counterFile).Some? then old(counterFile).value + 1 else 1)
    {
      var current := if counterFile.Some? then counterFile.value else 0;
      counterFile := Some(current + 1);
    }

    // Writes the state first and trims afterwards.
    method SaveState(completed: seq<nat>, memory: seq<string>) returns (kept: seq<string>)
      modifies this`stateFile, this`memoryFile
      ensures kept == LastLines(memory, BOOTSTRAP_BUDGET) && stateFile == Some(SavedState(completed, memory))
              && memoryFile == kept
    {
      stateFile := Some(SavedState(completed, memory));
      kept := memory;
      while |kept| > BOOTSTRAP_BUDGET
        invariant LastLines(kept, BOOTSTRAP_BUDGET) == LastLines(memory, BOOTSTRAP_BUDGET)
        decreases |kept|
      {
        kept := kept[1..];
      }
      memoryFile := kept;
    }

    // Fires one step and saves; a crash strikes between the save and the record.
    method RunStep(completed: seq<nat>, memory: seq<string>, crash: bool)
      returns (completed': seq<nat>, memory': seq<string>)
      requires counterFile == Some(|progress.fired|) || (counterFile.None? && progress == FRESH)
      requires |progress.fired| == progress.done + progress.crashes
      requires completed == Range(progress.done) && Covers(memory, progress.fired, BOOTSTRAP_BUDGET)
      modifies this
      ensures progress == Fired(old(progress), crash) && Valid(progress.done)
      ensures completed' == Range(progress.done) && Covers(memory', progress.fired, BOOTSTRAP_BUDGET)
      ensures counterFile == Some(|progress.fired|)
    {
      hide LastLines, Covers, Show, Line;
      LastOfCover(memory, progress.fired, Line(progress.done), BOOTSTRAP_BUDGET);
      LastCovers(progress.fired + [Line(progress.done)], BOOTSTRAP_BUDGET);
      var step := |completed|;
      Bump();
      memory' := memory + [Line(step)];
      completed' := if crash then completed else completed + [step];
      assert completed + [step] == Range(step + 1);
      memory' := SaveState(completed', memory');
      progress := Fired(progress, crash);
    }

    method RunWorkload(n: nat, crashAt: int, resume: bool) returns (r: Outcome)
      requires n > 0 && (resume ==> Valid(n))
      modifies this
      ensures Valid(n)
      ensures var p := if resume then old(progress) else FRESH;
              progress == AfterRun(p, n, crashAt) && r == Reported(p, n, crashAt)
    {
      hide Lines, Line, Range, AfterRun, Covers;
      LastCovers([], BOOTSTRAP_BUDGET);
      var state := if resume && stateFile.Some? then stateFile.value else SavedState([], []);
      if !resume { counterFile := Some(0); }
      ghost var base := if resume then progress else FRESH;
      progress := base;
      var completed, memory := state.completed, state.memory;
      UnderwayAtStart(base);
      for step := 0 to n
        invariant Underway(base, progress, step) && progress.done <= n && !(base.done <= crashAt < step)
        invariant completed == Range(progress.done) && Covers(memory, progress.fired, BOOTSTRAP_BUDGET)
        invariant |progress.fired| == progress.done + progress.crashes
        invariant if resume || step > 0 then Valid(n) else counterFile == Some(0) && progress == FRESH
      {
        if step < progress.done { assert completed[step] == step; }
        if step in completed { continue; }
        OneMore(base, progress, n, crashAt);
        completed, memory := RunStep(completed, memory, crashAt == step);
        if crashAt == step { return Killed; }
      }
      RunEnds(base, progress, n, crashAt);
      r := Finished(completed, counterFile.value);
    }
  }
}

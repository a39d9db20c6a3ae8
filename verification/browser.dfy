/**
 * The browser driver, seen from the scripts: an oracle that answers each
 * interaction with success or an exception, and a trace of the interactions
 * that took effect, in order.
 */
module Browser {
  import opened Wrappers
  import opened Values

  /** Selenium's `By` strategies. */
  datatype Strategy = Id | Name | LinkText | XPath | CssSelector | TagName

  /** How an element is found; two locators are the same element iff they are equal. */
  datatype Locator = Locator(strategy: Strategy, selector: string)

  /**
   * One interaction that took effect. `Locate` is a `wait_for_element` that
   * found its element; `Click` on a locator is either a click on an element
   * already found or `wait_for_clickable(locator).click()`, one interaction.
   */
  datatype Action =
    | Navigate(url: string)
    | Locate(loc: Locator)
    | Click(loc: Locator)
    | Clear(loc: Locator)
    | SendKeys(loc: Locator, text: Value)
    | SelectByText(loc: Locator, text: Value)

  /** The driver's answer to one interaction. */
  datatype Answer = Succeeds | Throws(message: string)

  /** How a Python call ends: normally, or with an exception. */
  datatype Outcome = Done | Raised(error: PyError)

  /** How many times a step is attempted before its failure is raised: once, or up to a retry limit. */
  type Tries = n: nat | 1 <= n witness 1

  /**
   * What a straight-line flow does when the driver never fails: the actions
   * in order, how many attempts each gets, and the exception (a failed
   * dictionary lookup) that ends the flow early, if any.
   */
  datatype Plan = Plan(actions: seq<Action>, tries: seq<Tries>, error: Option<PyError>) {
    /** This plan followed by `next`, unless this one ends in an exception. */
    function Then(next: Plan): (p: Plan)
      ensures error.Some? ==> p == this
      ensures error.None? ==> p.actions == actions + next.actions && p.tries == tries + next.tries && p.error == next.error
    {
      if error.Some? then this else Plan(actions + next.actions, tries + next.tries, next.error)
    }

    /** How the flow ends when every action succeeds. */
    function Finish(): Outcome {
      if error.Some? then Raised(error.value) else Done
    }
  }

  /** One interaction, attempted once. */
  function Step(a: Action): Plan {
    Plan([a], [1], None)
  }

  /** One interaction, attempted until it succeeds, at most `n` times. */
  function Retried(a: Action, n: Tries): Plan {
    Plan([a], [n], None)
  }

  /** Interactions attempted once each, in order. */
  function Steps(actions: seq<Action>): Plan {
    Plan(actions, seq(|actions|, _ => 1), None)
  }

  function Stop(e: PyError): Plan {
    Plan([], [], Some(e))
  }

  function Skip(): Plan {
    Plan([], [], None)
  }

  /** Every action of `p` is attempted once. */
  predicate Once(p: Plan) {
    p.tries == seq(|p.actions|, _ => 1)
  }

  /** Two plans whose actions are attempted once make a plan whose actions are attempted once. */
  lemma OnceThen(p: Plan, q: Plan)
    requires Once(p) && Once(q)
    ensures Once(p.Then(q))
  {
    if p.error.None? {
      assert seq(|p.actions|, _ => 1) + seq(|q.actions|, _ => 1) == seq(|p.actions| + |q.actions|, _ => 1);
    }
  }

  /** Where a flow stands with the driver: how many interactions it has answered, and those that took effect. */
  datatype Mark = Mark(asked: nat, trace: seq<Action>)

  /**
   * The number of attempts a step makes when its attempts, from the
   * `start`-th interaction on, are answered by `script` and at most `left`
   * remain: it stops at the first success, and after `left` attempts.
   */
  function Attempts(script: seq<Answer>, start: nat, left: nat): (n: nat)
    requires left >= 1
    ensures 1 <= n <= left
    decreases left
  {
    if AnswerIn(script, start).Succeeds? || left == 1 then 1
    else 1 + Attempts(script, start + 1, left - 1)
  }

  /** Every attempt but the last failed, and the last succeeded or was the final one allowed. */
  lemma {:induction false} AttemptsEnd(script: seq<Answer>, start: nat, left: nat)
    requires left >= 1
    ensures var n := Attempts(script, start, left);
            && (forall i :: start <= i < start + n - 1 ==> AnswerIn(script, i).Throws?)
            && (AnswerIn(script, start + n - 1).Succeeds? || n == left)
    decreases left
  {
    if !(AnswerIn(script, start).Succeeds? || left == 1) {
      AttemptsEnd(script, start + 1, left - 1);
    }
  }

  /** An attempt that succeeds ends the retries: the first success is the last attempt. */
  lemma {:induction false} AttemptsFirstSuccess(script: seq<Answer>, start: nat, left: nat, k: nat)
    requires k < left
    requires AnswerIn(script, start + k).Succeeds?
    requires forall i :: start <= i < start + k ==> AnswerIn(script, i).Throws?
    ensures Attempts(script, start, left) == k + 1
    decreases left
  {
    if k > 0 {
      assert AnswerIn(script, start).Throws?;
      assert start + 1 + (k - 1) == start + k;
      AttemptsFirstSuccess(script, start + 1, left - 1, k - 1);
    }
  }

  /** When every attempt fails, all of them are made. */
  lemma {:induction false} AttemptsAllFail(script: seq<Answer>, start: nat, left: nat)
    requires left >= 1
    requires forall i :: start <= i < start + left ==> AnswerIn(script, i).Throws?
    ensures Attempts(script, start, left) == left
    decreases left
  {
    if left > 1 {
      assert AnswerIn(script, start).Throws?;
      AttemptsAllFail(script, start + 1, left - 1);
    }
  }

  /** How far a flow gets: the steps that took effect, the answers it used, and whether a step failed. */
  datatype Progress = Progress(done: nat, used: nat, failed: bool)

  /**
   * How a flow whose steps get `tries` attempts fares against `script` from
   * its `at`-th answer on: each step takes answers until one succeeds or its
   * attempts run out, and the first step whose last attempt fails ends it.
   */
  function Follow(script: seq<Answer>, at: nat, tries: seq<Tries>): (p: Progress)
    ensures p.done <= |tries| && p.done <= p.used
    ensures p.failed <==> p.done < |tries|
    ensures p.failed ==> 1 <= p.used && AnswerIn(script, at + p.used - 1).Throws?
    decreases |tries|
  {
    if tries == [] then Progress(0, 0, false)
    else
      var n := Attempts(script, at, tries[0]);
      if AnswerIn(script, at + n - 1).Throws? then Progress(0, n, true)
      else
        var rest := Follow(script, at + n, tries[1..]);
        Progress(rest.done + 1, n + rest.used, rest.failed)
  }

  /** Following two lists of steps in turn: the second starts where the first ended, unless the first failed. */
  lemma {:induction false} FollowThen(script: seq<Answer>, at: nat, t1: seq<Tries>, t2: seq<Tries>)
    ensures Follow(script, at, t1).failed ==> Follow(script, at, t1 + t2) == Follow(script, at, t1)
    ensures !Follow(script, at, t1).failed ==>
              Follow(script, at, t1 + t2)
              == Progress(Follow(script, at, t1).done + Follow(script, at + Follow(script, at, t1).used, t2).done,
                          Follow(script, at, t1).used + Follow(script, at + Follow(script, at, t1).used, t2).used,
                          Follow(script, at + Follow(script, at, t1).used, t2).failed)
    decreases |t1|
  {
    if t1 == [] {
      assert t1 + t2 == t2;
    } else {
      var t := t1 + t2;
      assert t[0] == t1[0] && t[1..] == t1[1..] + t2;
      var n := Attempts(script, at, t1[0]);
      if AnswerIn(script, at + n - 1).Succeeds? {
        FollowThen(script, at + n, t1[1..], t2);
      }
    }
  }

  /**
   * The trace went from `before` to `after` by following `plan` until the
   * driver first failed: what was done is a prefix of the plan; the outcome
   * is the plan's own when all of it was done, and a driver exception
   * otherwise.
   */
  ghost predicate Traced(before: seq<Action>, after: seq<Action>, plan: Plan, r: Outcome) {
    && before <= after
    && after[|before|..] <= plan.actions
    && (after[|before|..] == plan.actions ==> r == plan.Finish())
    && (after[|before|..] != plan.actions ==> r.Raised? && r.error.DriverError?)
  }

  /**
   * The driver went from `before` to `after` by following `plan` against its
   * script: each step was attempted until it succeeded or ran out of
   * attempts, and the first step whose last attempt failed ended the flow.
   * Exactly the answers that walk used were consumed, exactly the steps that
   * succeeded took effect, and the outcome is that last answer's exception,
   * or the plan's own when every step succeeded. (Every plan is built from
   * `Step`, `Retried`, `Steps`, `Stop` and `Skip` with `Then`, and so lists
   * one attempt count per action.)
   */
  ghost predicate Ran(script: seq<Answer>, before: Mark, after: Mark, plan: Plan, r: Outcome) {
    && var p := Follow(script, before.asked, plan.tries);
       && p.done <= |plan.actions|
       && (p.failed <==> p.done < |plan.actions|)
       && after.asked == before.asked + p.used
       && after.trace == before.trace + plan.actions[..p.done]
       && r == (if p.failed then Raised(DriverError(AnswerIn(script, after.asked - 1).message)) else plan.Finish())
  }

  /** What a run did, seen from the trace alone. */
  lemma RanTraced(script: seq<Answer>, before: Mark, after: Mark, plan: Plan, r: Outcome)
    requires Ran(script, before, after, plan, r)
    ensures Traced(before.trace, after.trace, plan, r)
  {
    var p := Follow(script, before.asked, plan.tries);
    assert after.trace[|before.trace|..] == plan.actions[..p.done];
  }

  /** A flow run against a driver that answered every interaction with success did all of its plan. */
  lemma RanAllSucceeded(script: seq<Answer>, before: Mark, after: Mark, plan: Plan, r: Outcome)
    requires Ran(script, before, after, plan, r)
    requires forall i :: before.asked <= i < after.asked ==> AnswerIn(script, i).Succeeds?
    ensures after.trace == before.trace + plan.actions && r == plan.Finish()
  {
    if Follow(script, before.asked, plan.tries).failed {
      assert false;
    }
    assert plan.actions[..|plan.actions|] == plan.actions;
  }

  /** All of a list, taken as a prefix. */
  lemma TakeAll(a: seq<Action>)
    ensures a[..|a|] == a
  {
  }

  /** A prefix of `a + b` that covers `a`. */
  lemma TakeAfter(a: seq<Action>, b: seq<Action>, k: nat)
    requires k <= |b|
    ensures (a + b)[..|a| + k] == a + b[..k]
  {
  }

  /** Completing one plan and then running the next runs their sequence. */
  lemma RanThen(script: seq<Answer>, m0: Mark, m1: Mark, m2: Mark, p: Plan, q: Plan, r: Outcome)
    requires Ran(script, m0, m1, p, Done) && Ran(script, m1, m2, q, r)
    ensures Ran(script, m0, m2, p.Then(q), r)
  {
    var pp := Follow(script, m0.asked, p.tries);
    assert !pp.failed && p.error.None?;
    FollowThen(script, m0.asked, p.tries, q.tries);
    TakeAll(p.actions);
    TakeAfter(p.actions, q.actions, Follow(script, m1.asked, q.tries).done);
  }

  /** A flow that stopped with an exception has run every plan that extends its own. */
  lemma RanHalt(script: seq<Answer>, m0: Mark, m1: Mark, p: Plan, q: Plan, r: Outcome)
    requires Ran(script, m0, m1, p, r) && r.Raised?
    ensures Ran(script, m0, m1, p.Then(q), r)
  {
    if p.error.None? {
      FollowThen(script, m0.asked, p.tries, q.tries);
      var pp := Follow(script, m0.asked, p.tries);
      assert (p.actions + q.actions)[..pp.done] == p.actions[..pp.done];
    }
  }

  /** The first `k` of `stages`, each run after the one before. */
  function Chain(stages: seq<Plan>, k: nat): Plan
    requires k <= |stages|
  {
    if k == 0 then Skip() else Chain(stages, k - 1).Then(stages[k - 1])
  }

  /**
   * A chain that has run its first `k` stages and then runs the next has run
   * its first `j`, which is `k + 1` (a parameter of its own, so that callers
   * name both counts as literals).
   */
  lemma RanChainNext(script: seq<Answer>, m0: Mark, mid: Mark, m1: Mark, stages: seq<Plan>, k: nat, j: nat, r: Outcome)
    requires j == k + 1 && j <= |stages|
    requires Ran(script, m0, mid, Chain(stages, k), Done) && Ran(script, mid, m1, stages[k], r)
    ensures Ran(script, m0, m1, Chain(stages, j), r)
  {
    ChainNext(stages, k, j);
    RanThen(script, m0, mid, m1, Chain(stages, k), stages[k], r);
  }

  /** One more stage of a chain. */
  lemma ChainNext(stages: seq<Plan>, k: nat, j: nat)
    requires j == k + 1 && j <= |stages|
    ensures Chain(stages, j) == Chain(stages, k).Then(stages[k])
  {
  }

  /** A chain that raised within its first `k` stages has run the whole chain. */
  lemma {:induction false} RanChainHalt(script: seq<Answer>, m0: Mark, m1: Mark, stages: seq<Plan>, k: nat, r: Outcome)
    requires k <= |stages| && r.Raised?
    requires Ran(script, m0, m1, Chain(stages, k), r)
    ensures Ran(script, m0, m1, Chain(stages, |stages|), r)
    decreases |stages| - k
  {
    if k < |stages| {
      RanHalt(script, m0, m1, Chain(stages, k), stages[k], r);
      RanChainHalt(script, m0, m1, stages, k + 1, r);
    }
  }

  /** A step that does nothing with the driver and goes on: no answer is consumed. */
  lemma RanSkip(script: seq<Answer>, m: Mark)
    ensures Ran(script, m, m, Skip(), Done)
  {
    assert Skip().actions[..0] == [];
  }

  /** A failed lookup before any interaction: it raises its own error and consumes no answer. */
  lemma RanStop(script: seq<Answer>, m: Mark, e: PyError)
    ensures Ran(script, m, m, Stop(e), Raised(e))
  {
    assert Stop(e).actions[..0] == [];
  }

  /**
   * A flow that catches every exception and reports success as a bool: it
   * consumed the answers of its walk through the plan and did the steps that
   * succeeded, and `ok` holds iff every step succeeded and the plan ends
   * without an exception.
   */
  ghost predicate RanCaught(script: seq<Answer>, before: Mark, after: Mark, plan: Plan, ok: bool) {
    && var p := Follow(script, before.asked, plan.tries);
       && p.done <= |plan.actions|
       && (p.failed <==> p.done < |plan.actions|)
       && after.asked == before.asked + p.used
       && after.trace == before.trace + plan.actions[..p.done]
       && (ok <==> !p.failed && plan.error.None?)
  }

  /** Catching the outcome of a flow: it succeeded iff it ended normally. */
  lemma Caught(script: seq<Answer>, before: Mark, after: Mark, plan: Plan, r: Outcome)
    requires Ran(script, before, after, plan, r)
    ensures RanCaught(script, before, after, plan, r == Done)
  {
  }

  /** A caught flow whose driver answered every interaction with success, and whose plan raises nothing, reports success. */
  lemma CaughtAllSucceeded(script: seq<Answer>, before: Mark, after: Mark, plan: Plan, ok: bool)
    requires RanCaught(script, before, after, plan, ok)
    requires forall i :: before.asked <= i < after.asked ==> AnswerIn(script, i).Succeeds?
    requires plan.error.None?
    ensures ok && after.trace == before.trace + plan.actions
  {
    if Follow(script, before.asked, plan.tries).failed {
      assert false;
    }
    assert plan.actions[..|plan.actions|] == plan.actions;
  }

  /** Checkbox state, assuming each click on an element toggles it. */
  function Toggled(initial: bool, trace: seq<Action>, loc: Locator): bool {
    if trace == [] then initial
    else
      var before := Toggled(initial, trace[..|trace| - 1], loc);
      if trace[|trace| - 1] == Click(loc) then !before else before
  }

  /** The state after two stretches of actions is the second applied to the first. */
  lemma {:induction false} ToggledAppend(initial: bool, t: seq<Action>, u: seq<Action>, loc: Locator)
    ensures Toggled(initial, t + u, loc) == Toggled(Toggled(initial, t, loc), u, loc)
    decreases |u|
  {
    if u != [] {
      var w := u[..|u| - 1];
      assert (t + u)[..|t + u| - 1] == t + w;
      assert (t + u)[|t + u| - 1] == u[|u| - 1];
      ToggledAppend(initial, t, w, loc);
      var mid := Toggled(initial, t, loc);
      var last := u[|u| - 1];
      assert Toggled(initial, t + u, loc)
          == if last == Click(loc) then !Toggled(initial, t + w, loc) else Toggled(initial, t + w, loc);
      assert Toggled(mid, u, loc) == if last == Click(loc) then !Toggled(mid, w, loc) else Toggled(mid, w, loc);
    } else {
      assert t + u == t;
    }
  }

  /** Without a click on it, an element keeps its state. */
  lemma {:induction false} ToggledUnclicked(initial: bool, t: seq<Action>, loc: Locator)
    requires Click(loc) !in t
    ensures Toggled(initial, t, loc) == initial
    decreases |t|
  {
    if t != [] {
      ToggledUnclicked(initial, t[..|t| - 1], loc);
    }
  }

  /** Actions that do not click an element leave its state as it was. */
  lemma ToggledKept(initial: bool, t: seq<Action>, u: seq<Action>, loc: Locator)
    requires Click(loc) !in u
    ensures Toggled(initial, t + u, loc) == Toggled(initial, t, loc)
  {
    ToggledAppend(initial, t, u, loc);
    ToggledUnclicked(Toggled(initial, t, loc), u, loc);
  }

  /** A single click flips the state. */
  lemma {:induction false} ToggledOnce(initial: bool, t: seq<Action>, u: seq<Action>, loc: Locator)
    requires Click(loc) !in t && Click(loc) !in u
    ensures Toggled(initial, t + [Click(loc)] + u, loc) == !initial
  {
    ToggledUnclicked(initial, t, loc);
    ToggledAppend(initial, t, [Click(loc)] + u, loc);
    ToggledAppend(Toggled(initial, t, loc), [Click(loc)], u, loc);
    assert ([Click(loc)] + u)[..1] == [Click(loc)];
    ToggledUnclicked(!initial, u, loc);
    assert t + [Click(loc)] + u == t + ([Click(loc)] + u);
  }

  /** The state after a trace: the initial one, flipped iff the element was clicked an odd number of times. */
  lemma {:induction false} ToggledParity(initial: bool, t: seq<Action>, loc: Locator)
    ensures Toggled(initial, t, loc) == (initial != (multiset(t)[Click(loc)] % 2 == 1))
    decreases |t|
  {
    if t != [] {
      var w := t[..|t| - 1];
      ToggledParity(initial, w, loc);
      assert t == w + [t[|t| - 1]];
      assert multiset(t) == multiset(w) + multiset{t[|t| - 1]};
    }
  }

  /** Over a flow that ran to its end, an element flips iff the flow clicks it an odd number of times. */
  lemma ToggledRan(initial: bool, t0: seq<Action>, t1: seq<Action>, p: Plan, loc: Locator)
    requires Traced(t0, t1, p, Done)
    ensures Toggled(initial, t1, loc) == (Toggled(initial, t0, loc) != (multiset(p.actions)[Click(loc)] % 2 == 1))
  {
    assert t1 == t0 + p.actions;
    ToggledAppend(initial, t0, p.actions, loc);
    ToggledParity(Toggled(initial, t0, loc), p.actions, loc);
  }

  /**
   * A flow that ran to its end and clicked an element iff it was not in the
   * wanted state `b`, and then only once, leaves it in state `b`.
   */
  lemma ToggledTo(initial: bool, t0: seq<Action>, t1: seq<Action>, p: Plan, loc: Locator, b: bool)
    requires Traced(t0, t1, p, Done)
    requires multiset(p.actions)[Click(loc)] == if b == Toggled(initial, t0, loc) then 0 else 1
    ensures Toggled(initial, t1, loc) == b
  {
    ToggledRan(initial, t0, t1, p, loc);
  }

  /** The answer given to the `i`-th interaction; once the script runs out, every interaction succeeds. */
  function AnswerIn(script: seq<Answer>, i: nat): Answer {
    if i < |script| then script[i] else Succeeds
  }

  /**
   * The driver handle, shared by every page of a scenario. `script` answers
   * the interactions in order; `asked` counts the interactions so far.
   */
  class Driver {
    const script: seq<Answer>
    const initiallySelected: set<Locator>
    const texts: map<Locator, string>
    var asked: nat
    var trace: seq<Action>

    constructor (script: seq<Answer>, initiallySelected: set<Locator>, texts: map<Locator, string>)
      ensures this.script == script && this.initiallySelected == initiallySelected && this.texts == texts
      ensures asked == 0 && trace == []
    {
      this.script := script;
      this.initiallySelected := initiallySelected;
      this.texts := texts;
      asked := 0;
      trace := [];
    }

    /** The driver's answer count and trace. */
    function Now(): Mark
      reads this
    {
      Mark(asked, trace)
    }

    /** `element.is_selected()` for the element `loc` finds. */
    function IsSelected(loc: Locator): bool
      reads this
    {
      Toggled(loc in initiallySelected, trace, loc)
    }

    /** `element.text` for the element `loc` finds; an element showing nothing has the empty text. */
    function TextOf(loc: Locator): string {
      if loc in texts then texts[loc] else ""
    }

    /** Carries out one interaction; it takes effect iff the driver answers with success. */
    method Do(a: Action) returns (r: Outcome)
      modifies this
      ensures asked == old(asked) + 1
      ensures AnswerIn(script, old(asked)).Succeeds? ==> r == Done && trace == old(trace) + [a]
      ensures AnswerIn(script, old(asked)).Throws? ==>
                r == Raised(DriverError(AnswerIn(script, old(asked)).message)) && trace == old(trace)
      ensures Ran(script, old(Now()), Now(), Step(a), r)
    {
      var answer := AnswerIn(script, asked);
      asked := asked + 1;
      if answer.Succeeds? {
        trace := trace + [a];
        r := Done;
      } else {
        r := Raised(DriverError(answer.message));
      }
    }
  }
}

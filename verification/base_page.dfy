/**
 * The page-object base class: a page holds the shared driver handle and
 * offers `wait_for_element`, `click` and `type` on locators.
 */
module PageBase {
  import opened Wrappers
  import opened Values
  import opened Browser

  /**
   * What `type(locator, text, clear_first)` does: find the element, clear it
   * when asked, then send the text.
   */
  function TypePlan(loc: Locator, text: Value, clearFirst: bool): (p: Plan)
    ensures p.error.None?
    ensures |p.actions| >= 2 && p.actions[0] == Locate(loc) && p.actions[|p.actions| - 1] == SendKeys(loc, text)
    ensures Clear(loc) in p.actions <==> clearFirst
    ensures clearFirst ==> p.actions[|p.actions| - 2] == Clear(loc)
  {
    Step(Locate(loc)).Then(if clearFirst then Step(Clear(loc)) else Skip()).Then(Step(SendKeys(loc, text)))
  }

  /** Typing attempts each of its steps once. */
  lemma TypeOnce(loc: Locator, text: Value, clearFirst: bool)
    ensures Once(TypePlan(loc, text, clearFirst))
  {
    var first := Step(Locate(loc)).Then(if clearFirst then Step(Clear(loc)) else Skip());
    OnceThen(Step(Locate(loc)), if clearFirst then Step(Clear(loc)) else Skip());
    OnceThen(first, Step(SendKeys(loc, text)));
  }

  /**
   * The text an input field holds after a trace: the keys sent to it since it
   * was last cleared (the field starts empty).
   */
  function FieldText(trace: seq<Action>, loc: Locator): seq<Value> {
    if trace == [] then []
    else
      var before := FieldText(trace[..|trace| - 1], loc);
      var last := trace[|trace| - 1];
      if last == Clear(loc) then []
      else if last.SendKeys? && last.loc == loc then before + [last.text]
      else before
  }

  /**
   * Typing with `clear_first` leaves the field holding exactly the new text,
   * whatever it held before: setting a field this way is idempotent.
   */
  lemma TypeReplaces(t: seq<Action>, loc: Locator, text: Value)
    ensures FieldText(t + TypePlan(loc, text, true).actions, loc) == [text]
  {
    var u := t + TypePlan(loc, text, true).actions;
    assert u[..|u| - 1] == t + [Locate(loc), Clear(loc)];
    assert (t + [Locate(loc), Clear(loc)])[..|u| - 2] == t + [Locate(loc)];
  }

  /** Two `type` calls on one field in a row: only the second text remains. */
  lemma TypeTwice(t: seq<Action>, loc: Locator, first: Value, second: Value)
    ensures FieldText(t + TypePlan(loc, first, true).actions + TypePlan(loc, second, true).actions, loc) == [second]
  {
    TypeReplaces(t + TypePlan(loc, first, true).actions, loc, second);
  }

  class BasePage {
    const driver: Driver

    constructor (driver: Driver)
      ensures this.driver == driver
    {
      this.driver := driver;
    }

    /** `wait_for_element(locator)`. */
    method WaitForElement(loc: Locator) returns (r: Outcome)
      modifies driver
      ensures Ran(driver.script, old(driver.Now()), driver.Now(), Step(Locate(loc)), r)
    {
      r := driver.Do(Locate(loc));
    }

    /** `click(locator)`: `wait_for_clickable(locator).click()`, one attempt. */
    method Click(loc: Locator) returns (r: Outcome)
      modifies driver
      ensures Ran(driver.script, old(driver.Now()), driver.Now(), Step(Action.Click(loc)), r)
    {
      r := driver.Do(Action.Click(loc));
    }

    /** `type(locator, text, clear_first=True)`. */
    method Type(loc: Locator, text: Value, clearFirst: bool := true) returns (r: Outcome)
      modifies driver
      ensures Ran(driver.script, old(driver.Now()), driver.Now(), TypePlan(loc, text, clearFirst), r)
    {
      ghost var first := Step(Locate(loc));
      ghost var middle := if clearFirst then Step(Clear(loc)) else Skip();
      ghost var last := Step(SendKeys(loc, text));
      ghost var t0 := driver.Now();
      r := driver.Do(Locate(loc));
      if r.Raised? {
        RanHalt(driver.script, t0, driver.Now(), first, middle, r);
        RanHalt(driver.script, t0, driver.Now(), first.Then(middle), last, r);
        return;
      }
      ghost var t1 := driver.Now();
      if clearFirst {
        r := driver.Do(Clear(loc));
      }
      RanThen(driver.script, t0, t1, driver.Now(), first, middle, r);
      if r.Raised? {
        RanHalt(driver.script, t0, driver.Now(), first.Then(middle), last, r);
        return;
      }
      ghost var t2 := driver.Now();
      r := driver.Do(SendKeys(loc, text));
      RanThen(driver.script, t0, t2, driver.Now(), first.Then(middle), last, r);
    }
  }
}

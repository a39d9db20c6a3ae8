/**
 * The appointment form page: `book_appointment` fills the form from a
 * configuration dictionary and books.
 */
module AppointmentPage {
  import opened Wrappers
  import opened Values
  import opened Browser
  import opened PageBase

  const FACILITY := Locator(Id, "combo_facility")
  const READMISSION := Locator(Id, "chk_hospotal_readmission")
  const PROGRAM_MEDICARE := Locator(Id, "radio_program_medicare")
  const PROGRAM_MEDICAID := Locator(Id, "radio_program_medicaid")
  const PROGRAM_NONE := Locator(Id, "radio_program_none")
  const VISIT_DATE := Locator(Id, "txt_visit_date")
  const COMMENT := Locator(Id, "txt_comment")
  const BOOK_BTN := Locator(Id, "btn-book-appointment")

  /** `program_map`: the radio button for each healthcare program. */
  const PROGRAM_MAP: map<string, Locator> :=
    map["Medicare" := PROGRAM_MEDICARE, "Medicaid" := PROGRAM_MEDICAID, "None" := PROGRAM_NONE]

  /** `program_map[program]`. */
  function ProgramLocator(program: Value): (r: Result<Locator, PyError>)
    ensures r == Success(PROGRAM_MEDICARE) <==> program == Str("Medicare")
    ensures r == Success(PROGRAM_MEDICAID) <==> program == Str("Medicaid")
    ensures r == Success(PROGRAM_NONE) <==> program == Str("None")
    ensures r.Failure? <==> program !in {Str("Medicare"), Str("Medicaid"), Str("None")}
    ensures r.Failure? ==> r.error == (if Hashable(program) then KeyError(program) else TypeError)
  {
    Lookup(PROGRAM_MAP, program)
  }

  /** Line 16: select the configured facility in the drop-down found first. */
  function SelectFacility(config: Value): Plan {
    match Subscript(config, "facility")
    case Failure(e) => Stop(e)
    case Success(facility) => Step(SelectByText(FACILITY, facility))
  }

  /**
   * Lines 18-19: click the checkbox found first iff the configured value
   * differs from its state `selected`.
   */
  function ToggleReadmission(config: Value, selected: bool): Plan {
    match Subscript(config, "readmission")
    case Failure(e) => Stop(e)
    case Success(wanted) => if EqualsBool(wanted, selected) then Skip() else Step(Click(READMISSION))
  }

  /** Lines 20-25: click the radio button of the configured program. */
  function ProgramPlan(config: Value): Plan {
    match Subscript(config, "healthcare_program")
    case Failure(e) => Stop(e)
    case Success(program) =>
      match ProgramLocator(program)
      case Failure(e) => Stop(e)
      case Success(radio) => Step(Click(radio))
  }

  /** Lines 26-27: type the configured value of `key` into a field. */
  function FieldPlan(loc: Locator, config: Value, key: string): Plan {
    match Subscript(config, key)
    case Failure(e) => Stop(e)
    case Success(text) => TypePlan(loc, text, true)
  }

  /** Line 16: find the facility drop-down, then select the configured facility. */
  function FacilityPlan(config: Value): Plan {
    Step(Locate(FACILITY)).Then(SelectFacility(config))
  }

  /** Lines 17-19, when the checkbox is found in state `selected`. */
  function ReadmissionPlan(config: Value, selected: bool): Plan {
    Step(Locate(READMISSION)).Then(ToggleReadmission(config, selected))
  }

  /**
   * Everything `book_appointment(config)` does while the driver succeeds,
   * when the readmission checkbox is found in state `selected`: its
   * statements in order, up to the first failed lookup in `config`.
   */
  function BookingPlan(config: Value, selected: bool): Plan {
    FacilityPlan(config).Then(ReadmissionPlan(config, selected)).Then(ProgramPlan(config))
      .Then(FieldPlan(VISIT_DATE, config, "visit_date")).Then(FieldPlan(COMMENT, config, "comment"))
      .Then(Step(Click(BOOK_BTN)))
  }

  /** The six statements of the booking, one plan each. */
  function BookingStages(config: Value, selected: bool): seq<Plan> {
    [FacilityPlan(config), ReadmissionPlan(config, selected), ProgramPlan(config),
     FieldPlan(VISIT_DATE, config, "visit_date"), FieldPlan(COMMENT, config, "comment"), Step(Click(BOOK_BTN))]
  }

  /** The six statements in turn are the booking. */
  lemma BookingChain(config: Value, selected: bool)
    ensures Chain(BookingStages(config, selected), 6) == BookingPlan(config, selected)
  {
    var stages := BookingStages(config, selected);
    assert stages[0] == FacilityPlan(config) && stages[1] == ReadmissionPlan(config, selected) && stages[2] == ProgramPlan(config);
    assert stages[3] == FieldPlan(VISIT_DATE, config, "visit_date") && stages[4] == FieldPlan(COMMENT, config, "comment");
    assert stages[5] == Step(Click(BOOK_BTN));
    assert Chain(stages, 1) == FacilityPlan(config) by {
      assert Skip().Then(FacilityPlan(config)) == FacilityPlan(config);
    }
    assert Chain(stages, 2) == FacilityPlan(config).Then(ReadmissionPlan(config, selected));
    assert Chain(stages, 3) == Chain(stages, 2).Then(ProgramPlan(config));
    assert Chain(stages, 4) == Chain(stages, 3).Then(FieldPlan(VISIT_DATE, config, "visit_date"));
    assert Chain(stages, 5) == Chain(stages, 4).Then(FieldPlan(COMMENT, config, "comment"));
  }

  /** A booking that raised within its first `k` statements, or ran all six, has run the booking. */
  lemma BookingRan(script: seq<Answer>, m0: Mark, m1: Mark, config: Value, selected: bool, k: nat, r: Outcome)
    requires k <= 6 && (r.Raised? || k == 6)
    requires Ran(script, m0, m1, Chain(BookingStages(config, selected), k), r)
    ensures Ran(script, m0, m1, BookingPlan(config, selected), r)
  {
    if k < 6 {
      RanChainHalt(script, m0, m1, BookingStages(config, selected), k, r);
    }
    BookingChain(config, selected);
  }

  /** Selecting the facility leaves the readmission checkbox as it was. */
  lemma FacilityKeepsReadmission(config: Value, t0: seq<Action>, t1: seq<Action>, initial: bool)
    requires Traced(t0, t1, FacilityPlan(config), Done)
    ensures Toggled(initial, t1, READMISSION) == Toggled(initial, t0, READMISSION)
  {
    var done := FacilityPlan(config).actions;
    assert t1 == t0 + done;
    assert Click(READMISSION) !in done;
    ToggledKept(initial, t0, done, READMISSION);
  }

  /** `config` holds every key `book_appointment` reads, and a program `program_map` knows. */
  predicate Complete(config: Value) {
    && config.Dict?
    && "facility" in config.entries && "readmission" in config.entries
    && "healthcare_program" in config.entries && "visit_date" in config.entries
    && "comment" in config.entries
    && ProgramLocator(config.entries["healthcare_program"]).Success?
  }

  /** Booking reaches its end without an exception iff the configuration is complete. */
  lemma CompleteIffNoError(config: Value, selected: bool)
    ensures BookingPlan(config, selected).error.None? <==> Complete(config)
  {
  }

  /**
   * With a complete configuration the form is filled in a fixed order: the
   * facility, the checkbox (clicked iff it differs), the program's radio
   * button, then each text field cleared and typed, and finally the book
   * button.
   */
  lemma CompleteOrder(config: Value, selected: bool)
    requires Complete(config)
    ensures var e := config.entries;
            BookingPlan(config, selected).actions
            == [Locate(FACILITY), SelectByText(FACILITY, e["facility"]), Locate(READMISSION)]
               + (if EqualsBool(e["readmission"], selected) then [] else [Click(READMISSION)])
               + [Click(PROGRAM_MAP[e["healthcare_program"].s])]
               + [Locate(VISIT_DATE), Clear(VISIT_DATE), SendKeys(VISIT_DATE, e["visit_date"])]
               + [Locate(COMMENT), Clear(COMMENT), SendKeys(COMMENT, e["comment"])]
               + [Click(BOOK_BTN)]
  {
  }

  /** Typing a configured value attempts each of its steps once. */
  lemma FieldOnce(loc: Locator, config: Value, key: string)
    ensures Once(FieldPlan(loc, config, key))
  {
    match Subscript(config, key)
    case Failure(e) =>
    case Success(text) => TypeOnce(loc, text, true);
  }

  /** The facility and the checkbox attempt each of their steps once. */
  lemma ChoicesOnce(config: Value, selected: bool)
    ensures Once(FacilityPlan(config)) && Once(ReadmissionPlan(config, selected)) && Once(ProgramPlan(config))
  {
    OnceThen(Step(Locate(FACILITY)), SelectFacility(config));
    OnceThen(Step(Locate(READMISSION)), ToggleReadmission(config, selected));
  }

  /** The page object never retries: every statement of the booking is attempted once. */
  lemma BookingOnce(config: Value, selected: bool)
    ensures Once(BookingPlan(config, selected))
  {
    var p1 := FacilityPlan(config);
    var p2 := p1.Then(ReadmissionPlan(config, selected));
    var p3 := p2.Then(ProgramPlan(config));
    var p4 := p3.Then(FieldPlan(VISIT_DATE, config, "visit_date"));
    var p5 := p4.Then(FieldPlan(COMMENT, config, "comment"));
    ChoicesOnce(config, selected);
    FieldOnce(VISIT_DATE, config, "visit_date");
    FieldOnce(COMMENT, config, "comment");
    OnceThen(p1, ReadmissionPlan(config, selected));
    OnceThen(p2, ProgramPlan(config));
    OnceThen(p3, FieldPlan(VISIT_DATE, config, "visit_date"));
    OnceThen(p4, FieldPlan(COMMENT, config, "comment"));
    OnceThen(p5, Step(Click(BOOK_BTN)));
  }

  /** The program step clicks nothing but a radio button. */
  lemma ProgramAvoids(config: Value, loc: Locator)
    requires loc !in PROGRAM_MAP.Values
    ensures Click(loc) !in ProgramPlan(config).actions
  {
    var program := Subscript(config, "healthcare_program");
    if program.Success? && ProgramLocator(program.value).Success? {
      assert ProgramLocator(program.value).value in PROGRAM_MAP.Values;
    }
  }

  /** Typing into the text fields clicks nothing. */
  lemma FieldsAvoid(config: Value, loc: Locator)
    ensures Click(loc) !in FieldPlan(VISIT_DATE, config, "visit_date").actions
    ensures Click(loc) !in FieldPlan(COMMENT, config, "comment").actions
  {
  }

  /** An action no later segment performs occurs after the checkbox as often as before it. */
  lemma CountThen(p: Plan, q: Plan, a: Action)
    requires a !in q.actions
    ensures multiset(p.Then(q).actions)[a] == multiset(p.actions)[a]
  {
  }

  /**
   * The book button is clicked iff booking runs to its end, and then once,
   * as the last action.
   */
  lemma BookedOnceLast(config: Value, selected: bool)
    ensures var p := BookingPlan(config, selected);
            && (Click(BOOK_BTN) in p.actions <==> p.error.None?)
            && (p.error.None? ==> p.actions[|p.actions| - 1] == Click(BOOK_BTN)
                                  && Click(BOOK_BTN) !in p.actions[..|p.actions| - 1])
  {
    var s1, s2 := FacilityPlan(config), ReadmissionPlan(config, selected);
    var p5 := s1.Then(s2).Then(ProgramPlan(config))
      .Then(FieldPlan(VISIT_DATE, config, "visit_date")).Then(FieldPlan(COMMENT, config, "comment"));
    ProgramAvoids(config, BOOK_BTN);
    FieldsAvoid(config, BOOK_BTN);
    assert Click(BOOK_BTN) !in p5.actions;
    var p := BookingPlan(config, selected);
    assert p == p5.Then(Step(Click(BOOK_BTN)));
    if p.error.None? {
      assert p.actions == p5.actions + [Click(BOOK_BTN)];
      assert p.actions[..|p.actions| - 1] == p5.actions;
    }
  }

  /** Facility and checkbox: the checkbox is clicked iff `wanted` differs from `selected`. */
  lemma ReadmissionPrefix(config: Value, selected: bool, wanted: Value)
    requires Subscript(config, "facility").Success? && Subscript(config, "readmission") == Success(wanted)
    ensures multiset(FacilityPlan(config).Then(ReadmissionPlan(config, selected)).actions)[Click(READMISSION)]
            == if EqualsBool(wanted, selected) then 0 else 1
  {
    var p := FacilityPlan(config).Then(ReadmissionPlan(config, selected));
    assert p.actions == [Locate(FACILITY), SelectByText(FACILITY, config.entries["facility"]), Locate(READMISSION)]
                        + (if EqualsBool(wanted, selected) then [] else [Click(READMISSION)]);
  }

  /**
   * Once the checkbox is reached with the configured value `wanted`, it is
   * clicked exactly once if `wanted` differs from its state `selected`, and
   * not at all otherwise.
   */
  lemma ReadmissionClickedIffDiffers(config: Value, selected: bool, wanted: Value)
    requires Subscript(config, "facility").Success? && Subscript(config, "readmission") == Success(wanted)
    ensures multiset(BookingPlan(config, selected).actions)[Click(READMISSION)]
            == if EqualsBool(wanted, selected) then 0 else 1
  {
    var a := Click(READMISSION);
    var p2 := FacilityPlan(config).Then(ReadmissionPlan(config, selected));
    ReadmissionPrefix(config, selected, wanted);
    ProgramAvoids(config, READMISSION);
    FieldsAvoid(config, READMISSION);
    var p3 := p2.Then(ProgramPlan(config));
    CountThen(p2, ProgramPlan(config), a);
    var p4 := p3.Then(FieldPlan(VISIT_DATE, config, "visit_date"));
    CountThen(p3, FieldPlan(VISIT_DATE, config, "visit_date"), a);
    var p5 := p4.Then(FieldPlan(COMMENT, config, "comment"));
    CountThen(p4, FieldPlan(COMMENT, config, "comment"), a);
    CountThen(p5, Step(Click(BOOK_BTN)), a);
  }

  /**
   * Assuming a click toggles the checkbox: once booking has run to its end,
   * the checkbox holds the configured boolean, whatever its state before.
   */
  lemma ReadmissionEndsAsConfigured(config: Value, t0: seq<Action>, t1: seq<Action>, initial: bool, b: bool)
    requires Subscript(config, "facility").Success? && Subscript(config, "readmission") == Success(Bool(b))
    requires Traced(t0, t1, BookingPlan(config, Toggled(initial, t0, READMISSION)), Done)
    ensures Toggled(initial, t1, READMISSION) == b
  {
    var selected := Toggled(initial, t0, READMISSION);
    ReadmissionClickedIffDiffers(config, selected, Bool(b));
    ToggledTo(initial, t0, t1, BookingPlan(config, selected), READMISSION, b);
  }

  /** The prefix before the program: the facility and the checkbox. */
  function UpToProgram(config: Value, selected: bool): Plan {
    FacilityPlan(config).Then(ReadmissionPlan(config, selected))
  }

  /**
   * Once the program is reached, a program `program_map` knows has exactly
   * its own radio button clicked.
   */
  lemma ProgramChosen(config: Value, selected: bool, program: Value)
    requires UpToProgram(config, selected).error.None?
    requires Subscript(config, "healthcare_program") == Success(program)
    requires ProgramLocator(program).Success?
    ensures forall radio :: radio in PROGRAM_MAP.Values ==>
              (Click(radio) in BookingPlan(config, selected).actions <==> radio == ProgramLocator(program).value)
  {
    var p2 := UpToProgram(config, selected);
    var chosen := ProgramLocator(program).value;
    var p3 := p2.Then(ProgramPlan(config));
    assert p3.actions == p2.actions + [Click(chosen)];
    forall radio | radio in PROGRAM_MAP.Values
      ensures Click(radio) in BookingPlan(config, selected).actions <==> radio == chosen
    {
      assert Click(radio) !in p2.actions;
      FieldsAvoid(config, radio);
    }
  }

  /**
   * A program `program_map` does not know raises the lookup's error right
   * after the checkbox: no radio button, date, comment or book action follows.
   */
  lemma UnknownProgramStops(config: Value, selected: bool, program: Value)
    requires UpToProgram(config, selected).error.None?
    requires Subscript(config, "healthcare_program") == Success(program)
    requires ProgramLocator(program).Failure?
    ensures BookingPlan(config, selected)
            == Plan(UpToProgram(config, selected).actions, UpToProgram(config, selected).tries,
                    Some(if Hashable(program) then KeyError(program) else TypeError))
  {
  }

  /** The entries of the repository's own booking scenario. */
  lemma MedicaidEntries(config: Value)
    requires config == Dict(map[
              "facility" := Str("Seoul CURA Healthcare Center"), "readmission" := Bool(true),
              "healthcare_program" := Str("Medicaid"), "visit_date" := Str("25/07/2025"),
              "comment" := Str("Follow-up appointment for check-up")])
    ensures Complete(config)
    ensures config.entries["facility"] == Str("Seoul CURA Healthcare Center") && config.entries["readmission"] == Bool(true)
    ensures config.entries["healthcare_program"] == Str("Medicaid") && config.entries["visit_date"] == Str("25/07/2025")
    ensures config.entries["comment"] == Str("Follow-up appointment for check-up")
  {
  }

  /**
   * Any complete configuration with the scenario's entries, on an unticked
   * checkbox: facility, tick, Medicaid, date, comment, book.
   */
  lemma MedicaidBooking(config: Value)
    requires Complete(config)
    requires config.entries["facility"] == Str("Seoul CURA Healthcare Center") && config.entries["readmission"] == Bool(true)
    requires config.entries["healthcare_program"] == Str("Medicaid") && config.entries["visit_date"] == Str("25/07/2025")
    requires config.entries["comment"] == Str("Follow-up appointment for check-up")
    ensures BookingPlan(config, false) == Steps(
              [ Locate(FACILITY), SelectByText(FACILITY, Str("Seoul CURA Healthcare Center")),
                Locate(READMISSION), Click(READMISSION), Click(PROGRAM_MEDICAID),
                Locate(VISIT_DATE), Clear(VISIT_DATE), SendKeys(VISIT_DATE, Str("25/07/2025")),
                Locate(COMMENT), Clear(COMMENT), SendKeys(COMMENT, Str("Follow-up appointment for check-up")),
                Click(BOOK_BTN) ])
  {
    var p := BookingPlan(config, false);
    CompleteIffNoError(config, false);
    CompleteOrder(config, false);
    assert PROGRAM_MAP["Medicaid"] == PROGRAM_MEDICAID;
    assert p.actions == [ Locate(FACILITY), SelectByText(FACILITY, Str("Seoul CURA Healthcare Center")),
                          Locate(READMISSION), Click(READMISSION), Click(PROGRAM_MEDICAID),
                          Locate(VISIT_DATE), Clear(VISIT_DATE), SendKeys(VISIT_DATE, Str("25/07/2025")),
                          Locate(COMMENT), Clear(COMMENT), SendKeys(COMMENT, Str("Follow-up appointment for check-up")),
                          Click(BOOK_BTN) ];
    BookingOnce(config, false);
  }

  /** The configuration of the repository's own booking scenario, on an unticked checkbox. */
  lemma MedicaidScenario(config: Value)
    requires config == Dict(map[
              "facility" := Str("Seoul CURA Healthcare Center"), "readmission" := Bool(true),
              "healthcare_program" := Str("Medicaid"), "visit_date" := Str("25/07/2025"),
              "comment" := Str("Follow-up appointment for check-up")])
    ensures BookingPlan(config, false) == Steps(
              [ Locate(FACILITY), SelectByText(FACILITY, Str("Seoul CURA Healthcare Center")),
                Locate(READMISSION), Click(READMISSION), Click(PROGRAM_MEDICAID),
                Locate(VISIT_DATE), Clear(VISIT_DATE), SendKeys(VISIT_DATE, Str("25/07/2025")),
                Locate(COMMENT), Clear(COMMENT), SendKeys(COMMENT, Str("Follow-up appointment for check-up")),
                Click(BOOK_BTN) ])
  {
    MedicaidEntries(config);
    MedicaidBooking(config);
  }


  class AppointmentPage {
    const base: BasePage

    constructor (driver: Driver)
      ensures base.driver == driver
    {
      base := new BasePage(driver);
    }

    /** Line 16: `Select(wait_for_element(FACILITY)).select_by_visible_text(config["facility"])`. */
    method ChooseFacility(config: Value) returns (r: Outcome)
      modifies base.driver
      ensures Ran(base.driver.script, old(base.driver.Now()), base.driver.Now(), FacilityPlan(config), r)
    {
      var driver := base.driver;
      ghost var t0 := driver.Now();
      r := base.WaitForElement(FACILITY);
      if r.Raised? {
        RanHalt(driver.script, t0, driver.Now(), Step(Locate(FACILITY)), SelectFacility(config), r);
        return;
      }
      ghost var t1 := driver.Now();
      var facility := Subscript(config, "facility");
      if facility.Failure? {
        r := Raised(facility.error);
      } else {
        r := driver.Do(SelectByText(FACILITY, facility.value));
      }
      RanThen(driver.script, t0, t1, driver.Now(), Step(Locate(FACILITY)), SelectFacility(config), r);
    }

    /** Lines 17-19: find the checkbox, and click it iff its state differs from `config["readmission"]`. */
    method SetReadmission(config: Value) returns (r: Outcome)
      modifies base.driver
      ensures Ran(base.driver.script, old(base.driver.Now()), base.driver.Now(),
                  ReadmissionPlan(config, old(base.driver.IsSelected(READMISSION))), r)
    {
      var driver := base.driver;
      ghost var t0 := driver.Now();
      ghost var selected := driver.IsSelected(READMISSION);
      r := base.WaitForElement(READMISSION);
      if r.Raised? {
        RanHalt(driver.script, t0, driver.Now(), Step(Locate(READMISSION)), ToggleReadmission(config, selected), r);
        return;
      }
      ghost var t1 := driver.Now();
      assert t1.trace == t0.trace + [Locate(READMISSION)];
      ToggledKept(READMISSION in driver.initiallySelected, t0.trace, [Locate(READMISSION)], READMISSION);
      var readmission := Subscript(config, "readmission");
      if readmission.Failure? {
        r := Raised(readmission.error);
        RanStop(driver.script, t1, readmission.error);
      } else if !EqualsBool(readmission.value, driver.IsSelected(READMISSION)) {
        r := driver.Do(Click(READMISSION));
      } else {
        RanSkip(driver.script, t1);
      }
      RanThen(driver.script, t0, t1, driver.Now(), Step(Locate(READMISSION)), ToggleReadmission(config, selected), r);
    }

    /** Lines 20-25: `click(program_map[config["healthcare_program"]])`. */
    method ChooseProgram(config: Value) returns (r: Outcome)
      modifies base.driver
      ensures Ran(base.driver.script, old(base.driver.Now()), base.driver.Now(), ProgramPlan(config), r)
    {
      var program := Subscript(config, "healthcare_program");
      if program.Failure? {
        return Raised(program.error);
      }
      var radio := ProgramLocator(program.value);
      if radio.Failure? {
        return Raised(radio.error);
      }
      r := base.Click(radio.value);
    }

    /** Lines 26-27: `type(loc, config[key])`. */
    method FillField(loc: Locator, config: Value, key: string) returns (r: Outcome)
      modifies base.driver
      ensures Ran(base.driver.script, old(base.driver.Now()), base.driver.Now(), FieldPlan(loc, config, key), r)
    {
      var text := Subscript(config, key);
      if text.Failure? {
        return Raised(text.error);
      }
      r := base.Type(loc, text.value);
    }

    /** `book_appointment(config)`: lines 16-28 in order, each exception ending it. */
    method BookAppointment(config: Value) returns (r: Outcome)
      modifies base.driver
      ensures Ran(base.driver.script, old(base.driver.Now()), base.driver.Now(),
                  BookingPlan(config, old(base.driver.IsSelected(READMISSION))), r)
    {
      var driver := base.driver;
      ghost var t0 := driver.Now();
      ghost var selected := driver.IsSelected(READMISSION);
      ghost var stages := BookingStages(config, selected);
      assert stages[0] == FacilityPlan(config) && stages[1] == ReadmissionPlan(config, selected) && stages[2] == ProgramPlan(config);
      assert stages[3] == FieldPlan(VISIT_DATE, config, "visit_date") && stages[4] == FieldPlan(COMMENT, config, "comment");
      assert stages[5] == Step(Click(BOOK_BTN));
      RanSkip(driver.script, t0);
      r := ChooseFacility(config);
      RanChainNext(driver.script, t0, t0, driver.Now(), stages, 0, 1, r);
      if r.Raised? {
        BookingRan(driver.script, t0, driver.Now(), config, selected, 1, r);
        return;
      }
      ghost var t1 := driver.Now();
      FacilityKeepsReadmission(config, t0.trace, t1.trace, READMISSION in driver.initiallySelected);
      r := SetReadmission(config);
      RanChainNext(driver.script, t0, t1, driver.Now(), stages, 1, 2, r);
      if r.Raised? {
        BookingRan(driver.script, t0, driver.Now(), config, selected, 2, r);
        return;
      }
      ghost var t2 := driver.Now();
      r := ChooseProgram(config);
      RanChainNext(driver.script, t0, t2, driver.Now(), stages, 2, 3, r);
      if r.Raised? {
        BookingRan(driver.script, t0, driver.Now(), config, selected, 3, r);
        return;
      }
      ghost var t3 := driver.Now();
      r := FillField(VISIT_DATE, config, "visit_date");
      RanChainNext(driver.script, t0, t3, driver.Now(), stages, 3, 4, r);
      if r.Raised? {
        BookingRan(driver.script, t0, driver.Now(), config, selected, 4, r);
        return;
      }
      ghost var t4 := driver.Now();
      r := FillField(COMMENT, config, "comment");
      RanChainNext(driver.script, t0, t4, driver.Now(), stages, 4, 5, r);
      if r.Raised? {
        BookingRan(driver.script, t0, driver.Now(), config, selected, 5, r);
        return;
      }
      ghost var t5 := driver.Now();
      r := base.Click(BOOK_BTN);
      RanChainNext(driver.script, t0, t5, driver.Now(), stages, 5, 6, r);
      BookingRan(driver.script, t0, driver.Now(), config, selected, 6, r);
    }
  }
}

/**
 * The stand-alone booking bot: clicks with retries, typing, logging in with
 * fallback credentials, booking with a fallback configuration, and reading
 * back the confirmation page.
 */
module CuraBot {
  import opened Wrappers
  import opened Values
  import opened Text
  import opened Browser
  import opened PageBase
  import opened AppointmentPage

  const BASE_URL := "https://katalon-demo-cura.herokuapp.com/"
  const DEFAULT_USERNAME := "John Doe"
  const DEFAULT_PASSWORD := "ThisIsNotAPassword"

  /** How many times `safe_click` tries before it gives up. */
  const MAX_ATTEMPTS: Tries := 3

  const BODY := Locator(TagName, "body")
  const MAKE_APPOINTMENT_LINK := Locator(LinkText, "Make Appointment")
  const USERNAME_FIELD := Locator(Id, "txt-username")
  const PASSWORD_FIELD := Locator(Id, "txt-password")
  const LOGIN_BTN := Locator(Id, "btn-login")
  const CONFIRMATION := Locator(XPath, "//h2[contains(text(), 'Appointment Confirmation')]")

  /** Selenium's `Keys.TAB`, sent to close the date picker. */
  const TAB := Str("\U{E004}")

  /** The configuration used when none (or an empty one) is given; no visit date means tomorrow. */
  const DEFAULT_CONFIG := Dict(map[
    "facility" := Str("Tokyo CURA Healthcare Center"),
    "readmission" := Bool(false),
    "healthcare_program" := Str("Medicare"),
    "visit_date" := Null,
    "comment" := Str("Automated appointment booking via Selenium")])

  /** `program_mapping`: the id of the radio button for each program. */
  const PROGRAM_IDS: map<string, string> :=
    map["Medicare" := "radio_program_medicare", "Medicaid" := "radio_program_medicaid",
        "None" := "radio_program_none"]

  /** The keys of the confirmation details, and the ids of the elements showing them, in order. */
  const DETAIL_KEYS: seq<string> := ["facility", "readmission", "program", "visit_date", "comment"]
  const DETAIL_IDS: seq<string> := ["facility", "hospital_readmission", "program", "visit_date", "comment"]

  /** The bot's program ids name the same radio buttons as the appointment page's `program_map`. */
  lemma SameRadios()
    ensures PROGRAM_IDS.Keys == PROGRAM_MAP.Keys
    ensures forall name :: name in PROGRAM_IDS ==> Locator(Id, PROGRAM_IDS[name]) == PROGRAM_MAP[name]
  {
  }

  /** A `safe_click`: one click, attempted until it succeeds, at most `MAX_ATTEMPTS` times. */
  function SafeClickPlan(loc: Locator): Plan {
    Retried(Click(loc), MAX_ATTEMPTS)
  }

  /** `navigate_to_site()`: open the site, then wait for its body. */
  function NavigatePlan(): Plan {
    Step(Navigate(BASE_URL)).Then(Step(Locate(BODY)))
  }

  /** The credential `login` uses: the argument, or the default when the argument is falsy. */
  function Credential(given: Value, default: string): (v: Value)
    ensures Truthy(given) ==> v == given
    ensures !Truthy(given) ==> v == Str(default)
  {
    Or(given, Str(default))
  }

  /** Lines 191-195 of `login`: find the username field, then type both credentials. */
  function CredentialsPlan(username: Value, password: Value): Plan {
    Step(Locate(USERNAME_FIELD))
      .Then(TypePlan(USERNAME_FIELD, Credential(username, DEFAULT_USERNAME), true))
      .Then(TypePlan(PASSWORD_FIELD, Credential(password, DEFAULT_PASSWORD), true))
  }

  /** Lines 198-201 of `login`: click the login button, then wait for the appointment form. */
  function SubmitPlan(): Plan {
    SafeClickPlan(LOGIN_BTN).Then(Step(Locate(FACILITY)))
  }

  /** `login(username, password)` while the driver succeeds. */
  function LoginPlan(username: Value, password: Value): Plan {
    NavigatePlan().Then(SafeClickPlan(MAKE_APPOINTMENT_LINK)).Then(CredentialsPlan(username, password)).Then(SubmitPlan())
  }

  /** The four stages of `login`. */
  function LoginStages(username: Value, password: Value): seq<Plan> {
    [NavigatePlan(), SafeClickPlan(MAKE_APPOINTMENT_LINK), CredentialsPlan(username, password), SubmitPlan()]
  }

  /** The four stages in turn are the login. */
  lemma LoginChain(username: Value, password: Value)
    ensures Chain(LoginStages(username, password), 4) == LoginPlan(username, password)
  {
    var stages := LoginStages(username, password);
    assert Chain(stages, 1) == NavigatePlan() by {
      assert Skip().Then(NavigatePlan()) == NavigatePlan();
    }
    assert Chain(stages, 2) == NavigatePlan().Then(SafeClickPlan(MAKE_APPOINTMENT_LINK));
    assert Chain(stages, 3) == Chain(stages, 2).Then(CredentialsPlan(username, password));
  }

  /**
   * Logging in never raises a lookup error, and it types exactly the given
   * credentials, or the default ones where they are None or empty; only the
   * two `safe_click` clicks are retried.
   */
  lemma LoginTypes(username: Value, password: Value)
    ensures var p := LoginPlan(username, password);
            && p.error.None?
            && p.actions == [Navigate(BASE_URL), Locate(BODY), Click(MAKE_APPOINTMENT_LINK), Locate(USERNAME_FIELD),
                             Locate(USERNAME_FIELD), Clear(USERNAME_FIELD),
                             SendKeys(USERNAME_FIELD, if Truthy(username) then username else Str(DEFAULT_USERNAME)),
                             Locate(PASSWORD_FIELD), Clear(PASSWORD_FIELD),
                             SendKeys(PASSWORD_FIELD, if Truthy(password) then password else Str(DEFAULT_PASSWORD)),
                             Click(LOGIN_BTN), Locate(FACILITY)]
            && p.tries == [1, 1, MAX_ATTEMPTS, 1, 1, 1, 1, 1, 1, 1, MAX_ATTEMPTS, 1]
  {
  }

  /**
   * Lines 231-240: find the checkbox, then click it iff the truthiness of
   * the configured value differs from its state `selected`.
   */
  function BotReadmissionPlan(config: Value, selected: bool): Plan {
    Step(Locate(READMISSION)).Then(BotToggle(config, selected))
  }

  /** Lines 234-239: click the checkbox iff the truthiness of the configured value differs from `selected`. */
  function BotToggle(config: Value, selected: bool): Plan {
    match Subscript(config, "readmission")
    case Failure(e) => Stop(e)
    case Success(wanted) => if Truthy(wanted) != selected then Step(Click(READMISSION)) else Skip()
  }

  /** Lines 242-251: click the radio button of a known program; skip any other. */
  function BotProgramPlan(config: Value): Plan {
    match Subscript(config, "healthcare_program")
    case Failure(e) => Stop(e)
    case Success(program) =>
      match HasKey(PROGRAM_IDS, program)
      case Failure(e) => Stop(e)
      case Success(known) => if known then SafeClickPlan(Locator(Id, PROGRAM_IDS[program.s])) else Skip()
  }

  /** The date typed: the configured one, or `tomorrow` when it is None. */
  function VisitDate(configured: Value, tomorrow: string): (v: Value)
    ensures configured.Null? ==> v == Str(tomorrow)
    ensures !configured.Null? ==> v == configured
  {
    if configured.Null? then Str(tomorrow) else configured
  }

  /**
   * Lines 262-270: find the date field, click it, clear it, type the date
   * and a TAB.
   */
  function DateEntryPlan(date: Value): Plan {
    Steps([Locate(VISIT_DATE), Click(VISIT_DATE), Clear(VISIT_DATE), SendKeys(VISIT_DATE, date), SendKeys(VISIT_DATE, TAB)])
  }

  /** The date entry, step by step. */
  function DateEntryStages(date: Value): seq<Plan> {
    [Step(Locate(VISIT_DATE)), Step(Click(VISIT_DATE)), Step(Clear(VISIT_DATE)),
     Step(SendKeys(VISIT_DATE, date)), Step(SendKeys(VISIT_DATE, TAB))]
  }

  /** The five steps in turn are the date entry. */
  lemma DateEntryChain(date: Value)
    ensures Chain(DateEntryStages(date), 5) == DateEntryPlan(date)
  {
    var stages := DateEntryStages(date);
    assert Chain(stages, 1) == stages[0] by {
      assert Skip().Then(stages[0]) == stages[0];
    }
    assert Chain(stages, 2) == Plan(DateEntryPlan(date).actions[..2], [1, 1], None);
    assert Chain(stages, 3) == Plan(DateEntryPlan(date).actions[..3], [1, 1, 1], None);
    assert Chain(stages, 4) == Plan(DateEntryPlan(date).actions[..4], [1, 1, 1, 1], None);
  }

  /** Lines 253-270: read the configured date, then enter it, or `tomorrow` when it is None. */
  function DatePlan(config: Value, tomorrow: string): Plan {
    match Subscript(config, "visit_date")
    case Failure(e) => Stop(e)
    case Success(date) => DateEntryPlan(VisitDate(date, tomorrow))
  }

  /** Lines 227-251: the facility, the checkbox and the program. */
  function ChoicesPlan(config: Value, selected: bool): Plan {
    FacilityPlan(config).Then(BotReadmissionPlan(config, selected)).Then(BotProgramPlan(config))
  }

  /** Lines 253-273: the date and the comment. */
  function DetailsPlan(config: Value, tomorrow: string): Plan {
    DatePlan(config, tomorrow).Then(FieldPlan(COMMENT, config, "comment"))
  }

  /** Lines 276-279: book, then wait for the confirmation heading. */
  function FinishPlan(): Plan {
    SafeClickPlan(BOOK_BTN).Then(Step(Locate(CONFIRMATION)))
  }

  /**
   * Everything the `try` block of `make_appointment` does while the driver
   * succeeds, for the configuration in use and the checkbox found in state
   * `selected`.
   */
  function MakePlan(config: Value, selected: bool, tomorrow: string): Plan {
    ChoicesPlan(config, selected).Then(DetailsPlan(config, tomorrow)).Then(FinishPlan())
  }

  /** The program step clicks nothing but a radio button of `program_mapping`. */
  lemma BotProgramAvoids(config: Value, loc: Locator)
    requires forall name :: name in PROGRAM_IDS ==> loc != Locator(Id, PROGRAM_IDS[name])
    ensures Click(loc) !in BotProgramPlan(config).actions
  {
    var program := Subscript(config, "healthcare_program");
    if program.Success? && HasKey(PROGRAM_IDS, program.value) == Success(true) {
      assert program.value.s in PROGRAM_IDS;
    }
  }

  /** The date and comment steps click nothing but the date field. */
  lemma DetailsAvoid(config: Value, tomorrow: string, loc: Locator)
    requires loc != VISIT_DATE
    ensures Click(loc) !in DetailsPlan(config, tomorrow).actions
  {
    FieldsAvoid(config, loc);
  }

  /** Facility and checkbox: the checkbox is clicked iff the truthiness of `wanted` differs from `selected`. */
  lemma BotReadmissionPrefix(config: Value, selected: bool, wanted: Value)
    requires Subscript(config, "facility").Success? && Subscript(config, "readmission") == Success(wanted)
    ensures multiset(FacilityPlan(config).Then(BotReadmissionPlan(config, selected)).actions)[Click(READMISSION)]
            == if Truthy(wanted) == selected then 0 else 1
  {
    var p := FacilityPlan(config).Then(BotReadmissionPlan(config, selected));
    assert p.actions == [Locate(FACILITY), SelectByText(FACILITY, config.entries["facility"]), Locate(READMISSION)]
                        + (if Truthy(wanted) == selected then [] else [Click(READMISSION)]);
  }

  /**
   * Once the checkbox is reached with the configured value `wanted`, it is
   * clicked once if the truthiness of `wanted` differs from its state, and
   * not at all otherwise.
   */
  lemma BotReadmissionClickedIffDiffers(config: Value, selected: bool, tomorrow: string, wanted: Value)
    requires Subscript(config, "facility").Success? && Subscript(config, "readmission") == Success(wanted)
    ensures multiset(MakePlan(config, selected, tomorrow).actions)[Click(READMISSION)]
            == if Truthy(wanted) == selected then 0 else 1
  {
    var a := Click(READMISSION);
    BotReadmissionPrefix(config, selected, wanted);
    BotProgramAvoids(config, READMISSION);
    DetailsAvoid(config, tomorrow, READMISSION);
    CountThen(FacilityPlan(config).Then(BotReadmissionPlan(config, selected)), BotProgramPlan(config), a);
    CountThen(ChoicesPlan(config, selected), DetailsPlan(config, tomorrow), a);
    CountThen(ChoicesPlan(config, selected).Then(DetailsPlan(config, tomorrow)), FinishPlan(), a);
  }

  /**
   * Assuming a click toggles the checkbox: once booking has run to its end,
   * the checkbox is ticked iff the configured value is truthy.
   */
  lemma BotReadmissionEndsTruthy(config: Value, tomorrow: string, t0: seq<Action>, t1: seq<Action>, initial: bool, wanted: Value)
    requires Subscript(config, "facility").Success? && Subscript(config, "readmission") == Success(wanted)
    requires Traced(t0, t1, MakePlan(config, Toggled(initial, t0, READMISSION), tomorrow), Done)
    ensures Toggled(initial, t1, READMISSION) == Truthy(wanted)
  {
    var selected := Toggled(initial, t0, READMISSION);
    BotReadmissionClickedIffDiffers(config, selected, tomorrow, wanted);
    ToggledTo(initial, t0, t1, MakePlan(config, selected, tomorrow), READMISSION, Truthy(wanted));
  }

  /**
   * A hashable program that `program_mapping` does not know is skipped: no
   * radio button is clicked and booking goes on, where the appointment page
   * raises a KeyError instead.
   */
  lemma UnknownProgramSkipped(config: Value, selected: bool, tomorrow: string, program: Value)
    requires Subscript(config, "healthcare_program") == Success(program)
    requires Hashable(program) && !(program.Str? && program.s in PROGRAM_IDS)
    ensures BotProgramPlan(config) == Skip()
    ensures forall name :: name in PROGRAM_IDS ==>
              Click(Locator(Id, PROGRAM_IDS[name])) !in MakePlan(config, selected, tomorrow).actions
  {
    forall name | name in PROGRAM_IDS
      ensures Click(Locator(Id, PROGRAM_IDS[name])) !in MakePlan(config, selected, tomorrow).actions
    {
      var loc := Locator(Id, PROGRAM_IDS[name]);
      assert Click(loc) !in ChoicesPlan(config, selected).actions;
      DetailsAvoid(config, tomorrow, loc);
      assert Click(loc) !in FinishPlan().actions;
    }
  }

  /** `config` holds every key the `try` block of `make_appointment` reads, and a hashable program. */
  predicate BotComplete(config: Value) {
    && config.Dict?
    && "facility" in config.entries && "readmission" in config.entries
    && "healthcare_program" in config.entries && "visit_date" in config.entries
    && "comment" in config.entries
    && Hashable(config.entries["healthcare_program"])
  }

  /** Booking reaches the confirmation without a lookup error iff the configuration is complete. */
  lemma BotCompleteIffNoError(config: Value, selected: bool, tomorrow: string)
    ensures MakePlan(config, selected, tomorrow).error.None? <==> BotComplete(config)
  {
  }

  /**
   * The radio button clicked for a program: its own, with `safe_click`'s
   * retries, for a program `program_mapping` knows; nothing otherwise.
   */
  function RadioPlan(program: Value): Plan {
    if program.Str? && program.s in PROGRAM_IDS then SafeClickPlan(Locator(Id, PROGRAM_IDS[program.s])) else Skip()
  }

  /**
   * With a complete configuration: the facility and the checkbox, each step
   * attempted once, the checkbox clicked iff it differs; then the known
   * program's radio button.
   */
  lemma ChoicesOrder(config: Value, selected: bool)
    requires BotComplete(config)
    ensures var e := config.entries;
            ChoicesPlan(config, selected)
            == Steps([Locate(FACILITY), SelectByText(FACILITY, e["facility"]), Locate(READMISSION)]
                     + (if Truthy(e["readmission"]) == selected then [] else [Click(READMISSION)]))
               .Then(RadioPlan(e["healthcare_program"]))
  {
    var e := config.entries;
    assert BotProgramPlan(config) == RadioPlan(e["healthcare_program"]);
    if Truthy(e["readmission"]) == selected {
      assert [Locate(FACILITY), SelectByText(FACILITY, e["facility"]), Locate(READMISSION)] + []
             == [Locate(FACILITY), SelectByText(FACILITY, e["facility"]), Locate(READMISSION)];
    }
  }

  /** With a complete configuration: the date (or `tomorrow`) and a TAB, then the comment, each step attempted once. */
  lemma DetailsOrder(config: Value, tomorrow: string)
    requires BotComplete(config)
    ensures var e := config.entries;
            DetailsPlan(config, tomorrow)
            == Steps([Locate(VISIT_DATE), Click(VISIT_DATE), Clear(VISIT_DATE),
                      SendKeys(VISIT_DATE, VisitDate(e["visit_date"], tomorrow)), SendKeys(VISIT_DATE, TAB),
                      Locate(COMMENT), Clear(COMMENT), SendKeys(COMMENT, e["comment"])])
  {
  }

  /**
   * With a complete configuration the bot fills the form in a fixed order and
   * then waits for the confirmation; the radio button is clicked only for a
   * program `program_mapping` knows, a missing date becomes `tomorrow`, and
   * only the radio button and the book button are retried.
   */
  lemma BotOrder(config: Value, selected: bool, tomorrow: string)
    requires BotComplete(config)
    ensures var e := config.entries;
            MakePlan(config, selected, tomorrow)
            == Steps([Locate(FACILITY), SelectByText(FACILITY, e["facility"]), Locate(READMISSION)]
                     + (if Truthy(e["readmission"]) == selected then [] else [Click(READMISSION)]))
               .Then(RadioPlan(e["healthcare_program"]))
               .Then(Steps([Locate(VISIT_DATE), Click(VISIT_DATE), Clear(VISIT_DATE),
                            SendKeys(VISIT_DATE, VisitDate(e["visit_date"], tomorrow)), SendKeys(VISIT_DATE, TAB),
                            Locate(COMMENT), Clear(COMMENT), SendKeys(COMMENT, e["comment"])]))
               .Then(SafeClickPlan(BOOK_BTN))
               .Then(Step(Locate(CONFIRMATION)))
  {
    ChoicesOrder(config, selected);
    DetailsOrder(config, tomorrow);
  }

  /** The entries of the default configuration, one by one. */
  lemma DefaultConfigEntries()
    ensures BotComplete(DEFAULT_CONFIG)
    ensures var e := DEFAULT_CONFIG.entries;
            && e["facility"] == Str("Tokyo CURA Healthcare Center") && e["readmission"] == Bool(false)
            && e["healthcare_program"] == Str("Medicare") && e["visit_date"] == Null
            && e["comment"] == Str("Automated appointment booking via Selenium")
  {
  }

  /** What booking with the default configuration's entries does. */
  function DefaultPlan(selected: bool, tomorrow: string): Plan {
    Steps([ Locate(FACILITY), SelectByText(FACILITY, Str("Tokyo CURA Healthcare Center")), Locate(READMISSION) ]
          + (if selected then [Click(READMISSION)] else []))
    .Then(SafeClickPlan(PROGRAM_MEDICARE))
    .Then(Steps([ Locate(VISIT_DATE), Click(VISIT_DATE), Clear(VISIT_DATE),
                  SendKeys(VISIT_DATE, Str(tomorrow)), SendKeys(VISIT_DATE, TAB),
                  Locate(COMMENT), Clear(COMMENT), SendKeys(COMMENT, Str("Automated appointment booking via Selenium")) ]))
    .Then(SafeClickPlan(BOOK_BTN))
    .Then(Step(Locate(CONFIRMATION)))
  }

  /** Any configuration with the default entries books as the default one does. */
  lemma DefaultEntriesBook(config: Value, selected: bool, tomorrow: string)
    requires BotComplete(config)
    requires var e := config.entries;
             && e["facility"] == Str("Tokyo CURA Healthcare Center") && e["readmission"] == Bool(false)
             && e["healthcare_program"] == Str("Medicare") && e["visit_date"] == Null
             && e["comment"] == Str("Automated appointment booking via Selenium")
    ensures MakePlan(config, selected, tomorrow) == DefaultPlan(selected, tomorrow)
  {
    BotCompleteIffNoError(config, selected, tomorrow);
    BotOrder(config, selected, tomorrow);
  }

  /**
   * With no configuration, or an empty one, the bot books the default
   * appointment for tomorrow.
   */
  lemma DefaultBooking(appointmentConfig: Value, selected: bool, tomorrow: string)
    requires !Truthy(appointmentConfig)
    ensures MakePlan(Or(appointmentConfig, DEFAULT_CONFIG), selected, tomorrow) == DefaultPlan(selected, tomorrow)
  {
    DefaultConfigEntries();
    assert Or(appointmentConfig, DEFAULT_CONFIG) == DEFAULT_CONFIG;
    DefaultEntriesBook(DEFAULT_CONFIG, selected, tomorrow);
  }

  /**
   * A booking with a complete configuration, against a driver that answered
   * every interaction with success, reports success after doing the whole
   * plan; so a booking that reports failure under a complete configuration
   * received a failed answer.
   */
  lemma WorkingDriverBooks(script: seq<Answer>, m0: Mark, m1: Mark, config: Value, selected: bool, tomorrow: string, ok: bool)
    requires RanCaught(script, m0, m1, MakePlan(config, selected, tomorrow), ok)
    requires BotComplete(config)
    requires forall i :: m0.asked <= i < m1.asked ==> AnswerIn(script, i).Succeeds?
    ensures ok && m1.trace == m0.trace + MakePlan(config, selected, tomorrow).actions
  {
    BotCompleteIffNoError(config, selected, tomorrow);
    CaughtAllSucceeded(script, m0, m1, MakePlan(config, selected, tomorrow), ok);
  }

  /** With no configuration given and every answer a success, `make_appointment` books the default appointment. */
  lemma WorkingDriverBooksDefault(script: seq<Answer>, m0: Mark, m1: Mark, appointmentConfig: Value, selected: bool, tomorrow: string, ok: bool)
    requires RanCaught(script, m0, m1, MakePlan(Or(appointmentConfig, DEFAULT_CONFIG), selected, tomorrow), ok)
    requires !Truthy(appointmentConfig)
    requires forall i :: m0.asked <= i < m1.asked ==> AnswerIn(script, i).Succeeds?
    ensures ok && m1.trace == m0.trace + DefaultPlan(selected, tomorrow).actions
  {
    DefaultBooking(appointmentConfig, selected, tomorrow);
    DefaultConfigEntries();
    WorkingDriverBooks(script, m0, m1, DEFAULT_CONFIG, selected, tomorrow, ok);
  }

  /** What `get_appointment_confirmation` records for one element: its stripped text, or "N/A" if it was not found. */
  function Detail(answer: Answer, text: string): string {
    if answer.Succeeds? then Strip(text) else "N/A"
  }

  /** The interaction a detail lookup adds to the trace: the lookup itself iff it found its element. */
  function Found(answer: Answer, element: Locator): seq<Action> {
    if answer.Succeeds? then [Locate(element)] else []
  }

  /** The interactions of the first `n` detail lookups that found their element, in order. */
  function DetailLocates(script: seq<Answer>, start: nat, n: nat): seq<Action>
    requires n <= |DETAIL_IDS|
  {
    if n == 0 then []
    else DetailLocates(script, start, n - 1) + Found(AnswerIn(script, start + n - 1), Locator(Id, DETAIL_IDS[n - 1]))
  }

  /**
   * The dictionary `get_appointment_confirmation` builds from its first `n`
   * lookups, the first of them answered by the `start`-th interaction, as its
   * entries in insertion order.
   */
  function ConfirmationDetails(d: Driver, start: nat, n: nat): seq<(string, string)>
    requires n <= |DETAIL_KEYS|
  {
    if n == 0 then []
    else
      ConfirmationDetails(d, start, n - 1)
      + [(DETAIL_KEYS[n - 1], Detail(AnswerIn(d.script, start + n - 1), d.TextOf(Locator(Id, DETAIL_IDS[n - 1]))))]
  }

  /** One more lookup adds its detail and, when it found its element, its interaction. */
  lemma ConfirmationStep(d: Driver, start: nat, i: nat)
    requires i < |DETAIL_KEYS|
    ensures ConfirmationDetails(d, start, i + 1)
            == ConfirmationDetails(d, start, i)
               + [(DETAIL_KEYS[i], Detail(AnswerIn(d.script, start + i), d.TextOf(Locator(Id, DETAIL_IDS[i]))))]
    ensures DetailLocates(d.script, start, i + 1)
            == DetailLocates(d.script, start, i) + Found(AnswerIn(d.script, start + i), Locator(Id, DETAIL_IDS[i]))
  {
  }

  /** The detail keys are pairwise distinct, so the entries form a dictionary. */
  lemma DetailKeysDistinct()
    ensures forall i, j :: 0 <= i < j < |DETAIL_KEYS| ==> DETAIL_KEYS[i] != DETAIL_KEYS[j]
  {
  }

  /**
   * After `n` lookups the details hold the first `n` keys in order, each with
   * the stripped text of its element, or "N/A" when that lookup failed.
   */
  lemma {:induction false} ConfirmationContents(d: Driver, start: nat, n: nat)
    requires n <= |DETAIL_KEYS|
    ensures var details := ConfirmationDetails(d, start, n);
            && |details| == n
            && (forall i :: 0 <= i < n ==>
                  details[i] == (DETAIL_KEYS[i], Detail(AnswerIn(d.script, start + i), d.TextOf(Locator(Id, DETAIL_IDS[i])))))
  {
    if n > 0 {
      ConfirmationContents(d, start, n - 1);
    }
  }

  /** The confirmation's details never read "N/A" when every element was found, and the stripped texts have no outer whitespace. */
  lemma DetailStripped(answer: Answer, text: string)
    ensures var d := Detail(answer, text);
            answer.Succeeds? ==> d == [] || (!IsSpace(d[0]) && !IsSpace(d[|d| - 1]))
    ensures answer.Succeeds? ==> Detail(answer, Detail(answer, text)) == Detail(answer, text)
  {
    StripIdempotent(text);
  }

  class CuraAppointmentBot {
    const driver: Driver

    constructor (driver: Driver)
      ensures this.driver == driver
    {
      this.driver := driver;
    }

    /**
     * `safe_click(locator)`: up to three attempts at
     * `wait_for_clickable(locator).click()`, pausing one second after each
     * failed attempt but the last; the last failure is re-raised. `pauses`
     * counts the one-second sleeps.
     */
    method SafeClick(loc: Locator) returns (r: Outcome, pauses: nat)
      modifies driver
      ensures var n := Attempts(driver.script, old(driver.asked), MAX_ATTEMPTS);
              var last := AnswerIn(driver.script, old(driver.asked) + n - 1);
              && driver.asked == old(driver.asked) + n
              && pauses == n - 1
              && (last.Succeeds? ==> r == Done && driver.trace == old(driver.trace) + [Click(loc)])
              && (last.Throws? ==> r == Raised(DriverError(last.message)) && driver.trace == old(driver.trace))
      ensures Ran(driver.script, old(driver.Now()), driver.Now(), SafeClickPlan(loc), r)
    {
      pauses := 0;
      for attempt := 0 to MAX_ATTEMPTS
        invariant attempt < MAX_ATTEMPTS
        invariant driver.asked == old(driver.asked) + attempt && driver.trace == old(driver.trace)
        invariant pauses == attempt
        invariant forall i :: old(driver.asked) <= i < old(driver.asked) + attempt ==> AnswerIn(driver.script, i).Throws?
      {
        r := driver.Do(Click(loc));
        if r.Done? {
          AttemptsFirstSuccess(driver.script, old(driver.asked), MAX_ATTEMPTS, attempt);
          return;
        }
        if attempt < MAX_ATTEMPTS - 1 {
          pauses := pauses + 1;
        } else {
          AttemptsAllFail(driver.script, old(driver.asked), MAX_ATTEMPTS);
          return;
        }
      }
      assert false;
    }

    /** `safe_type(locator, text, clear_first)`: one attempt; any failure propagates. */
    method SafeType(loc: Locator, text: Value, clearFirst: bool := true) returns (r: Outcome)
      modifies driver
      ensures Ran(driver.script, old(driver.Now()), driver.Now(), TypePlan(loc, text, clearFirst), r)
    {
      ghost var first := Step(Locate(loc));
      ghost var middle := if clearFirst then Step(Clear(loc)) else Skip();
      ghost var last := Step(SendKeys(loc, text));
      ghost var t0 := driver.Now();
      r := driver.Do(Locate(loc));
      if r.Raised? {
        RanHalt(driver.script, t0, driver.Now(), first, middle, r);
        RanHalt(driver.script, t0, driver.Now(), first.Then(middle), last, r);
        return;
      }
      ghost var t1 := driver.Now();
      if clearFirst {
        r := driver.Do(Clear(loc));
      }
      RanThen(driver.script, t0, t1, driver.Now(), first, middle, r);
      if r.Raised? {
        RanHalt(driver.script, t0, driver.Now(), first.Then(middle), last, r);
        return;
      }
      ghost var t2 := driver.Now();
      r := driver.Do(SendKeys(loc, text));
      RanThen(driver.script, t0, t2, driver.Now(), first.Then(middle), last, r);
    }

    /** `navigate_to_site()`. */
    method NavigateToSite() returns (r: Outcome)
      modifies driver
      ensures Ran(driver.script, old(driver.Now()), driver.Now(), NavigatePlan(), r)
    {
      ghost var t0 := driver.Now();
      r := driver.Do(Navigate(BASE_URL));
      if r.Raised? {
        RanHalt(driver.script, t0, driver.Now(), Step(Navigate(BASE_URL)), Step(Locate(BODY)), r);
        return;
      }
      ghost var t1 := driver.Now();
      r := driver.Do(Locate(BODY));
      RanThen(driver.script, t0, t1, driver.Now(), Step(Navigate(BASE_URL)), Step(Locate(BODY)), r);
    }

    /** Lines 191-195 of `login`: wait for the username field, then type the credentials. */
    method EnterCredentials(username: Value, password: Value) returns (r: Outcome)
      modifies driver
      ensures Ran(driver.script, old(driver.Now()), driver.Now(), CredentialsPlan(username, password), r)
    {
      var user := Credential(username, DEFAULT_USERNAME);
      var pass := Credential(password, DEFAULT_PASSWORD);
      ghost var t0 := driver.Now();
      ghost var s1 := Step(Locate(USERNAME_FIELD));
      ghost var s2 := TypePlan(USERNAME_FIELD, user, true);
      ghost var s3 := TypePlan(PASSWORD_FIELD, pass, true);
      r := driver.Do(Locate(USERNAME_FIELD));
      if r.Raised? {
        RanHalt(driver.script, t0, driver.Now(), s1, s2, r);
        RanHalt(driver.script, t0, driver.Now(), s1.Then(s2), s3, r);
        return;
      }
      ghost var t1 := driver.Now();
      r := SafeType(USERNAME_FIELD, user);
      RanThen(driver.script, t0, t1, driver.Now(), s1, s2, r);
      if r.Raised? {
        RanHalt(driver.script, t0, driver.Now(), s1.Then(s2), s3, r);
        return;
      }
      ghost var t2 := driver.Now();
      r := SafeType(PASSWORD_FIELD, pass);
      RanThen(driver.script, t0, t2, driver.Now(), s1.Then(s2), s3, r);
    }

    /** Lines 198-201 of `login`: submit with retries, then wait for the appointment form. */
    method Submit() returns (r: Outcome)
      modifies driver
      ensures Ran(driver.script, old(driver.Now()), driver.Now(), SubmitPlan(), r)
    {
      ghost var t0 := driver.Now();
      var pauses;
      r, pauses := SafeClick(LOGIN_BTN);
      if r.Raised? {
        RanHalt(driver.script, t0, driver.Now(), SafeClickPlan(LOGIN_BTN), Step(Locate(FACILITY)), r);
        return;
      }
      ghost var t1 := driver.Now();
      r := driver.Do(Locate(FACILITY));
      RanThen(driver.script, t0, t1, driver.Now(), SafeClickPlan(LOGIN_BTN), Step(Locate(FACILITY)), r);
    }

    /** `login(username, password)`; the screenshot taken on failure is not modelled. */
    method Login(username: Value, password: Value) returns (r: Outcome)
      modifies driver
      ensures Ran(driver.script, old(driver.Now()), driver.Now(), LoginPlan(username, password), r)
    {
      ghost var t0 := driver.Now();
      ghost var stages := LoginStages(username, password);
      LoginChain(username, password);
      RanSkip(driver.script, t0);
      r := NavigateToSite();
      RanChainNext(driver.script, t0, t0, driver.Now(), stages, 0, 1, r);
      if r.Raised? {
        RanChainHalt(driver.script, t0, driver.Now(), stages, 1, r);
        return;
      }
      ghost var t1 := driver.Now();
      var pauses;
      r, pauses := SafeClick(MAKE_APPOINTMENT_LINK);
      RanChainNext(driver.script, t0, t1, driver.Now(), stages, 1, 2, r);
      if r.Raised? {
        RanChainHalt(driver.script, t0, driver.Now(), stages, 2, r);
        return;
      }
      ghost var t2 := driver.Now();
      r := EnterCredentials(username, password);
      RanChainNext(driver.script, t0, t2, driver.Now(), stages, 2, 3, r);
      if r.Raised? {
        RanChainHalt(driver.script, t0, driver.Now(), stages, 3, r);
        return;
      }
      ghost var t3 := driver.Now();
      r := Submit();
      RanChainNext(driver.script, t0, t3, driver.Now(), stages, 3, 4, r);
    }

    /** Lines 227-229: find the facility drop-down, then select the configured facility. */
    method ChooseFacility(config: Value) returns (r: Outcome)
      modifies driver
      ensures Ran(driver.script, old(driver.Now()), driver.Now(), FacilityPlan(config), r)
    {
      ghost var t0 := driver.Now();
      r := driver.Do(Locate(FACILITY));
      if r.Raised? {
        RanHalt(driver.script, t0, driver.Now(), Step(Locate(FACILITY)), SelectFacility(config), r);
        return;
      }
      ghost var t1 := driver.Now();
      var facility := Subscript(config, "facility");
      if facility.Failure? {
        r := Raised(facility.error);
      } else {
        r := driver.Do(SelectByText(FACILITY, facility.value));
      }
      RanThen(driver.script, t0, t1, driver.Now(), Step(Locate(FACILITY)), SelectFacility(config), r);
    }

    /**
     * Lines 231-240: find the checkbox and click it when the configured value
     * is truthy and it is unticked, or falsy and it is ticked.
     */
    method SetReadmission(config: Value) returns (r: Outcome)
      modifies driver
      ensures Ran(driver.script, old(driver.Now()), driver.Now(), BotReadmissionPlan(config, old(driver.IsSelected(READMISSION))), r)
    {
      ghost var t0 := driver.Now();
      ghost var selected := driver.IsSelected(READMISSION);
      ghost var rest := BotToggle(config, selected);
      r := driver.Do(Locate(READMISSION));
      if r.Raised? {
        RanHalt(driver.script, t0, driver.Now(), Step(Locate(READMISSION)), rest, r);
        return;
      }
      ghost var t1 := driver.Now();
      assert t1.trace == t0.trace + [Locate(READMISSION)];
      ToggledKept(READMISSION in driver.initiallySelected, t0.trace, [Locate(READMISSION)], READMISSION);
      var isChecked := driver.IsSelected(READMISSION);
      var readmission := Subscript(config, "readmission");
      if readmission.Failure? {
        r := Raised(readmission.error);
        RanStop(driver.script, t1, readmission.error);
      } else if Truthy(readmission.value) && !isChecked {
        r := driver.Do(Click(READMISSION));
      } else if !Truthy(readmission.value) && isChecked {
        r := driver.Do(Click(READMISSION));
      } else {
        RanSkip(driver.script, t1);
      }
      RanThen(driver.script, t0, t1, driver.Now(), Step(Locate(READMISSION)), rest, r);
    }

    /** Lines 242-251: click, with retries, the radio button of a program `program_mapping` knows. */
    method ChooseProgram(config: Value) returns (r: Outcome)
      modifies driver
      ensures Ran(driver.script, old(driver.Now()), driver.Now(), BotProgramPlan(config), r)
    {
      var program := Subscript(config, "healthcare_program");
      if program.Failure? {
        return Raised(program.error);
      }
      var known := HasKey(PROGRAM_IDS, program.value);
      if known.Failure? {
        return Raised(known.error);
      }
      r := Done;
      if known.value {
        var pauses;
        r, pauses := SafeClick(Locator(Id, PROGRAM_IDS[program.value.s]));
      }
    }

    /** Lines 262-270: the date field, clicked, cleared, then the date and a TAB; the half-second pause is not modelled. */
    method EnterDate(date: Value) returns (r: Outcome)
      modifies driver
      ensures Ran(driver.script, old(driver.Now()), driver.Now(), DateEntryPlan(date), r)
    {
      ghost var t0 := driver.Now();
      ghost var stages := DateEntryStages(date);
      DateEntryChain(date);
      RanSkip(driver.script, t0);
      r := driver.Do(Locate(VISIT_DATE));
      RanChainNext(driver.script, t0, t0, driver.Now(), stages, 0, 1, r);
      if r.Raised? {
        RanChainHalt(driver.script, t0, driver.Now(), stages, 1, r);
        return;
      }
      ghost var t1 := driver.Now();
      r := driver.Do(Click(VISIT_DATE));
      RanChainNext(driver.script, t0, t1, driver.Now(), stages, 1, 2, r);
      if r.Raised? {
        RanChainHalt(driver.script, t0, driver.Now(), stages, 2, r);
        return;
      }
      ghost var t2 := driver.Now();
      r := driver.Do(Clear(VISIT_DATE));
      RanChainNext(driver.script, t0, t2, driver.Now(), stages, 2, 3, r);
      if r.Raised? {
        RanChainHalt(driver.script, t0, driver.Now(), stages, 3, r);
        return;
      }
      ghost var t3 := driver.Now();
      r := driver.Do(SendKeys(VISIT_DATE, date));
      RanChainNext(driver.script, t0, t3, driver.Now(), stages, 3, 4, r);
      if r.Raised? {
        RanChainHalt(driver.script, t0, driver.Now(), stages, 4, r);
        return;
      }
      ghost var t4 := driver.Now();
      r := driver.Do(SendKeys(VISIT_DATE, TAB));
      RanChainNext(driver.script, t0, t4, driver.Now(), stages, 4, 5, r);
    }

    /** Lines 253-270: the configured date, or tomorrow's when it is None, entered into the date field. */
    method SetVisitDate(config: Value, tomorrow: string) returns (r: Outcome)
      modifies driver
      ensures Ran(driver.script, old(driver.Now()), driver.Now(), DatePlan(config, tomorrow), r)
    {
      var visitDate := Subscript(config, "visit_date");
      if visitDate.Failure? {
        return Raised(visitDate.error);
      }
      var date := VisitDate(visitDate.value, tomorrow);
      r := EnterDate(date);
    }

    /** Line 273: `safe_type(COMMENT, config["comment"])`. */
    method AddComment(config: Value) returns (r: Outcome)
      modifies driver
      ensures Ran(driver.script, old(driver.Now()), driver.Now(), FieldPlan(COMMENT, config, "comment"), r)
    {
      var comment := Subscript(config, "comment");
      if comment.Failure? {
        return Raised(comment.error);
      }
      r := SafeType(COMMENT, comment.value);
    }

    /** Lines 227-251: the facility, the checkbox and the program, each exception ending the block. */
    method MakeChoices(config: Value) returns (r: Outcome)
      modifies driver
      ensures Ran(driver.script, old(driver.Now()), driver.Now(), ChoicesPlan(config, old(driver.IsSelected(READMISSION))), r)
    {
      ghost var t0 := driver.Now();
      ghost var selected := driver.IsSelected(READMISSION);
      ghost var s1 := FacilityPlan(config);
      ghost var s2 := BotReadmissionPlan(config, selected);
      ghost var s3 := BotProgramPlan(config);
      r := ChooseFacility(config);
      if r.Raised? {
        RanHalt(driver.script, t0, driver.Now(), s1, s2, r);
        RanHalt(driver.script, t0, driver.Now(), s1.Then(s2), s3, r);
        return;
      }
      ghost var t1 := driver.Now();
      FacilityKeepsReadmission(config, t0.trace, t1.trace, READMISSION in driver.initiallySelected);
      r := SetReadmission(config);
      RanThen(driver.script, t0, t1, driver.Now(), s1, s2, r);
      if r.Raised? {
        RanHalt(driver.script, t0, driver.Now(), s1.Then(s2), s3, r);
        return;
      }
      ghost var t2 := driver.Now();
      r := ChooseProgram(config);
      RanThen(driver.script, t0, t2, driver.Now(), s1.Then(s2), s3, r);
    }

    /** Lines 253-273: the visit date, then the comment. */
    method EnterDetails(config: Value, tomorrow: string) returns (r: Outcome)
      modifies driver
      ensures Ran(driver.script, old(driver.Now()), driver.Now(), DetailsPlan(config, tomorrow), r)
    {
      ghost var t0 := driver.Now();
      r := SetVisitDate(config, tomorrow);
      if r.Raised? {
        RanHalt(driver.script, t0, driver.Now(), DatePlan(config, tomorrow), FieldPlan(COMMENT, config, "comment"), r);
        return;
      }
      ghost var t1 := driver.Now();
      r := AddComment(config);
      RanThen(driver.script, t0, t1, driver.Now(), DatePlan(config, tomorrow), FieldPlan(COMMENT, config, "comment"), r);
    }

    /** Lines 276-279: book with retries, then wait for the confirmation heading. */
    method FinishBooking() returns (r: Outcome)
      modifies driver
      ensures Ran(driver.script, old(driver.Now()), driver.Now(), FinishPlan(), r)
    {
      ghost var t0 := driver.Now();
      var pauses;
      r, pauses := SafeClick(BOOK_BTN);
      if r.Raised? {
        RanHalt(driver.script, t0, driver.Now(), SafeClickPlan(BOOK_BTN), Step(Locate(CONFIRMATION)), r);
        return;
      }
      ghost var t1 := driver.Now();
      r := driver.Do(Locate(CONFIRMATION));
      RanThen(driver.script, t0, t1, driver.Now(), SafeClickPlan(BOOK_BTN), Step(Locate(CONFIRMATION)), r);
    }

    /** The `try` block of `make_appointment` on the configuration in use (lines 227-279). */
    method Book(config: Value, tomorrow: string) returns (r: Outcome)
      modifies driver
      ensures Ran(driver.script, old(driver.Now()), driver.Now(), MakePlan(config, old(driver.IsSelected(READMISSION)), tomorrow), r)
    {
      ghost var t0 := driver.Now();
      ghost var s1 := ChoicesPlan(config, driver.IsSelected(READMISSION));
      ghost var s2 := DetailsPlan(config, tomorrow);
      ghost var s3 := FinishPlan();
      r := MakeChoices(config);
      if r.Raised? {
        RanHalt(driver.script, t0, driver.Now(), s1, s2, r);
        RanHalt(driver.script, t0, driver.Now(), s1.Then(s2), s3, r);
        return;
      }
      ghost var t1 := driver.Now();
      r := EnterDetails(config, tomorrow);
      RanThen(driver.script, t0, t1, driver.Now(), s1, s2, r);
      if r.Raised? {
        RanHalt(driver.script, t0, driver.Now(), s1.Then(s2), s3, r);
        return;
      }
      ghost var t2 := driver.Now();
      r := FinishBooking();
      RanThen(driver.script, t0, t2, driver.Now(), s1.Then(s2), s3, r);
    }

    /**
     * `make_appointment(appointment_config)`: books with the given
     * configuration, or the default one when it is None or empty, and reports
     * whether booking reached the confirmation; every exception is caught.
     * `tomorrow` is the formatted date of the day after the clock's today.
     */
    method MakeAppointment(appointmentConfig: Value, tomorrow: string) returns (ok: bool)
      modifies driver
      ensures RanCaught(driver.script, old(driver.Now()), driver.Now(),
                        MakePlan(Or(appointmentConfig, DEFAULT_CONFIG), old(driver.IsSelected(READMISSION)), tomorrow), ok)
    {
      var config := Or(appointmentConfig, DEFAULT_CONFIG);
      var r := Book(config, tomorrow);
      Caught(driver.script, old(driver.Now()), driver.Now(), MakePlan(config, old(driver.IsSelected(READMISSION)), tomorrow), r);
      ok := r == Done;
    }

    /** Lines 306-310: the stripped text of one detail's element, or "N/A" when it is not found. */
    method ReadDetail(element: Locator) returns (text: string)
      modifies driver
      ensures driver.asked == old(driver.asked) + 1
      ensures text == Detail(AnswerIn(driver.script, old(driver.asked)), driver.TextOf(element))
      ensures driver.trace == old(driver.trace) + Found(AnswerIn(driver.script, old(driver.asked)), element)
    {
      var r := driver.Do(Locate(element));
      if r.Done? {
        text := Strip(driver.TextOf(element));
      } else {
        text := "N/A";
      }
    }

    /**
     * `get_appointment_confirmation()`: for each detail, the stripped text of
     * its element, or "N/A" when the element is not found.
     */
    method GetAppointmentConfirmation() returns (details: seq<(string, string)>)
      modifies driver
      ensures details == ConfirmationDetails(driver, old(driver.asked), |DETAIL_KEYS|)
      ensures driver.asked == old(driver.asked) + |DETAIL_KEYS|
      ensures driver.trace == old(driver.trace) + DetailLocates(driver.script, old(driver.asked), |DETAIL_KEYS|)
    {
      details := [];
      for i := 0 to |DETAIL_KEYS|
        invariant driver.asked == old(driver.asked) + i
        invariant driver.trace == old(driver.trace) + DetailLocates(driver.script, old(driver.asked), i)
        invariant details == ConfirmationDetails(driver, old(driver.asked), i)
      {
        ConfirmationStep(driver, old(driver.asked), i);
        var text := ReadDetail(Locator(Id, DETAIL_IDS[i]));
        details := details + [(DETAIL_KEYS[i], text)];
      }
    }
  }
}

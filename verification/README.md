# cobaTest in Dafny

A Dafny model of the test-automation core of `cobaTest`, a Selenium and
`requests` toolkit for the CURA Healthcare demo site and the Swagger
Petstore3 API. The model covers four pieces:

- **The appointment page object** (`AppointmentPage.book_appointment`). It
  selects a facility, brings the readmission checkbox to the configured
  state, clicks the program's radio button, types the visit date and the
  comment, and books. Page-object primitives (`wait_for_element`, `click`,
  `type`) come from `BasePage`.
- **The stand-alone booking bot** (`CuraAppointmentBot`). It has:
  - `safe_click` with its three attempts and its pauses, and `safe_type`;
  - `navigate_to_site` and `login` with fallback credentials;
  - `make_appointment`, with a fallback configuration, a truthiness-based
    checkbox rule, a program lookup that skips unknown programs, the date
    picker sequence, and an outer handler that turns every exception into
    `False`;
  - `get_appointment_confirmation`, which reads five details, each stripped
    or `"N/A"`.
- **The Petstore3 client**. This covers:
  - the `Pet` dataclass with its defaults and `__post_init__`, and its
    `to_dict` payload;
  - the request each client method sends: verb, URL, per-request headers,
    query parameters, JSON body and multipart form.
- **The response-contract validator**. It checks status code, content type
  and JSON body. The result record is filled in step by step, with its
  error messages.

The browser is a `Driver` object. An oracle (`script`) answers each
interaction, in order, with success or an exception; `asked` counts the
answers used so far, and a trace records every interaction that took
effect. A pure plan lists a flow's actions in order, how many attempts each
gets (one, or three for a `safe_click` click), and the configuration error
that ends it early, if any. Each flow over the driver is a method whose
postcondition `Ran(script, before, after, plan, r)` ties the driver's new
state to its plan exactly:

- each step takes answers until one succeeds or its attempts run out, and
  the first step whose last attempt fails ends the flow (`Browser.Follow`);
- the flow consumed exactly the answers of that walk, and exactly the
  steps that succeeded took effect, in order;
- the outcome is the exception of the last answer when a step failed, and
  otherwise the plan's own (possibly a `KeyError` from the configuration).

So for each script there is one run a flow may make: a flow that retries a
step its plan attempts once, skips a step, or raises an exception the driver
did not give does not meet its postcondition. A flow against a driver that
answers everything with success does its whole plan
(`Browser.RanAllSucceeded`).

The properties of the flows are proved as lemmas about the plans. Python
values (`None`, bools, ints, strings, lists, dicts) are the `Value` datatype,
with Python truthiness, `or` and subscripting. A failed lookup is a
`KeyError` or `TypeError` result, never a precondition.

Files:

- `values.dfy`: Python values and errors.
- `text.dfy`: decimal formatting and parsing, `lower`, `in` on strings, `strip`.
- `browser.dfy`: the driver, plans and checkbox state.
- `base_page.dfy`: `BasePage`.
- `appointment_page.dfy`: `AppointmentPage`.
- `cura_bot.dfy`: the booking bot.
- `petstore.dfy`: the Petstore3 client.
- `contract_validator.dfy`: the validator.

## Model

| member | source | states |
|---|---|---|
| Values.Or | cobaTest/makeAppointment-backup.py:224 | `a or b` is `a` when `a` is truthy and `b` otherwise; the result is truthy iff either operand is |
| Values.EqualsBool | cobaTest/pages/appointment_page.py:18 | a configured value equals a checkbox state exactly when it is that bool, or 1/0 for True/False |
| Values.Subscript | cobaTest/pages/appointment_page.py:16 | `config[key]` succeeds iff the config is a dict holding the key; a missing key is a `KeyError` naming it, a non-dict a `TypeError` |
| Values.Lookup | cobaTest/pages/appointment_page.py:25 | `program_map[name]` succeeds iff the name is a known string; an unhashable name is a `TypeError`, an unknown one a `KeyError` naming it |
| Values.HasKey | cobaTest/makeAppointment-backup.py:249 | `name in program_mapping` is a `TypeError` iff the name is unhashable, and true iff it is a known string |
| Text.IntToStr | cobaTest/tests/api/contract_testing/petstore3_client.py:68 | an integer formats as a non-empty decimal that starts with '-' iff it is negative |
| Text.IntToStrRoundTrip | cobaTest/tests/api/contract_testing/petstore3_client.py:68 | parsing a formatted integer gives back that integer |
| Text.Lower | cobaTest/tests/api/contract_testing/petstore3_client.py:121 | `lower()` keeps the length, lowers each ASCII letter and leaves no upper-case letter |
| Text.LowerIdempotent | cobaTest/tests/api/contract_testing/petstore3_client.py:121 | lowering twice is lowering once |
| Text.Contains | cobaTest/tests/api/contract_testing/contract_validator.py:143 | `needle in hay` holds iff the needle occurs at some position of the hay |
| Text.Strip | cobaTest/makeAppointment-backup.py:308 | a stripped string neither starts nor ends with whitespace |
| Text.StripIdempotent | cobaTest/makeAppointment-backup.py:308 | stripping twice is stripping once |
| Text.StripIsMiddle | cobaTest/makeAppointment-backup.py:308 | the stripped string is a slice of the original, with only whitespace cut off either end |
| Browser.Attempts | cobaTest/makeAppointment-backup.py:133-146 | a retried step makes between 1 and its limit of attempts |
| Browser.AttemptsEnd | cobaTest/makeAppointment-backup.py:133-146 | all attempts but the last failed, and the last succeeded or was the final one allowed |
| Browser.AttemptsFirstSuccess | cobaTest/makeAppointment-backup.py:134-139 | the attempts stop right after the first success |
| Browser.AttemptsAllFail | cobaTest/makeAppointment-backup.py:140-146 | when every attempt fails, exactly the limit of attempts is made |
| Browser.Follow | cobaTest/makeAppointment-backup.py:226-279 | a flow of statements, each retried up to its count, completes at most its steps, uses at least one answer per completed step, falls short of its end iff a step failed, and then its last answer was a failure |
| Browser.FollowThen | cobaTest/makeAppointment-backup.py:226-279 | running two lists of statements in turn: a failure in the first ends both, otherwise the second starts at the next answer and the counts add up |
| Browser.OnceThen | cobaTest/pages/base_page.py:8-25 | two flows whose steps are each attempted once make a flow whose steps are each attempted once |
| Browser.RanTraced | cobaTest/pages/base_page.py:8-25 | after a run, the trace grew by a prefix of the plan; the outcome is the plan's own iff the whole plan took effect, a driver exception otherwise |
| Browser.RanThen | cobaTest/pages/appointment_page.py:15-28 | running one statement to its end and then the next is running their sequence, with the second's outcome |
| Browser.RanHalt | cobaTest/pages/appointment_page.py:15-28 | a statement that raised ends the flow: the statements after it are neither attempted nor consume answers |
| Browser.RanChainHalt | cobaTest/pages/appointment_page.py:15-28 | a flow that raised within its first statements has run the whole flow |
| Browser.RanStop | cobaTest/pages/appointment_page.py:16 | a failed configuration lookup raises its own error and consumes no driver answer |
| Browser.Caught | cobaTest/makeAppointment-backup.py:284-287 | catching every exception of a flow reports True iff the flow ran to its end without an exception |
| Browser.RanAllSucceeded | cobaTest/pages/base_page.py:8-25 | a flow whose driver answered every interaction with success did its whole plan, with the plan's own outcome |
| Browser.CaughtAllSucceeded | cobaTest/makeAppointment-backup.py:284-287 | a caught flow whose driver answered everything with success, and whose plan raises nothing, reports True after doing the whole plan |
| Browser.Driver.Do | cobaTest/pages/base_page.py:19 | one interaction consumes exactly one answer; it is recorded in the trace iff that answer is a success, and otherwise raises that answer's exception |
| PageBase.TypePlan | cobaTest/pages/base_page.py:21-25 | `type` finds the field first and sends the text last, and clears it just before sending iff `clear_first` |
| PageBase.TypeOnce | cobaTest/pages/base_page.py:21-25 | `type` attempts each of its calls once |
| PageBase.TypeReplaces | cobaTest/pages/base_page.py:21-25 | after `type` with `clear_first`, the field holds exactly the new text, whatever it held before |
| PageBase.TypeTwice | cobaTest/pages/base_page.py:21-25 | two `type` calls on one field leave only the second text |
| PageBase.BasePage.WaitForElement | cobaTest/pages/base_page.py:8-11 | `wait_for_element` makes one attempt, consuming one answer: it locates the element on success, and otherwise raises that answer's exception and does nothing |
| PageBase.BasePage.Click | cobaTest/pages/base_page.py:18-19 | `click` makes one attempt, consuming one answer: it clicks the element on success, and otherwise raises that answer's exception and does nothing |
| PageBase.BasePage.Type | cobaTest/pages/base_page.py:21-25 | `type` does find, clear (iff asked) and send in order, one attempt each, consuming exactly one answer per attempt; the first failed answer ends it with that answer's exception |
| AppointmentPage.ProgramLocator | cobaTest/pages/appointment_page.py:20-25 | Medicare, Medicaid and None map to their own radio buttons; any other program fails with `KeyError`, or `TypeError` when unhashable |
| AppointmentPage.FacilityKeepsReadmission | cobaTest/pages/appointment_page.py:16 | selecting the facility does not change the readmission checkbox |
| AppointmentPage.CompleteIffNoError | cobaTest/pages/appointment_page.py:15-28 | booking ends without an exception iff the config holds all five keys and a known program |
| AppointmentPage.CompleteOrder | cobaTest/pages/appointment_page.py:15-28 | with a complete config the actions are, in order: facility, checkbox (clicked iff it differs), program radio, date (cleared, then typed), comment (cleared, then typed), book |
| AppointmentPage.ProgramAvoids | cobaTest/pages/appointment_page.py:25 | the program step clicks nothing but a `program_map` radio button |
| AppointmentPage.FieldsAvoid | cobaTest/pages/appointment_page.py:26-27 | typing the date and the comment clicks nothing |
| AppointmentPage.BookedOnceLast | cobaTest/pages/appointment_page.py:28 | book is clicked iff no lookup fails, and then exactly once and as the last action |
| AppointmentPage.ReadmissionClickedIffDiffers | cobaTest/pages/appointment_page.py:17-19 | the checkbox is clicked once if the configured value differs from its state, and never otherwise |
| AppointmentPage.ReadmissionEndsAsConfigured | cobaTest/pages/appointment_page.py:17-19 | with a bool configured and clicks toggling, a completed booking leaves the checkbox in the configured state |
| AppointmentPage.ProgramChosen | cobaTest/pages/appointment_page.py:20-25 | a known program has exactly its own radio button clicked, and no other |
| AppointmentPage.UnknownProgramStops | cobaTest/pages/appointment_page.py:25-28 | an unknown program stops booking with the lookup error before the date, comment or book actions |
| AppointmentPage.MedicaidScenario | cobaTest/pages/appointment_page.py:15-28 | a Medicaid booking with readmission wanted on an unticked box gives the full action list, each step attempted once |
| AppointmentPage.MedicaidEntries | cobaTest/pages/appointment_page.py:15-28 | the scenario's configuration is complete and holds the Seoul facility, readmission, Medicaid, its date and its comment |
| AppointmentPage.MedicaidBooking | cobaTest/pages/appointment_page.py:15-28 | any complete config with the scenario's entries, on an unticked box, books with exactly the scenario's action list, each step attempted once |
| AppointmentPage.BookingOnce | cobaTest/pages/appointment_page.py:15-28 | the page object never retries: every step of the booking is attempted once |
| AppointmentPage.BookingChain | cobaTest/pages/appointment_page.py:15-28 | the booking is its six statements run in turn |
| AppointmentPage.BookingRan | cobaTest/pages/appointment_page.py:15-28 | a booking that raised within its first statements, or ran all six, has run the booking plan |
| AppointmentPage.AppointmentPage.ChooseFacility | cobaTest/pages/appointment_page.py:16 | finds the facility box, then selects the configured facility or raises the configuration error; each step is attempted once and consumes exactly one answer, and the first failed answer ends it with that answer's exception |
| AppointmentPage.AppointmentPage.SetReadmission | cobaTest/pages/appointment_page.py:17-19 | runs the checkbox step for the checkbox's state at the start; each step is attempted once and consumes exactly one answer, and the first failed answer ends it with that answer's exception |
| AppointmentPage.AppointmentPage.ChooseProgram | cobaTest/pages/appointment_page.py:20-25 | looks the program up and clicks its radio button, or raises the lookup error before any action; each step is attempted once and consumes exactly one answer, and the first failed answer ends it with that answer's exception |
| AppointmentPage.AppointmentPage.FillField | cobaTest/pages/appointment_page.py:26-27 | one `type` of a configured value, or the lookup error before any action; each step is attempted once and consumes exactly one answer, and the first failed answer ends it with that answer's exception |
| AppointmentPage.AppointmentPage.BookAppointment | cobaTest/pages/appointment_page.py:15-28 | `book_appointment` runs the booking plan for the checkbox's initial state: each step attempted once, exactly the answers used consumed, the steps before the first failed answer done, and that answer's exception raised, or the plan's own outcome when none failed |
| CuraBot.SameRadios | cobaTest/makeAppointment-backup.py:243-247 | the bot's `program_mapping` names the same radio buttons as the page object's `program_map` |
| CuraBot.Credential | cobaTest/makeAppointment-backup.py:181-182 | a truthy credential is used as given, and a falsy one (None or empty) is replaced by the default |
| CuraBot.LoginTypes | cobaTest/makeAppointment-backup.py:175-207 | login raises no lookup error and does, in order: navigate, wait for the body, click Make Appointment, wait for the form, type username and password (each cleared first), click login, wait for the facility box; only the two clicks are retried, up to 3 times |
| CuraBot.LoginChain | cobaTest/makeAppointment-backup.py:175-207 | login is navigation, the Make Appointment click, the credentials and the submit, in turn |
| CuraBot.DateEntryChain | cobaTest/makeAppointment-backup.py:262-270 | the date entry is its five calls in turn |
| CuraBot.VisitDate | cobaTest/makeAppointment-backup.py:254-257 | a None visit date becomes tomorrow's date, and any other is kept |
| CuraBot.BotProgramAvoids | cobaTest/makeAppointment-backup.py:249-251 | the program step clicks nothing but a `program_mapping` radio button |
| CuraBot.DetailsAvoid | cobaTest/makeAppointment-backup.py:253-273 | the date and comment steps click nothing but the date field |
| CuraBot.BotReadmissionPrefix | cobaTest/makeAppointment-backup.py:231-240 | up to the checkbox, it is clicked once iff the truthiness of the configured value differs from its state |
| CuraBot.BotReadmissionClickedIffDiffers | cobaTest/makeAppointment-backup.py:231-240 | over the whole booking, the checkbox is clicked once iff the configured value's truthiness differs from its state, and never otherwise |
| CuraBot.BotReadmissionEndsTruthy | cobaTest/makeAppointment-backup.py:231-240 | with clicks toggling, a completed booking leaves the checkbox ticked iff the configured value is truthy |
| CuraBot.UnknownProgramSkipped | cobaTest/makeAppointment-backup.py:249-251 | an unknown but hashable program clicks no radio button and does not stop the booking |
| CuraBot.BotCompleteIffNoError | cobaTest/makeAppointment-backup.py:226-279 | booking raises no lookup error iff the config holds the five keys and a hashable program |
| CuraBot.ChoicesOrder | cobaTest/makeAppointment-backup.py:227-251 | with a complete config: the facility and the checkbox (clicked iff it differs), each attempted once, then the known program's radio button with up to 3 attempts, or nothing for an unknown program |
| CuraBot.DetailsOrder | cobaTest/makeAppointment-backup.py:253-273 | with a complete config: find, click, clear the date field, send the date (or tomorrow's), send TAB; then the comment, cleared and typed; each attempted once |
| CuraBot.BotOrder | cobaTest/makeAppointment-backup.py:226-279 | with a complete config, the whole booking's actions in order, ending with book and the wait for the confirmation heading; only the radio button and book clicks are retried, up to 3 times |
| CuraBot.DefaultConfigEntries | cobaTest/makeAppointment-backup.py:215-221 | the default config is complete, with Tokyo, no readmission, Medicare, no date and the stock comment |
| CuraBot.DefaultEntriesBook | cobaTest/makeAppointment-backup.py:215-279 | any config with the default entries books Tokyo and Medicare on tomorrow's date, unticking the checkbox iff it is ticked, with the Medicare and book clicks retried up to 3 times |
| CuraBot.DefaultBooking | cobaTest/makeAppointment-backup.py:224 | a falsy `appointment_config` (None or empty) books as the default configuration does |
| CuraBot.ConfirmationStep | cobaTest/makeAppointment-backup.py:305-310 | each loop step appends the next key with its detail, and the lookup it recorded |
| CuraBot.DetailKeysDistinct | cobaTest/makeAppointment-backup.py:297-303 | the five detail keys are distinct, so the entries form a dictionary |
| CuraBot.ConfirmationContents | cobaTest/makeAppointment-backup.py:305-310 | the details hold exactly the five keys in order, each with its stripped text or "N/A" |
| CuraBot.DetailStripped | cobaTest/makeAppointment-backup.py:308 | a found detail has no surrounding whitespace, and stripping it again changes nothing |
| CuraBot.CuraAppointmentBot.SafeClick | cobaTest/makeAppointment-backup.py:131-146 | tries the click up to 3 times, consuming one answer per attempt and pausing only between failed attempts; succeeds after the first success, otherwise re-raises the third failure |
| CuraBot.CuraAppointmentBot.SafeType | cobaTest/makeAppointment-backup.py:148-159 | does find, clear (iff asked) and send in order, one attempt each with no retry, consuming exactly one answer per attempt; the first failed answer is re-raised |
| CuraBot.CuraAppointmentBot.NavigateToSite | cobaTest/makeAppointment-backup.py:161-173 | opens the site, then waits for the page body; it consumes exactly the answers of its attempts, and the first step whose last attempt fails ends it with that answer's exception |
| CuraBot.CuraAppointmentBot.EnterCredentials | cobaTest/makeAppointment-backup.py:190-195 | waits for the login form, then types the username and the password; it consumes exactly the answers of its attempts, and the first step whose last attempt fails ends it with that answer's exception |
| CuraBot.CuraAppointmentBot.Submit | cobaTest/makeAppointment-backup.py:197-201 | clicks login with up to 3 attempts, then waits for the appointment form; it consumes exactly the answers of its attempts, and the first step whose last attempt fails ends it with that answer's exception |
| CuraBot.CuraAppointmentBot.Login | cobaTest/makeAppointment-backup.py:175-207 | `login` runs the login plan with fallback credentials: the two clicks with up to 3 attempts, every other step once, exactly the answers of those attempts consumed, and the first step whose last attempt fails re-raising that answer's exception |
| CuraBot.CuraAppointmentBot.ChooseFacility | cobaTest/makeAppointment-backup.py:227-228 | finds the facility box and selects the configured facility; it consumes exactly the answers of its attempts, and the first step whose last attempt fails ends it with that answer's exception |
| CuraBot.CuraAppointmentBot.SetReadmission | cobaTest/makeAppointment-backup.py:231-240 | runs the checkbox step for the state it reads at the start; it consumes exactly the answers of its attempts, and the first step whose last attempt fails ends it with that answer's exception |
| CuraBot.CuraAppointmentBot.ChooseProgram | cobaTest/makeAppointment-backup.py:242-251 | clicks the radio button of a known program, with up to 3 attempts, and skips any other; it consumes exactly the answers of its attempts, and the first step whose last attempt fails ends it with that answer's exception |
| CuraBot.CuraAppointmentBot.EnterDate | cobaTest/makeAppointment-backup.py:259-270 | find, click, clear, send the date, send TAB on the date field; it consumes exactly the answers of its attempts, and the first step whose last attempt fails ends it with that answer's exception |
| CuraBot.CuraAppointmentBot.SetVisitDate | cobaTest/makeAppointment-backup.py:253-270 | enters the configured date, or tomorrow's when it is None; it consumes exactly the answers of its attempts, and the first step whose last attempt fails ends it with that answer's exception |
| CuraBot.CuraAppointmentBot.AddComment | cobaTest/makeAppointment-backup.py:273 | types the configured comment; it consumes exactly the answers of its attempts, and the first step whose last attempt fails ends it with that answer's exception |
| CuraBot.CuraAppointmentBot.MakeChoices | cobaTest/makeAppointment-backup.py:227-251 | runs the facility, checkbox and program steps for the checkbox's initial state; it consumes exactly the answers of its attempts, and the first step whose last attempt fails ends it with that answer's exception |
| CuraBot.CuraAppointmentBot.EnterDetails | cobaTest/makeAppointment-backup.py:253-273 | runs the date and comment steps; it consumes exactly the answers of its attempts, and the first step whose last attempt fails ends it with that answer's exception |
| CuraBot.CuraAppointmentBot.FinishBooking | cobaTest/makeAppointment-backup.py:276-279 | clicks book with up to 3 attempts, then waits for the confirmation heading; it consumes exactly the answers of its attempts, and the first step whose last attempt fails ends it with that answer's exception |
| CuraBot.CuraAppointmentBot.Book | cobaTest/makeAppointment-backup.py:226-279 | the `try` body of `make_appointment` runs the booking plan: the program and book clicks with up to 3 attempts, every other step once, exactly those attempts' answers consumed; the first step whose last attempt fails raises that answer's exception, and otherwise the outcome is the plan's own |
| CuraBot.CuraAppointmentBot.MakeAppointment | cobaTest/makeAppointment-backup.py:209-287 | books with the given config or the default one, consuming exactly the answers of the booking's attempts; it returns True iff every step succeeded and no lookup failed |
| CuraBot.WorkingDriverBooks | cobaTest/makeAppointment-backup.py:209-287 | with a complete config and every driver answer a success, `make_appointment` returns True after the whole booking; so False under a complete config means a driver answer failed |
| CuraBot.WorkingDriverBooksDefault | cobaTest/makeAppointment-backup.py:215-287 | with no config given and every driver answer a success, it returns True after booking the default appointment |
| CuraBot.CuraAppointmentBot.ReadDetail | cobaTest/makeAppointment-backup.py:306-310 | one lookup: the stripped text when the element is found, "N/A" otherwise |
| CuraBot.CuraAppointmentBot.GetAppointmentConfirmation | cobaTest/makeAppointment-backup.py:289-313 | reads the five details in order with one lookup each; the result is the confirmation details of the driver's answers |
| Petstore.PostInit | cobaTest/tests/api/contract_testing/petstore3_client.py:22-28 | None photo URLs and tags become empty lists and a None category the default one; set fields and all others are kept |
| Petstore.PostInitIdempotent | cobaTest/tests/api/contract_testing/petstore3_client.py:22-28 | filling in the defaults twice is filling them once, and an initialised pet is left alone |
| Petstore.Payload | cobaTest/tests/api/contract_testing/petstore3_client.py:30-41 | `to_dict` holds exactly name, category, photoUrls, tags and status, plus `id` iff it is not None, each equal to its field |
| Petstore.Construct | cobaTest/tests/api/contract_testing/petstore3_client.py:12-28 | `Pet(**kwargs)` fails on an unknown keyword; otherwise it is initialised, with name "", status "available" and id None unless given |
| Petstore.PayloadRoundTrip | cobaTest/tests/api/contract_testing/petstore3_client.py:12-41 | rebuilding an initialised pet from its `to_dict` payload gives the same pet |
| Petstore.PetUrlRoundTrip | cobaTest/tests/api/contract_testing/petstore3_client.py:68 | a pet's URL is the base URL, "/pet/", and the decimal id, which parses back to the id |
| Petstore.PetUrlInjective | cobaTest/tests/api/contract_testing/petstore3_client.py:68 | different pet ids give different URLs |
| Petstore.DeleteHeaders | cobaTest/tests/api/contract_testing/petstore3_client.py:90-92 | `api_key` is sent iff a non-empty key is given, with that value, and no other header is added |
| Petstore.UploadForm | cobaTest/tests/api/contract_testing/petstore3_client.py:116-118 | `additionalMetadata` is sent iff it is given and non-empty, and nothing else is |
| Petstore.UploadHeaders | cobaTest/tests/api/contract_testing/petstore3_client.py:121 | the session headers minus every key whose lower-case form is content-type, all others unchanged |
| Petstore.UploadHeadersIdempotent | cobaTest/tests/api/contract_testing/petstore3_client.py:121 | filtering the upload headers twice is filtering once |
| Petstore.ClientUploadHeaders | cobaTest/tests/api/contract_testing/petstore3_client.py:49-53 | for the client's own session headers, an upload keeps Accept and User-Agent and drops Content-Type |
| Petstore.Pet.constructor | cobaTest/tests/api/contract_testing/petstore3_client.py:12-28 | the dataclass constructor stores the given fields and then runs `__post_init__` |
| Petstore.Pet.PostInitialise | cobaTest/tests/api/contract_testing/petstore3_client.py:22-28 | `__post_init__` updates the fields in place to the post-initialised record |
| Petstore.Pet.ToDict | cobaTest/tests/api/contract_testing/petstore3_client.py:30-41 | `to_dict()` returns the payload of the pet's current fields |
| Petstore.Petstore3APIClient.constructor | cobaTest/tests/api/contract_testing/petstore3_client.py:46-53 | the client keeps the base URL, defaulting to the public Petstore3 one, and sets its session's JSON headers |
| Petstore.Petstore3APIClient.AddPet | cobaTest/tests/api/contract_testing/petstore3_client.py:55-64 | POSTs the pet's payload to "/pet" |
| Petstore.Petstore3APIClient.GetPetById | cobaTest/tests/api/contract_testing/petstore3_client.py:66-74 | GETs the pet's URL with nothing else attached |
| Petstore.Petstore3APIClient.UpdatePet | cobaTest/tests/api/contract_testing/petstore3_client.py:76-85 | PUTs the pet's payload to "/pet" |
| Petstore.Petstore3APIClient.DeletePet | cobaTest/tests/api/contract_testing/petstore3_client.py:87-98 | DELETEs the pet's URL with the key header exactly when a key is given |
| Petstore.Petstore3APIClient.UploadPetImage | cobaTest/tests/api/contract_testing/petstore3_client.py:111-127 | POSTs a multipart form with the file and the optional metadata to the pet's upload URL, without Content-Type |
| ContractValidation.StatusMessageInjective | cobaTest/tests/api/contract_testing/contract_validator.py:139 | the status error names both codes: equal messages mean equal expected and actual codes |
| ContractValidation.ContentType | cobaTest/tests/api/contract_testing/contract_validator.py:142 | the content-type header, or "" when it is missing |
| ContractValidation.SchemaFor | cobaTest/tests/api/contract_testing/contract_validator.py:151-156 | the pet schema iff status 200 with schema type "pet", the error schema iff status is 400 or more, no schema otherwise |
| ContractValidation.ContractValidator.ValidateResponseContract | cobaTest/tests/api/contract_testing/contract_validator.py:127-163 | status valid iff it matches; content type valid iff it contains application/json; data set only on a decoded JSON body; schema valid iff the body decoded and passed the selected schema; errors: one message for a status mismatch, then one for a non-JSON content type or an undecodable body, and none for a failed schema check |

## Left out

- Waiting, timeouts and sleeps. `WebDriverWait`'s polling and timeout are one driver answer per interaction. `safe_click`'s one-second pauses are counted, not slept. The half-second pause before the date is typed is not modelled.
- Time: "tomorrow" in `make_appointment` is a parameter, not the clock's date.
- Logging, `print` and screenshots.
- Browser setup (`setup_driver`), logout, cleanup, `run_full_automation` and the script entry point. These are orchestration around the modelled flows.
- Selenium internals. A click is assumed to toggle a checkbox, and `is_selected` is read from that toggling state. `Select` and element texts come from the driver oracle. A failure while reading `element.text` is the lookup's failure.
- `get_appointment_confirmation`'s outer handler, which returns None. Nothing in its `try` block can raise past the inner handler, so it is left out. The details come back as a sequence of distinct key/value pairs in the dictionary's insertion order.
- `CuraBot.CuraAppointmentBot.MakeAppointment` and its helpers split `make_appointment`'s `try` block into groups of statements. The split does not change what the code does.
- `requests`: no network I/O and no responses. A client method returns the request it would send. The merging of per-request headers into the session's headers, and the headers `requests` adds itself, are not modelled. Among those are the default `Accept-Encoding` and `Connection` headers that `requests.Session()` starts with, which the upload filter would keep. The file's bytes are not modelled either; they appear only as the name of the file field.
- Petstore.Petstore3APIClient.UploadPetImage: does not model that `requests` still merges the session's Content-Type back into the request, because that merging is library code; it states only the header map the method computes.
- `find_pets_by_status`: a plain GET with one query parameter, outside the request shaping modelled here.
- ContractValidation.ContractValidator.ValidatePetSchema, ContractValidation.ContractValidator.ValidateApiResponseSchema and ContractValidation.ContractValidator.ValidateErrorSchema: `validate_*_schema` is true exactly when jsonschema raises nothing. Since jsonschema is the oracle, this holds by definition; these members only carry the oracle into `ValidateResponseContract`.
- jsonschema and the literal schemas in `_load_schemas`. Validation is an oracle from an instance and a schema name to an optional error message. `response.json()` is a body that decoded or did not.
- ContractValidation.ContentType: headers are keyed by their lower-cased names, which stands in for `requests`' case-insensitive header dictionary.
- Text.Lower: cases ASCII only; it maps A-Z and leaves every other character as it is, where Python's `lower()` also lower-cases non-ASCII letters.

# Service request modal of the SmartTech site, modelled in Dafny

The site's script (`script.js`) lets a visitor pick one of eight services and fill in a
request form for it inside a modal dialog. This project models that modal and three small
pieces of page logic beside it:

- **Catalog** (`catalog.dfy`): `getServiceData`, the constant table from a service id to
  a title and an ordered list of questions (text, textarea, select or checkbox group),
  with the generic entry `{ title: 'Service Request', questions: [] }` for any other id.
- **Renderer** (`render.dfy`, `field_names.dfy`): `generateQuestions`, which replaces
  the question area by a heading and appends one control group per question, naming
  group `i`'s control `question_i` and checkbox `j` of it `question_i_j`.
- **Form reading** (`form_data.dfy`): the control state the visitor edits, and how
  `submitForm` reads it back through `FormData.get` and
  `querySelectorAll('input[name="question_i"]:checked')`.
- **Controller** (`service_modal.dfy`): the class `ServiceModal` with the fields the
  script changes: the modal's `display` style, the body's `overflow` style, the title,
  the question area, the fixed client-info fields, and `currentService`. Its methods are
  `openModal`, `closeModal`, `generateQuestions`, `submitForm`, the Escape and backdrop
  listeners, and the visitor's edits. The pure function `Opened` gives the state after
  opening and `Closed` the state after closing. The lemmas about them are stated on
  those values.
- **Carousel** (`carousel.dfy`): `TestimonialCarousel.showSlide` and `nextSlide` over
  arrays of `active` flags, with the wrap-around index.
- **Contact form** (`contact_form.dfy`) and **search filter** (`search.dfy`).

The central result is `FormData.ResponsesReadControls`. While the modal shows, the
submission has exactly one response per question, keyed `question_i` in question order.
Each response is the raw state of that question's own control. This holds because the
decimal names `question_i` are injective (`FieldNames.QuestionNameInjective`), so no
other control can answer to that name. For a checkbox question, the response lists
the checked options' values in definition order. It is empty when nothing is checked
(`FormData.CheckboxResponse`, `FormData.PickMembers`).

In these places the model follows what the code does, not what the form's wording suggests:
- Short-text answers are not trimmed: `submitForm` stores the raw value
  (script.js:198).
- Opening the modal while it is open is not close-then-open. Only the title and the
  question area are rebuilt. The client-info fields keep their values (script.js:59-66,
  83).
- A checkbox answer is an ordered list, not a set (script.js:195-196).
- `currentService` is never cleared. A submission made while the modal is hidden is
  read against the last service opened, or against the key `"null"` before any opening
  (script.js:175-200). That reading finds no controls, so it yields `null` or empty
  lists.

## Model

| member | source | states |
|---|---|---|
| `FieldNames.ParseDecimalOfDecimal` | script.js:166-167 | the decimal text used in `question_${index}` reads back as the index |
| `FieldNames.DecimalInjective` | script.js:166-167 | two indices print the same decimal text exactly when they are equal |
| `FieldNames.QuestionNameInjective` | script.js:166-167 | `question_i` and `question_j` are the same name exactly when `i == j` |
| `FieldNames.SplitAtUnderscore` | script.js:138 | an id of the form digits `_` rest splits at one place only |
| `FieldNames.CheckboxIdInjective` | script.js:138 | `question_i_j` determines both `i` and `j` |
| `FieldNames.CheckboxIdIsNoQuestionName` | script.js:138-167 | no checkbox id equals the id of any question's own control |
| `Catalog.KnownServices` | script.js:212-682 | the table holds exactly the eight service ids of the page |
| `Catalog.Lookup` | script.js:684 | `getServiceData`: the configured entry for a known id, otherwise the generic entry; its meaning is stated by `Catalog.LookupFallsBackExactlyOnUnknown` |
| `Catalog.LookupFallsBackExactlyOnUnknown` | script.js:684 | lookup returns the configured entry for a known id, and the generic `Service Request` entry exactly for every other id |
| `Catalog.UnknownIdExample` | script.js:684 | `xyz` gives the title `Service Request` and no questions |
| `Catalog.CvCreationShape` | script.js:213-270 | `cv-creation` is titled `CV Creation Service` and has 5 questions, the 4th a checkbox question with 5 options |
| `Catalog.QuestionCounts` | script.js:212-681 | the number of questions of each of the eight services |
| `Catalog.CatalogWellFormed` | script.js:212-684 | every select and checkbox question has options, and no text question has any |
| `Render.BuildOptions` | script.js:111-126 | a select's options are the empty-valued `Please select...` prompt followed by the question's options in order |
| `Render.BuildCheckboxes` | script.js:128-158 | a checkbox question gets one unchecked item per option, in option order |
| `Render.BuildGroup` | script.js:85-170 | the group built for question `i` is its label plus the widget for its kind |
| `Render.GroupFor` | script.js:85-170 | the group rendered for question `i`: its label text, `for` attribute and per-kind widget carrying the question's `required` flag; stated by `Render.AreaShape`, `Render.LabelMarksRequired`, `Render.SelectOptionsInOrder` and `Render.CheckboxesPerOption` |
| `Render.QuestionArea` | script.js:83-171 | the question area after `generateQuestions`: the heading, then the group of each question; stated by `Render.AreaShape` |
| `Render.AreaShape` | script.js:83-171 | the area is the heading followed by exactly one group per question in list order; group `i` carries question `i`'s label text and is labelled for `question_i`; it is a checkbox group exactly for a checkbox question, holding that question's checkbox items; a text question gets an empty text input and a textarea question an empty 3-row textarea, each with the placeholder or `''`; a select lists that question's options and sits on the first; a non-checkbox control has id and name `question_i` and carries the question's `required` flag |
| `Render.LabelMarksRequired` | script.js:89-90 | the label is the question text plus ` *` exactly when the question is required |
| `Render.SelectOptionsInOrder` | script.js:115-125 | the first option has value `''`; option `j + 1` carries the value and text of defined option `j` |
| `Render.CheckboxesPerOption` | script.js:132-148 | checkbox `j` has id `question_i_j`, name `question_i`, the option's value and label, and all ids are distinct |
| `FormData.RenderedConforms` | script.js:83-171 | a freshly rendered area is in its rendered state, with every select on an option |
| `FormData.ToggleCheckbox` | script.js:151-157 | a click on checkbox `j`; stated by `FormData.ToggleFlipsOne` |
| `FormData.ToggleFlipsOne` | script.js:151-157 | clicking checkbox `j` flips that checkbox alone, and its item's `checked` class follows it |
| `FormData.CollectResponses` | script.js:192-200 | one response per question, keyed `question_i`: the checked values for a checkbox question, `FormData.get` otherwise |
| `FormData.AnswerFor` | script.js:193-199 | the response rule for one question: the checked values for a checkbox question, `FormData.get` otherwise; stated by `FormData.ResponseReadsOwnControl` and `FormData.CheckboxResponse` |
| `FormData.ReadIsolated` | script.js:195-198 | when only one group carries a name, reading the whole area by that name reads that group |
| `FormData.ResponseReadsOwnControl` | script.js:193-199 | the response to question `i` is the state of group `i`'s control, a list exactly for checkbox questions |
| `FormData.ResponsesReadControls` | script.js:192-200 | all responses, with keys pairwise distinct and each answer the raw state of its own control |
| `FormData.CheckedInDefinitionOrder` | script.js:195-196 | the checked values are the values of the checked options, in definition order |
| `FormData.PickMembers` | script.js:195-196 | a value is listed exactly when a checked option carries it; the list is empty exactly when nothing is checked |
| `FormData.CheckboxResponse` | script.js:194-196 | a checkbox question's response lists its checked options' values in definition order |
| `Modal.ServiceKey` | script.js:192 | the key `currentService` is looked up under, `"null"` before any opening; its use is stated by `Modal.ServiceModal.SubmitForm` |
| `Modal.Acknowledgment` | script.js:206 | the alert text naming the service title; stated by `Modal.ServiceModal.SubmitForm` through `Modal.IsSubmissionOf` |
| `Modal.IsSubmissionOf` | script.js:175-206 | what a submission from a state holds: `currentService`, the client fields, one response per question keyed `question_i`, each its control's raw state while the modal shows, and the acknowledgment; ensured by `Modal.ServiceModal.SubmitForm` and `Modal.ServiceModal.RequestSubmit` |
| `Modal.Opened` | script.js:59-66 | the state after `openModal(id)`; stated by `Modal.OpenedShowsService` and `Modal.ReopenLeavesNoTrace` |
| `Modal.OpenedShowsService` | script.js:59-66 | opening sets `currentService`, the catalog title, display `block` and overflow `hidden`, renders exactly the service's questions and keeps the client fields |
| `Modal.Closed` | script.js:75-80 | the state after `closeModal()`; stated by `Modal.ClosedHides` and `Modal.CloseIdempotent` |
| `Modal.ReopenLeavesNoTrace` | script.js:82-83 | opening again, with or without closing first, leaves no control of the earlier service |
| `Modal.ClosedHides` | script.js:75-80 | closing sets display `none` and overflow `auto`, resets the client fields, empties the question area and keeps `currentService` |
| `Modal.CloseIdempotent` | script.js:75-80 | closing twice is closing once |
| `Modal.RequiredQuestionsAnswered` | script.js:53-56 | while the modal shows and every control's constraint holds, a required text or textarea question is not answered `''`, and a required select is not on its prompt |
| `Modal.FreshFormBlocked` | script.js:53-66 | a freshly opened `cv-creation` form fails the constraint check, because its first question is a required select still on the prompt |
| `Modal.ServiceModal.constructor` | script.js:3-13 | a new controller's display is unset (not `block`); it has no current service and an empty question area |
| `Modal.ServiceModal.OpenModal` | script.js:59-73 | the new state is `Opened(old state, id)` and the controller invariant holds |
| `Modal.ServiceModal.CloseModal` | script.js:75-80 | the new state is `Closed(old state)` |
| `Modal.ServiceModal.GenerateQuestions` | script.js:82-173 | the question area becomes the rendered area of the given questions |
| `Modal.ServiceModal.KeyDown` | script.js:46-50 | Escape closes the modal only while its display is `block`; any other key or state leaves everything unchanged |
| `Modal.ServiceModal.ModalClick` | script.js:39-43 | a click closes the modal only when its target is the modal element itself |
| `Modal.ServiceModal.TypeInto` | script.js:97-109 | typing changes the value of that one text control and keeps the invariant |
| `Modal.ServiceModal.Choose` | script.js:111-126 | choosing an option changes that select alone and keeps the invariant |
| `Modal.ServiceModal.Toggle` | script.js:151-157 | clicking a checkbox changes that checkbox group alone and keeps the invariant |
| `Modal.ServiceModal.EditClientInfo` | script.js:184-189 | the fixed client fields take the values the visitor entered; nothing else changes |
| `Modal.ServiceModal.SubmitForm` | script.js:175-209 | `Modal.IsSubmissionOf` holds of the old state: the payload carries `currentService`, the client fields and one response per question of the current definition; while the modal shows, each response is its control's raw state; the acknowledgment names the service title; the modal is closed afterwards |
| `Modal.ServiceModal.RequestSubmit` | script.js:53-56 | with a required control left empty nothing is produced and nothing changes; otherwise the payload and acknowledgment are those of `Modal.IsSubmissionOf` for the old state, and the modal is closed |
| `Carousel.NextIndex` | script.js:945-948 | the next index wraps from the last slide to 0 and stays in `[0, n)`; with no slides it is `NaN` |
| `Carousel.Advance` | script.js:950-954 | the slide reached after `k` autoplay ticks; stated by `Carousel.AdvanceFrom` and `Carousel.AdvanceFromStart` |
| `Carousel.AdvanceFrom` | script.js:945-954 | from slide `x mod n`, `k` advances reach slide `(x + k) mod n` |
| `Carousel.AdvanceFromStart` | script.js:945-954 | from slide 0, `k` advances reach slide `k mod n` |
| `Carousel.ExactlyOneActive` | script.js:932-940 | when slide `k` is shown, slide `k` is active and no other is |
| `Carousel.TestimonialCarousel.constructor` | script.js:902-916 | a new carousel has one dot per slide and shows slide 0 |
| `Carousel.TestimonialCarousel.ShowSlide` | script.js:932-943 | slide `i` and dot `i` become the only active ones, and `currentSlide` becomes `i` |
| `Carousel.TestimonialCarousel.NextSlide` | script.js:945-948 | moves to `NextIndex` of the current slide and shows it |
| `ContactForm.Submit` | script.js:743-752 | any empty field among name, email, service and message gives the fill-in alert and leaves the fields unchanged; otherwise the thank-you alert and the reset fields |
| `ContactForm.AcceptedExactlyWhenFilled` | script.js:743-752 | the message is acknowledged exactly when all four fields are filled in |
| `Search.IncludesMeansOccurs` | script.js:887 | `includes` holds exactly when the term occurs at some position |
| `Search.Matches` | script.js:887 | the filter's test on one card; stated by `Search.MatchMeansOccurrence`, `Search.MatchIgnoresCase` and `Search.EmptySearchShowsAll` |
| `Search.MatchMeansOccurrence` | script.js:881-891 | a card matches exactly when the lower-cased term occurs in its lower-cased title or description |
| `Search.LowerIdempotent` | script.js:881-885 | lower-casing twice is lower-casing once |
| `Search.MatchIgnoresCase` | script.js:881-885 | the filter gives the same result for a term and its lower-cased form |
| `Search.EmptySearchShowsAll` | script.js:887 | an empty search term matches every card |
| `Search.Filter` | script.js:883-892 | each card is shown exactly when it matches, and hidden otherwise, card by card |

## Left out

- The 100 ms deferred focus of the first control in `openModal` (script.js:69-72): it is a timer with no effect on the state modelled.
- `console.log` of the payload and the `alert`s (script.js:203-206, 744-749): `SubmitForm` returns the payload and the acknowledgment text instead. `ContactForm.Submit` returns the alert text.
- Listener registration (script.js:17-56, 922-927, 898, 958-963). The handlers are modelled as methods:
  - a click on a service card or on its button is a call of `OpenModal` with the card's id;
  - the close and cancel buttons call `CloseModal`;
  - a dot's click calls `ShowSlide`.
  `stopPropagation` on the button only prevents a second identical `openModal`, so it is not modelled.
- The DOM, `FormData` and `querySelectorAll` are replaced by values. FormData.get over the question area is `FormData.FormGet` of `FormData.AreaEntries`. FormData.get for the client fields is the fields' current values.
- Catalog.Lookup: only the eight configured ids are treated as known. In JavaScript, an id naming an inherited `Object.prototype` property (such as `constructor`) would pass the `||` and break rendering; `Catalog.LookupFallsBackExactlyOnUnknown` states the fallback for every other id.
- The page's HTML is not part of this model. The initial title is taken to be empty and the question container to start empty. The constructor takes the client fields' default values. The client fields' own `required` and `type="email"` checks are not modelled.
- Modal.ServiceModal.RequestSubmit: checks only the question controls' `required` attributes, since the client fields' HTML is not modelled.
- `closeModal`'s form reset of the question controls just before they are removed (script.js:78-79): it cannot be observed, so only the client fields' reset is modelled.
- Search.Matches: `toLowerCase` is modelled on the ASCII letters only. Other characters are left unchanged, and Unicode case mapping is not modelled.
- A carousel missing from the page (script.js:910) makes the object a no-op, which is not modelled. The carousel's dots are taken to be exactly the ones its navigation creates.
- Carousel autoplay (`setInterval`, script.js:950-954): a timer. `Carousel.Advance` counts its steps.
- Navbar scroll styling, parallax, hover transforms, fade-in and counter animations, the typing effect, the mobile menu and smooth scrolling (script.js:688-729, 755-872): presentational, timer-driven, or float-valued.

/** The `ServiceModal` controller: one shared modal dialog that shows the request form of
    the service the visitor picked, and packages the answers on submit. The page is
    abstracted to the state the controller touches: the modal's `display` style, the
    body's `overflow` style, the title text, the question area, the fixed client-info
    fields of the form, and `currentService`. */
module Modal {
  import opened Wrappers
  import opened Style
  import opened FieldNames
  import opened Catalog
  import opened Render
  import opened FormData

  /** The fixed client-info controls of the form (clientName, clientEmail, clientPhone,
      timeline, budget, additionalInfo), outside the question area. */
  datatype ClientInfo = ClientInfo(
    name: string,
    email: string,
    phone: string,
    timeline: string,
    budget: string,
    additionalInfo: string)

  /** The `data` object built by `submitForm`; `responses` in insertion order. */
  datatype Submission = Submission(service: Option<string>, responses: seq<Response>, clientInfo: ClientInfo)

  /** Where a click inside the modal element landed: on the modal element itself (its
      backdrop) or on something inside the dialog. */
  datatype ClickTarget = ModalElement | InsideDialog

  /** The property key JavaScript uses for `currentService`; the initial `null` becomes "null". */
  function ServiceKey(current: Option<string>): string {
    current.GetOr("null")
  }

  function Acknowledgment(title: string): string {
    "Thank you for your " + title + " request! We'll get back to you within 24 hours with a detailed quote."
  }

  /** Everything the controller's fields hold, as one value. */
  datatype ModalState = ModalState(
    display: Display,
    overflow: Overflow,
    title: string,
    area: seq<Node>,
    client: ClientInfo,
    current: Option<string>)

  /** The state after `openModal(id)`. */
  function Opened(s: ModalState, id: string): ModalState {
    s.(current := Some(id), title := Lookup(id).title, area := QuestionArea(Lookup(id).questions),
       display := DisplayBlock, overflow := OverflowHidden)
  }

  /** The state after `closeModal()`: the form reset puts the client fields back to
      their defaults, and the question area is emptied. */
  function Closed(s: ModalState, defaults: ClientInfo): ModalState {
    s.(display := DisplayNone, overflow := OverflowAuto, client := defaults, area := [])
  }

  /** While the modal shows, it shows the form of `currentService` (as possibly edited);
      while it is hidden, its question area is empty. */
  ghost predicate ValidState(s: ModalState) {
    (s.display == DisplayBlock ==>
       s.current.Some? && s.title == Lookup(s.current.value).title &&
       Conforms(s.area, Lookup(s.current.value).questions)) &&
    (s.display != DisplayBlock ==> s.area == [])
  }

  /** The browser's constraint check for one control: a required text control must not
      be empty, and a required select must not still show its empty-valued prompt. */
  predicate ControlSatisfied(n: Node) {
    n.QuestionGroup? ==>
      match n.widget
      case TextInput(_, _, _, required, value) => required ==> value != ""
      case TextAreaInput(_, _, _, _, required, value) => required ==> value != ""
      case SelectInput(_, _, required, options, selected) =>
        required ==> !(selected == 0 && |options| > 0 && options[0].value == "")
      case CheckboxGroup(_) => true
  }

  predicate ConstraintsMet(area: seq<Node>) {
    forall k :: 0 <= k < |area| ==> ControlSatisfied(area[k])
  }

  /** What `submitForm` sends and announces from state `s`: the current service, the
      client fields, and one response per question of the current definition, keyed
      `question_i` in question order; while the modal shows, each response is the raw
      state of that question's own control. The acknowledgment names the service. */
  predicate IsSubmissionOf(p: Submission, ack: string, s: ModalState) {
    var questions := Lookup(ServiceKey(s.current)).questions;
    p.service == s.current && p.clientInfo == s.client &&
    |p.responses| == |questions| &&
    (forall i :: 0 <= i < |questions| ==>
       p.responses[i] == Response(QuestionName(i), AnswerFor(questions[i], s.area, i))) &&
    (s.display == DisplayBlock ==>
       |s.area| == |questions| + 1 &&
       forall i :: 0 <= i < |questions| ==>
         p.responses[i].key == QuestionName(i) && p.responses[i].answer == ControlAnswer(s.area[i + 1])) &&
    ack == Acknowledgment(Lookup(ServiceKey(s.current)).title)
  }

  // ---- Properties of the transitions ----

  /** `openModal` shows the modal with the catalog title and exactly the chosen service's
      questions, hides the page scroll, and keeps the client fields. */
  lemma OpenedShowsService(s: ModalState, id: string)
    ensures Opened(s, id).display == DisplayBlock && Opened(s, id).overflow == OverflowHidden
    ensures Opened(s, id).current == Some(id) && Opened(s, id).title == Lookup(id).title
    ensures Opened(s, id).client == s.client
    ensures |Opened(s, id).area| == |Lookup(id).questions| + 1
    ensures ValidState(Opened(s, id))
  {
    RenderedConforms(Lookup(id).questions);
  }

  /** Opening again discards everything the earlier opening rendered: no control of an
      earlier service survives, whether or not the modal was closed in between. */
  lemma ReopenLeavesNoTrace(s: ModalState, a: string, b: string, defaults: ClientInfo)
    ensures Opened(Opened(s, a), b) == Opened(s, b)
    ensures Opened(Closed(Opened(s, a), defaults), b).area == QuestionArea(Lookup(b).questions)
  {
  }

  /** `closeModal` hides the modal, restores the scroll, resets the client fields and
      empties the question area; `currentService` stays as it was. */
  lemma ClosedHides(s: ModalState, defaults: ClientInfo)
    ensures Closed(s, defaults).display == DisplayNone && Closed(s, defaults).overflow == OverflowAuto
    ensures Closed(s, defaults).area == [] && Closed(s, defaults).client == defaults
    ensures Closed(s, defaults).current == s.current
    ensures ValidState(Closed(s, defaults))
  {
  }

  /** Closing twice is closing once. */
  lemma CloseIdempotent(s: ModalState, defaults: ClientInfo)
    ensures Closed(Closed(s, defaults), defaults) == Closed(s, defaults)
  {
  }

  /** The submit gate, read back on the questions: while the modal shows and every
      control's constraint holds, a required text or textarea question is not answered
      with the empty string, and a required select is not on its empty-valued prompt. */
  lemma RequiredQuestionsAnswered(s: ModalState, i: nat)
    requires ValidState(s) && s.display == DisplayBlock && ConstraintsMet(s.area)
    requires i < |Lookup(s.current.value).questions| && Lookup(s.current.value).questions[i].required
    ensures i + 1 < |s.area|
    ensures Lookup(s.current.value).questions[i].kind in {Text, TextArea} ==>
      ControlAnswer(s.area[i + 1]) != Single(Some(""))
    ensures Lookup(s.current.value).questions[i].kind == Select ==>
      s.area[i + 1].widget.SelectInput? && s.area[i + 1].widget.selected != 0
  {
    var questions := Lookup(s.current.value).questions;
    AreaShape(questions);
    assert Blank(s.area[i + 1]) == QuestionArea(questions)[i + 1];
    assert ControlSatisfied(s.area[i + 1]);
  }

  /** A freshly opened `cv-creation` form cannot be submitted: its first question is a
      required select that still shows the prompt. */
  lemma FreshFormBlocked(s: ModalState)
    ensures !ConstraintsMet(Opened(s, "cv-creation").area)
  {
    var area := Opened(s, "cv-creation").area;
    AreaShape(Lookup("cv-creation").questions);
    assert !ControlSatisfied(area[1]);
  }

  class ServiceModal {
    var display: Display
    var overflow: Overflow
    var title: string
    var area: seq<Node>
    var client: ClientInfo
    var currentService: Option<string>
    /** What the form's reset restores the client fields to. */
    const clientDefaults: ClientInfo

    function State(): ModalState
      reads this
    {
      ModalState(display, overflow, title, area, client, currentService)
    }

    ghost predicate Valid()
      reads this
    {
      ValidState(State())
    }

    constructor(defaults: ClientInfo)
      ensures Valid() && clientDefaults == defaults
      ensures State() == ModalState(DisplayInitial, OverflowInitial, "", [], defaults, None)
    {
      display := DisplayInitial;
      overflow := OverflowInitial;
      title := "";
      area := [];
      client := defaults;
      currentService := None;
      clientDefaults := defaults;
    }

    method OpenModal(id: string)
      modifies this
      ensures Valid()
      ensures State() == Opened(old(State()), id)
    {
      currentService := Some(id);
      var data := Lookup(id);
      title := data.title;
      GenerateQuestions(data.questions);
      display := DisplayBlock;
      overflow := OverflowHidden;
      OpenedShowsService(old(State()), id);
    }

    method CloseModal()
      modifies this
      ensures Valid()
      ensures State() == Closed(old(State()), clientDefaults)
    {
      display := DisplayNone;
      overflow := OverflowAuto;
      client := clientDefaults;
      area := [];
    }

    /** Replaces the question area by the heading, then appends one group per question. */
    method GenerateQuestions(questions: seq<Question>)
      modifies this`area
      ensures area == QuestionArea(questions)
    {
      area := [HeadingNode(Heading)];
      for i := 0 to |questions|
        invariant |area| == i + 1
        invariant area[0] == HeadingNode(Heading)
        invariant forall k :: 0 <= k < i ==> area[k + 1] == GroupFor(k, questions[k])
      {
        var group := BuildGroup(i, questions[i]);
        area := area + [group];
      }
    }

    /** The `keydown` listener: Escape closes the modal, but only while it shows. */
    method KeyDown(key: string)
      requires Valid()
      modifies this
      ensures Valid()
      ensures State() == if key == "Escape" && old(display) == DisplayBlock
                         then Closed(old(State()), clientDefaults) else old(State())
    {
      if key == "Escape" && display == DisplayBlock {
        CloseModal();
      }
    }

    /** The modal's `click` listener: a click closes only when it lands on the modal
        element itself, the backdrop around the dialog. */
    method ModalClick(target: ClickTarget)
      requires Valid()
      modifies this
      ensures Valid()
      ensures State() == if target == ModalElement then Closed(old(State()), clientDefaults) else old(State())
    {
      if target == ModalElement {
        CloseModal();
      }
    }

    /** The visitor types into text control `k`. */
    method TypeInto(k: nat, text: string)
      requires Valid() && k < |area| && IsTextControl(area[k])
      modifies this`area
      ensures Valid()
      ensures area == old(area)[k := EnterText(old(area)[k], text)]
    {
      EnterTextEdits(area[k], text);
      if display == DisplayBlock {
        EditKeepsConformance(area, Lookup(currentService.value).questions, k, EnterText(area[k], text));
      }
      area := area[k := EnterText(area[k], text)];
    }

    /** The visitor picks option `option` of select `k`. */
    method Choose(k: nat, option: nat)
      requires Valid() && k < |area|
      requires area[k].QuestionGroup? && area[k].widget.SelectInput? && option < |area[k].widget.options|
      modifies this`area
      ensures Valid()
      ensures area == old(area)[k := ChooseOption(old(area)[k], option)]
    {
      ChooseOptionEdits(area[k], option);
      if display == DisplayBlock {
        EditKeepsConformance(area, Lookup(currentService.value).questions, k, ChooseOption(area[k], option));
      }
      area := area[k := ChooseOption(area[k], option)];
    }

    /** The visitor clicks checkbox `j` of checkbox group `k`. */
    method Toggle(k: nat, j: nat)
      requires Valid() && k < |area|
      requires area[k].QuestionGroup? && area[k].widget.CheckboxGroup? && j < |area[k].widget.items|
      modifies this`area
      ensures Valid()
      ensures area == old(area)[k := ToggleCheckbox(old(area)[k], j)]
    {
      assert display == DisplayBlock;
      var questions := Lookup(currentService.value).questions;
      ToggleFlipsOne(area[k], j);
      EditKeepsConformance(area, questions, k, ToggleCheckbox(area[k], j));
      area := area[k := ToggleCheckbox(area[k], j)];
    }

    /** The visitor edits the fixed client-info fields. */
    method EditClientInfo(info: ClientInfo)
      requires Valid()
      modifies this`client
      ensures Valid() && client == info
    {
      client := info;
    }

    /** `submitForm`: reads the client fields and one response per question of the
        current service's definition, then closes the modal. */
    method SubmitForm() returns (payload: Submission, ack: string)
      requires Valid()
      modifies this
      ensures Valid()
      ensures IsSubmissionOf(payload, ack, old(State()))
      ensures State() == Closed(old(State()), clientDefaults)
    {
      var data := Lookup(ServiceKey(currentService));
      var responses := CollectResponses(data.questions, area);
      if display == DisplayBlock {
        ResponsesReadControls(area, data.questions, responses);
      }
      payload := Submission(currentService, responses, client);
      ack := Acknowledgment(Lookup(ServiceKey(currentService)).title);
      CloseModal();
    }

    /** Pressing submit: the browser fires the `submit` listener only when every
        required control is filled in; otherwise nothing happens. */
    method RequestSubmit() returns (payload: Option<Submission>, ack: Option<string>)
      requires Valid()
      modifies this
      ensures Valid()
      ensures !old(ConstraintsMet(area)) ==> payload == None && ack == None && State() == old(State())
      ensures old(ConstraintsMet(area)) ==>
        payload.Some? && ack.Some? && IsSubmissionOf(payload.value, ack.value, old(State())) &&
        State() == Closed(old(State()), clientDefaults)
    {
      if ConstraintsMet(area) {
        var p, a := SubmitForm();
        payload, ack := Some(p), Some(a);
      } else {
        payload, ack := None, None;
      }
    }
  }
}

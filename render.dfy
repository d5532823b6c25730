/** `ServiceModal.generateQuestions`: the controls it puts into the question area, as
    values. A rendered control also carries the value the user has since given it
    (`value`, `selected`, `checked`), because the same values are read back on submit. */
module Render {
  import opened Wrappers
  import opened FieldNames
  import opened Catalog

  const Heading: string := "Service-Specific Questions"
  const SelectPrompt: string := "Please select..."
  const TextAreaRows: nat := 3

  /** An `<option>` of a select. */
  datatype OptionElement = OptionElement(value: string, text: string)

  /** One `div.checkbox-item`: the checkbox, its label, and whether the item carries the
      `checked` class. */
  datatype CheckboxItem = CheckboxItem(
    id: string,
    name: string,
    value: string,
    labelText: string,
    labelFor: string,
    checked: bool,
    checkedClass: bool)

  /** The control of a question group. */
  datatype Widget =
    | TextInput(id: string, name: string, placeholder: string, required: bool, value: string)
    | TextAreaInput(id: string, name: string, rows: nat, placeholder: string, required: bool, value: string)
    | SelectInput(id: string, name: string, required: bool, options: seq<OptionElement>, selected: nat)
    | CheckboxGroup(items: seq<CheckboxItem>)

  /** A child of the question area: the `<h4>` heading, or one `div.question-group`
      holding a label (its text and its `for` attribute) and a widget. */
  datatype Node =
    | HeadingNode(text: string)
    | QuestionGroup(labelText: string, labelFor: string, widget: Widget)

  // The rendering, one function per part; the methods below build the same values by
  // appending, as the source does.

  function LabelText(q: Question): string {
    q.text + (if q.required then " *" else "")
  }

  function OptionElements(options: seq<Choice>): seq<OptionElement> {
    [OptionElement("", SelectPrompt)]
      + seq(|options|, j requires 0 <= j < |options| => OptionElement(options[j].value, options[j].text))
  }

  function CheckboxItemFor(index: nat, j: nat, option: Choice): CheckboxItem {
    CheckboxItem(CheckboxId(index, j), QuestionName(index), option.value, option.text,
                 CheckboxId(index, j), false, false)
  }

  function CheckboxItems(index: nat, options: seq<Choice>): seq<CheckboxItem> {
    seq(|options|, j requires 0 <= j < |options| => CheckboxItemFor(index, j, options[j]))
  }

  function WidgetFor(index: nat, q: Question): Widget {
    var name := QuestionName(index);
    match q.kind
    case Text => TextInput(name, name, q.placeholder.GetOr(""), q.required, "")
    case TextArea => TextAreaInput(name, name, TextAreaRows, q.placeholder.GetOr(""), q.required, "")
    case Select => SelectInput(name, name, q.required, OptionElements(q.options), 0)
    case Checkbox => CheckboxGroup(CheckboxItems(index, q.options))
  }

  function GroupFor(index: nat, q: Question): Node {
    QuestionGroup(LabelText(q), QuestionName(index), WidgetFor(index, q))
  }

  /** The question area after `generateQuestions(questions)`. */
  function QuestionArea(questions: seq<Question>): seq<Node> {
    [HeadingNode(Heading)]
      + seq(|questions|, i requires 0 <= i < |questions| => GroupFor(i, questions[i]))
  }

  // The builders: `forEach` loops that append, one element at a time.

  method BuildOptions(options: seq<Choice>) returns (elements: seq<OptionElement>)
    ensures elements == OptionElements(options)
  {
    elements := [OptionElement("", SelectPrompt)];
    for j := 0 to |options|
      invariant |elements| == j + 1
      invariant elements[0] == OptionElement("", SelectPrompt)
      invariant forall k :: 0 <= k < j ==> elements[k + 1] == OptionElement(options[k].value, options[k].text)
    {
      elements := elements + [OptionElement(options[j].value, options[j].text)];
    }
  }

  method BuildCheckboxes(index: nat, options: seq<Choice>) returns (items: seq<CheckboxItem>)
    ensures items == CheckboxItems(index, options)
  {
    items := [];
    for j := 0 to |options|
      invariant |items| == j
      invariant forall k :: 0 <= k < j ==> items[k] == CheckboxItemFor(index, k, options[k])
    {
      var id := CheckboxId(index, j);
      items := items + [CheckboxItem(id, QuestionName(index), options[j].value, options[j].text, id, false, false)];
    }
  }

  method BuildGroup(index: nat, q: Question) returns (group: Node)
    ensures group == GroupFor(index, q)
  {
    var labelText := q.text + (if q.required then " *" else "");
    var name := QuestionName(index);
    var widget;
    match q.kind {
      case Text =>
        widget := TextInput(name, name, q.placeholder.GetOr(""), q.required, "");
      case TextArea =>
        widget := TextAreaInput(name, name, TextAreaRows, q.placeholder.GetOr(""), q.required, "");
      case Select =>
        var elements := BuildOptions(q.options);
        widget := SelectInput(name, name, q.required, elements, 0);
      case Checkbox =>
        var items := BuildCheckboxes(index, q.options);
        widget := CheckboxGroup(items);
    }
    group := QuestionGroup(labelText, name, widget);
  }

  // What the rendering means.

  /** The area holds the heading and then exactly one group per question, in list order;
      group `i` carries question `i`'s label text, is labelled for, and its control is
      named, `question_i`; it is a checkbox group exactly for a checkbox question, holding
      that question's checkbox items; a text question gets an empty text input, a
      textarea question an empty 3-row textarea, and a select lists that question's
      options and sits on the first; every other control carries its question's
      `required` flag. */
  lemma AreaShape(questions: seq<Question>)
    ensures |QuestionArea(questions)| == |questions| + 1
    ensures QuestionArea(questions)[0] == HeadingNode(Heading)
    ensures forall i :: 0 <= i < |questions| ==>
      QuestionArea(questions)[i + 1].QuestionGroup? &&
      QuestionArea(questions)[i + 1].labelText == LabelText(questions[i]) &&
      QuestionArea(questions)[i + 1].labelFor == QuestionName(i) &&
      (questions[i].kind == Checkbox <==> QuestionArea(questions)[i + 1].widget.CheckboxGroup?) &&
      (questions[i].kind == Checkbox ==>
         QuestionArea(questions)[i + 1].widget == CheckboxGroup(CheckboxItems(i, questions[i].options))) &&
      (questions[i].kind == Text ==>
         QuestionArea(questions)[i + 1].widget ==
           TextInput(QuestionName(i), QuestionName(i), questions[i].placeholder.GetOr(""), questions[i].required, "")) &&
      (questions[i].kind == TextArea ==>
         QuestionArea(questions)[i + 1].widget ==
           TextAreaInput(QuestionName(i), QuestionName(i), TextAreaRows, questions[i].placeholder.GetOr(""),
                         questions[i].required, "")) &&
      (questions[i].kind == Select ==>
         QuestionArea(questions)[i + 1].widget.SelectInput? &&
         QuestionArea(questions)[i + 1].widget.options == OptionElements(questions[i].options) &&
         QuestionArea(questions)[i + 1].widget.selected == 0) &&
      (questions[i].kind != Checkbox ==>
         QuestionArea(questions)[i + 1].widget.required == questions[i].required &&
         !QuestionArea(questions)[i + 1].widget.CheckboxGroup? &&
         QuestionArea(questions)[i + 1].widget.id == QuestionName(i) &&
         QuestionArea(questions)[i + 1].widget.name == QuestionName(i))
  {
  }

  /** The label gets the `' *'` marker exactly when the question is required. */
  lemma LabelMarksRequired(q: Question)
    ensures LabelText(q) == q.text + " *" <==> q.required
    ensures !q.required ==> LabelText(q) == q.text
  {
    if !q.required {
      assert |LabelText(q)| != |q.text + " *"|;
    }
  }

  /** A select starts with the empty-valued prompt, then lists the question's options in order. */
  lemma SelectOptionsInOrder(options: seq<Choice>)
    ensures |OptionElements(options)| == |options| + 1
    ensures OptionElements(options)[0].value == "" && OptionElements(options)[0].text == SelectPrompt
    ensures forall j :: 0 <= j < |options| ==>
      OptionElements(options)[j + 1].value == options[j].value &&
      OptionElements(options)[j + 1].text == options[j].text
  {
  }

  /** A checkbox question renders one unchecked checkbox per option, with id
      `question_i_j`, name `question_i` and the option's value; all ids are distinct. */
  lemma CheckboxesPerOption(index: nat, options: seq<Choice>)
    ensures |CheckboxItems(index, options)| == |options|
    ensures forall j :: 0 <= j < |options| ==>
      var item := CheckboxItems(index, options)[j];
      item.id == CheckboxId(index, j) && item.name == QuestionName(index) &&
      item.value == options[j].value && item.labelText == options[j].text &&
      item.labelFor == item.id && !item.checked && !item.checkedClass
    ensures forall j, k :: 0 <= j < k < |options| ==>
      CheckboxItems(index, options)[j].id != CheckboxItems(index, options)[k].id
  {
    forall j, k | 0 <= j < k < |options|
      ensures CheckboxItems(index, options)[j].id != CheckboxItems(index, options)[k].id
    {
      CheckboxIdInjective(index, j, index, k);
    }
  }
}

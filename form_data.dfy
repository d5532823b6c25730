/** The form state the user edits inside the question area, and how `submitForm` reads
    it back: `new FormData(form).get('question_i')` for text, textarea and select
    questions, and `querySelectorAll('input[name="question_i"]:checked')` for
    checkbox questions. */
module FormData {
  import opened Wrappers
  import opened FieldNames
  import opened Catalog
  import opened Render

  // ---- What the user can change, and what stays as rendered ----

  function BlankItem(item: CheckboxItem): CheckboxItem {
    item.(checked := false, checkedClass := false)
  }

  function BlankItems(items: seq<CheckboxItem>): seq<CheckboxItem> {
    seq(|items|, j requires 0 <= j < |items| => BlankItem(items[j]))
  }

  /** A control with its user-editable state put back to how it was rendered. */
  function Blank(n: Node): Node {
    match n
    case HeadingNode(_) => n
    case QuestionGroup(l, f, w) =>
      QuestionGroup(l, f, match w
        case TextInput(id, name, ph, req, _) => TextInput(id, name, ph, req, "")
        case TextAreaInput(id, name, rows, ph, req, _) => TextAreaInput(id, name, rows, ph, req, "")
        case SelectInput(id, name, req, options, _) => SelectInput(id, name, req, options, 0)
        case CheckboxGroup(items) => CheckboxGroup(BlankItems(items)))
  }

  /** A select always has one of its options selected, and each checkbox item's `checked`
      class mirrors its checkbox's state (the `change` listener at script.js:151-157). */
  predicate Coherent(n: Node) {
    n.QuestionGroup? ==>
      match n.widget
      case SelectInput(_, _, _, options, selected) => selected < |options|
      case CheckboxGroup(items) => forall j :: 0 <= j < |items| ==> items[j].checkedClass == items[j].checked
      case _ => true
  }

  /** `area` is the question area rendered for `questions`, with whatever the user has
      typed, chosen and ticked since. */
  predicate Conforms(area: seq<Node>, questions: seq<Question>) {
    |area| == |QuestionArea(questions)| &&
    forall k :: 0 <= k < |area| ==> Blank(area[k]) == QuestionArea(questions)[k] && Coherent(area[k])
  }

  lemma {:induction false} RenderedConforms(questions: seq<Question>)
    ensures Conforms(QuestionArea(questions), questions)
  {
    var area := QuestionArea(questions);
    forall k | 0 <= k < |area|
      ensures Blank(area[k]) == area[k] && Coherent(area[k])
    {
      if k > 0 {
        var q := questions[k - 1];
        if q.kind == Checkbox {
          var items := CheckboxItems(k - 1, q.options);
          assert BlankItems(items) == items;
        } else if q.kind == Select {
          assert |OptionElements(q.options)| > 0;
        }
      }
    }
  }

  // ---- The user's edits (browser behaviour, plus the checkbox `change` listener) ----

  predicate IsTextControl(n: Node) {
    n.QuestionGroup? && (n.widget.TextInput? || n.widget.TextAreaInput?)
  }

  function EnterText(n: Node, text: string): Node
    requires IsTextControl(n)
  {
    n.(widget := n.widget.(value := text))
  }

  function ChooseOption(n: Node, option: nat): Node
    requires n.QuestionGroup? && n.widget.SelectInput? && option < |n.widget.options|
  {
    n.(widget := n.widget.(selected := option))
  }

  /** Clicking checkbox `j` flips it and its `change` listener sets the item's class to match. */
  function ToggleCheckbox(n: Node, j: nat): Node
    requires n.QuestionGroup? && n.widget.CheckboxGroup? && j < |n.widget.items|
  {
    var items := n.widget.items;
    var now := !items[j].checked;
    n.(widget := CheckboxGroup(items[j := items[j].(checked := now, checkedClass := now)]))
  }

  function Flags(items: seq<CheckboxItem>): (flags: seq<bool>)
    ensures |flags| == |items|
  {
    seq(|items|, j requires 0 <= j < |items| => items[j].checked)
  }

  /** An edit changes only user-editable state, keeps the node coherent, and replacing
      a node of a conforming area by its edited version keeps the area conforming. */
  lemma EditKeepsConformance(area: seq<Node>, questions: seq<Question>, k: nat, edited: Node)
    requires Conforms(area, questions) && k < |area|
    requires Blank(edited) == Blank(area[k]) && Coherent(edited)
    ensures Conforms(area[k := edited], questions)
  {
  }

  lemma EnterTextEdits(n: Node, text: string)
    requires IsTextControl(n)
    ensures Blank(EnterText(n, text)) == Blank(n) && Coherent(EnterText(n, text))
  {
  }

  lemma ChooseOptionEdits(n: Node, option: nat)
    requires n.QuestionGroup? && n.widget.SelectInput? && option < |n.widget.options|
    ensures Blank(ChooseOption(n, option)) == Blank(n) && Coherent(ChooseOption(n, option))
  {
  }

  /** Toggling checkbox `j` flips that checkbox alone; every other checkbox keeps its state. */
  lemma ToggleFlipsOne(n: Node, j: nat)
    requires n.QuestionGroup? && n.widget.CheckboxGroup? && j < |n.widget.items| && Coherent(n)
    ensures Blank(ToggleCheckbox(n, j)) == Blank(n) && Coherent(ToggleCheckbox(n, j))
    ensures Flags(ToggleCheckbox(n, j).widget.items) == Flags(n.widget.items)[j := !n.widget.items[j].checked]
  {
    var items := n.widget.items;
    var items' := ToggleCheckbox(n, j).widget.items;
    assert BlankItems(items') == BlankItems(items);
  }

  // ---- FormData and querySelectorAll over the question area ----

  /** An entry of the form's data set: a control's name and its current value. */
  datatype Entry = Entry(name: string, value: string)

  function CheckedEntries(items: seq<CheckboxItem>): seq<Entry> {
    if items == [] then []
    else (if items[0].checked then [Entry(items[0].name, items[0].value)] else []) + CheckedEntries(items[1..])
  }

  /** A text control and a select contribute their value; a checkbox only while checked. */
  function NodeEntries(n: Node): seq<Entry> {
    match n
    case HeadingNode(_) => []
    case QuestionGroup(_, _, w) =>
      match w
      case TextInput(_, name, _, _, value) => [Entry(name, value)]
      case TextAreaInput(_, name, _, _, _, value) => [Entry(name, value)]
      case SelectInput(_, name, _, options, selected) =>
        if selected < |options| then [Entry(name, options[selected].value)] else []
      case CheckboxGroup(items) => CheckedEntries(items)
  }

  /** The entries of the area, in document order. */
  function AreaEntries(area: seq<Node>): seq<Entry> {
    if area == [] then [] else NodeEntries(area[0]) + AreaEntries(area[1..])
  }

  /** `FormData.get(name)`: the value of the first entry so named, or `null`. */
  function FormGet(entries: seq<Entry>, name: string): Option<string> {
    if entries == [] then None
    else if entries[0].name == name then Some(entries[0].value)
    else FormGet(entries[1..], name)
  }

  function CheckedNamed(items: seq<CheckboxItem>, name: string): seq<string> {
    if items == [] then []
    else (if items[0].checked && items[0].name == name then [items[0].value] else []) + CheckedNamed(items[1..], name)
  }

  function NodeChecked(n: Node, name: string): seq<string> {
    if n.QuestionGroup? && n.widget.CheckboxGroup? then CheckedNamed(n.widget.items, name) else []
  }

  /** The values of `querySelectorAll('input[name="…"]:checked')`, in document order. */
  function QueryChecked(area: seq<Node>, name: string): seq<string> {
    if area == [] then [] else NodeChecked(area[0], name) + QueryChecked(area[1..], name)
  }

  // ---- The responses ----

  /** A response: a single `FormData` value (possibly `null`) or a list of checked values. */
  datatype Answer = Single(value: Option<string>) | Multiple(values: seq<string>)

  datatype Response = Response(key: string, answer: Answer)

  /** What `submitForm` stores under `question_index` for `q`, read from `area`. */
  function AnswerFor(q: Question, area: seq<Node>, index: nat): Answer {
    if q.kind == Checkbox then Multiple(QueryChecked(area, QuestionName(index)))
    else Single(FormGet(AreaEntries(area), QuestionName(index)))
  }

  /** The `forEach` that fills `data.responses`, in insertion order. */
  method CollectResponses(questions: seq<Question>, area: seq<Node>) returns (responses: seq<Response>)
    ensures |responses| == |questions|
    ensures forall i :: 0 <= i < |questions| ==>
      responses[i] == Response(QuestionName(i), AnswerFor(questions[i], area, i))
  {
    responses := [];
    for i := 0 to |questions|
      invariant |responses| == i
      invariant forall k :: 0 <= k < i ==> responses[k] == Response(QuestionName(k), AnswerFor(questions[k], area, k))
    {
      var key := QuestionName(i);
      var answer;
      if questions[i].kind == Checkbox {
        answer := Multiple(QueryChecked(area, key));
      } else {
        answer := Single(FormGet(AreaEntries(area), key));
      }
      responses := responses + [Response(key, answer)];
    }
  }

  // ---- What a response means: the state of the question's own control ----

  /** The values of the checked checkboxes, in the order they were rendered. */
  function CheckedValues(items: seq<CheckboxItem>): seq<string> {
    if items == [] then []
    else (if items[0].checked then [items[0].value] else []) + CheckedValues(items[1..])
  }

  /** The raw state of one question's control: a text control's value as typed (not
      trimmed), the selected option's value, or the checked values. */
  function ControlAnswer(n: Node): Answer {
    match n
    case HeadingNode(_) => Single(None)
    case QuestionGroup(_, _, w) =>
      match w
      case TextInput(_, _, _, _, value) => Single(Some(value))
      case TextAreaInput(_, _, _, _, _, value) => Single(Some(value))
      case SelectInput(_, _, _, options, selected) =>
        if selected < |options| then Single(Some(options[selected].value)) else Single(None)
      case CheckboxGroup(items) => Multiple(CheckedValues(items))
  }

  /** The values of the options whose flag is set, in definition order. */
  function Pick(options: seq<Choice>, flags: seq<bool>): seq<string>
    requires |flags| == |options|
  {
    if options == [] then []
    else (if flags[0] then [options[0].value] else []) + Pick(options[1..], flags[1..])
  }

  function NodeNames(n: Node): set<string> {
    match n
    case HeadingNode(_) => {}
    case QuestionGroup(_, _, w) =>
      match w
      case TextInput(_, name, _, _, _) => {name}
      case TextAreaInput(_, name, _, _, _, _) => {name}
      case SelectInput(_, name, _, _, _) => {name}
      case CheckboxGroup(items) => set j | 0 <= j < |items| :: items[j].name
  }

  lemma {:induction false} FormGetAppend(a: seq<Entry>, b: seq<Entry>, name: string)
    ensures FormGet(a + b, name) == if FormGet(a, name).Some? then FormGet(a, name) else FormGet(b, name)
  {
    if a == [] {
      assert a + b == b;
    } else {
      assert (a + b)[0] == a[0];
      assert (a + b)[1..] == a[1..] + b;
      FormGetAppend(a[1..], b, name);
    }
  }

  lemma {:induction false} CheckedEntriesNamed(items: seq<CheckboxItem>, name: string)
    requires forall j :: 0 <= j < |items| ==> items[j].name != name
    ensures FormGet(CheckedEntries(items), name) == None
    ensures CheckedNamed(items, name) == []
  {
    if items != [] {
      CheckedEntriesNamed(items[1..], name);
      FormGetAppend(if items[0].checked then [Entry(items[0].name, items[0].value)] else [],
                    CheckedEntries(items[1..]), name);
    }
  }

  lemma NodeWithoutName(n: Node, name: string)
    requires name !in NodeNames(n)
    ensures FormGet(NodeEntries(n), name) == None && NodeChecked(n, name) == []
  {
    if n.QuestionGroup? && n.widget.CheckboxGroup? {
      var items := n.widget.items;
      forall j | 0 <= j < |items| ensures items[j].name != name {
        assert items[j].name in NodeNames(n);
      }
      CheckedEntriesNamed(items, name);
    }
  }

  lemma {:induction false} AreaWithoutName(area: seq<Node>, name: string)
    requires forall k :: 0 <= k < |area| ==> name !in NodeNames(area[k])
    ensures FormGet(AreaEntries(area), name) == None && QueryChecked(area, name) == []
  {
    if area != [] {
      NodeWithoutName(area[0], name);
      AreaWithoutName(area[1..], name);
      FormGetAppend(NodeEntries(area[0]), AreaEntries(area[1..]), name);
    }
  }

  /** When only node `m` carries controls named `name`, reading the whole area by that
      name reads node `m`. */
  lemma {:induction false} ReadIsolated(area: seq<Node>, m: nat, name: string)
    requires m < |area|
    requires forall k :: 0 <= k < |area| && k != m ==> name !in NodeNames(area[k])
    ensures FormGet(AreaEntries(area), name) == FormGet(NodeEntries(area[m]), name)
    ensures QueryChecked(area, name) == NodeChecked(area[m], name)
  {
    FormGetAppend(NodeEntries(area[0]), AreaEntries(area[1..]), name);
    if m == 0 {
      AreaWithoutName(area[1..], name);
    } else {
      NodeWithoutName(area[0], name);
      ReadIsolated(area[1..], m - 1, name);
    }
  }

  lemma {:induction false} CheckedNamedAll(items: seq<CheckboxItem>, name: string)
    requires forall j :: 0 <= j < |items| ==> items[j].name == name
    ensures CheckedNamed(items, name) == CheckedValues(items)
  {
    if items != [] {
      CheckedNamedAll(items[1..], name);
    }
  }

  /** Group `i` of a conforming area names its controls `question_i`, and nothing else. */
  lemma GroupNames(area: seq<Node>, questions: seq<Question>, k: nat)
    requires Conforms(area, questions) && k < |area|
    ensures k == 0 ==> NodeNames(area[k]) == {}
    ensures k > 0 ==> NodeNames(area[k]) <= {QuestionName(k - 1)}
  {
    var n := area[k];
    assert Blank(n) == QuestionArea(questions)[k];
    if n.QuestionGroup? && n.widget.CheckboxGroup? {
      var items := n.widget.items;
      forall j | 0 <= j < |items| ensures items[j].name == QuestionName(k - 1) {
        assert BlankItems(items)[j].name == items[j].name;
      }
    }
  }

  /** No control outside group `i` is named `question_i`. */
  lemma OthersLackName(area: seq<Node>, questions: seq<Question>, i: nat)
    requires Conforms(area, questions) && i < |questions|
    ensures forall k :: 0 <= k < |area| && k != i + 1 ==> QuestionName(i) !in NodeNames(area[k])
  {
    forall k | 0 <= k < |area| && k != i + 1 ensures QuestionName(i) !in NodeNames(area[k]) {
      GroupNames(area, questions, k);
      if k > 0 {
        QuestionNameInjective(i, k - 1);
      }
    }
  }

  /** Reading a rendered group by its own name yields its control's state. */
  lemma OwnControlRead(n: Node, q: Question, i: nat)
    requires Blank(n) == GroupFor(i, q) && Coherent(n)
    ensures q.kind == Checkbox ==> Multiple(NodeChecked(n, QuestionName(i))) == ControlAnswer(n)
    ensures q.kind != Checkbox ==> Single(FormGet(NodeEntries(n), QuestionName(i))) == ControlAnswer(n)
  {
    var name := QuestionName(i);
    match n.widget {
      case CheckboxGroup(items) =>
        forall j | 0 <= j < |items| ensures items[j].name == name {
          assert BlankItems(items)[j] == CheckboxItems(i, q.options)[j];
        }
        CheckedNamedAll(items, name);
      case TextInput(_, _, _, _, _) =>
      case TextAreaInput(_, _, _, _, _, _) =>
      case SelectInput(_, _, _, _, _) =>
    }
  }

  /** `submitForm` reads question `i`'s answer from question `i`'s own control: name
      uniqueness keeps every other control out of it. */
  lemma ResponseReadsOwnControl(area: seq<Node>, questions: seq<Question>, i: nat)
    requires Conforms(area, questions) && i < |questions|
    ensures AnswerFor(questions[i], area, i) == ControlAnswer(area[i + 1])
    ensures questions[i].kind == Checkbox <==> AnswerFor(questions[i], area, i).Multiple?
  {
    OthersLackName(area, questions, i);
    ReadIsolated(area, i + 1, QuestionName(i));
    OwnControlRead(area[i + 1], questions[i], i);
  }

  /** Every response of a submission, read as the raw state of its question's control. */
  lemma ResponsesReadControls(area: seq<Node>, questions: seq<Question>, responses: seq<Response>)
    requires Conforms(area, questions)
    requires |responses| == |questions|
    requires forall i :: 0 <= i < |questions| ==>
      responses[i] == Response(QuestionName(i), AnswerFor(questions[i], area, i))
    ensures forall i :: 0 <= i < |questions| ==>
      responses[i].key == QuestionName(i) && responses[i].answer == ControlAnswer(area[i + 1])
    ensures forall i, j :: 0 <= i < j < |questions| ==> responses[i].key != responses[j].key
  {
    forall i | 0 <= i < |questions| ensures responses[i].answer == ControlAnswer(area[i + 1]) {
      ResponseReadsOwnControl(area, questions, i);
    }
    forall i, j | 0 <= i < j < |questions| ensures responses[i].key != responses[j].key {
      QuestionNameInjective(i, j);
    }
  }

  /** The checked values of a conforming checkbox group are the values of the checked
      options, in definition order. */
  lemma {:induction false} CheckedInDefinitionOrder(items: seq<CheckboxItem>, options: seq<Choice>)
    requires |items| == |options|
    requires forall j :: 0 <= j < |items| ==> items[j].value == options[j].value
    ensures CheckedValues(items) == Pick(options, Flags(items))
  {
    if items != [] {
      assert Flags(items)[1..] == Flags(items[1..]);
      CheckedInDefinitionOrder(items[1..], options[1..]);
    }
  }

  /** A value is picked exactly when some checked option carries it; none checked gives
      the empty list. */
  lemma {:induction false} PickMembers(options: seq<Choice>, flags: seq<bool>)
    requires |flags| == |options|
    ensures forall v :: v in Pick(options, flags) <==> exists j :: 0 <= j < |options| && flags[j] && options[j].value == v
    ensures Pick(options, flags) == [] <==> forall j :: 0 <= j < |flags| ==> !flags[j]
  {
    if options != [] {
      PickMembers(options[1..], flags[1..]);
      forall v | v in Pick(options, flags)
        ensures exists j :: 0 <= j < |options| && flags[j] && options[j].value == v
      {
        if !(flags[0] && options[0].value == v) {
          var j :| 0 <= j < |options| - 1 && flags[1..][j] && options[1..][j].value == v;
          assert flags[j + 1] && options[j + 1].value == v;
        }
      }
      forall v | exists j :: 0 <= j < |options| && flags[j] && options[j].value == v
        ensures v in Pick(options, flags)
      {
        var j :| 0 <= j < |options| && flags[j] && options[j].value == v;
        if j > 0 {
          assert flags[1..][j - 1] && options[1..][j - 1].value == v;
        }
      }
      if flags[0] {
        assert options[0].value in Pick(options, flags);
      } else {
        assert forall j :: 1 <= j < |flags| ==> flags[j] == flags[1..][j - 1];
      }
    }
  }

  /** For a checkbox question, the response lists exactly the checked options' values in
      definition order, and is empty when none is checked. */
  lemma CheckboxResponse(area: seq<Node>, questions: seq<Question>, i: nat)
    requires Conforms(area, questions) && i < |questions| && questions[i].kind == Checkbox
    ensures area[i + 1].QuestionGroup? && area[i + 1].widget.CheckboxGroup?
    ensures |area[i + 1].widget.items| == |questions[i].options|
    ensures AnswerFor(questions[i], area, i)
         == Multiple(Pick(questions[i].options, Flags(area[i + 1].widget.items)))
  {
    var n := area[i + 1];
    var q := questions[i];
    assert Blank(n) == GroupFor(i, q);
    var items := n.widget.items;
    forall j | 0 <= j < |items| ensures items[j].value == q.options[j].value {
      assert BlankItems(items)[j] == CheckboxItems(i, q.options)[j];
    }
    ResponseReadsOwnControl(area, questions, i);
    CheckedInDefinitionOrder(items, q.options);
  }
}

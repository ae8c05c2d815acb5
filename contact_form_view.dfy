/** What the contact form shows for each status
    (src/components/sections/contact/ContactForm.tsx): the button's
    disabled flag, its colour scheme, its scan-line effect and its label,
    and which field each input edits. */
module ContactFormView {
  import opened ContactFormState

  /** `isDisabled`: the button cannot be pressed while a submission is
      pending or has just succeeded. */
  function IsDisabled(s: FormStatus): (r: bool)
    ensures r <==> StatusName(s) == "loading" || StatusName(s) == "success"
  {
    s == Loading || s == Success
  }

  /** The three entries of `statusStyles`. */
  datatype ButtonStyle = SuccessStyle | ErrorStyle | DefaultStyle

  /** The class string of each style. */
  function StyleClasses(b: ButtonStyle): string
  {
    match b
    case SuccessStyle => "bg-green-600 dark:bg-green-500 border-green-500"
    case ErrorStyle => "bg-red-600 dark:bg-red-500 border-red-500"
    case DefaultStyle => "bg-cyan-600 dark:bg-cyan-500 border-cyan-500 hover:bg-cyan-700 dark:hover:bg-cyan-600"
  }

  /** The `buttonStyle` ternary chain. */
  function ButtonStyleOf(s: FormStatus): (r: ButtonStyle)
    ensures r == SuccessStyle <==> s == Success
    ensures r == ErrorStyle <==> s == Error
    ensures r == DefaultStyle <==> s.Idle? || s.Loading?
  {
    match s
    case Success => SuccessStyle
    case Error => ErrorStyle
    case _ => DefaultStyle
  }

  /** The strong scan line is drawn on the button only while idle; it is
      therefore never drawn on a disabled button. */
  function ShowsScanLine(s: FormStatus): (r: bool)
    ensures r ==> !IsDisabled(s) && ButtonStyleOf(s) == DefaultStyle
    ensures r <==> StatusName(s) == "idle"
  {
    s == Idle
  }

  /** The translation keys `ButtonContent` picks from. */
  datatype Label = Send | Sending | Succeeded | Failed

  function LabelKey(l: Label): string
  {
    match l
    case Send => "send"
    case Sending => "sending"
    case Succeeded => "success"
    case Failed => "error"
  }

  /** The `ButtonContent` switch, `default` covering idle. */
  function LabelOf(s: FormStatus): (r: Label)
    ensures s == Loading ==> r == Sending
    ensures s == Success ==> r == Succeeded
    ensures s == Error ==> r == Failed
    ensures s == Idle ==> r == Send
  {
    match s
    case Loading => Sending
    case Success => Succeeded
    case Error => Failed
    case _ => Send
  }

  /** Exactly one label per status: distinct statuses never share one, and
      every label is shown for some status. */
  lemma LabelOfIsBijective(s: FormStatus, t: FormStatus, l: Label)
    ensures LabelOf(s) == LabelOf(t) ==> s == t
    ensures exists u :: LabelOf(u) == l
  {
    match l
    case Send => assert LabelOf(Idle) == l;
    case Sending => assert LabelOf(Loading) == l;
    case Succeeded => assert LabelOf(Success) == l;
    case Failed => assert LabelOf(Error) == l;
  }

  /** An input element of the form: its `id` and the field whose change
      handler `onChange(field)` it is given. */
  datatype Input = Input(id: string, field: Field)

  const Inputs: seq<Input> := [Input("name", Name), Input("email", Email), Input("message", Message)]

  function FieldsOf(inputs: seq<Input>): (r: seq<Field>)
    ensures |r| == |inputs|
    ensures forall i :: 0 <= i < |inputs| ==> r[i] == inputs[i].field
  {
    seq(|inputs|, i requires 0 <= i < |inputs| => inputs[i].field)
  }

  /** Each input edits the field named like its id, every field has an
      input, and no two inputs edit the same field. */
  lemma InputsTargetOwnField()
    ensures forall i :: 0 <= i < |Inputs| ==> FieldKey(Inputs[i].field) == Inputs[i].id
    ensures forall f: Field :: f in FieldsOf(Inputs)
    ensures forall i, j :: 0 <= i < j < |Inputs| ==> Inputs[i].field != Inputs[j].field
  {
    var fs := FieldsOf(Inputs);
    assert fs[0] == Name && fs[1] == Email && fs[2] == Message;
    forall f: Field ensures f in fs {
      match f
      case Name => assert fs[0] == f;
      case Email => assert fs[1] == f;
      case Message => assert fs[2] == f;
    }
  }
}

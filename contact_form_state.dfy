/** The contact form hook (src/hooks/useContactForm.ts): three text fields
    and a status. The asynchronous submission is split at its `await` and
    its `setTimeout` into four explicit transitions: begin, succeed, fail
    and the timer that puts the status back to idle. */
module ContactFormState {
  import opened Common

  /** The four values of the `FormStatus` string union. */
  datatype FormStatus = Idle | Loading | Success | Error

  /** The string literal each status stands for. */
  function StatusName(s: FormStatus): (r: string)
    ensures r in {"idle", "loading", "success", "error"}
  {
    match s
    case Idle => "idle"
    case Loading => "loading"
    case Success => "success"
    case Error => "error"
  }

  /** The inverse of StatusName: a string is a status only if it is one of
      the four literals of the union. */
  function ParseStatus(name: string): (r: Option<FormStatus>)
    ensures r.Some? ==> StatusName(r.value) == name
    ensures r.None? ==> forall s: FormStatus :: StatusName(s) != name
  {
    if name == "idle" then Some(Idle)
    else if name == "loading" then Some(Loading)
    else if name == "success" then Some(Success)
    else if name == "error" then Some(Error)
    else None
  }

  lemma ParseStatusName(s: FormStatus)
    ensures ParseStatus(StatusName(s)) == Some(s)
  {
  }

  /** The keys of `FormState`, as passed to `handleChange(field)`. */
  datatype Field = Name | Email | Message

  function FieldKey(f: Field): string
  {
    match f
    case Name => "name"
    case Email => "email"
    case Message => "message"
  }

  lemma FieldKeyInjective(f: Field, g: Field)
    requires FieldKey(f) == FieldKey(g)
    ensures f == g
  {
  }

  datatype FormState = FormState(name: string, email: string, message: string)

  /** `initialFormState`: all three fields empty. */
  const InitialFormState := FormState("", "", "")

  function Get(s: FormState, f: Field): string
  {
    match f
    case Name => s.name
    case Email => s.email
    case Message => s.message
  }

  /** `{ ...prev, [field]: value }`: the record with one field replaced. */
  function WithField(s: FormState, f: Field, value: string): (r: FormState)
    ensures Get(r, f) == value
    ensures forall g :: g != f ==> Get(r, g) == Get(s, g)
  {
    match f
    case Name => s.(name := value)
    case Email => s.(email := value)
    case Message => s.(message := value)
  }

  /** Everything that can happen to the hook's state: a field edit, the
      reset callback, and the phases of one submission. */
  datatype Event =
    | Change(field: Field, value: string)
    | Reset
    | BeginSubmit
    | SubmitSucceeded
    | SubmitFailed
    | StatusTimerFired

  datatype Snapshot = Snapshot(form: FormState, status: FormStatus)

  const InitialSnapshot := Snapshot(InitialFormState, Idle)

  /** The reference semantics of one event; the class below follows it. */
  function Step(s: Snapshot, e: Event): (r: Snapshot)
    ensures StatusOnly(e) ==> r.form == s.form
    ensures e.Change? ==> r.status == s.status
    ensures e.Reset? || e.SubmitSucceeded? ==> r.form == InitialFormState
    ensures e.Reset? || e.StatusTimerFired? ==> r.status == Idle
  {
    match e
    case Change(f, v) => s.(form := WithField(s.form, f, v))
    case Reset => Snapshot(InitialFormState, Idle)
    case BeginSubmit => s.(status := Loading)
    case SubmitSucceeded => Snapshot(InitialFormState, Success)
    case SubmitFailed => s.(status := Error)
    case StatusTimerFired => s.(status := Idle)
  }

  function Run(s: Snapshot, events: seq<Event>): (r: Snapshot)
    ensures events == [] ==> r == s
    ensures events != [] && events[|events| - 1].StatusTimerFired? ==> r.status == Idle
    ensures events != [] && events[|events| - 1].Reset? ==> r == InitialSnapshot
    decreases |events|
  {
    if events == [] then s else Run(Step(s, events[0]), events[1..])
  }

  /** Editing a field sets that field, keeps the other two and the status. */
  lemma ChangeOnlyThatField(s: Snapshot, f: Field, v: string)
    ensures Get(Step(s, Change(f, v)).form, f) == v
    ensures forall g :: g != f ==> Get(Step(s, Change(f, v)).form, g) == Get(s.form, g)
    ensures Step(s, Change(f, v)).status == s.status
  {
  }

  /** Resetting yields the initial state whatever came before. */
  lemma ResetIsInitial(s: Snapshot)
    ensures Step(s, Reset) == InitialSnapshot
  {
  }

  /** A complete successful submission: loading first, then success with
      every field cleared, then idle once the timer fires. */
  lemma SuccessfulSubmission(s: Snapshot)
    ensures Step(s, BeginSubmit).status == Loading
    ensures Run(s, [BeginSubmit, SubmitSucceeded]) == Snapshot(InitialFormState, Success)
    ensures Run(s, [BeginSubmit, SubmitSucceeded, StatusTimerFired]) == InitialSnapshot
  {
    assert [BeginSubmit, SubmitSucceeded][1..] == [SubmitSucceeded];
    assert [BeginSubmit, SubmitSucceeded, StatusTimerFired][1..] == [SubmitSucceeded, StatusTimerFired];
    assert [SubmitSucceeded, StatusTimerFired][1..] == [StatusTimerFired];
  }

  /** A failed submission keeps what the visitor typed and ends idle. */
  lemma FailedSubmission(s: Snapshot)
    ensures Run(s, [BeginSubmit, SubmitFailed]) == Snapshot(s.form, Error)
    ensures Run(s, [BeginSubmit, SubmitFailed, StatusTimerFired]) == Snapshot(s.form, Idle)
  {
    assert [BeginSubmit, SubmitFailed][1..] == [SubmitFailed];
    assert [BeginSubmit, SubmitFailed, StatusTimerFired][1..] == [SubmitFailed, StatusTimerFired];
    assert [SubmitFailed, StatusTimerFired][1..] == [StatusTimerFired];
  }

  /** The delayed reset returns the status to idle from any state. */
  lemma TimerAlwaysIdle(s: Snapshot)
    ensures Step(s, StatusTimerFired).status == Idle
    ensures Step(s, StatusTimerFired).form == s.form
  {
  }

  /** Only field edits, the reset and a success write the fields. */
  predicate StatusOnly(e: Event)
  {
    e.BeginSubmit? || e.SubmitFailed? || e.StatusTimerFired?
  }

  /** Any run of status-only events (submissions that fail, with their
      timers) leaves the three fields exactly as they were. */
  lemma {:induction false} StatusEventsKeepFields(s: Snapshot, events: seq<Event>)
    requires forall i :: 0 <= i < |events| ==> StatusOnly(events[i])
    ensures Run(s, events).form == s.form
    decreases |events|
  {
    if events != [] {
      assert StatusOnly(events[0]);
      StatusEventsKeepFields(Step(s, events[0]), events[1..]);
    }
  }

  /** The timer is not tied to the submission that armed it: after a
      failure the button is enabled again, and the first failure's timer
      can turn a second submission that is still waiting back to idle. */
  lemma StaleTimerEndsLaterLoading(s: Snapshot)
    ensures Run(s, [BeginSubmit, SubmitFailed]).status == Error
    ensures Run(s, [BeginSubmit, SubmitFailed, BeginSubmit]).status == Loading
    ensures Run(s, [BeginSubmit, SubmitFailed, BeginSubmit, StatusTimerFired]).status == Idle
  {
    var evs := [BeginSubmit, SubmitFailed, BeginSubmit, StatusTimerFired];
    assert evs[1..] == [SubmitFailed, BeginSubmit, StatusTimerFired];
    assert evs[1..][1..] == [BeginSubmit, StatusTimerFired];
    assert evs[1..][1..][1..] == [StatusTimerFired];
  }

  /** The hook: its two state cells are fields that each callback and each
      phase of `handleSubmit` overwrites. */
  class ContactForm {
    var formState: FormState
    var status: FormStatus

    function Current(): Snapshot
      reads this
    {
      Snapshot(formState, status)
    }

    constructor ()
      ensures formState == InitialFormState && status == Idle
    {
      formState := InitialFormState;
      status := Idle;
    }

    /** `handleChange(field)` applied to an input event carrying `value`. */
    method HandleChange(field: Field, value: string)
      modifies this
      ensures formState == WithField(old(formState), field, value)
      ensures status == old(status)
      ensures Current() == Step(old(Current()), Change(field, value))
    {
      formState := WithField(formState, field, value);
    }

    method ResetForm()
      modifies this
      ensures formState == InitialFormState && status == Idle
      ensures Current() == Step(old(Current()), Reset)
    {
      formState := InitialFormState;
      status := Idle;
    }

    /** `handleSubmit` up to its `await`. */
    method BeginSubmit()
      modifies this
      ensures status == Loading && formState == old(formState)
      ensures Current() == Step(old(Current()), Event.BeginSubmit)
    {
      status := Loading;
    }

    /** The `await` resolved: success, and the fields are cleared. */
    method SubmitSucceeded()
      modifies this
      ensures status == Success && formState == InitialFormState
      ensures Current() == Step(old(Current()), Event.SubmitSucceeded)
    {
      status := Success;
      formState := InitialFormState;
    }

    /** The `catch` branch: error, and the fields are kept. */
    method SubmitFailed()
      modifies this
      ensures status == Error && formState == old(formState)
      ensures Current() == Step(old(Current()), Event.SubmitFailed)
    {
      status := Error;
    }

    /** The three-second timer armed by either outcome. */
    method StatusTimerFired()
      modifies this
      ensures status == Idle && formState == old(formState)
      ensures Current() == Step(old(Current()), Event.StatusTimerFired)
    {
      status := Idle;
    }
  }
}

/**
 * The contact form controller (`ContactTab`): four free-text fields, a status
 * banner `{type, message}` and an `isSubmitting` flag, driven by field edits,
 * the (simulated) submit, and the two timers that submit arms: completion
 * after one second, and the clearing of the status five seconds after
 * completion. Timers are events here; a pending-timer count records which of
 * them are scheduled, since none is ever cancelled.
 */
module Contact {

  /** The four inputs, by their `name` attribute. */
  datatype Field = Name | Email | Subject | Message

  /** `formState`. */
  datatype FormState = FormState(name: string, email: string, subject: string, message: string)

  const EmptyForm: FormState := FormState("", "", "", "")

  function Get(f: FormState, field: Field): string
  {
    match field
    case Name => f.name
    case Email => f.email
    case Subject => f.subject
    case Message => f.message
  }

  /** `{...formState, [name]: value}`. */
  function With(f: FormState, field: Field, value: string): FormState
  {
    match field
    case Name => f.(name := value)
    case Email => f.(email := value)
    case Subject => f.(subject := value)
    case Message => f.(message := value)
  }

  /** An edit sets exactly the named field and keeps the other three. */
  lemma WithSetsOneField(f: FormState, field: Field, value: string)
    ensures Get(With(f, field, value), field) == value
    ensures forall other :: other != field ==> Get(With(f, field, value), other) == Get(f, other)
  {
  }

  /** A form is determined by its four fields. */
  lemma {:induction false} FormExtensional(f: FormState, g: FormState)
    ensures (forall field :: Get(f, field) == Get(g, field)) <==> f == g
  {
    if forall field :: Get(f, field) == Get(g, field) {
      assert Get(f, Name) == Get(g, Name) && Get(f, Email) == Get(g, Email);
      assert Get(f, Subject) == Get(g, Subject) && Get(f, Message) == Get(g, Message);
    }
  }

  /**
   * The edit exactly: editing `field` to `value` in `f` gives `g` iff `g`
   * holds `value` in that field and agrees with `f` on the other three.
   */
  lemma {:induction false} WithExact(f: FormState, field: Field, value: string, g: FormState)
    ensures With(f, field, value) == g <==>
      Get(g, field) == value && forall other :: other != field ==> Get(g, other) == Get(f, other)
  {
    var h := With(f, field, value);
    WithSetsOneField(f, field, value);
    FormExtensional(h, g);
    if Get(g, field) == value && forall other :: other != field ==> Get(g, other) == Get(f, other) {
      forall other: Field
        ensures Get(h, other) == Get(g, other)
      {
        if other != field {
          assert Get(h, other) == Get(f, other);
        }
      }
    }
  }

  /** `status`: a type tag and the text of the banner. */
  datatype Status = Status(kind: string, message: string)

  const Idle: Status := Status("", "")

  const ThanksMessage: string := "Thanks for reaching out! I'll get back to you soon."

  const Success: Status := Status("success", ThanksMessage)

  /** The banner is rendered iff the status message is non-empty. */
  predicate BannerShown(st: Status)
  {
    st.message != ""
  }

  /** A shown banner is green for type "success" and red otherwise. */
  predicate BannerGreen(st: Status)
  {
    st.kind == "success"
  }

  /** The whole controller state, with the counts of scheduled timers. */
  datatype ContactState = ContactState(
    form: FormState,
    status: Status,
    isSubmitting: bool,
    pendingCompletions: nat,  // one-second completion timers not yet fired
    pendingClears: nat        // five-second status-clear timers not yet fired
  )

  const Initial: ContactState := ContactState(EmptyForm, Idle, false, 0, 0)

  /** The submit button's caption. */
  function ButtonCaption(s: ContactState): string
  {
    if s.isSubmitting then "Sending..." else "Send Message"
  }

  /**
   * An edit of one input, the form's submit, the completion timer firing,
   * and the status-clear timer firing.
   */
  datatype ContactEvent = Change(field: Field, value: string) | Submit | Complete | ClearStatus

  /** A timer event needs a timer of its kind to be scheduled; the handlers themselves have no guard. */
  predicate CanOccur(s: ContactState, e: ContactEvent)
  {
    match e
    case Complete => s.pendingCompletions > 0
    case ClearStatus => s.pendingClears > 0
    case _ => true
  }

  /** The page also disables the inputs and the submit button while `isSubmitting`. */
  predicate UiAllows(s: ContactState, e: ContactEvent)
  {
    CanOccur(s, e) && ((e.Change? || e.Submit?) ==> !s.isSubmitting)
  }

  /** The effect of one event. */
  function Step(s: ContactState, e: ContactEvent): ContactState
    requires CanOccur(s, e)
  {
    match e
    case Change(field, value) =>
      s.(form := With(s.form, field, value))
    case Submit =>
      s.(isSubmitting := true, status := Idle, pendingCompletions := s.pendingCompletions + 1)
    case Complete =>
      s.(status := Success, form := EmptyForm, isSubmitting := false,
         pendingCompletions := s.pendingCompletions - 1, pendingClears := s.pendingClears + 1)
    case ClearStatus =>
      s.(status := Idle, pendingClears := s.pendingClears - 1)
  }

  /** Every event of `evs` can occur in the state it meets. */
  predicate Feasible(s: ContactState, evs: seq<ContactEvent>)
    decreases |evs|
  {
    evs == [] || (CanOccur(s, evs[0]) && Feasible(Step(s, evs[0]), evs[1..]))
  }

  /** Every event of `evs` is one the page lets happen in the state it meets. */
  predicate UiTrace(s: ContactState, evs: seq<ContactEvent>)
    decreases |evs|
  {
    evs == [] || (UiAllows(s, evs[0]) && UiTrace(Step(s, evs[0]), evs[1..]))
  }

  function Run(s: ContactState, evs: seq<ContactEvent>): ContactState
    requires Feasible(s, evs)
    decreases |evs|
  {
    if evs == [] then s else Run(Step(s, evs[0]), evs[1..])
  }

  /**
   * What every reachable state satisfies, with or without the disabled
   * inputs: the simulated path has no error outcome, a success banner always
   * has a clear timer behind it, is never shown while sending, and sending
   * always has a completion timer behind it.
   */
  predicate Inv(s: ContactState)
  {
    && (s.status == Idle || s.status == Success)
    && (s.status == Success ==> s.pendingClears > 0 && !s.isSubmitting)
    && (s.isSubmitting ==> s.pendingCompletions > 0)
  }

  /** With the disabled inputs, at most one completion is pending, exactly while sending. */
  predicate UiInv(s: ContactState)
  {
    Inv(s) && s.pendingCompletions == (if s.isSubmitting then 1 else 0)
  }

  lemma InitialUiInv()
    ensures UiInv(Initial) && !BannerShown(Initial.status) && Initial.form == EmptyForm
  {
  }

  lemma StepKeepsInv(s: ContactState, e: ContactEvent)
    requires Inv(s) && CanOccur(s, e)
    ensures Inv(Step(s, e))
  {
  }

  lemma {:induction false} RunKeepsInv(s: ContactState, evs: seq<ContactEvent>)
    requires Inv(s) && Feasible(s, evs)
    ensures Inv(Run(s, evs))
    decreases |evs|
  {
    if evs != [] {
      StepKeepsInv(s, evs[0]);
      RunKeepsInv(Step(s, evs[0]), evs[1..]);
    }
  }

  lemma {:induction false} UiTraceKeepsUiInv(s: ContactState, evs: seq<ContactEvent>)
    requires UiInv(s) && UiTrace(s, evs)
    ensures Feasible(s, evs) && UiInv(Run(s, evs))
    decreases |evs|
  {
    if evs != [] {
      UiTraceKeepsUiInv(Step(s, evs[0]), evs[1..]);
    }
  }

  /**
   * In every reachable state the banner shows iff the status is the success
   * status, and a shown banner is green: no error banner can appear.
   */
  lemma BannerOnlyOnSuccess(s: ContactState)
    requires Inv(s)
    ensures BannerShown(s.status) <==> s.status == Success
    ensures BannerShown(s.status) ==> BannerGreen(s.status) && s.status.message == ThanksMessage
  {
  }

  /** Under the disabled inputs, "Sending..." shows iff the one completion timer is pending. */
  lemma CaptionTracksPendingCompletion(s: ContactState)
    requires UiInv(s)
    ensures ButtonCaption(s) == "Sending..." <==> s.pendingCompletions == 1
    ensures ButtonCaption(s) == "Send Message" <==> s.pendingCompletions == 0
  {
  }

  /**
   * `handleSubmit` has no re-entry guard of its own: called twice, it arms
   * two completion timers. Only the disabled inputs prevent this.
   */
  lemma SubmitTwiceArmsTwoCompletions(s: ContactState)
    ensures Feasible(s, [Submit, Submit])
    ensures Run(s, [Submit, Submit]).pendingCompletions == s.pendingCompletions + 2
    ensures !UiTrace(s, [Submit, Submit])
  {
    assert Step(s, Submit).isSubmitting;
  }

  /** Running `[e] + evs` is running `evs` after `e`. */
  lemma RunCons(s: ContactState, e: ContactEvent, evs: seq<ContactEvent>)
    requires CanOccur(s, e) && Feasible(Step(s, e), evs)
    ensures Feasible(s, [e] + evs) && Run(s, [e] + evs) == Run(Step(s, e), evs)
    ensures UiAllows(s, e) && UiTrace(Step(s, e), evs) ==> UiTrace(s, [e] + evs)
  {
    assert ([e] + evs)[0] == e && ([e] + evs)[1..] == evs;
  }

  /**
   * The five-second clear is never cancelled: after two submissions, each
   * completed, the first clear timer removes the second success banner,
   * while that banner's own clear timer is still pending.
   */
  lemma EarlierClearRemovesLaterBanner()
    ensures UiTrace(Initial, [Submit, Complete, Submit, Complete])
    ensures Run(Initial, [Submit, Complete, Submit, Complete]).status == Success
    ensures UiTrace(Initial, [Submit, Complete, Submit, Complete, ClearStatus])
    ensures Feasible(Initial, [Submit, Complete, Submit, Complete, ClearStatus])
    ensures var t := Run(Initial, [Submit, Complete, Submit, Complete, ClearStatus]);
      t.status == Idle && t.pendingClears == 1
  {
    var s1 := Step(Initial, Submit);
    var s2 := Step(s1, Complete);
    var s3 := Step(s2, Submit);
    var s4 := Step(s3, Complete);
    var s5 := Step(s4, ClearStatus);
    assert s4.status == Success && s5.status == Idle && s5.pendingClears == 1;
    RunCons(s3, Complete, []);
    RunCons(s2, Submit, [Complete]);
    RunCons(s1, Complete, [Submit, Complete]);
    RunCons(Initial, Submit, [Complete, Submit, Complete]);
    RunCons(s4, ClearStatus, []);
    RunCons(s3, Complete, [ClearStatus]);
    RunCons(s2, Submit, [Complete, ClearStatus]);
    RunCons(s1, Complete, [Submit, Complete, ClearStatus]);
    RunCons(Initial, Submit, [Complete, Submit, Complete, ClearStatus]);
  }

  /**
   * Filling in all four fields and submitting: once the completion timer
   * fires the banner is the success message, the form is empty again, the
   * button is enabled, and one clear timer is pending.
   */
  lemma FillAndSubmit()
    ensures var evs := [Change(Name, "Ava"), Change(Email, "a@x.com"), Change(Subject, "Hi"),
                        Change(Message, "Hello"), Submit, Complete];
      UiTrace(Initial, evs) && Feasible(Initial, evs)
      && Run(Initial, evs) == ContactState(EmptyForm, Success, false, 0, 1)
  {
    var s1 := Step(Initial, Change(Name, "Ava"));
    var s2 := Step(s1, Change(Email, "a@x.com"));
    var s3 := Step(s2, Change(Subject, "Hi"));
    var s4 := Step(s3, Change(Message, "Hello"));
    var s5 := Step(s4, Submit);
    assert s4.form == FormState("Ava", "a@x.com", "Hi", "Hello") && !s4.isSubmitting;
    assert s5.form == s4.form && s5.isSubmitting && s5.pendingCompletions == 1;
    RunCons(s5, Complete, []);
    RunCons(s4, Submit, [Complete]);
    RunCons(s3, Change(Message, "Hello"), [Submit, Complete]);
    RunCons(s2, Change(Subject, "Hi"), [Change(Message, "Hello"), Submit, Complete]);
    RunCons(s1, Change(Email, "a@x.com"), [Change(Subject, "Hi"), Change(Message, "Hello"), Submit, Complete]);
    RunCons(Initial, Change(Name, "Ava"),
      [Change(Email, "a@x.com"), Change(Subject, "Hi"), Change(Message, "Hello"), Submit, Complete]);
  }

  /** `ContactTab`'s state cells and the timers it has scheduled. */
  class ContactTab {
    var form: FormState
    var status: Status
    var isSubmitting: bool
    var pendingCompletions: nat
    var pendingClears: nat

    function State(): ContactState
      reads this
    {
      ContactState(form, status, isSubmitting, pendingCompletions, pendingClears)
    }

    ghost predicate Valid()
      reads this
    {
      Inv(State())
    }

    constructor ()
      ensures Valid() && State() == Initial
    {
      form := EmptyForm;
      status := Idle;
      isSubmitting := false;
      pendingCompletions := 0;
      pendingClears := 0;
    }

    /** `handleChange`: overwrite exactly the named field. */
    method HandleChange(field: Field, value: string)
      requires Valid()
      modifies this
      ensures Valid() && State() == Step(old(State()), Change(field, value))
      ensures Get(form, field) == value
      ensures forall other :: other != field ==> Get(form, other) == Get(old(form), other)
      ensures status == old(status) && isSubmitting == old(isSubmitting)
      ensures pendingCompletions == old(pendingCompletions) && pendingClears == old(pendingClears)
    {
      form := With(form, field, value);
      WithSetsOneField(old(form), field, value);
    }

    /** `handleSubmit`: mark sending, clear the status, arm the completion timer; fields untouched. */
    method HandleSubmit()
      requires Valid()
      modifies this
      ensures Valid() && State() == Step(old(State()), Submit)
      ensures isSubmitting && status == Idle && form == old(form)
      ensures pendingCompletions == old(pendingCompletions) + 1 && pendingClears == old(pendingClears)
    {
      isSubmitting := true;
      status := Idle;
      pendingCompletions := pendingCompletions + 1;
    }

    /**
     * The completion timer: show the thank-you banner, empty all four
     * fields, end sending, and arm the status-clear timer.
     */
    method Complete()
      requires Valid() && pendingCompletions > 0
      modifies this
      ensures Valid() && State() == Step(old(State()), ContactEvent.Complete)
      ensures status == Success && BannerShown(status) && BannerGreen(status)
      ensures form == EmptyForm && !isSubmitting
      ensures pendingCompletions == old(pendingCompletions) - 1 && pendingClears == old(pendingClears) + 1
    {
      status := Success;
      form := EmptyForm;
      isSubmitting := false;
      pendingCompletions := pendingCompletions - 1;
      pendingClears := pendingClears + 1;
    }

    /** The status-clear timer: hide the banner; nothing else changes. */
    method ClearStatus()
      requires Valid() && pendingClears > 0
      modifies this
      ensures Valid() && State() == Step(old(State()), ContactEvent.ClearStatus)
      ensures status == Idle && !BannerShown(status)
      ensures form == old(form) && isSubmitting == old(isSubmitting)
      ensures pendingCompletions == old(pendingCompletions) && pendingClears == old(pendingClears) - 1
    {
      status := Idle;
      pendingClears := pendingClears - 1;
    }
  }
}

/**
  The contact page: the contact details loaded once on mount, a four-field
  message form, and the status of a simulated submission. Submitting sets the
  status to sending and starts a timer; when it fires the status becomes
  success, the form is cleared and a second timer starts; when that one fires
  the status is back to idle. Timers are events: each pending timer may fire
  at any point, as a separate step.
*/
module ContactForm {
  import opened Options
  import opened Content

  // --------------------------------------------------------------- the form

  /** The inputs of the form, by their `name` attribute. */
  datatype Field = Name | Email | Subject | Message

  datatype FormData = FormData(name: string, email: string, subject: string, message: string)

  const EmptyForm: FormData := FormData("", "", "", "")

  function Get(d: FormData, f: Field): string {
    match f
    case Name => d.name
    case Email => d.email
    case Subject => d.subject
    case Message => d.message
  }

  /** Two forms agreeing on every field are the same form. */
  lemma FormExtensionality(a: FormData, b: FormData)
    requires forall f :: Get(a, f) == Get(b, f)
    ensures a == b
  {
    assert Get(a, Name) == Get(b, Name) && Get(a, Email) == Get(b, Email);
    assert Get(a, Subject) == Get(b, Subject) && Get(a, Message) == Get(b, Message);
  }

  /** `{...formData, [name]: value}` */
  function SetField(d: FormData, f: Field, value: string): (r: FormData)
    ensures Get(r, f) == value
    ensures forall g :: g != f ==> Get(r, g) == Get(d, g)
  {
    match f
    case Name => d.(name := value)
    case Email => d.(email := value)
    case Subject => d.(subject := value)
    case Message => d.(message := value)
  }

  /** Typing the value a field already holds changes nothing; a later edit of the same field overrides an earlier one. */
  lemma SetFieldLaws(d: FormData, f: Field, v: string, w: string)
    ensures SetField(d, f, Get(d, f)) == d
    ensures SetField(SetField(d, f, v), f, w) == SetField(d, f, w)
  {
    FormExtensionality(SetField(d, f, Get(d, f)), d);
    FormExtensionality(SetField(SetField(d, f, v), f, w), SetField(d, f, w));
  }

  /** Edits of two different fields commute. */
  lemma EditsCommute(d: FormData, f: Field, v: string, g: Field, w: string)
    requires f != g
    ensures SetField(SetField(d, f, v), g, w) == SetField(SetField(d, g, w), f, v)
  {
    FormExtensionality(SetField(SetField(d, f, v), g, w), SetField(SetField(d, g, w), f, v));
  }

  // ------------------------------------------------------- status and timers

  /** The declared statuses; `Error` is declared but never set. */
  datatype Status = Idle | Sending | Success | Error

  /** The two timeouts: the simulated send completing, and the success banner expiring. */
  datatype Timer = ShowSuccess | BackToIdle

  datatype PageState = PageState(contact: Option<Contact>, form: FormData, status: Status, timers: seq<Timer>)

  /** First render: no contact yet, an empty form, idle, nothing scheduled. */
  function Mounted(): (s: PageState)
    ensures s.contact == None && s.form == EmptyForm && s.status == Idle && s.timers == []
  {
    PageState(None, EmptyForm, Idle, [])
  }

  /** The contact fetch resolves. */
  function Loaded(s: PageState, c: Contact): (r: PageState)
    ensures r.contact == Some(c) && r.form == s.form && r.status == s.status && r.timers == s.timers
  {
    s.(contact := Some(c))
  }

  /** `handleChange`: one field takes the input's value; nothing else changes. */
  function Change(s: PageState, f: Field, value: string): (r: PageState)
    ensures Get(r.form, f) == value
    ensures forall g :: g != f ==> Get(r.form, g) == Get(s.form, g)
    ensures r.contact == s.contact && r.status == s.status && r.timers == s.timers
  {
    s.(form := SetField(s.form, f, value))
  }

  /** `handleSubmit`: status sending and the completion timer scheduled, whatever the status was; the form keeps its values. */
  function Submit(s: PageState): (r: PageState)
    ensures r.status == Sending && r.timers == s.timers + [ShowSuccess]
    ensures r.contact == s.contact && r.form == s.form
  {
    s.(status := Sending, timers := s.timers + [ShowSuccess])
  }

  /**
    The i-th pending timer fires and is removed. The completion timer shows
    success, clears every field and schedules the return to idle; the second
    timer returns to idle.
  */
  function Fire(s: PageState, i: nat): (r: PageState)
    requires i < |s.timers|
    ensures r.contact == s.contact
    ensures s.timers[i] == ShowSuccess ==>
      && r.status == Success && r.form == EmptyForm
      && r.timers == s.timers[..i] + s.timers[i + 1..] + [BackToIdle]
    ensures s.timers[i] == BackToIdle ==>
      r.status == Idle && r.form == s.form && r.timers == s.timers[..i] + s.timers[i + 1..]
  {
    var rest := s.timers[..i] + s.timers[i + 1..];
    match s.timers[i]
    case ShowSuccess => s.(status := Success, form := EmptyForm, timers := rest + [BackToIdle])
    case BackToIdle => s.(status := Idle, timers := rest)
  }

  // ----------------------------------------------------------------- events

  datatype Event = LoadContact(c: Contact) | Edit(f: Field, value: string) | SubmitForm | TimerFires(i: nat)

  /**
    The browser lets the form be submitted only when it is on screen (the
    contact has loaded), the submit button is enabled (not sending) and every
    `required` field is filled in.
  */
  predicate Submittable(s: PageState) {
    s.contact.Some? && s.status != Sending && forall f :: Get(s.form, f) != ""
  }

  /**
    One event. Inputs exist only once the contact has loaded; a submission the
    browser blocks does nothing; a timer event naming no pending timer changes
    nothing.
  */
  function Step(s: PageState, e: Event): (r: PageState)
    ensures e.Edit? && s.contact.None? ==> r == s
    ensures e.SubmitForm? && !Submittable(s) ==> r == s
    ensures e.TimerFires? && e.i >= |s.timers| ==> r == s
    ensures r.status == Sending && s.status != Sending ==> e.SubmitForm? && Submittable(s)
    ensures r.form != s.form ==> (e.Edit? && s.contact.Some?) || (e.TimerFires? && r.form == EmptyForm)
  {
    match e
    case LoadContact(c) => Loaded(s, c)
    case Edit(f, v) => if s.contact.Some? then Change(s, f, v) else s
    case SubmitForm => if Submittable(s) then Submit(s) else s
    case TimerFires(i) => if i < |s.timers| then Fire(s, i) else s
  }

  function Run(s: PageState, events: seq<Event>): PageState
    decreases |events|
  {
    if events == [] then s else Run(Step(s, events[0]), events[1..])
  }

  /**
    The status never becomes `Error`, and it is never stuck: while sending,
    the completion timer is pending; while showing success, a return to idle
    is pending.
  */
  ghost predicate Consistent(s: PageState) {
    && s.status != Error
    && (s.status == Sending ==> ShowSuccess in s.timers)
    && (s.status == Success ==> BackToIdle in s.timers)
  }

  lemma FireKeepsConsistent(s: PageState, i: nat)
    requires Consistent(s) && i < |s.timers|
    ensures Consistent(Fire(s, i))
  {
    var r := Fire(s, i);
    if s.timers[i] == ShowSuccess {
      assert r.timers[|r.timers| - 1] == BackToIdle;
    }
  }

  lemma {:induction false} RunKeepsConsistent(s: PageState, events: seq<Event>)
    requires Consistent(s)
    ensures Consistent(Run(s, events))
    decreases |events|
  {
    if events != [] {
      var next := Step(s, events[0]);
      match events[0] {
        case TimerFires(i) =>
          if i < |s.timers| {
            FireKeepsConsistent(s, i);
          }
        case SubmitForm =>
          if Submittable(s) {
            assert next.timers[|next.timers| - 1] == ShowSuccess;
          }
        case _ =>
      }
      RunKeepsConsistent(next, events[1..]);
    }
  }

  /** After mounting, whatever happens: no error status, and with no timer pending the page is idle. */
  lemma NeverErrorAndQuiescentIsIdle(events: seq<Event>)
    ensures Run(Mounted(), events).status != Error
    ensures Run(Mounted(), events).timers == [] ==> Run(Mounted(), events).status == Idle
  {
    RunKeepsConsistent(Mounted(), events);
  }

  /** A submission left to run: sending, then success with a cleared form, then idle again. */
  lemma SubmitCycle(s: PageState)
    requires s.timers == []
    ensures var sent := Submit(s);
      && sent.status == Sending
      && var shown := Fire(sent, 0);
      && shown.status == Success && shown.form == EmptyForm && shown.timers == [BackToIdle]
      && var back := Fire(shown, 0);
      && back.status == Idle && back.form == EmptyForm && back.timers == []
  {
    assert Submit(s).timers == [ShowSuccess];
  }

  /** Typing the four fields of `d`, in form order. */
  function FillIn(d: FormData): seq<Event> {
    [Edit(Name, d.name), Edit(Email, d.email), Edit(Subject, d.subject), Edit(Message, d.message)]
  }

  /** Once the contact is shown, typing the four fields replaces the form with `d`. */
  lemma FillInSetsForm(s: PageState, d: FormData)
    requires s.contact.Some?
    ensures Run(s, FillIn(d)) == s.(form := d)
  {
    var events := FillIn(d);
    var s1 := Change(s, Name, d.name);
    var s2 := Change(s1, Email, d.email);
    var s3 := Change(s2, Subject, d.subject);
    var s4 := Change(s3, Message, d.message);
    FormExtensionality(s4.form, d);
    assert events[1..][1..][1..][1..] == [];
    assert Run(s, events) == Run(s1, events[1..]) == Run(s2, events[1..][1..]) == Run(s3, events[1..][1..][1..]) == s4;
  }

  /**
    The return-to-idle timer of one submission is not cancelled by the next.
    With the source's delays (1500 ms to success, then 5000 ms back to idle),
    a message sent again late in the success window, in its last 1.5 s, is
    still sending when the first submission's idle timer fires: the status
    drops to idle with the send pending, re-enabling the button. (A send
    earlier in the window reaches its own success first.)
  */
  lemma StaleTimerEndsSending(c: Contact, d: FormData)
    requires forall f :: Get(d, f) != ""
    ensures var s := Run(Mounted(), [LoadContact(c)] + FillIn(d) + [SubmitForm, TimerFires(0)]
                                    + FillIn(d) + [SubmitForm, TimerFires(0)]);
      && s.status == Idle && s.timers == [ShowSuccess]
      && View(s).PageView? && !View(s).submitDisabled
  {
    var send := [SubmitForm, TimerFires(0)];
    var s0 := Loaded(Mounted(), c);
    assert Run(Mounted(), [LoadContact(c)]) == s0;
    FillInSetsForm(s0, d);
    var s1 := s0.(form := d);
    assert Submittable(s1);
    var shown := Fire(Submit(s1), 0);
    assert send[1..][1..] == [];
    assert Run(s1, send) == shown;
    assert shown.timers == [BackToIdle];
    FillInSetsForm(shown, d);
    var s2 := shown.(form := d);
    assert Submittable(s2);
    var last := Fire(Submit(s2), 0);
    assert Submit(s2).timers == [BackToIdle, ShowSuccess];
    assert Run(s2, send) == last;
    RunAppend(Mounted(), [LoadContact(c)], FillIn(d));
    RunAppend(Mounted(), [LoadContact(c)] + FillIn(d), send);
    RunAppend(Mounted(), [LoadContact(c)] + FillIn(d) + send, FillIn(d));
    RunAppend(Mounted(), [LoadContact(c)] + FillIn(d) + send + FillIn(d), send);
  }

  /** Running two traces one after the other is running their concatenation. */
  lemma {:induction false} RunAppend(s: PageState, a: seq<Event>, b: seq<Event>)
    ensures Run(s, a + b) == Run(Run(s, a), b)
    decreases |a|
  {
    if a == [] {
      assert a + b == b;
    } else {
      assert (a + b)[0] == a[0] && (a + b)[1..] == a[1..] + b;
      RunAppend(Step(s, a[0]), a[1..], b);
    }
  }

  // ------------------------------------------------------------------ view

  /** JavaScript's `\s`: the ECMAScript white space and line terminator characters. */
  predicate IsWhitespace(c: char) {
    var n := c as int;
    || (0x09 <= n <= 0x0D) || n == 0x20 || n == 0xA0 || n == 0x1680
    || (0x2000 <= n <= 0x200A) || n == 0x2028 || n == 0x2029
    || n == 0x202F || n == 0x205F || n == 0x3000 || n == 0xFEFF
  }

  function CountWhitespace(s: string): nat {
    if s == [] then 0 else (if IsWhitespace(s[0]) then 1 else 0) + CountWhitespace(s[1..])
  }

  /** `replace(/\s/g, '')`: the phone number with every whitespace character removed. */
  function StripWhitespace(s: string): (r: string)
    ensures forall k :: 0 <= k < |r| ==> !IsWhitespace(r[k])
    ensures forall c :: c in r <==> c in s && !IsWhitespace(c)
    ensures |r| == |s| - CountWhitespace(s)
    ensures Subsequence(r, s)
    decreases |s|
  {
    if s == [] then []
    else if IsWhitespace(s[0]) then
      var r := StripWhitespace(s[1..]);
      assert r != [] ==> r[0] != s[0];
      r
    else
      var r := [s[0]] + StripWhitespace(s[1..]);
      assert r[1..] == StripWhitespace(s[1..]);
      r
  }

  /** A number without whitespace is linked as written. */
  lemma StripWhitespaceNone(s: string)
    requires CountWhitespace(s) == 0
    ensures StripWhitespace(s) == s
  {
    assert |StripWhitespace(s)| == |s|;
    SubsequenceSameLength(StripWhitespace(s), s);
  }

  /** A subsequence as long as the sequence is the sequence itself. */
  lemma {:induction false} SubsequenceSameLength<T>(r: seq<T>, s: seq<T>)
    requires Subsequence(r, s) && |r| == |s|
    ensures r == s
    decreases |s|
  {
    if s != [] {
      if r[0] == s[0] {
        SubsequenceSameLength(r[1..], s[1..]);
        assert r == [r[0]] + r[1..];
      } else {
        SubsequenceShorter(r, s[1..]);
        assert false;
      }
    }
  }

  /** A subsequence is never longer than the sequence. */
  lemma {:induction false} SubsequenceShorter<T>(r: seq<T>, s: seq<T>)
    requires Subsequence(r, s)
    ensures |r| <= |s|
    decreases |s|
  {
    if r != [] {
      if r[0] == s[0] {
        SubsequenceShorter(r[1..], s[1..]);
      } else {
        SubsequenceShorter(r, s[1..]);
      }
    }
  }

  /** What the page renders. */
  datatype ContactView =
    | LoadingView
    | PageView(
        mailto: string, tel: string, phone: string, location: string, github: string, linkedin: string,
        successBanner: bool, submitDisabled: bool, submitLabel: string, form: FormData)

  function View(s: PageState): (v: ContactView)
    ensures v.LoadingView? <==> s.contact.None?
    ensures v.PageView? ==>
      && v.mailto == "mailto:" + s.contact.value.email
      && v.tel == "tel:" + StripWhitespace(s.contact.value.phone)
      && v.phone == s.contact.value.phone
      && v.github == s.contact.value.github && v.linkedin == s.contact.value.linkedin
      && (v.successBanner <==> s.status == Success)
      && (v.submitDisabled <==> s.status == Sending)
      && v.submitLabel == (if s.status == Sending then "Sending..." else "Send Message")
      && v.form == s.form
  {
    match s.contact
    case None => LoadingView
    case Some(c) =>
      PageView("mailto:" + c.email, "tel:" + StripWhitespace(c.phone), c.phone, c.location, c.github, c.linkedin,
               s.status == Success, s.status == Sending,
               if s.status == Sending then "Sending..." else "Send Message", s.form)
  }

  /** The button is disabled exactly while the send is pending, and the banner cannot show at the same time. */
  lemma ButtonAndBannerExclusive(s: PageState)
    requires s.contact.Some?
    ensures !(View(s).submitDisabled && View(s).successBanner)
  {
  }

  // ------------------------------------------------------------ the component

  class ContactPage {
    var contact: Option<Contact>
    var form: FormData
    var status: Status
    var timers: seq<Timer>

    function State(): PageState
      reads this
    {
      PageState(contact, form, status, timers)
    }

    constructor Mount()
      ensures State() == Mounted()
    {
      contact := None;
      form := EmptyForm;
      status := Idle;
      timers := [];
    }

    /** `setContact` once the fetch resolves. */
    method ContactLoaded(c: Contact)
      modifies this
      ensures State() == Loaded(old(State()), c)
    {
      contact := Some(c);
    }

    method HandleChange(f: Field, value: string)
      modifies this
      ensures State() == Change(old(State()), f, value)
    {
      form := SetField(form, f, value);
    }

    method HandleSubmit()
      modifies this
      ensures State() == Submit(old(State()))
    {
      status := Sending;
      timers := timers + [ShowSuccess];
    }

    /** The callback of the i-th pending timeout. */
    method FireTimer(i: nat)
      requires i < |timers|
      modifies this
      ensures State() == Fire(old(State()), i)
    {
      var t := timers[i];
      timers := timers[..i] + timers[i + 1..];
      if t == ShowSuccess {
        status := Success;
        form := EmptyForm;
        timers := timers + [BackToIdle];
      } else {
        status := Idle;
      }
    }
  }
}

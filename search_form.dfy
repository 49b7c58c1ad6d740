/** The search form of src/components/SearchForm.tsx: its four raw fields, the
    one-way `formChanged` flag, the per-field error record, the submit handler and
    the auto-submit that runs once when the form is mounted. */
module Form {
  import opened Types
  import opened Calendar
  import opened DateUtils

  /** What the browser supplies whenever a date is read: the local time now, and
      what `new Date(text)` makes of a text. */
  datatype DateContext = DateContext(now: int, parse: string -> JsDate)

  /** The four raw field values; `null` is None. The date is the text held in the
      URL and the date input. */
  datatype RawForm = RawForm(
    origin: Option<string>,
    destination: Option<string>,
    date: Option<string>,
    passengers: Option<int>)

  const OriginRequired := "Origin is required!"
  const DestinationRequired := "Destination is required!"
  const DateRequired := "Date is required and must be in the future!"
  const PassengersOutOfRange := "Passengers must be between 1 and 10!"

  /** JavaScript truthiness of a nullable number: neither `null` nor 0. */
  predicate TruthyCount(n: Option<int>)
  {
    n.Some? && n.value != 0
  }

  predicate IsAsciiLetter(c: char)
  {
    'A' <= c <= 'Z' || 'a' <= c <= 'z'
  }

  /** The characters matched by `\s` in a JavaScript regular expression. */
  predicate IsJsWhitespace(c: char)
  {
    var k := c as int;
    k == 0x09 || k == 0x0A || k == 0x0B || k == 0x0C || k == 0x0D || k == 0x20 ||
    k == 0xA0 || k == 0x1680 || 0x2000 <= k <= 0x200A || k == 0x2028 || k == 0x2029 ||
    k == 0x202F || k == 0x205F || k == 0x3000 || k == 0xFEFF
  }

  /** `isValidLocation`: the test of `^[A-Za-z\s]+$`, one character at a time. */
  function IsValidLocation(v: string): (b: bool)
    ensures b <==> |v| > 0 && forall i :: 0 <= i < |v| ==> IsAsciiLetter(v[i]) || IsJsWhitespace(v[i])
  {
    |v| > 0 && (IsAsciiLetter(v[0]) || IsJsWhitespace(v[0])) && (|v| == 1 || IsValidLocation(v[1..]))
  }

  /** The origin rule: a missing or non-matching origin is reported. */
  function OriginError(origin: Option<string>): (e: Option<string>)
    ensures e == None <==> origin.Some? && IsValidLocation(origin.value)
    ensures e != None ==> e == Some(OriginRequired)
  {
    if !Truthy(origin) || !IsValidLocation(origin.value) then Some(OriginRequired) else None
  }

  /** The destination rule, the same as the origin's with its own message. */
  function DestinationError(destination: Option<string>): (e: Option<string>)
    ensures e == None <==> destination.Some? && IsValidLocation(destination.value)
    ensures e != None ==> e == Some(DestinationRequired)
  {
    if !Truthy(destination) || !IsValidLocation(destination.value) then Some(DestinationRequired) else None
  }

  /** The date rule: a missing date or one before today's midnight is reported. */
  function DateError(date: Option<string>, ctx: DateContext): (e: Option<string>)
    ensures e != None ==> e == Some(DateRequired)
    ensures !Truthy(date) ==> e != None
  {
    if !Truthy(date) || IsDateInPast(ctx.parse(date.value), ctx.now) then Some(DateRequired) else None
  }

  /** The date rule passes a date of today, the hours already gone included, any
      later date, and a text that does not parse; it reports every earlier day. */
  lemma DateRuleAcceptsTodayOnward(date: Option<string>, ctx: DateContext)
    ensures DateError(date, ctx) == None <==>
      (Truthy(date) &&
       match ctx.parse(date.value)
       case Time(t) => Civil(t) == Civil(ctx.now) || t >= ctx.now
       case InvalidDate => true)
  {
    if Truthy(date) && ctx.parse(date.value).Time? {
      PastIffEarlierDay(ctx.parse(date.value).ms, ctx.now);
    }
  }

  /** The passengers rule: a count outside 1..10, or none, is reported. */
  function PassengersError(passengers: Option<int>): (e: Option<string>)
    ensures e == None <==> passengers.Some? && 1 <= passengers.value <= 10
    ensures e != None ==> e == Some(PassengersOutOfRange)
  {
    if !TruthyCount(passengers) || passengers.value < 1 || passengers.value > 10
    then Some(PassengersOutOfRange) else None
  }

  /** The error record the four rules give for `f`. It is empty exactly when
      `isValid` holds and both places also pass the location pattern. */
  function FieldErrors(f: RawForm, ctx: DateContext): (e: FormErrors)
    ensures e == NoErrors <==>
      IsValid(f, ctx) && IsValidLocation(f.origin.value) && IsValidLocation(f.destination.value)
  {
    FormErrors(OriginError(f.origin), DestinationError(f.destination),
               DateError(f.date, ctx), PassengersError(f.passengers))
  }

  /** `isValid`, which enables the submit button. It holds exactly when both places
      are filled in and the date and passengers rules report nothing: the location
      pattern is not tested. */
  predicate IsValid(f: RawForm, ctx: DateContext): (b: bool)
    ensures b <==>
      && Truthy(f.origin) && Truthy(f.destination)
      && DateError(f.date, ctx) == None && PassengersError(f.passengers) == None
  {
    && Truthy(f.origin) && Truthy(f.destination) && Truthy(f.date)
    && !IsDateInPast(ctx.parse(f.date.value), ctx.now)
    && TruthyCount(f.passengers) && f.passengers.value >= 1 && f.passengers.value <= 10
  }

  /** The request built from a filled-in form: the raw texts and count passed on
      unchanged, so that nothing of the form is lost but the date text, which is
      replaced by what it parses to. */
  function RequestOf(f: RawForm, ctx: DateContext): (r: JourneyParameters)
    requires f.origin.Some? && f.destination.Some? && f.date.Some? && f.passengers.Some?
    ensures RawForm(Some(r.origin), Some(r.destination), f.date, Some(r.nrOfPassengers)) == f
    ensures r.date == ctx.parse(f.date.value)
  {
    JourneyParameters(f.origin.value, f.destination.value, ctx.parse(f.date.value), f.passengers.value)
  }

  /** The condition of the auto-submit on mount: plain truthiness of all four values
      and at most 10 passengers. It looks neither at the places' letters nor at the
      date's value, and of the counts it refuses only 0 and those above 10. */
  predicate AutoSubmits(f: RawForm): (b: bool)
    ensures b <==>
      && Truthy(f.origin) && Truthy(f.destination) && Truthy(f.date) && f.passengers.Some?
      && (f.passengers.value < 0 || 1 <= f.passengers.value <= 10)
  {
    Truthy(f.origin) && Truthy(f.date) && Truthy(f.destination) &&
    TruthyCount(f.passengers) && f.passengers.value <= 10
  }

  /** Whatever the submit handler accepts, the auto-submit accepts too. */
  lemma {:induction false} SubmittableAutoSubmits(f: RawForm, ctx: DateContext)
    requires FieldErrors(f, ctx) == NoErrors
    ensures AutoSubmits(f)
  {
    assert OriginError(f.origin) == None && DestinationError(f.destination) == None;
    assert DateError(f.date, ctx) == None && PassengersError(f.passengers) == None;
  }

  /** A deep link with -3 passengers, a date before today and digits in both places
      is auto-submitted although every one of those fields fails its rule. */
  lemma AutoSubmitsInvalidDeepLink(ctx: DateContext)
    requires ctx.parse("2000-01-01").Time? && ctx.parse("2000-01-01").ms < StartOfDay(ctx.now)
    ensures var f := RawForm(Some("A1"), Some("B2"), Some("2000-01-01"), Some(-3));
      && AutoSubmits(f)
      && FieldErrors(f, ctx) == FormErrors(Some(OriginRequired), Some(DestinationRequired),
                                          Some(DateRequired), Some(PassengersOutOfRange))
  {
    assert !IsAsciiLetter('1') && !IsJsWhitespace('1');
    assert !IsAsciiLetter('2') && !IsJsWhitespace('2');
    assert "A1"[1] == '1' && "B2"[1] == '2';
  }

  /** `isValid` enables the button for an origin with a digit in it, which the
      submit handler then refuses. */
  lemma IsValidAcceptsNonLetterPlace(f: RawForm, ctx: DateContext)
    requires IsValid(f, ctx)
    ensures IsValid(f.(origin := Some("A1")), ctx)
    ensures FieldErrors(f.(origin := Some("A1")), ctx) != NoErrors
  {
    assert !IsAsciiLetter('1') && !IsJsWhitespace('1');
    assert "A1"[1] == '1';
  }

  /** The form. Its fields are the source's state: the four values bound to the URL,
      the `formChanged` ref, the `errors` state, whether the mount effects have run,
      and the values of the first render, which the auto-submit reads. */
  class SearchForm {
    var origin: Option<string>
    var destination: Option<string>
    var date: Option<string>
    var passengers: Option<int>
    var formChanged: bool
    var errors: FormErrors
    var mounted: bool
    const initial: RawForm

    function Raw(): RawForm
      reads this
    {
      RawForm(origin, destination, date, passengers)
    }

    /** What stays true between events: before the first edit no error is shown,
        and an error shown for a place or the passengers is the one its rule gives
        for the current value (the date's may be out of date once midnight passes). */
    ghost predicate Valid()
      reads this
    {
      Committed() && Pristine() && OriginShown() && DestinationShown() && DateShown() && PassengersShown()
    }

    /** React commits the first render, running the mount effects, before it
        handles any input event. */
    ghost predicate Committed()
      reads this
    {
      !mounted ==> !formChanged
    }

    ghost predicate Pristine()
      reads this
    {
      !formChanged ==> errors == NoErrors
    }

    ghost predicate OriginShown()
      reads this
    {
      errors.origin == None || errors.origin == OriginError(origin)
    }

    ghost predicate DestinationShown()
      reads this
    {
      errors.destination == None || errors.destination == DestinationError(destination)
    }

    ghost predicate DateShown()
      reads this
    {
      errors.date == None || errors.date == Some(DateRequired)
    }

    ghost predicate PassengersShown()
      reads this
    {
      errors.passengers == None || errors.passengers == PassengersError(passengers)
    }

    /** The first render, with the values read from the URL. */
    constructor (fromUrl: RawForm)
      ensures Valid()
      ensures Raw() == fromUrl && initial == fromUrl
      ensures !formChanged && errors == NoErrors && !mounted
    {
      origin, destination, date, passengers := fromUrl.origin, fromUrl.destination, fromUrl.date, fromUrl.passengers;
      initial := fromUrl;
      formChanged := false;
      errors := NoErrors;
      mounted := false;
    }

    /** The effect that runs when `origin` changes. */
    method OriginEffect()
      requires Committed() && Pristine() && DestinationShown() && DateShown() && PassengersShown()
      modifies this`errors
      ensures Valid()
      ensures errors == if formChanged then old(errors).(origin := OriginError(origin)) else old(errors)
    {
      if !formChanged { return; }
      if !Truthy(origin) || !IsValidLocation(origin.value) {
        errors := errors.(origin := Some(OriginRequired));
      } else {
        errors := errors.(origin := None);
      }
    }

    /** The effect that runs when `destination` changes. */
    method DestinationEffect()
      requires Committed() && Pristine() && OriginShown() && DateShown() && PassengersShown()
      modifies this`errors
      ensures Valid()
      ensures errors == if formChanged then old(errors).(destination := DestinationError(destination)) else old(errors)
    {
      if !formChanged { return; }
      if !Truthy(destination) || !IsValidLocation(destination.value) {
        errors := errors.(destination := Some(DestinationRequired));
      } else {
        errors := errors.(destination := None);
      }
    }

    /** The effect that runs when `date` changes. */
    method DateEffect(ctx: DateContext)
      requires Valid()
      modifies this`errors
      ensures Valid()
      ensures errors == if formChanged then old(errors).(date := DateError(date, ctx)) else old(errors)
    {
      if !formChanged { return; }
      if !Truthy(date) || IsDateInPast(ctx.parse(date.value), ctx.now) {
        errors := errors.(date := Some(DateRequired));
      } else {
        errors := errors.(date := None);
      }
    }

    /** The effect that runs when `passengers` changes. */
    method PassengersEffect()
      requires Committed() && Pristine() && OriginShown() && DestinationShown() && DateShown()
      modifies this`errors
      ensures Valid()
      ensures errors == if formChanged then old(errors).(passengers := PassengersError(passengers)) else old(errors)
    {
      if !formChanged { return; }
      if !TruthyCount(passengers) || passengers.value < 1 || passengers.value > 10 {
        errors := errors.(passengers := Some(PassengersOutOfRange));
      } else {
        errors := errors.(passengers := None);
      }
    }

    /** The effects of the first commit, in declaration order: the auto-submit with
        the first render's values, then the four validation effects, which find
        `formChanged` still false. Later calls do nothing: the effects do not run
        again while their dependencies stay the same. */
    method Mount(ctx: DateContext) returns (request: Option<JourneyParameters>)
      requires Valid()
      modifies this`errors, this`mounted
      ensures Valid() && mounted
      ensures request.Some? <==> !old(mounted) && AutoSubmits(initial)
      ensures request.Some? ==> request.value == RequestOf(initial, ctx)
      ensures errors == old(errors)
    {
      request := None;
      if mounted { return; }
      if Truthy(initial.origin) && Truthy(initial.date) && Truthy(initial.destination) &&
         TruthyCount(initial.passengers) && initial.passengers.value <= 10 {
        request := Some(JourneyParameters(initial.origin.value, initial.destination.value,
                                          ctx.parse(initial.date.value), initial.passengers.value));
      }
      OriginEffect();
      DestinationEffect();
      DateEffect(ctx);
      PassengersEffect();
      mounted := true;
    }

    /** Typing in the origin input: the value is stored, the form counts as changed,
        and when the value differs from the previous one the origin effect runs. */
    method EditOrigin(v: string)
      requires Valid() && mounted
      modifies this`origin, this`formChanged, this`errors
      ensures Valid() && formChanged
      ensures Raw() == old(Raw()).(origin := Some(v))
      ensures errors == if old(origin) == Some(v) then old(errors)
                        else old(errors).(origin := OriginError(Some(v)))
    {
      var changed := origin != Some(v);
      origin := Some(v);
      formChanged := true;
      if changed { OriginEffect(); }
    }

    /** Typing in the destination input. */
    method EditDestination(v: string)
      requires Valid() && mounted
      modifies this`destination, this`formChanged, this`errors
      ensures Valid() && formChanged
      ensures Raw() == old(Raw()).(destination := Some(v))
      ensures errors == if old(destination) == Some(v) then old(errors)
                        else old(errors).(destination := DestinationError(Some(v)))
    {
      var changed := destination != Some(v);
      destination := Some(v);
      formChanged := true;
      if changed { DestinationEffect(); }
    }

    /** `handleDateChange`: picking a date (the date input gives "" when cleared). */
    method EditDate(v: string, ctx: DateContext)
      requires Valid() && mounted
      modifies this`date, this`formChanged, this`errors
      ensures Valid() && formChanged
      ensures Raw() == old(Raw()).(date := Some(v))
      ensures errors == if old(date) == Some(v) then old(errors)
                        else old(errors).(date := DateError(Some(v), ctx))
    {
      var changed := date != Some(v);
      formChanged := true;
      date := Some(v);
      if changed { DateEffect(ctx); }
    }

    /** Typing in the passengers input; `n` is `Number` of the input's text (0 when
        it is cleared). */
    method EditPassengers(n: int)
      requires Valid() && mounted
      modifies this`passengers, this`formChanged, this`errors
      ensures Valid() && formChanged
      ensures Raw() == old(Raw()).(passengers := Some(n))
      ensures errors == if old(passengers) == Some(n) then old(errors)
                        else old(errors).(passengers := PassengersError(Some(n)))
    {
      var changed := passengers != Some(n);
      passengers := Some(n);
      formChanged := true;
      if changed { PassengersEffect(); }
    }

    /** `handleSubmit`: a request exactly when every field passes its own rule, that
        is, exactly when the error record of a fully checked form would be empty. */
    method Submit(ctx: DateContext) returns (request: Option<JourneyParameters>)
      ensures request.Some? <==> FieldErrors(Raw(), ctx) == NoErrors
      ensures request.Some? ==> request.value == RequestOf(Raw(), ctx)
    {
      if !Truthy(origin) || !IsValidLocation(origin.value) ||
         !Truthy(destination) || !IsValidLocation(destination.value) {
        return None;
      }
      if IsValid(Raw(), ctx) && TruthyCount(passengers) && passengers.value >= 1 {
        request := Some(JourneyParameters(origin.value, destination.value, ctx.parse(date.value), passengers.value));
      } else {
        request := None;
      }
    }

    /** When the submit handler accepts the form, no error is shown for the places or
        the passengers. */
    lemma SubmittableShowsNoPlaceOrPassengerError(ctx: DateContext)
      requires Valid() && FieldErrors(Raw(), ctx) == NoErrors
      ensures errors.origin == None && errors.destination == None && errors.passengers == None
    {
    }
  }

  /** Before the first edit no error shows, however invalid the values are; from
      then on each edit shows or clears its own field's error and no other. */
  method PristineThenLiveScenario(ctx: DateContext)
  {
    var form := new SearchForm(RawForm(Some("A1"), None, None, Some(0)));
    var request := form.Mount(ctx);
    assert request == None && form.errors == NoErrors;
    form.EditOrigin("Ede1");
    assert form.errors == NoErrors.(origin := Some(OriginRequired));
    form.EditPassengers(11);
    assert form.errors == NoErrors.(origin := Some(OriginRequired), passengers := Some(PassengersOutOfRange));
    form.EditOrigin("Ede");
    assert form.errors == NoErrors.(passengers := Some(PassengersOutOfRange));
    form.EditPassengers(2);
    assert form.errors == NoErrors;
    assert form.formChanged;
  }
}

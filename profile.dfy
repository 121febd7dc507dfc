/**
 * The teacher profile form: its record of fields, the change and weekday-toggle handlers,
 * and the validator that decides whether the form may be submitted.
 */
module Profile {
  import opened Common

  datatype Day = Monday | Tuesday | Wednesday | Thursday | Friday

  /** Key order of the form's `time` and `weekdays` objects, which `for...in` follows. */
  const Days: seq<Day> := [Monday, Tuesday, Wednesday, Thursday, Friday]

  function DayName(d: Day): string {
    match d
    case Monday => "monday"
    case Tuesday => "tuesday"
    case Wednesday => "wednesday"
    case Thursday => "thursday"
    case Friday => "friday"
  }

  /** The weekday whose key is `name`: the `name in formData.time` test. */
  function DayNamed(name: string): (r: Option<Day>)
    ensures r.Some? ==> DayName(r.value) == name
    ensures r.None? ==> forall d :: DayName(d) != name
  {
    if name == "monday" then Some(Monday)
    else if name == "tuesday" then Some(Tuesday)
    else if name == "wednesday" then Some(Wednesday)
    else if name == "thursday" then Some(Thursday)
    else if name == "friday" then Some(Friday)
    else None
  }

  /** A top-level field holds what its input delivered: text, or a checkbox's `checked`. */
  datatype Value = Text(text: string) | Flag(flag: bool)

  /** JavaScript truthiness of a field; a missing field is `undefined`, which is falsy. */
  predicate Truthy(v: Option<Value>) {
    match v
    case None => false
    case Some(Text(s)) => s != ""
    case Some(Flag(b)) => b
  }

  function Get(fields: map<string, Value>, key: string): Option<Value> {
    if key in fields then Some(fields[key]) else None
  }

  /** formData: the top-level fields (nic, name, gender, subject, robot), per-day times and weekday flags. */
  datatype ProfileForm = ProfileForm(fields: map<string, Value>, time: map<Day, string>, weekdays: map<Day, bool>)

  /** `time` and `weekdays` always carry all five weekday keys. */
  predicate WellFormed(f: ProfileForm) {
    forall d: Day :: d in f.time && d in f.weekdays
  }

  function InitialForm(): (f: ProfileForm)
    ensures WellFormed(f)
    ensures forall d :: f.time[d] == "" && !f.weekdays[d]
    ensures !Truthy(Get(f.fields, "robot"))
  {
    ProfileForm(
      map["nic" := Text(""), "name" := Text(""), "gender" := Text(""), "subject" := Text(""), "robot" := Flag(false)],
      EveryDay(""),
      EveryDay(false))
  }

  function EveryDay<T>(v: T): (m: map<Day, T>)
    ensures forall d: Day :: d in m && m[d] == v
  {
    var m := map[Monday := v, Tuesday := v, Wednesday := v, Thursday := v, Friday := v];
    assert forall d: Day :: d in m && m[d] == v by {
      forall d: Day ensures d in m && m[d] == v {
        assert d.Monday? || d.Tuesday? || d.Wednesday? || d.Thursday? || d.Friday?;
      }
    }
    m
  }

  /** The event target an input hands to `handleChange`. */
  datatype ChangeTarget = ChangeTarget(name: string, value: string, isCheckbox: bool, checked: bool)

  /** handleChange: a weekday key updates that day's time; any other name sets that top-level field. */
  function HandleChange(form: ProfileForm, e: ChangeTarget): (r: ProfileForm)
    requires WellFormed(form)
    ensures WellFormed(r)
  {
    match DayNamed(e.name)
    case Some(d) => form.(time := form.time[d := e.value])
    case None => form.(fields := form.fields[e.name := if e.isCheckbox then Flag(e.checked) else Text(e.value)])
  }

  lemma ChangeOnDay(form: ProfileForm, e: ChangeTarget, d: Day)
    requires WellFormed(form) && DayName(d) == e.name
    ensures HandleChange(form, e).time[d] == e.value
    ensures forall o :: o != d ==> HandleChange(form, e).time[o] == form.time[o]
    ensures HandleChange(form, e).fields == form.fields && HandleChange(form, e).weekdays == form.weekdays
  {
  }

  lemma ChangeOnField(form: ProfileForm, e: ChangeTarget)
    requires WellFormed(form) && DayNamed(e.name).None?
    ensures Get(HandleChange(form, e).fields, e.name) == Some(if e.isCheckbox then Flag(e.checked) else Text(e.value))
    ensures forall k :: k != e.name ==> Get(HandleChange(form, e).fields, k) == Get(form.fields, k)
    ensures HandleChange(form, e).time == form.time && HandleChange(form, e).weekdays == form.weekdays
  {
  }

  /** handleToggleDay: flips one weekday flag. */
  function ToggleDay(form: ProfileForm, day: Day): (r: ProfileForm)
    requires WellFormed(form)
    ensures WellFormed(r)
  {
    form.(weekdays := form.weekdays[day := !form.weekdays[day]])
  }

  /** Toggling flips only the chosen day and leaves every other field as it was. */
  lemma ToggleFlipsOnlyDay(form: ProfileForm, day: Day)
    requires WellFormed(form)
    ensures ToggleDay(form, day).weekdays[day] == !form.weekdays[day]
    ensures forall o :: o != day ==> ToggleDay(form, day).weekdays[o] == form.weekdays[o]
    ensures ToggleDay(form, day).fields == form.fields && ToggleDay(form, day).time == form.time
  {
  }

  /** Toggling the same day twice restores the form. */
  lemma ToggleTwice(form: ProfileForm, day: Day)
    requires WellFormed(form)
    ensures ToggleDay(ToggleDay(form, day), day) == form
  {
    var w := ToggleDay(ToggleDay(form, day), day).weekdays;
    assert w.Keys == form.weekdays.Keys;
    assert forall o :: w[o] == form.weekdays[o];
  }

  /** `Object.values(formData.weekdays)`: the weekday flags in key order. */
  function WeekdayValues(form: ProfileForm): (r: seq<bool>)
    requires WellFormed(form)
    ensures |r| == |Days| && forall i :: 0 <= i < |Days| ==> r[i] == form.weekdays[Days[i]]
  {
    seq(|Days|, i requires 0 <= i < |Days| => form.weekdays[Days[i]])
  }

  /** `.filter(Boolean)`: the flags that are set. */
  function SelectedDays(form: ProfileForm): (r: seq<bool>)
    requires WellFormed(form)
    ensures |r| <= |Days|
    ensures forall b :: b in r ==> b
  {
    Filter(WeekdayValues(form), b => b)
  }

  /** No day is selected exactly when the selected list is empty. */
  lemma NoneSelected(form: ProfileForm)
    requires WellFormed(form)
    ensures SelectedDays(form) == [] <==> forall d :: !form.weekdays[d]
  {
    var v := WeekdayValues(form);
    var r := SelectedDays(form);
    if r == [] {
      forall d ensures !form.weekdays[d] {
        assert v[DayIndex(d)] == form.weekdays[d];
        assert v[DayIndex(d)] in v;
      }
    } else {
      assert r[0] in r;
      var i :| 0 <= i < |v| && v[i];
      assert form.weekdays[Days[i]];
    }
  }

  /** A selected day whose time has not been chosen. */
  predicate MissingTime(form: ProfileForm, d: Day)
    requires WellFormed(form)
  {
    form.weekdays[d] && form.time[d] == ""
  }

  /** What a submittable profile is, independently of the validator's error messages. */
  predicate Complete(form: ProfileForm)
    requires WellFormed(form)
  {
    && Truthy(Get(form.fields, "nic"))
    && Truthy(Get(form.fields, "name"))
    && Truthy(Get(form.fields, "gender"))
    && Truthy(Get(form.fields, "subject"))
    && Truthy(Get(form.fields, "robot"))
    && (exists d :: form.weekdays[d])
    && (forall d :: form.weekdays[d] ==> form.time[d] != "")
  }

  function DayIndex(d: Day): (i: nat)
    ensures i < |Days| && Days[i] == d
  {
    match d
    case Monday => 0
    case Tuesday => 1
    case Wednesday => 2
    case Thursday => 3
    case Friday => 4
  }

  /** Day `i` is the one day that the step from `i` to `i + 1` adds. */
  lemma NextDay(i: nat)
    requires i < |Days|
    ensures forall d :: DayIndex(d) < i + 1 <==> DayIndex(d) < i || d == Days[i]
  {
  }

  /** The five required top-level fields, in the order the validator checks them. */
  datatype Field = Nic | Name | Gender | Subject | Robot

  function FieldKey(f: Field): string {
    match f
    case Nic => "nic"
    case Name => "name"
    case Gender => "gender"
    case Subject => "subject"
    case Robot => "robot"
  }

  function RequiredMessage(f: Field): string {
    match f
    case Nic => "NIC is required."
    case Name => "Name is required."
    case Gender => "Please select a gender."
    case Subject => "Please select a subject."
    case Robot => "Please confirm you are not a robot."
  }

  const NoWeekdayMessage: string := "Please select at least one weekday."

  function NoTimeMessage(d: Day): string {
    "Please select time for " + DayName(d)
  }

  /** The keys the validator puts into its errors object: a field, `weekdays`, or a day's name. */
  datatype ErrorKey = Missing(field: Field) | NoWeekday | NoTime(day: Day)

  /** The property name under which an error is stored in the errors object. */
  function KeyName(k: ErrorKey): string {
    match k
    case Missing(f) => FieldKey(f)
    case NoWeekday => "weekdays"
    case NoTime(d) => DayName(d)
  }

  /** Distinct error keys are distinct property names, so no error overwrites another. */
  lemma KeyNamesApart(k: ErrorKey, o: ErrorKey)
    ensures KeyName(k) == KeyName(o) ==> k == o
  {
  }

  /** The five field checks that open validate: one message per unset required field. */
  method CheckRequired(form: ProfileForm) returns (errors: map<ErrorKey, string>)
    requires WellFormed(form)
    ensures Missing(Nic) in errors <==> !Truthy(Get(form.fields, FieldKey(Nic)))
    ensures Missing(Name) in errors <==> !Truthy(Get(form.fields, FieldKey(Name)))
    ensures Missing(Gender) in errors <==> !Truthy(Get(form.fields, FieldKey(Gender)))
    ensures Missing(Subject) in errors <==> !Truthy(Get(form.fields, FieldKey(Subject)))
    ensures Missing(Robot) in errors <==> !Truthy(Get(form.fields, FieldKey(Robot)))
    ensures forall f :: Missing(f) in errors ==> errors[Missing(f)] == RequiredMessage(f)
    ensures forall k :: k in errors ==> k.Missing?
  {
    errors := map[];
    if !Truthy(Get(form.fields, FieldKey(Nic))) { errors := errors[Missing(Nic) := RequiredMessage(Nic)]; }
    if !Truthy(Get(form.fields, FieldKey(Name))) { errors := errors[Missing(Name) := RequiredMessage(Name)]; }
    if !Truthy(Get(form.fields, FieldKey(Gender))) { errors := errors[Missing(Gender) := RequiredMessage(Gender)]; }
    if !Truthy(Get(form.fields, FieldKey(Subject))) { errors := errors[Missing(Subject) := RequiredMessage(Subject)]; }
    if !Truthy(Get(form.fields, FieldKey(Robot))) { errors := errors[Missing(Robot) := RequiredMessage(Robot)]; }
  }

  /** The `for...in` loop of validate: adds a message for every selected day without a time, in key order. */
  method CheckTimes(form: ProfileForm, start: map<ErrorKey, string>) returns (errors: map<ErrorKey, string>)
    requires WellFormed(form)
    requires forall d :: NoTime(d) !in start
    ensures forall k: ErrorKey :: !k.NoTime? ==> (k in errors <==> k in start) && (k in errors ==> errors[k] == start[k])
    ensures forall d :: NoTime(d) in errors <==> MissingTime(form, d)
    ensures forall d :: NoTime(d) in errors ==> errors[NoTime(d)] == NoTimeMessage(d)
  {
    errors := start;
    for i := 0 to |Days|
      invariant forall k: ErrorKey :: !k.NoTime? ==> (k in errors <==> k in start) && (k in errors ==> errors[k] == start[k])
      invariant forall d :: NoTime(d) in errors <==> DayIndex(d) < i && MissingTime(form, d)
      invariant forall d :: NoTime(d) in errors ==> errors[NoTime(d)] == NoTimeMessage(d)
    {
      var day := Days[i];
      NextDay(i);
      if form.weekdays[day] && form.time[day] == "" {
        errors := errors[NoTime(day) := NoTimeMessage(day)];
      }
    }
  }

  /** validate: one message per failed check, each weekday's time error under the day's name. */
  method Validate(form: ProfileForm) returns (errors: map<ErrorKey, string>)
    requires WellFormed(form)
    ensures forall f :: Missing(f) in errors <==> !Truthy(Get(form.fields, FieldKey(f)))
    ensures forall f :: Missing(f) in errors ==> errors[Missing(f)] == RequiredMessage(f)
    ensures NoWeekday in errors <==> forall d :: !form.weekdays[d]
    ensures NoWeekday in errors ==> errors[NoWeekday] == NoWeekdayMessage
    ensures forall d :: NoTime(d) in errors <==> MissingTime(form, d)
    ensures forall d :: NoTime(d) in errors ==> errors[NoTime(d)] == NoTimeMessage(d)
    ensures errors == map[] <==> Complete(form)
  {
    errors := CheckRequired(form);

    var selectedDays := SelectedDays(form);
    NoneSelected(form);
    if |selectedDays| == 0 {
      errors := errors[NoWeekday := NoWeekdayMessage];
    }

    errors := CheckTimes(form, errors);
    forall f ensures Missing(f) in errors <==> !Truthy(Get(form.fields, FieldKey(f))) {
      assert f.Nic? || f.Name? || f.Gender? || f.Subject? || f.Robot?;
    }
    NoErrorsIffComplete(form, errors);
  }

  /** A map of errors keyed as the validator keys them is empty exactly when the form is complete. */
  lemma NoErrorsIffComplete(form: ProfileForm, errors: map<ErrorKey, string>)
    requires WellFormed(form)
    requires forall f :: Missing(f) in errors <==> !Truthy(Get(form.fields, FieldKey(f)))
    requires NoWeekday in errors <==> forall d :: !form.weekdays[d]
    requires forall d :: NoTime(d) in errors <==> MissingTime(form, d)
    ensures errors == map[] <==> Complete(form)
  {
    if Complete(form) {
      forall k ensures k !in errors {
        if k.Missing? {
          assert k == Missing(k.field);
        } else if k.NoTime? {
          assert k == NoTime(k.day);
        }
      }
      assert errors == map[];
    } else if forall d :: form.weekdays[d] ==> form.time[d] != "" {
      assert Missing(Nic) in errors || Missing(Name) in errors || Missing(Gender) in errors
        || Missing(Subject) in errors || Missing(Robot) in errors || NoWeekday in errors;
    } else {
      var d :| form.weekdays[d] && form.time[d] == "";
      assert NoTime(d) in errors;
    }
  }

  /** handleSubmit: stores the validator's errors and reports success only when there are none. */
  method HandleSubmit(form: ProfileForm) returns (errors: map<ErrorKey, string>, success: bool)
    requires WellFormed(form)
    ensures success <==> Complete(form)
    ensures success <==> errors == map[]
    ensures forall d :: NoTime(d) in errors <==> MissingTime(form, d)
  {
    errors := Validate(form);
    success := |errors| == 0;
  }

  /** A form whose inputs delivered the kinds of value its widgets produce. */
  predicate Typed(form: ProfileForm) {
    && (forall k :: k in {"nic", "name", "gender", "subject"} ==> k in form.fields && form.fields[k].Text?)
    && "robot" in form.fields && form.fields["robot"].Flag?
  }

  /** On such a form, complete means: four non-empty texts, the robot box ticked, a day chosen, every chosen day timed. */
  lemma CompleteWhenTyped(form: ProfileForm)
    requires WellFormed(form) && Typed(form)
    ensures Complete(form) <==>
      && form.fields["nic"].text != "" && form.fields["name"].text != ""
      && form.fields["gender"].text != "" && form.fields["subject"].text != ""
      && form.fields["robot"].flag
      && (exists d :: form.weekdays[d])
      && (forall d :: form.weekdays[d] ==> form.time[d] != "")
  {
    assert "nic" in {"nic", "name", "gender", "subject"};
    assert "name" in {"nic", "name", "gender", "subject"};
    assert "gender" in {"nic", "name", "gender", "subject"};
    assert "subject" in {"nic", "name", "gender", "subject"};
  }

  /** The blank form is typed and cannot be submitted. */
  lemma InitialFormIncomplete()
    ensures Typed(InitialForm()) && !Complete(InitialForm())
  {
  }
}

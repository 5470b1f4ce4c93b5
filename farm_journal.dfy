/** The farm journal screen: the timeline ordering, the entry form's submission and the
    season planner that turns generated tasks into reminders. */
module FarmJournal {
  import opened Wrappers
  import opened Text
  import opened Sorting
  import opened Domain
  import opened Translations

  function DateKey(a: FarmActivity): real
  {
    a.date as real
  }

  /** The timeline: a sorted copy of the activities, latest date first. */
  function SortedActivities(activities: seq<FarmActivity>): (timeline: seq<FarmActivity>)
    ensures multiset(timeline) == multiset(activities)
    ensures |timeline| == |activities|
  {
    SortByKey(activities, DateKey)
  }

  /** The timeline holds exactly the activities, with dates never increasing down the list. */
  lemma TimelineOrdered(activities: seq<FarmActivity>)
    ensures multiset(SortedActivities(activities)) == multiset(activities)
    ensures forall i, j :: 0 <= i < j < |activities| ==>
      SortedActivities(activities)[i].date >= SortedActivities(activities)[j].date
  {
    SortByKeySorted(activities, DateKey);
    var t := SortedActivities(activities);
    forall i, j | 0 <= i < j < |activities| ensures t[i].date >= t[j].date {
      assert DateKey(t[i]) >= DateKey(t[j]);
    }
  }

  /** The entry form: whether it is open, and its fields. */
  datatype Form = Form(open: bool, activityType: string, details: string, quantity: string, date: Day, notes: string)

  /** An optional text field as the record stores it: the empty string becomes absent. */
  function Optional(s: string): (r: Option<string>)
    ensures r.None? <==> s == ""
    ensures r.Some? ==> r.value == s
  {
    if s != "" then Some(s) else None
  }

  /** Reading an optional field back with the empty default gives the typed text. */
  lemma OptionalRoundTrip(s: string)
    ensures Optional(s).GetOr("") == s
  {
  }

  /** What submitting produces: the new activity, the form afterwards and the toast. */
  datatype Submitted = Submitted(activity: FarmActivity, form: Form, toast: string, kind: ToastKind)

  /** Submitting the form builds the new activity (id from the clock, empty quantity and
      notes left out), closes the form, clears the details, quantity and notes, keeping
      type and date, and shows the translated save_entry text as a success toast. */
  function Submit(form: Form, now: nat, dict: Dictionary, lang: Language): (r: Submitted)
    ensures r.activity.id == Decimal(now)
    ensures r.activity.activityType == form.activityType && r.activity.date == form.date
            && r.activity.details == form.details
    ensures r.activity.quantity.GetOr("") == form.quantity && (r.activity.quantity.None? <==> form.quantity == "")
    ensures r.activity.notes.GetOr("") == form.notes && (r.activity.notes.None? <==> form.notes == "")
    ensures r.form == form.(open := false, details := "", quantity := "", notes := "")
    ensures r.toast == T(dict, "save_entry", lang) && r.kind == SuccessToast
  {
    OptionalRoundTrip(form.quantity);
    OptionalRoundTrip(form.notes);
    Submitted(FarmActivity(Decimal(now), form.activityType, form.date, form.details, Optional(form.quantity), Optional(form.notes)),
              form.(open := false, details := "", quantity := "", notes := ""),
              T(dict, "save_entry", lang), SuccessToast)
  }

  /** Submitting again straight away records the same type and date with the details
      empty and no quantity or notes: the cleared fields are not carried over. */
  lemma ResubmitCarriesOnlyTypeAndDate(form: Form, now: nat, later: nat, dict: Dictionary, lang: Language)
    ensures var again := Submit(Submit(form, now, dict, lang).form, later, dict, lang).activity;
      again.activityType == form.activityType && again.date == form.date
      && again.details == "" && again.quantity.None? && again.notes.None?
  {
  }

  /** A generated task: its text and date. */
  datatype PlannedTask = PlannedTask(text: string, date: Day)

  /** Each task becomes an open reminder of type Task with the task's text and date.
      `idOf(i)` stands for the clock-and-random id of the i-th. */
  function RemindersFor(tasks: seq<PlannedTask>, idOf: nat -> string): (rs: seq<Reminder>)
    ensures |rs| == |tasks|
    ensures forall i :: 0 <= i < |tasks| ==> rs[i] == Reminder(idOf(i), tasks[i].text, tasks[i].date, false, Task)
  {
    seq(|tasks|, i requires 0 <= i < |tasks| => Reminder(idOf(i), tasks[i].text, tasks[i].date, false, Task))
  }

  /** What the planner does with the generator's outcome: the reminders it hands on (if
      any) and the toast it shows. */
  datatype PlanOutcome = PlanOutcome(reminders: Option<seq<Reminder>>, toast: string, kind: ToastKind)

  /** Reminders are handed on only when the generator returned tasks and there is a
      callback to take them; otherwise an error toast is shown. The Failure branch is the
      component's catch; the generator as written catches its own errors and returns an
      empty list, so in the application a failure reaches this as Success([]). */
  function PlanSchedule(generated: Result<seq<PlannedTask>, string>, hasCallback: bool, idOf: nat -> string): (o: PlanOutcome)
    ensures o.reminders.Some? <==> generated.Success? && |generated.value| > 0 && hasCallback
    ensures o.reminders.Some? ==>
      o.reminders.value == RemindersFor(generated.value, idOf)
      && o.toast == "Generated " + Decimal(|generated.value|) + " tasks!" && o.kind == SuccessToast
    ensures o.reminders.None? ==> o.kind == ErrorToast
    ensures generated.Failure? ==> o.toast == "Failed to connect to AI."
    ensures generated.Success? && o.reminders.None? ==> o.toast == "Could not generate schedule."
  {
    match generated
    case Failure(_) => PlanOutcome(None, "Failed to connect to AI.", ErrorToast)
    case Success(tasks) =>
      if |tasks| > 0 && hasCallback
      then PlanOutcome(Some(RemindersFor(tasks, idOf)), "Generated " + Decimal(|tasks|) + " tasks!", SuccessToast)
      else PlanOutcome(None, "Could not generate schedule.", ErrorToast)
  }
}

/**
 * The scheduling step: the visitor picks a weekday (today's is not
 * offered) and a time for the sales call; both are required to go on.
 */
module SchedulingStep {
  import opened Text
  import opened TrackingTypes
  import opened FormWizard

  datatype DayOption = DayOption(id: string, name: string)

  datatype TimeOption = TimeOption(id: string, name: string, description: string)

  /** `daysOptions`: Monday to Saturday. */
  const DaysOptions: seq<DayOption> := [
    DayOption("segunda", "Segunda-feira"),
    DayOption("terca", "Terça-feira"),
    DayOption("quarta", "Quarta-feira"),
    DayOption("quinta", "Quinta-feira"),
    DayOption("sexta", "Sexta-feira"),
    DayOption("sabado", "Sábado")]

  /** `timeOptions`: every hour from noon to 20:00, and the next working morning. */
  const TimeOptions: seq<TimeOption> := [
    TimeOption("12:00", "12:00", "Meio-dia"),
    TimeOption("13:00", "13:00", "13 horas"),
    TimeOption("14:00", "14:00", "14 horas"),
    TimeOption("15:00", "15:00", "15 horas"),
    TimeOption("16:00", "16:00", "16 horas"),
    TimeOption("17:00", "17:00", "17 horas"),
    TimeOption("18:00", "18:00", "18 horas"),
    TimeOption("19:00", "19:00", "19 horas"),
    TimeOption("20:00", "20:00", "20 horas"),
    TimeOption("manha", "Manhã do próximo dia útil", "Período da manhã")]

  /** The day ids by `Date.getDay()`, Sunday first. */
  const DayNames: seq<string> := ["domingo", "segunda", "terca", "quarta", "quinta", "sexta", "sabado"]

  /** `getCurrentDayId`, for the weekday number the clock gives (0 is Sunday). */
  function CurrentDayId(weekday: int): string
    requires 0 <= weekday < 7
  {
    DayNames[weekday]
  }

  /** `days.filter(day => day.id !== todayId)`. */
  function WithoutDay(days: seq<DayOption>, todayId: string): (r: seq<DayOption>)
    ensures |r| <= |days|
    ensures forall d :: d in r <==> d in days && d.id != todayId
  {
    if days == [] then []
    else if days[0].id != todayId then [days[0]] + WithoutDay(days[1..], todayId)
    else WithoutDay(days[1..], todayId)
  }

  /** `availableDays`. */
  function AvailableDays(weekday: int): seq<DayOption>
    requires 0 <= weekday < 7
  {
    WithoutDay(DaysOptions, CurrentDayId(weekday))
  }

  /** Filtering out an id no option carries keeps every option. */
  lemma {:induction false} WithoutAbsentDay(days: seq<DayOption>, todayId: string)
    requires forall k :: 0 <= k < |days| ==> days[k].id != todayId
    ensures WithoutDay(days, todayId) == days
  {
    if days != [] {
      WithoutAbsentDay(days[1..], todayId);
    }
  }

  /** Filtering out an id exactly one option carries drops just that option. */
  lemma {:induction false} WithoutPresentDay(days: seq<DayOption>, todayId: string, at: nat)
    requires at < |days| && days[at].id == todayId
    requires forall k :: 0 <= k < |days| && k != at ==> days[k].id != todayId
    ensures WithoutDay(days, todayId) == days[..at] + days[at + 1..]
  {
    var rest := days[1..];
    forall k | 0 <= k < |rest| && k + 1 != at
      ensures rest[k].id != todayId
    {
      assert rest[k] == days[k + 1];
    }
    if at == 0 {
      WithoutAbsentDay(rest, todayId);
      assert days[..0] + days[1..] == rest;
    } else {
      assert days[0].id != todayId;
      WithoutPresentDay(rest, todayId, at - 1);
      SpliceTail(days, at);
    }
  }

  /** Dropping index `at` of a sequence is keeping its head and dropping `at - 1` of its tail. */
  lemma SpliceTail(days: seq<DayOption>, at: nat)
    requires 0 < at < |days|
    ensures [days[0]] + (days[1..][..at - 1] + days[1..][at..]) == days[..at] + days[at + 1..]
  {
    assert days[1..][..at - 1] == days[1..at] && days[1..][at..] == days[at + 1..];
    assert [days[0]] + days[1..at] == days[..at];
  }

  /**
   * On Sunday all six days are offered; on any other day the five others,
   * in order, and never today.
   */
  lemma AvailableDaysByWeekday(weekday: int)
    requires 0 <= weekday < 7
    ensures weekday == 0 ==> AvailableDays(weekday) == DaysOptions
    ensures weekday != 0 ==> AvailableDays(weekday) == DaysOptions[..weekday - 1] + DaysOptions[weekday..]
    ensures |AvailableDays(weekday)| == if weekday == 0 then 6 else 5
    ensures forall d :: d in AvailableDays(weekday) ==> d.id != CurrentDayId(weekday)
  {
    var today := CurrentDayId(weekday);
    if weekday == 0 {
      WithoutAbsentDay(DaysOptions, today);
    } else {
      WithoutPresentDay(DaysOptions, today, weekday - 1);
    }
  }

  /** The step's error record: a message, '' once cleared by a selection, or no key. */
  datatype Errors = Errors(dia: Option<string>, horario: Option<string>)

  /** The state of the `SchedulingStep` component. */
  class Scheduling {
    var selectedDay: string
    var selectedTime: string
    var errors: Errors

    /** The selections start from what the form already holds. */
    constructor (data: FormRecord)
      ensures selectedDay == FieldOr(data.fields, "diaAgenda") && selectedTime == FieldOr(data.fields, "horarioAgenda")
      ensures errors == Errors(None, None)
    {
      selectedDay := FieldOr(data.fields, "diaAgenda");
      selectedTime := FieldOr(data.fields, "horarioAgenda");
      errors := Errors(None, None);
    }

    /** `handleDaySelect`: the day is selected, recorded in the form, and its error cleared. */
    method HandleDaySelect(dayId: string) returns (patch: FormPatch)
      modifies this
      ensures selectedDay == dayId && patch == FieldsPatch(map["diaAgenda" := dayId])
      ensures errors == old(errors).(dia := Some(""))
      ensures selectedTime == old(selectedTime)
    {
      selectedDay := dayId;
      patch := FieldsPatch(map["diaAgenda" := dayId]);
      errors := errors.(dia := Some(""));
    }

    /** `handleTimeSelect`: the time is selected, recorded in the form, and its error cleared. */
    method HandleTimeSelect(timeId: string) returns (patch: FormPatch)
      modifies this
      ensures selectedTime == timeId && patch == FieldsPatch(map["horarioAgenda" := timeId])
      ensures errors == old(errors).(horario := Some(""))
      ensures selectedDay == old(selectedDay)
    {
      selectedTime := timeId;
      patch := FieldsPatch(map["horarioAgenda" := timeId]);
      errors := errors.(horario := Some(""));
    }

    /**
     * `validateForm`: an error for a missing day and for a missing time;
     * it passes exactly when both are chosen, whatever they are.
     */
    method ValidateForm() returns (ok: bool)
      modifies this
      ensures ok <==> selectedDay != "" && selectedTime != ""
      ensures errors.dia == if selectedDay == "" then Some("Selecione um dia da semana") else None
      ensures errors.horario == if selectedTime == "" then Some("Selecione um horário") else None
      ensures selectedDay == old(selectedDay) && selectedTime == old(selectedTime)
    {
      var newErrors := Errors(None, None);
      if selectedDay == "" {
        newErrors := newErrors.(dia := Some("Selecione um dia da semana"));
      }
      if selectedTime == "" {
        newErrors := newErrors.(horario := Some("Selecione um horário"));
      }
      errors := newErrors;
      ok := newErrors == Errors(None, None);
    }

    /** `handleNext`: the wizard moves on only when the form passes. */
    method HandleNext() returns (advance: bool)
      modifies this
      ensures advance <==> selectedDay != "" && selectedTime != ""
      ensures selectedDay == old(selectedDay) && selectedTime == old(selectedTime)
    {
      advance := ValidateForm();
    }
  }

  /**
   * The validation does not look at the day itself: a day carried over from the
   * form that is today's day, and so not offered, still passes.
   */
  method TodayStillAccepted(weekday: int, time: string) returns (ok: bool)
    requires 0 <= weekday < 7 && time != ""
    ensures ok
  {
    var s := new Scheduling(FormRecord(map["diaAgenda" := CurrentDayId(weekday), "horarioAgenda" := time], false));
    assert s.selectedDay == DayNames[weekday] && DayNames[weekday] != "";
    ok := s.HandleNext();
  }
}

/** Settings and persisted state (electron/modules/state.js): the defaults, the
    merge of a loaded data file over them, the shallow overlay of new settings,
    today's date string and the once-per-day backup guard. The file system is
    reduced to the outcome of each call. */
module State {
  import opened Wrappers
  import opened Decimal

  datatype Durations = Durations(workMinutes: real, breakMinutes: real)

  datatype Settings = Settings(
    theme: string,             // "" stands for an unset (falsy) theme
    acceptableHourRange: real,
    durations: Durations,
    soundVolume: real)

  datatype TimerFields = TimerFields(
    running: bool,
    isBreak: bool,
    remainingSeconds: int,
    endTs: int,                // absolute end time in ms; 0 when not running
    initialSeconds: int)

  /** The record left behind when a countdown reaches zero. */
  datatype EndRecord = EndRecord(isBreak: bool, ts: int)

  datatype AppState = AppState(timer: TimerFields, lastEnded: Option<EndRecord>)

  const DefaultDurations := Durations(30.0, 3.0)
  const DefaultSettings := Settings("neutral", 6.0, DefaultDurations, 100.0)
  const DefaultTimer := TimerFields(false, false, 0, 0, 0)
  const DefaultState := AppState(DefaultTimer, None)

  // ---------------------------------------------------------------------------
  // The data file as parsed JSON: every key may be present or absent.

  datatype DurationsJson = DurationsJson(workMinutes: Option<real>, breakMinutes: Option<real>)

  datatype SettingsJson = SettingsJson(
    theme: Option<string>,
    acceptableHourRange: Option<real>,
    durations: Option<DurationsJson>,
    soundVolume: Option<real>)

  datatype TimerJson = TimerJson(
    running: Option<bool>,
    isBreak: Option<bool>,
    remainingSeconds: Option<int>,
    endTs: Option<int>,
    initialSeconds: Option<int>)

  /** `lastEnded` is absent (None), null (Some(None)) or a record. */
  datatype StateJson = StateJson(timer: Option<TimerJson>, lastEnded: Option<Option<EndRecord>>)

  datatype DataFile = DataFile(settings: Option<SettingsJson>, state: Option<StateJson>)

  /** `{ ...base, ...file }` for the two duration fields. */
  function MergeDurations(base: Durations, file: Option<DurationsJson>): (d: Durations)
    ensures file == None ==> d == base
  {
    match file
    case None => base
    case Some(j) => Durations(j.workMinutes.GetOr(base.workMinutes), j.breakMinutes.GetOr(base.breakMinutes))
  }

  /** Loaded settings: the defaults, overridden by every key the file gives,
      with `durations` merged field by field. */
  function LoadedSettings(file: Option<SettingsJson>): (s: Settings)
    ensures file == None ==> s == DefaultSettings
  {
    match file
    case None => DefaultSettings
    case Some(j) =>
      Settings(
        j.theme.GetOr(DefaultSettings.theme),
        j.acceptableHourRange.GetOr(DefaultSettings.acceptableHourRange),
        MergeDurations(DefaultDurations, j.durations),
        j.soundVolume.GetOr(DefaultSettings.soundVolume))
  }

  function MergeTimer(base: TimerFields, file: Option<TimerJson>): (t: TimerFields)
    ensures file == None ==> t == base
  {
    match file
    case None => base
    case Some(j) =>
      TimerFields(
        j.running.GetOr(base.running),
        j.isBreak.GetOr(base.isBreak),
        j.remainingSeconds.GetOr(base.remainingSeconds),
        j.endTs.GetOr(base.endTs),
        j.initialSeconds.GetOr(base.initialSeconds))
  }

  /** Loaded state: the default state overridden by the file, `timer` merged field by field. */
  function LoadedState(file: Option<StateJson>): (s: AppState)
    ensures file == None ==> s == DefaultState
  {
    match file
    case None => DefaultState
    case Some(j) => AppState(MergeTimer(DefaultTimer, j.timer), j.lastEnded.GetOr(DefaultState.lastEnded))
  }

  /** What `saveData` writes: every key present. */
  function SettingsToJson(s: Settings): SettingsJson {
    SettingsJson(Some(s.theme), Some(s.acceptableHourRange),
                 Some(DurationsJson(Some(s.durations.workMinutes), Some(s.durations.breakMinutes))),
                 Some(s.soundVolume))
  }

  function StateToJson(s: AppState): StateJson {
    StateJson(Some(TimerJson(Some(s.timer.running), Some(s.timer.isBreak), Some(s.timer.remainingSeconds),
                             Some(s.timer.endTs), Some(s.timer.initialSeconds))),
              Some(s.lastEnded))
  }

  /** Loading a file that was saved gives back exactly what was saved. */
  lemma SaveLoadRoundTrip(s: Settings, st: AppState)
    ensures LoadedSettings(Some(SettingsToJson(s))) == s
    ensures LoadedState(Some(StateToJson(st))) == st
  {
  }

  /** Every key the file gives wins; every key it leaves out keeps its default. */
  lemma LoadedSettingsPerKey(j: SettingsJson)
    ensures LoadedSettings(Some(j)).theme == (if j.theme.Some? then j.theme.value else "neutral")
    ensures LoadedSettings(Some(j)).soundVolume == (if j.soundVolume.Some? then j.soundVolume.value else 100.0)
    ensures LoadedSettings(Some(j)).acceptableHourRange ==
            (if j.acceptableHourRange.Some? then j.acceptableHourRange.value else 6.0)
    ensures j.durations.Some? && j.durations.value.workMinutes.Some? ==>
            LoadedSettings(Some(j)).durations.workMinutes == j.durations.value.workMinutes.value
    ensures (j.durations.None? || j.durations.value.workMinutes.None?) ==>
            LoadedSettings(Some(j)).durations.workMinutes == 30.0
    ensures j.durations.Some? && j.durations.value.breakMinutes.Some? ==>
            LoadedSettings(Some(j)).durations.breakMinutes == j.durations.value.breakMinutes.value
    ensures (j.durations.None? || j.durations.value.breakMinutes.None?) ==>
            LoadedSettings(Some(j)).durations.breakMinutes == 3.0
  {
  }

  /** A file that sets only `workMinutes` keeps the default break length. */
  lemma OnlyWorkMinutesKeepsBreakDefault(w: real)
    ensures LoadedSettings(Some(SettingsJson(None, None, Some(DurationsJson(Some(w), None)), None))).durations
            == Durations(w, 3.0)
  {
  }

  /** Every timer key the file gives wins; the others keep the default timer's values. */
  lemma LoadedStatePerKey(j: StateJson)
    ensures var t := LoadedState(Some(j)).timer;
            (j.timer.None? ==> t == DefaultTimer) &&
            (j.timer.Some? ==>
              t.running == j.timer.value.running.GetOr(false) &&
              t.isBreak == j.timer.value.isBreak.GetOr(false) &&
              t.remainingSeconds == j.timer.value.remainingSeconds.GetOr(0) &&
              t.endTs == j.timer.value.endTs.GetOr(0) &&
              t.initialSeconds == j.timer.value.initialSeconds.GetOr(0))
    ensures LoadedState(Some(j)).lastEnded == (if j.lastEnded.Some? then j.lastEnded.value else None)
  {
  }

  // ---------------------------------------------------------------------------
  // updateSettings: a shallow overlay.

  /** The keys a caller of `updateSettings` passes; a `durations` object is taken whole. */
  datatype SettingsPatch = SettingsPatch(
    theme: Option<string>,
    acceptableHourRange: Option<real>,
    durations: Option<Durations>,
    soundVolume: Option<real>)

  /** `{ ...old, ...patch }`: given keys replace, absent keys are kept. */
  function Overlay(s: Settings, p: SettingsPatch): (r: Settings)
    ensures p == SettingsPatch(None, None, None, None) ==> r == s
  {
    Settings(p.theme.GetOr(s.theme), p.acceptableHourRange.GetOr(s.acceptableHourRange),
             p.durations.GetOr(s.durations), p.soundVolume.GetOr(s.soundVolume))
  }

  /** A given `durations` replaces the whole object, whatever the old one held;
      an absent key keeps the old value; overlaying twice is overlaying once. */
  lemma OverlayShallow(s: Settings, p: SettingsPatch)
    ensures p.durations.Some? ==> Overlay(s, p).durations == p.durations.value
    ensures p.durations.None? ==> Overlay(s, p).durations == s.durations
    ensures p.theme.Some? ==> Overlay(s, p).theme == p.theme.value
    ensures p.theme.None? ==> Overlay(s, p).theme == s.theme
    ensures p.acceptableHourRange.Some? ==> Overlay(s, p).acceptableHourRange == p.acceptableHourRange.value
    ensures p.acceptableHourRange.None? ==> Overlay(s, p).acceptableHourRange == s.acceptableHourRange
    ensures p.soundVolume.Some? ==> Overlay(s, p).soundVolume == p.soundVolume.value
    ensures p.soundVolume.None? ==> Overlay(s, p).soundVolume == s.soundVolume
    ensures Overlay(Overlay(s, p), p) == Overlay(s, p)
  {
  }

  // ---------------------------------------------------------------------------
  // getTodayDateString

  /** A local calendar day as `Date` reports it: `month` is 0-based (getMonth). */
  datatype CalendarDay = CalendarDay(year: int, month: int, day: int)

  predicate ValidDay(d: CalendarDay) {
    0 <= d.month < 12 && 1 <= d.day <= 31
  }

  /** `String(n).padStart(2, '0')` for a month or day number: its tens digit then its units digit. */
  function TwoDigits(n: nat): (r: string)
    requires n < 100
    ensures r == [DigitChar(n / 10), DigitChar(n % 10)]
    ensures AllDigits(r) && ParseDigits(r) == n
  {
    PadStart2Number(n);
    PadStart2(NatToString(n))
  }

  /** `-MM-DD`. */
  function DateSuffix(month: nat, day: nat): (r: string)
    requires month < 100 && day < 100
    ensures |r| == 6 && r[0] == '-' && r[3] == '-'
    ensures r[1..3] == TwoDigits(month) && r[4..] == TwoDigits(day)
  {
    "-" + TwoDigits(month) + "-" + TwoDigits(day)
  }

  /** `YYYY-MM-DD`: the year as String() writes it, the 1-based month and the
      day each zero-padded to two digits. */
  function DateString(d: CalendarDay): (r: string)
    requires ValidDay(d)
    ensures |r| == |IntToString(d.year)| + 6
    ensures r[..|r| - 6] == IntToString(d.year)
    ensures r[|r| - 6..] == DateSuffix(d.month + 1, d.day)
  {
    var y, t := IntToString(d.year), DateSuffix(d.month + 1, d.day);
    assert (y + t)[..|y|] == y && (y + t)[|y|..] == t;
    y + t
  }

  /** Equal suffixes spell equal months and days. */
  lemma DateSuffixInjective(m1: nat, d1: nat, m2: nat, d2: nat)
    requires m1 < 100 && d1 < 100 && m2 < 100 && d2 < 100
    ensures DateSuffix(m1, d1) == DateSuffix(m2, d2) ==> m1 == m2 && d1 == d2
  {
    if DateSuffix(m1, d1) == DateSuffix(m2, d2) {
      assert TwoDigits(m1) == TwoDigits(m2) && TwoDigits(d1) == TwoDigits(d2);
      DigitPairInjective(m1, m2);
      DigitPairInjective(d1, d2);
    }
  }

  /** Two different days never share a date string, so the backup guard fires once per day. */
  lemma DateStringInjective(a: CalendarDay, b: CalendarDay)
    requires ValidDay(a) && ValidDay(b)
    ensures DateString(a) == DateString(b) ==> a == b
  {
    var r := DateString(a);
    if r == DateString(b) {
      IntToStringInjective(a.year, b.year);
      DateSuffixInjective(a.month + 1, a.day, b.month + 1, b.day);
    }
  }

  // ---------------------------------------------------------------------------
  // maybeBackupDaily

  /** What `copyFileSync(src, dest, COPYFILE_EXCL)` did. */
  datatype CopyOutcome = Copied | AlreadyExists | CopyFailed

  /** The `lastBackupDate` after one call on day `today`. */
  function NextBackupDate(last: string, today: string, copy: CopyOutcome): (r: string)
    ensures r == today || r == last
    ensures r != last <==> last != today && copy != CopyFailed
  {
    if last == today then last
    else if copy == CopyFailed then last
    else today
  }

  /** The log of attempted copies after one call on day `today`: a copy is
      tried exactly when the date is not already today. */
  function NextAttempts(last: string, today: string, attempts: seq<string>): (r: seq<string>)
    ensures r == attempts || r == attempts + [today]
    ensures r == attempts <==> last == today
  {
    if last == today then attempts else attempts + [today]
  }

  /** After a copy that succeeded or found today's file, a second call that day is a no-op. */
  lemma BackupOncePerDay(last: string, today: string, first: CopyOutcome, second: CopyOutcome)
    requires first != CopyFailed
    ensures NextBackupDate(last, today, first) == today
    ensures NextBackupDate(NextBackupDate(last, today, first), today, second) == today
  {
  }

  /** The outcome of reading the data file in `loadData`. */
  datatype LoadOutcome =
    | FileMissing
    | FileRead(file: DataFile)
    | LoadFailed     // unreadable file, malformed JSON, or a document that is `null`

  datatype Document = Document(settings: Settings, state: AppState)

  class StateManager {
    var settings: Settings
    var state: AppState
    var lastBackupDate: string
    /** Every document written to the data file, oldest first. */
    var written: seq<Document>
    /** The date strings for which a backup copy was attempted, oldest first. */
    var backupAttempts: seq<string>

    constructor ()
      ensures settings == DefaultSettings && state == DefaultState
      ensures lastBackupDate == "" && written == [] && backupAttempts == []
    {
      settings := DefaultSettings;
      state := DefaultState;
      lastBackupDate := "";
      written := [];
      backupAttempts := [];
    }

    method GetTodayDateString(today: CalendarDay) returns (r: string)
      requires ValidDay(today)
      ensures r == DateString(today)
    {
      var y := IntToString(today.year);
      var month := TwoDigits(today.month + 1);
      var day := TwoDigits(today.day);
      r := y + "-" + month + "-" + day;
      assert r == y + DateSuffix(today.month + 1, today.day);
    }

    method MaybeBackupDaily(today: CalendarDay, copy: CopyOutcome)
      requires ValidDay(today)
      modifies this`lastBackupDate, this`backupAttempts
      ensures lastBackupDate == NextBackupDate(old(lastBackupDate), DateString(today), copy)
      ensures backupAttempts == NextAttempts(old(lastBackupDate), DateString(today), old(backupAttempts))
    {
      var t := GetTodayDateString(today);
      if lastBackupDate == t {
        return;
      }
      backupAttempts := backupAttempts + [t];
      match copy
      case Copied =>
        lastBackupDate := t;
      case AlreadyExists =>
        lastBackupDate := t;
      case CopyFailed =>
    }

    /** Writes `{settings, state}`; only a successful write goes on to the daily backup. */
    method SaveData(writeOk: bool, today: CalendarDay, copy: CopyOutcome)
      requires ValidDay(today)
      modifies this`written, this`lastBackupDate, this`backupAttempts
      ensures written == if writeOk then old(written) + [Document(settings, state)] else old(written)
      ensures lastBackupDate == if writeOk then NextBackupDate(old(lastBackupDate), DateString(today), copy)
                                else old(lastBackupDate)
      ensures backupAttempts == if writeOk then NextAttempts(old(lastBackupDate), DateString(today), old(backupAttempts))
                                else old(backupAttempts)
    {
      if !writeOk {
        return;
      }
      written := written + [Document(settings, state)];
      MaybeBackupDaily(today, copy);
    }

    method LoadData(outcome: LoadOutcome, writeOk: bool, today: CalendarDay, copy: CopyOutcome)
      requires ValidDay(today)
      modifies this`settings, this`state, this`written, this`lastBackupDate, this`backupAttempts
      ensures outcome.FileRead? ==> settings == LoadedSettings(outcome.file.settings)
      ensures outcome.FileRead? ==> state == LoadedState(outcome.file.state)
      ensures !outcome.FileRead? ==> settings == old(settings) && state == old(state)
      ensures outcome.FileMissing? && writeOk ==> written == old(written) + [Document(settings, state)]
      ensures !(outcome.FileMissing? && writeOk) ==> written == old(written)
      ensures outcome.FileMissing? && writeOk ==>
              lastBackupDate == NextBackupDate(old(lastBackupDate), DateString(today), copy) &&
              backupAttempts == NextAttempts(old(lastBackupDate), DateString(today), old(backupAttempts))
      ensures !(outcome.FileMissing? && writeOk) ==>
              lastBackupDate == old(lastBackupDate) && backupAttempts == old(backupAttempts)
    {
      match outcome
      case FileRead(file) =>
        settings := LoadedSettings(file.settings);
        state := LoadedState(file.state);
      case FileMissing =>
        SaveData(writeOk, today, copy);
      case LoadFailed =>
    }

    method UpdateSettings(patch: SettingsPatch, writeOk: bool, today: CalendarDay, copy: CopyOutcome)
      requires ValidDay(today)
      modifies this`settings, this`written, this`lastBackupDate, this`backupAttempts
      ensures settings == Overlay(old(settings), patch)
      ensures written == if writeOk then old(written) + [Document(settings, old(state))] else old(written)
      ensures lastBackupDate == if writeOk then NextBackupDate(old(lastBackupDate), DateString(today), copy)
                                else old(lastBackupDate)
      ensures backupAttempts == if writeOk then NextAttempts(old(lastBackupDate), DateString(today), old(backupAttempts))
                                else old(backupAttempts)
    {
      settings := Overlay(settings, patch);
      SaveData(writeOk, today, copy);
    }
  }
}

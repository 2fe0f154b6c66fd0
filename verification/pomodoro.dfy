/**
 * The customizable focus timer: a study / short-break / long-break state
 * machine driven one effect run at a time, with settings kept in local storage.
 */
module Pomodoro {
  import opened Wrappers
  import opened Storage

  datatype Mode = Study | ShortBreak | LongBreak

  datatype Theme = Pomodoro | Custom

  /** Durations are in minutes; `longBreakInterval` counts study sessions. */
  datatype Settings = Settings(
    studyTime: int,
    shortBreak: int,
    longBreak: int,
    longBreakInterval: int,
    autoStart: bool,
    soundEnabled: bool,
    theme: Theme)

  const DefaultSettings := Settings(25, 5, 15, 4, false, true, Pomodoro)

  /** Settings under which no period can have a negative length. */
  predicate NonNegative(s: Settings) {
    s.studyTime >= 0 && s.shortBreak >= 0 && s.longBreak >= 0
  }

  /** The length in seconds of a period of the given mode. */
  function Duration(s: Settings, mode: Mode): (r: int)
    ensures NonNegative(s) ==> r >= 0
    ensures r % 60 == 0
  {
    match mode
    case Study => s.studyTime * 60
    case ShortBreak => s.shortBreak * 60
    case LongBreak => s.longBreak * 60
  }

  /**
   * `(sessions + 1) % longBreakInterval === 0`: whether finishing a study
   * period now starts a long break. A zero interval gives NaN, never equal to 0.
   */
  predicate LongBreakNext(sessions: nat, k: int) {
    k != 0 && (sessions + 1) % k == 0
  }

  /** `sessions % longBreakInterval === longBreakInterval - 1`: the "Next: Long Break" label. */
  predicate NextLabelLong(sessions: nat, k: int) {
    k != 0 && sessions % k == k - 1
  }

  /** The label announces a long break exactly when the next study completion takes one. */
  lemma NextLabelAgrees(sessions: nat, k: int)
    requires k >= 0
    ensures NextLabelLong(sessions, k) <==> LongBreakNext(sessions, k)
  {
    if k > 0 {
      var q := sessions / k;
      var r := sessions % k;
      assert sessions == q * k + r;
      if r == k - 1 {
        assert sessions + 1 == (q + 1) * k + 0;
        ModUnique(sessions + 1, k, q + 1, 0);
      } else {
        assert sessions + 1 == q * k + (r + 1);
        ModUnique(sessions + 1, k, q, r + 1);
      }
    }
  }

  /**
   * A negative interval, which a typed "-1" leaves in place, makes the label
   * and the rule disagree: with no sessions yet the rule takes a long break
   * but the label announces a short one.
   */
  lemma NegativeIntervalDisagrees()
    ensures FieldEdited(DefaultSettings.(theme := Custom), IntervalField, Some(-1)).longBreakInterval == -1
    ensures LongBreakNext(0, -1) && !NextLabelLong(0, -1)
  {
  }

  /**
   * The label is shown only under the pomodoro theme, and choosing that theme
   * sets the interval to 4, so the label shown always agrees with the rule.
   */
  lemma PomodoroLabelAgrees(s: Settings, sessions: nat)
    ensures var k := ThemeSelected(s, Pomodoro).longBreakInterval;
      NextLabelLong(sessions, k) <==> LongBreakNext(sessions, k)
  {
    NextLabelAgrees(sessions, 4);
  }

  /** A multiple of a positive number other than zero is at least that number in size. */
  lemma MultipleAtLeast(d: int, k: int)
    requires k > 0 && d > 0
    ensures d * k >= k
  {
    assert d * k == (d - 1) * k + k;
    assert (d - 1) * k >= 0;
  }

  /** The remainder is the only value in range that completes a division. */
  lemma ModUnique(a: int, k: int, q: int, r: int)
    requires k > 0 && 0 <= r < k && a == q * k + r
    ensures a % k == r
  {
    var q' := a / k;
    var r' := a % k;
    assert a == q' * k + r';
    assert (q - q') * k == r' - r;
    if q > q' {
      MultipleAtLeast(q - q', k);
    } else if q < q' {
      MultipleAtLeast(q' - q, k);
    }
  }

  /** `Math.floor((sessions * studyTime) / 60)`: whole hours studied. */
  function TotalHours(sessions: nat, studyTime: int): (r: int)
    ensures r * 60 <= sessions * studyTime < (r + 1) * 60
  {
    (sessions * studyTime) / 60
  }

  /** `getModeLabel`. */
  function ModeLabel(mode: Mode): (r: string)
    ensures mode == Study <==> r == "Study Time"
    ensures mode == ShortBreak <==> r == "Short Break"
    ensures mode == LongBreak <==> r == "Long Break"
  {
    match mode
    case Study => "Study Time"
    case ShortBreak => "Short Break"
    case LongBreak => "Long Break"
  }

  /** `getModeColor`. */
  function ModeColor(mode: Mode): (r: string)
    ensures mode == Study <==> r == "text-blue-600"
    ensures mode == ShortBreak <==> r == "text-green-600"
    ensures mode == LongBreak <==> r == "text-purple-600"
  {
    match mode
    case Study => "text-blue-600"
    case ShortBreak => "text-green-600"
    case LongBreak => "text-purple-600"
  }

  /** The theme selector: choosing pomodoro also forces the classic 25/5/15/4 durations. */
  function ThemeSelected(s: Settings, theme: Theme): (r: Settings)
    ensures r.theme == theme
    ensures theme == Pomodoro ==>
      r.studyTime == 25 && r.shortBreak == 5 && r.longBreak == 15 && r.longBreakInterval == 4
    ensures theme == Custom ==> r == s.(theme := Custom)
    ensures r.autoStart == s.autoStart && r.soundEnabled == s.soundEnabled
  {
    if theme == Pomodoro then
      s.(theme := theme, studyTime := 25, shortBreak := 5, longBreak := 15, longBreakInterval := 4)
    else
      s.(theme := theme)
  }

  /** The four numeric inputs of the custom theme. */
  datatype Field = StudyTimeField | ShortBreakField | LongBreakField | IntervalField

  /** The value each input falls back to. */
  function Fallback(f: Field): int {
    match f
    case StudyTimeField => 25
    case ShortBreakField => 5
    case LongBreakField => 15
    case IntervalField => 4
  }

  /** `Number.parseInt(value) || fallback`: NaN (`None`) and 0 are falsy. */
  function InputOr(parsed: Option<int>, fallback: int): (r: int)
    ensures parsed.Some? && parsed.value != 0 ==> r == parsed.value
    ensures parsed.None? || parsed.value == 0 ==> r == fallback
    ensures fallback != 0 ==> r != 0
  {
    if parsed.Some? && parsed.value != 0 then parsed.value else fallback
  }

  /** The settings an input's change event saves: that one field replaced, the rest kept. */
  function FieldEdited(s: Settings, f: Field, parsed: Option<int>): (r: Settings)
    ensures r.theme == s.theme && r.autoStart == s.autoStart && r.soundEnabled == s.soundEnabled
    ensures r.studyTime == if f == StudyTimeField then InputOr(parsed, 25) else s.studyTime
    ensures r.shortBreak == if f == ShortBreakField then InputOr(parsed, 5) else s.shortBreak
    ensures r.longBreak == if f == LongBreakField then InputOr(parsed, 15) else s.longBreak
    ensures r.longBreakInterval == if f == IntervalField then InputOr(parsed, 4) else s.longBreakInterval
  {
    var v := InputOr(parsed, Fallback(f));
    match f
    case StudyTimeField => s.(studyTime := v)
    case ShortBreakField => s.(shortBreak := v)
    case LongBreakField => s.(longBreak := v)
    case IntervalField => s.(longBreakInterval := v)
  }

  /** An edited interval is never zero, so the long-break test never divides by zero afterwards. */
  lemma EditedIntervalNonZero(s: Settings, parsed: Option<int>)
    ensures FieldEdited(s, IntervalField, parsed).longBreakInterval != 0
  {
  }

  /** State of `CustomizableTimer`. */
  class CustomizableTimer {
    var time: int
    var isRunning: bool
    var mode: Mode
    var sessions: nat
    var cycles: nat
    var settings: Settings
    var store: Store
    const codec: Codec<Settings>

    /** Cycles only grow together with sessions; with sane settings time is never negative. */
    predicate Valid()
      reads this
    {
      cycles <= sessions && (NonNegative(settings) ==> time >= 0)
    }

    constructor (store0: Store, codec: Codec<Settings>)
      ensures Valid()
      ensures time == 1500 && !isRunning && mode == Study && sessions == 0 && cycles == 0
      ensures settings == DefaultSettings && store == store0 && this.codec == codec
    {
      time := 25 * 60;
      isRunning := false;
      mode := Study;
      sessions := 0;
      cycles := 0;
      settings := DefaultSettings;
      store := store0;
      this.codec := codec;
    }

    /**
     * The mount effect: stored settings replace the defaults and set the
     * time to their study length (a text that does not decode throws and
     * changes nothing).
     */
    method LoadSettings()
      requires Valid()
      modifies this
      ensures Valid()
      ensures Restore(old(store), SettingsKey, codec).Some? ==>
        settings == Restore(old(store), SettingsKey, codec).value && time == settings.studyTime * 60
      ensures Restore(old(store), SettingsKey, codec).None? ==>
        settings == old(settings) && time == old(time)
      ensures isRunning == old(isRunning) && mode == old(mode)
      ensures sessions == old(sessions) && cycles == old(cycles) && store == old(store)
    {
      var saved := Saved(store, SettingsKey);
      if saved.Some? {
        var parsed := codec.decode(saved.value);
        if parsed.Some? {
          settings := parsed.value;
          time := parsed.value.studyTime * 60;
        }
      }
    }

    /** `saveSettings`: adopt and store the settings, restart the current mode's period, stop. */
    method SaveSettings(newSettings: Settings)
      requires Valid()
      modifies this
      ensures Valid()
      ensures settings == newSettings && store == old(store)[SettingsKey := codec.encode(newSettings)]
      ensures time == Duration(newSettings, mode) && !isRunning
      ensures mode == old(mode) && sessions == old(sessions) && cycles == old(cycles)
    {
      settings := newSettings;
      store := store[SettingsKey := codec.encode(newSettings)];
      if mode == Study {
        time := newSettings.studyTime * 60;
      } else if mode == ShortBreak {
        time := newSettings.shortBreak * 60;
      } else {
        time := newSettings.longBreak * 60;
      }
      isRunning := false;
    }

    /**
     * One run of the timer effect. Running with time left: one tick. At
     * zero: stop, then a study period counts a session and starts a long
     * break every `longBreakInterval` sessions (counting a cycle) and a
     * short break otherwise, while a break returns to study. Otherwise
     * nothing happens. `autoStartScheduled` reports the delayed restart.
     */
    method Step() returns (autoStartScheduled: bool)
      requires Valid()
      modifies this
      ensures Valid()
      ensures settings == old(settings) && store == old(store)
      ensures old(isRunning) && old(time) > 0 ==>
        time == old(time) - 1 && isRunning && mode == old(mode) &&
        sessions == old(sessions) && cycles == old(cycles) && !autoStartScheduled
      ensures !(old(isRunning) && old(time) > 0) && old(time) == 0 ==>
        !isRunning && autoStartScheduled == settings.autoStart
      ensures !(old(isRunning) && old(time) > 0) && old(time) == 0 && old(mode) == Study ==>
        sessions == old(sessions) + 1 &&
        (if LongBreakNext(old(sessions), settings.longBreakInterval)
         then mode == LongBreak && time == settings.longBreak * 60 && cycles == old(cycles) + 1
         else mode == ShortBreak && time == settings.shortBreak * 60 && cycles == old(cycles))
      ensures !(old(isRunning) && old(time) > 0) && old(time) == 0 && old(mode) != Study ==>
        mode == Study && time == settings.studyTime * 60 &&
        sessions == old(sessions) && cycles == old(cycles)
      ensures !(old(isRunning) && old(time) > 0) && old(time) != 0 ==>
        time == old(time) && isRunning == old(isRunning) && mode == old(mode) &&
        sessions == old(sessions) && cycles == old(cycles) && !autoStartScheduled
    {
      autoStartScheduled := false;
      if isRunning && time > 0 {
        time := time - 1;
      } else if time == 0 {
        isRunning := false;
        if mode == Study {
          var newCycles := sessions + 1;
          sessions := sessions + 1;
          if settings.longBreakInterval != 0 && newCycles % settings.longBreakInterval == 0 {
            mode := LongBreak;
            time := settings.longBreak * 60;
            cycles := cycles + 1;
          } else {
            mode := ShortBreak;
            time := settings.shortBreak * 60;
          }
        } else {
          mode := Study;
          time := settings.studyTime * 60;
        }
        autoStartScheduled := settings.autoStart;
      }
    }

    /** The start/pause button. */
    method ToggleRunning()
      requires Valid()
      modifies this
      ensures Valid()
      ensures isRunning == !old(isRunning)
      ensures time == old(time) && mode == old(mode) && sessions == old(sessions)
      ensures cycles == old(cycles) && settings == old(settings) && store == old(store)
    {
      isRunning := !isRunning;
    }

    /** `resetTimer`: stop, back to a fresh study period, sessions and cycles zeroed. */
    method Reset()
      requires Valid()
      modifies this
      ensures Valid()
      ensures !isRunning && mode == Study && time == settings.studyTime * 60
      ensures sessions == 0 && cycles == 0
      ensures settings == old(settings) && store == old(store)
    {
      isRunning := false;
      mode := Study;
      time := settings.studyTime * 60;
      sessions := 0;
      cycles := 0;
    }

    /** The "Total Time" figure. */
    function Hours(): (r: int)
      reads this
      ensures NonNegative(settings) ==> r >= 0
      ensures r * 60 <= sessions * settings.studyTime < (r + 1) * 60
    {
      TotalHours(sessions, settings.studyTime)
    }
  }

  /** Starts the timer if it is paused and lets the effect tick until the period runs out. */
  method RunOut(t: CustomizableTimer) returns (ticks: nat)
    requires t.Valid() && NonNegative(t.settings)
    modifies t
    ensures t.Valid() && t.time == 0 && t.isRunning
    ensures ticks == old(t.time)
    ensures t.mode == old(t.mode) && t.sessions == old(t.sessions) && t.cycles == old(t.cycles)
    ensures t.settings == old(t.settings) && t.store == old(t.store)
  {
    if !t.isRunning {
      t.ToggleRunning();
    }
    ticks := 0;
    while t.time > 0
      invariant t.Valid() && t.isRunning && t.time >= 0
      invariant ticks + t.time == old(t.time)
      invariant t.mode == old(t.mode) && t.sessions == old(t.sessions) && t.cycles == old(t.cycles)
      invariant t.settings == old(t.settings) && t.store == old(t.store)
      decreases t.time
    {
      var _ := t.Step();
      ticks := ticks + 1;
    }
  }

  /**
   * With the default settings, four study periods (the first three each
   * followed by their short break) end in the first long break and one cycle.
   */
  method FourSessionsOneCycle(store0: Store, c: Codec<Settings>) returns (sessions: nat, cycles: nat, mode: Mode)
    ensures sessions == 4 && cycles == 1 && mode == LongBreak
  {
    var t := new CustomizableTimer(store0, c);
    var i := 0;
    while i < 4
      invariant 0 <= i <= 4
      invariant t.Valid() && t.settings == DefaultSettings
      invariant t.sessions == i && t.cycles == (if i == 4 then 1 else 0)
      invariant i < 4 ==> t.mode == Study
      invariant i == 4 ==> t.mode == LongBreak
      decreases 4 - i
    {
      var _ := RunOut(t);
      var _ := t.Step();
      if i < 3 {
        var _ := RunOut(t);
        var _ := t.Step();
      }
      i := i + 1;
    }
    sessions, cycles, mode := t.sessions, t.cycles, t.mode;
  }
}

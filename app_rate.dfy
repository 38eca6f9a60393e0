/** AppRate: the "rate this app" prompt. Its state is a small preference
    store (whether the prompt was dismissed for good, whether the app has
    crashed, the start of the "remind me later" period, a transaction count)
    and two thresholds; `init` decides whether to show the prompt, the
    dialog's buttons and its cancellation rewrite the store. */
module AppRating {
  import opened JavaTypes

  /** A value in `SharedPreferences`. */
  datatype PrefValue = BoolValue(b: bool) | LongValue(n: Long)

  type Prefs = map<string, PrefValue>

  const PrefAppHasCrashed: string := "pref_app_has_crashed"
  const PrefDateRemindStart: string := "date_remind_start"
  const PrefTransactionCount: string := "transaction_count"
  const PrefDontShowAgain: string := "dont_show_again"

  /** `DateUtils.DAY_IN_MILLIS`. */
  const DayInMillis: Long := 86_400_000

  /** `DialogInterface.BUTTON_POSITIVE`, `BUTTON_NEGATIVE`, `BUTTON_NEUTRAL`. */
  const ButtonPositive: int := -1
  const ButtonNegative: int := -2
  const ButtonNeutral: int := -3

  /** The days the neutral ("remind me later") button waits. */
  const RemindLaterDays: Long := 7

  /** `getBoolean(key, default)`. */
  function GetBoolean(values: Prefs, key: string, default: bool): bool {
    if key in values && values[key].BoolValue? then values[key].b else default
  }

  /** `getLong(key, default)`. */
  function GetLong(values: Prefs, key: string, default: Long): Long {
    if key in values && values[key].LongValue? then values[key].n else default
  }

  /** A `SharedPreferences.Editor`: pending writes, applied only by a commit. */
  datatype Editor = Editor(clearAll: bool, puts: Prefs) {
    function PutLong(key: string, n: Long): Editor {
      this.(puts := puts[key := LongValue(n)])
    }

    function PutBoolean(key: string, b: bool): Editor {
      this.(puts := puts[key := BoolValue(b)])
    }

    function Clear(): Editor {
      this.(clearAll := true)
    }
  }

  /** `preferences.edit()`: an editor with nothing pending. */
  const NewEditor: Editor := Editor(false, map[])

  /** The store after `commit()`: a requested clear first, then every put. */
  function Committed(values: Prefs, editor: Editor): (r: Prefs)
    ensures forall k :: k in editor.puts ==> k in r && r[k] == editor.puts[k]
    ensures forall k :: k in r && k !in editor.puts ==> !editor.clearAll && k in values && r[k] == values[k]
    ensures forall k :: k in values && k !in editor.puts && !editor.clearAll ==> k in r
  {
    (if editor.clearAll then map[] else values) + editor.puts
  }

  /** The store of one preference file, shared by whoever opens it. */
  class SharedPreferences {
    var values: Prefs

    constructor (values: Prefs)
      ensures this.values == values
    {
      this.values := values;
    }

    method Commit(editor: Editor)
      modifies this
      ensures values == Committed(old(values), editor)
    {
      values := Committed(values, editor);
    }
  }

  // ---------------------------------------------------------------------------
  // What each operation does to the store

  /** init returns at once: dismissed for good, or the app has crashed. */
  predicate Suppressed(values: Prefs) {
    GetBoolean(values, PrefDontShowAgain, false) || GetBoolean(values, PrefAppHasCrashed, false)
  }

  /** The start of the waiting period init uses: the stored one, or `now`
      when none is stored (0). */
  function RemindStart(values: Prefs, now: Long): Long {
    var stored := GetLong(values, PrefDateRemindStart, 0);
    if stored == 0 then now else stored
  }

  /** Enough transactions, and `now >= start + minDays * DAY_IN_MILLIS` in
      64-bit `long` arithmetic. */
  predicate PromptDue(values: Prefs, minTransactions: Long, minDays: Long, now: Long) {
    GetLong(values, PrefTransactionCount, 0) >= minTransactions
    && now >= Wrap(RemindStart(values, now) + Wrap(minDays * DayInMillis))
  }

  /** Whether init shows the dialog. */
  predicate InitShows(values: Prefs, minTransactions: Long, minDays: Long, now: Long) {
    !Suppressed(values) && PromptDue(values, minTransactions, minDays, now)
  }

  /** The edits init commits: the start of the period, when none is stored. */
  function InitEditor(values: Prefs, now: Long): Editor {
    if GetLong(values, PrefDateRemindStart, 0) == 0 then NewEditor.PutLong(PrefDateRemindStart, now)
    else NewEditor
  }

  /** The store after init: untouched when suppressed; otherwise only the
      start of the period may change, and it is set to `now` exactly when
      none was stored. */
  function AfterInit(values: Prefs, now: Long): (r: Prefs)
    ensures Suppressed(values) ==> r == values
    ensures !Suppressed(values) ==>
      PrefDateRemindStart in r && r[PrefDateRemindStart] == LongValue(RemindStart(values, now))
    ensures forall k :: k != PrefDateRemindStart ==> (k in r <==> k in values) && (k in r ==> r[k] == values[k])
  {
    if Suppressed(values) then values else Committed(values, InitEditor(values, now))
  }

  /** The edits onClick commits for button `which`. */
  function ClickEditor(which: int, now: Long): Editor {
    if which == ButtonPositive || which == ButtonNegative then
      NewEditor.PutBoolean(PrefDontShowAgain, true)
    else if which == ButtonNeutral then
      NewEditor.PutLong(PrefDateRemindStart, now).PutLong(PrefTransactionCount, 0)
    else
      NewEditor
  }

  /** The store after a click: rate or dismiss ends prompting for good;
      remind-me-later restarts the period and the count; anything else
      leaves the store as it was. */
  function AfterClick(values: Prefs, which: int, now: Long): (r: Prefs)
    ensures which == ButtonPositive || which == ButtonNegative ==>
      r == values[PrefDontShowAgain := BoolValue(true)]
    ensures which == ButtonNeutral ==>
      r == values[PrefDateRemindStart := LongValue(now)][PrefTransactionCount := LongValue(0)]
    ensures which !in {ButtonPositive, ButtonNegative, ButtonNeutral} ==> r == values
  {
    Committed(values, ClickEditor(which, now))
  }

  /** The store after the dialog is cancelled: the period and the count
      restart; nothing else changes. */
  function AfterCancel(values: Prefs, now: Long): (r: Prefs)
    ensures r == values[PrefDateRemindStart := LongValue(now)][PrefTransactionCount := LongValue(0)]
  {
    Committed(values, NewEditor.PutLong(PrefDateRemindStart, now).PutLong(PrefTransactionCount, 0))
  }

  /** The store after `reset`: empty. */
  function AfterReset(values: Prefs): (r: Prefs)
    ensures r == map[]
  {
    Committed(values, NewEditor.Clear())
  }

  // ---------------------------------------------------------------------------
  // Histories

  /** What can happen to the store between two calls of init. */
  datatype Event =
    | Init(now: Long)
    | Click(which: int, now: Long)
    | Cancel(now: Long)
    | IncrementTransactionCount
    | Reset

  /** The store after one event. */
  function Step(values: Prefs, event: Event): Prefs {
    match event
    case Init(now) => AfterInit(values, now)
    case Click(which, now) => AfterClick(values, which, now)
    case Cancel(now) => AfterCancel(values, now)
    case IncrementTransactionCount => values
    case Reset => AfterReset(values)
  }

  /** The store after a history of events, first to last. */
  function Replay(values: Prefs, events: seq<Event>): Prefs
    decreases |events|
  {
    if events == [] then values else Replay(Step(values, events[0]), events[1..])
  }

  /** Once rate or dismiss is clicked, every later init is a no-op that
      shows nothing, until the store is reset. */
  lemma {:induction false} DismissIsPermanent(values: Prefs, which: int, clickTime: Long, events: seq<Event>,
                                              minTransactions: Long, minDays: Long, now: Long)
    requires which == ButtonPositive || which == ButtonNegative
    requires Reset !in events
    ensures var later := Replay(AfterClick(values, which, clickTime), events);
      !InitShows(later, minTransactions, minDays, now) && AfterInit(later, now) == later
  {
    DontShowAgainSticky(AfterClick(values, which, clickTime), events);
  }

  /** `dont_show_again` survives every event but reset. */
  lemma {:induction false} DontShowAgainSticky(values: Prefs, events: seq<Event>)
    requires GetBoolean(values, PrefDontShowAgain, false)
    requires Reset !in events
    ensures GetBoolean(Replay(values, events), PrefDontShowAgain, false)
    decreases |events|
  {
    if events != [] {
      var next := Step(values, events[0]);
      assert GetBoolean(next, PrefDontShowAgain, false);
      assert Reset !in events[1..];
      DontShowAgainSticky(next, events[1..]);
    }
  }

  /** The stored transaction count never rises: incrementTransactionCount
      never commits, and every write stores 0. */
  lemma {:induction false} TransactionCountNeverRises(values: Prefs, events: seq<Event>)
    ensures GetLong(Replay(values, events), PrefTransactionCount, 0) <= Max(GetLong(values, PrefTransactionCount, 0), 0)
    decreases |events|
  {
    if events != [] {
      var next := Step(values, events[0]);
      assert GetLong(next, PrefTransactionCount, 0) <= Max(GetLong(values, PrefTransactionCount, 0), 0);
      TransactionCountNeverRises(next, events[1..]);
    }
  }

  function Max(a: int, b: int): int { if a < b then b else a }

  /** So with a positive transaction threshold the prompt never shows, after
      any history, from a store whose count is not positive. */
  lemma PositiveThresholdNeverPrompts(values: Prefs, events: seq<Event>, minTransactions: Long, minDays: Long, now: Long)
    requires GetLong(values, PrefTransactionCount, 0) <= 0
    requires minTransactions > 0
    ensures !InitShows(Replay(values, events), minTransactions, minDays, now)
  {
    TransactionCountNeverRises(values, events);
  }

  /** Without overflow, the due test is the plain comparison of times. */
  lemma PromptDueWithoutOverflow(values: Prefs, minTransactions: Long, minDays: Long, now: Long)
    requires MinLong <= minDays * DayInMillis <= MaxLong
    requires MinLong <= RemindStart(values, now) + minDays * DayInMillis <= MaxLong
    ensures PromptDue(values, minTransactions, minDays, now) <==>
      GetLong(values, PrefTransactionCount, 0) >= minTransactions
      && now >= RemindStart(values, now) + minDays * DayInMillis
  {
  }

  /** An example of the wrap-around: the smallest day threshold too long for
      a `long` wraps round to a negative number of milliseconds, and the
      prompt is due at once. */
  lemma OverflowingPeriodIsDueAtOnce()
    ensures var values := map[PrefDateRemindStart := LongValue(1)];
      PromptDue(values, 0, MaxLong / DayInMillis + 1, 1)
  {
    var days := MaxLong / DayInMillis + 1;
    assert days == 106_751_991_168;
    assert days * DayInMillis == 9_223_372_036_915_200_000;
    assert Wrap(days * DayInMillis) == -9_223_372_036_794_351_616;
    assert Wrap(1 + -9_223_372_036_794_351_616) == -9_223_372_036_794_351_615;
  }

  // ---------------------------------------------------------------------------
  // The object

  class AppRate {
    const preferences: SharedPreferences
    var minTransactionsUntilPrompt: Long
    var minDaysUntilPrompt: Long

    constructor (preferences: SharedPreferences)
      ensures this.preferences == preferences
      ensures minTransactionsUntilPrompt == 0 && minDaysUntilPrompt == 0
    {
      this.preferences := preferences;
      minTransactionsUntilPrompt := 0;
      minDaysUntilPrompt := 0;
    }

    method SetMinTransactionsUntilPrompt(minTransactions: Long) returns (self: AppRate)
      modifies this
      ensures self == this
      ensures minTransactionsUntilPrompt == minTransactions && minDaysUntilPrompt == old(minDaysUntilPrompt)
    {
      minTransactionsUntilPrompt := minTransactions;
      self := this;
    }

    method SetMinDaysUntilPrompt(minDays: Long) returns (self: AppRate)
      modifies this
      ensures self == this
      ensures minDaysUntilPrompt == minDays && minTransactionsUntilPrompt == old(minTransactionsUntilPrompt)
    {
      minDaysUntilPrompt := minDays;
      self := this;
    }

    /** `reset`: clear the preference file. */
    static method Reset(preferences: SharedPreferences)
      modifies preferences
      ensures preferences.values == AfterReset(old(preferences.values))
    {
      preferences.Commit(NewEditor.Clear());
    }

    /** `init`: returns whether the dialog is shown; `now` is the clock. */
    method Init(now: Long) returns (shown: bool)
      modifies preferences
      ensures shown == InitShows(old(preferences.values), minTransactionsUntilPrompt, minDaysUntilPrompt, now)
      ensures preferences.values == AfterInit(old(preferences.values), now)
    {
      var values := preferences.values;
      if GetBoolean(values, PrefDontShowAgain, false) || GetBoolean(values, PrefAppHasCrashed, false) {
        return false;
      }
      var editor := NewEditor;
      var transactionCount := GetLong(values, PrefTransactionCount, 0);
      var dateRemindStart := GetLong(values, PrefDateRemindStart, 0);
      if dateRemindStart == 0 {
        dateRemindStart := now;
        editor := editor.PutLong(PrefDateRemindStart, dateRemindStart);
      }
      shown := false;
      if transactionCount >= minTransactionsUntilPrompt {
        if now >= Wrap(dateRemindStart + Wrap(minDaysUntilPrompt * DayInMillis)) {
          shown := true;
        }
      }
      preferences.Commit(editor);
    }

    /** `incrementTransactionCount`: prepares the incremented count but never
        commits it, so the store is left alone. */
    method IncrementTransactionCount() returns (self: AppRate)
      ensures self == this
    {
      var editor := NewEditor;
      var transactionCount := Wrap(GetLong(preferences.values, PrefTransactionCount, 0) + 1);
      editor := editor.PutLong(PrefTransactionCount, transactionCount);
      self := this;
    }

    /** `onCancel`. */
    method OnCancel(now: Long)
      modifies preferences
      ensures preferences.values == AfterCancel(old(preferences.values), now)
    {
      var editor := NewEditor;
      editor := editor.PutLong(PrefDateRemindStart, now);
      editor := editor.PutLong(PrefTransactionCount, 0);
      preferences.Commit(editor);
    }

    /** `onClick` for button `which`; remind-me-later also sets the day
        threshold to 7. */
    method OnClick(which: int, now: Long)
      modifies this, preferences
      ensures preferences.values == AfterClick(old(preferences.values), which, now)
      ensures minDaysUntilPrompt == if which == ButtonNeutral then RemindLaterDays else old(minDaysUntilPrompt)
      ensures minTransactionsUntilPrompt == old(minTransactionsUntilPrompt)
    {
      var editor := NewEditor;
      if which == ButtonPositive {
        editor := editor.PutBoolean(PrefDontShowAgain, true);
      } else if which == ButtonNegative {
        editor := editor.PutBoolean(PrefDontShowAgain, true);
      } else if which == ButtonNeutral {
        var _ := SetMinDaysUntilPrompt(RemindLaterDays);
        editor := editor.PutLong(PrefDateRemindStart, now);
        editor := editor.PutLong(PrefTransactionCount, 0);
      }
      preferences.Commit(editor);
    }
  }
}

/**
 * The study-session hook: the list of sessions of the signed-in user, the
 * insert that prepends a new session, today's total and the per-subject
 * weekly totals. Today's date and the list of the last seven dates are
 * inputs; the remote select and insert are abstract outcomes.
 */
module StudySessions {
  import opened Wrappers
  import opened Text
  import opened Storage

  /** A row of the remote `study_sessions` table. */
  datatype Session = Session(id: int, userId: string, subject: string, duration: int, sessionDate: string)

  /** The payload of the insert. */
  datatype NewSession = NewSession(userId: string, subject: string, duration: int, sessionDate: string)

  /** The subject keys of a weekly entry. */
  const SubjectKeys := ["physics", "chemistry", "mathematics", "biology"]

  /** Sum of the durations of the sessions held on `date`, in list order. */
  function TotalOn(sessions: seq<Session>, date: string): int {
    if sessions == [] then 0
    else (if sessions[0].sessionDate == date then sessions[0].duration else 0) + TotalOn(sessions[1..], date)
  }

  /** Sum of the durations on `date` whose lower-cased subject is `key`. */
  function SubjectTotalOn(sessions: seq<Session>, date: string, key: string): int {
    if sessions == [] then 0
    else
      (if sessions[0].sessionDate == date && Lower(sessions[0].subject) == key then sessions[0].duration else 0)
      + SubjectTotalOn(sessions[1..], date, key)
  }

  /** Totals add up over concatenated lists. */
  lemma {:induction false} TotalOnAppend(a: seq<Session>, b: seq<Session>, date: string)
    ensures TotalOn(a + b, date) == TotalOn(a, date) + TotalOn(b, date)
  {
    if a != [] {
      assert (a + b)[1..] == a[1..] + b;
      TotalOnAppend(a[1..], b, date);
    } else {
      assert a + b == b;
    }
  }

  /**
   * `getTodayStudyTime`: the sum of the durations dated today; 0 when nothing
   * was studied today, never negative for non-negative durations.
   */
  function TodayStudyTime(sessions: seq<Session>, today: string): (r: int)
    ensures r == TotalOn(sessions, today)
    ensures (forall i :: 0 <= i < |sessions| ==> sessions[i].sessionDate != today) ==> r == 0
    ensures (forall i :: 0 <= i < |sessions| ==> sessions[i].duration >= 0) ==> r >= 0
  {
    TotalOnBounds(sessions, today);
    TotalOn(sessions, today)
  }

  lemma {:induction false} TotalOnBounds(sessions: seq<Session>, date: string)
    ensures (forall i :: 0 <= i < |sessions| ==> sessions[i].sessionDate != date) ==> TotalOn(sessions, date) == 0
    ensures (forall i :: 0 <= i < |sessions| ==> sessions[i].duration >= 0) ==> TotalOn(sessions, date) >= 0
  {
    if sessions != [] {
      TotalOnBounds(sessions[1..], date);
    }
  }

  /** Sum of a subject key's totals over all four keys. */
  function FourSubjects(sessions: seq<Session>, date: string): int {
    SubjectTotalOn(sessions, date, "physics") + SubjectTotalOn(sessions, date, "chemistry") +
    SubjectTotalOn(sessions, date, "mathematics") + SubjectTotalOn(sessions, date, "biology")
  }

  /**
   * When every session's subject is one of the four keys (ignoring case), the
   * four subject figures of a day add up to that day's total.
   */
  lemma {:induction false} FourSubjectsCoverDay(sessions: seq<Session>, date: string)
    requires forall i :: 0 <= i < |sessions| ==> Lower(sessions[i].subject) in SubjectKeys
    ensures FourSubjects(sessions, date) == TotalOn(sessions, date)
  {
    if sessions != [] {
      FourSubjectsCoverDay(sessions[1..], date);
      var k := Lower(sessions[0].subject);
      assert k == "physics" || k == "chemistry" || k == "mathematics" || k == "biology";
    }
  }

  /** A day's entry: its date and one total per subject key. */
  datatype DayData = DayData(date: string, totals: map<string, int>)

  /** The `forEach` over the subject keys that fills one day's entry. */
  method DayEntry(sessions: seq<Session>, date: string) returns (d: DayData)
    ensures d.date == date
    ensures d.totals.Keys == set k | k in SubjectKeys
    ensures forall k :: k in d.totals ==> d.totals[k] == SubjectTotalOn(sessions, date, k)
  {
    var totals: map<string, int> := map[];
    for j := 0 to |SubjectKeys|
      invariant totals.Keys == set k | k in SubjectKeys[..j]
      invariant forall k :: k in totals ==> totals[k] == SubjectTotalOn(sessions, date, k)
    {
      var key := SubjectKeys[j];
      totals := totals[key := SubjectTotalOn(sessions, date, key)];
    }
    assert SubjectKeys[..|SubjectKeys|] == SubjectKeys;
    d := DayData(date, totals);
  }

  /** `getWeeklyData`: one entry per given date, in the order given (oldest first). */
  method WeeklyData(sessions: seq<Session>, days: seq<string>) returns (r: seq<DayData>)
    ensures |r| == |days|
    ensures forall i :: 0 <= i < |r| ==> r[i].date == days[i]
    ensures forall i :: 0 <= i < |r| ==> r[i].totals.Keys == set k | k in SubjectKeys
    ensures forall i, k :: 0 <= i < |r| && k in r[i].totals ==>
      r[i].totals[k] == SubjectTotalOn(sessions, days[i], k)
  {
    r := [];
    for i := 0 to |days|
      invariant |r| == i
      invariant forall j :: 0 <= j < i ==> r[j].date == days[j]
      invariant forall j :: 0 <= j < i ==> r[j].totals.Keys == set k | k in SubjectKeys
      invariant forall j, k :: 0 <= j < i && k in r[j].totals ==>
        r[j].totals[k] == SubjectTotalOn(sessions, days[j], k)
    {
      var d := DayEntry(sessions, days[i]);
      r := r + [d];
    }
  }

  /** State of `useStudySessions`. */
  class SessionsHook {
    var sessions: seq<Session>
    var isLoading: bool

    constructor ()
      ensures sessions == [] && isLoading
    {
      sessions := [];
      isLoading := true;
    }

    /**
     * `fetchSessions`: without a user nothing happens; otherwise the rows
     * replace the list (`data || []`), an error leaves it, and loading ends.
     */
    method FetchSessions(userId: Option<string>, fetched: Result<Option<seq<Session>>, string>)
      modifies this
      ensures !Present(userId) ==> sessions == old(sessions) && isLoading == old(isLoading)
      ensures Present(userId) && fetched.Ok? ==> sessions == fetched.value.GetOr([]) && !isLoading
      ensures Present(userId) && fetched.Err? ==> sessions == old(sessions) && !isLoading
    {
      if !Present(userId) {
        return;
      }
      if fetched.Ok? {
        sessions := fetched.value.GetOr([]);
      }
      isLoading := false;
    }

    /** The mount effect: without a user, loading simply ends; otherwise the sessions are fetched. */
    method Mount(userId: Option<string>, fetched: Result<Option<seq<Session>>, string>)
      modifies this
      ensures !isLoading
      ensures !Present(userId) ==> sessions == old(sessions)
      ensures Present(userId) && fetched.Ok? ==> sessions == fetched.value.GetOr([])
      ensures Present(userId) && fetched.Err? ==> sessions == old(sessions)
    {
      if !Present(userId) {
        isLoading := false;
        return;
      }
      FetchSessions(userId, fetched);
    }

    /**
     * `addSession`: with a user, the insert is sent (dated `today`), and the
     * row it returns is put in front of the list; an error changes nothing.
     */
    method AddSession(userId: Option<string>, subject: string, duration: int, today: string,
                      inserted: Result<Option<Session>, string>)
      returns (sent: Option<NewSession>)
      modifies this
      ensures sent.Some? <==> Present(userId)
      ensures sent.Some? ==> sent.value == NewSession(userId.value, subject, duration, today)
      ensures Present(userId) && inserted.Ok? && inserted.value.Some? ==>
        sessions == [inserted.value.value] + old(sessions)
      ensures !(Present(userId) && inserted.Ok? && inserted.value.Some?) ==> sessions == old(sessions)
      ensures isLoading == old(isLoading)
    {
      if !Present(userId) {
        return None;
      }
      sent := Some(NewSession(userId.value, subject, duration, today));
      if inserted.Ok? && inserted.value.Some? {
        sessions := [inserted.value.value] + sessions;
      }
    }

    /** `getTodayStudyTime` on the current list. */
    function Today(today: string): (r: int)
      reads this
      ensures sessions == [] ==> r == 0
    {
      TodayStudyTime(sessions, today)
    }
  }

  /** A session added in front raises that day's total by its duration and no other day's. */
  lemma AddedSessionCounts(row: Session, sessions: seq<Session>, date: string)
    ensures TotalOn([row] + sessions, date) ==
      TotalOn(sessions, date) + (if row.sessionDate == date then row.duration else 0)
  {
    TotalOnAppend([row], sessions, date);
  }
}

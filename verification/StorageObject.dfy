/** The storage object: its methods carry out the statements of Storage on tables it holds. */
module StorageObject {
  import opened Basics
  import opened Ledger
  import opened Records
  import S = Storage

  class Storage {
    var sessions: seq<Session>
    var adjustments: seq<Adjustment>
    var marks: map<Mark, int>
    var timer: Option<Timer>
    var buckets: Buckets
    var nextId: nat

    constructor ()
      ensures View() == S.EMPTY_TABLES
    {
      sessions, adjustments, marks, timer, buckets, nextId := [], [], map[], None, [], 0;
    }

    function View(): S.Tables
      reads this
    {
      S.Tables(sessions, adjustments, marks, timer, buckets, nextId)
    }

    /** Inserts a row and returns its id; refused while any row is open. */
    method OpenSession(day: int, game: Game) returns (r: Result<nat, S.StorageError>)
      modifies this
      ensures S.AnyOpen(old(sessions)) ==> r == Failure(S.AlreadyOpen) && View() == old(View())
      ensures !S.AnyOpen(old(sessions)) ==>
                r == Success(old(nextId)) && View() == S.OpenSession(old(View()), day, game)
    {
      if S.AnyOpen(sessions) {
        return Failure(S.AlreadyOpen);
      }
      var id := nextId;
      nextId := nextId + 1;
      sessions := sessions + [Session(id, day, game, None, 0.0)];
      return Success(id);
    }

    /** Updates the open row with this id; refused, and without effect, if there is none. */
    method CheckpointSession(id: nat, duration: real) returns (r: Result<(), S.StorageError>)
      modifies this`sessions
      ensures View() == S.CheckpointSession(old(View()), id, duration)
      ensures r.Success? <==>
              exists i :: 0 <= i < |old(sessions)| && old(sessions)[i].id == id && old(sessions)[i].ended.None?
      ensures r.Failure? ==> View() == old(View())
    {
      var found := exists i :: 0 <= i < |sessions| && sessions[i].id == id && sessions[i].ended.None?;
      sessions := S.CheckpointRows(sessions, id, duration);
      if !found {
        assert sessions == old(sessions);
        return Failure(S.NotOpen);
      }
      return Success(());
    }

    method CloseSession(id: nat, duration: real, at: int)
      modifies this`sessions
      ensures View() == S.CloseSession(old(View()), id, duration, at)
    {
      if exists i :: 0 <= i < |sessions| && sessions[i].id == id && sessions[i].ended.None? {
        sessions := S.CloseRows(sessions, id, duration, at);
      } else {
        assert sessions == S.CloseRows(sessions, id, duration, at);
      }
    }

    method RecoverOpenSession(at: int) returns (row: Option<Session>)
      modifies this`sessions
      ensures row == S.FindOpen(old(sessions))
      ensures View() == S.RecoverOpenSession(old(View()), at)
    {
      row := S.FindOpen(sessions);
      if row.Some? {
        CloseSession(row.value.id, row.value.duration, at);
      }
    }

    method UsageForDay(day: int) returns (total: real)
      ensures total == S.UsageForDay(sessions, day)
    {
      total := 0.0;
      for i := 0 to |sessions|
        invariant total == S.UsageForDay(sessions[..i], day)
      {
        assert sessions[..i + 1][..i] == sessions[..i];
        if sessions[i].day == day {
          total := total + sessions[i].duration;
        }
      }
      assert sessions[..|sessions|] == sessions;
    }

    method GrantAdjustment(day: int, seconds: int, at: int) returns (r: Result<(), S.StorageError>)
      modifies this`adjustments
      ensures !S.AdjustmentInRange(seconds) ==> r == Failure(S.OutOfRange) && View() == old(View())
      ensures S.AdjustmentInRange(seconds) ==>
                r == Success(()) && View() == S.GrantAdjustment(old(View()), day, seconds, at)
    {
      if !(-86400 <= seconds <= 86400) {
        return Failure(S.OutOfRange);
      }
      adjustments := adjustments + [Adjustment(day, seconds, at)];
      return Success(());
    }

    method SaveTimer(t: Timer)
      modifies this`timer
      ensures View() == S.SaveTimer(old(View()), t)
    {
      timer := Some(t.(remaining := MaxReal(0.0, t.remaining)));
    }

    method LoadTimer() returns (t: Timer)
      ensures t == S.LoadTimer(View())
    {
      t := if timer.None? then BLANK_TIMER else timer.value;
    }

    /** Inserts the mark unless it exists; tells whether it was inserted. */
    method MarkNotification(m: Mark, at: int) returns (inserted: bool)
      modifies this`marks
      ensures inserted == (m !in old(marks))
      ensures View() == S.MarkNotification(old(View()), m, at)
    {
      inserted := m !in marks;
      if inserted {
        marks := marks[m := at];
      }
    }

    method ClearScope(scope: Scope)
      modifies this`marks
      ensures View() == S.ClearScope(old(View()), scope)
    {
      marks := map m | m in marks && m.scope != scope :: marks[m];
    }

    /** Accumulates the slices into the bucket rows, one upsert after the other. */
    method AddUsageBuckets(entries: Pending)
      modifies this`buckets
      ensures View() == old(View()).(buckets := S.AddBuckets(old(buckets), entries))
    {
      for i := 0 to |entries|
        invariant S.AddBuckets(buckets, entries[i..]) == S.AddBuckets(old(buckets), entries)
      {
        var e := entries[i];
        buckets := Put(buckets, Entry(e.day, e.index, e.who.appKey, e.seconds));
        assert entries[i..][1..] == entries[i + 1..];
      }
    }

    method EnforceRetention(retentionDays: int, at: int)
      modifies this
      ensures View() == S.EnforceRetention(old(View()), retentionDays, at)
    {
      var cutoff := S.Cutoff(retentionDays, at);
      sessions := S.RetainSessions(sessions, cutoff);
      adjustments := S.RetainAdjustments(adjustments, cutoff);
      marks := map m | m in marks && cutoff <= marks[m] :: marks[m];
      buckets := S.RetainBuckets(buckets, at / 86_400_000_000 - retentionDays);
    }

    method ClearHistory() returns (r: Result<(), S.StorageError>)
      modifies this
      ensures S.AnyOpen(old(sessions)) ==> r == Failure(S.SessionActive) && View() == old(View())
      ensures !S.AnyOpen(old(sessions)) ==> r == Success(()) && View() == S.ClearHistory(old(View()))
    {
      if S.AnyOpen(sessions) {
        return Failure(S.SessionActive);
      }
      sessions, adjustments, marks, buckets := [], [], map[], [];
      return Success(());
    }
  }
}

/**
 The daily upload quota of one user (backend-python/app/db/identity.py:165-218) and the bracket around an
 ingest that reserves a slot and gives it back (backend-python/app/services/knowledge_service.py:74-153).
 */
module UploadQuota {
  import opened Wrappers

  type Day = nat

  type Rows = map<Day, int>

  function Count(rows: Rows, day: Day): int {
    if day in rows then rows[day] else 0
  }

  /** The guarded upsert: a missing row is inserted with one, whatever the quota is. */
  predicate Grants(rows: Rows, day: Day, quota: int) {
    day in rows ==> rows[day] < quota
  }

  function Reserved(rows: Rows, day: Day, quota: int): Rows {
    if Grants(rows, day, quota) then rows[day := Count(rows, day) + 1] else rows
  }

  /** The guarded decrement. */
  function Released(rows: Rows, day: Day): Rows {
    if Count(rows, day) > 0 then rows[day := Count(rows, day) - 1] else rows
  }

  datatype Event = Reserve(day: Day) | Release(day: Day)

  /** The rows after a history of committed reservations and releases, on any days in any order. */
  function After(quota: int, h: seq<Event>): Rows {
    if h == [] then map[]
    else
      var rows, e := After(quota, h[..|h| - 1]), h[|h| - 1];
      match e
      case Reserve(day) => Reserved(rows, day, quota)
      case Release(day) => Released(rows, day)
  }

  /** Reservations of `day` that were granted. */
  function Granted(quota: int, h: seq<Event>, day: Day): nat {
    if h == [] then 0
    else
      var before, e := h[..|h| - 1], h[|h| - 1];
      Granted(quota, before, day)
      + if e == Reserve(day) && Grants(After(quota, before), day, quota) then 1 else 0
  }

  function Releases(h: seq<Event>, day: Day): nat {
    if h == [] then 0 else Releases(h[..|h| - 1], day) + if h[|h| - 1] == Release(day) then 1 else 0
  }

  /** Every release of `day` gives back a reservation granted before it on the same day. */
  ghost predicate Matched(quota: int, h: seq<Event>, day: Day) {
    forall i :: 0 <= i <= |h| ==> Releases(h[..i], day) <= Granted(quota, h[..i], day)
  }

  lemma {:induction false} CountInRange(quota: int, h: seq<Event>, day: Day)
    ensures 0 <= Count(After(quota, h), day)
    ensures quota >= 1 ==> Count(After(quota, h), day) <= quota
    ensures quota < 1 ==> Count(After(quota, h), day) <= 1
  {
    if h != [] {
      CountInRange(quota, h[..|h| - 1], day);
    }
  }

  /** No history takes a count out of [0, quota] if and only if the quota is at least one. */
  lemma QuotaHoldsIffPositive(quota: int)
    ensures (forall h: seq<Event>, day: Day :: 0 <= Count(After(quota, h), day) <= quota) <==> quota >= 1
  {
    forall h: seq<Event>, day: Day
      ensures quota >= 1 ==> 0 <= Count(After(quota, h), day) <= quota
    {
      CountInRange(quota, h, day);
    }
    var first := [Reserve(0)];
    assert first[..0] == [];
    assert Count(After(quota, first), 0) == 1;
  }

  lemma Prefixes(quota: int, h: seq<Event>, day: Day)
    requires h != []
    ensures Matched(quota, h, day) <==>
            Matched(quota, h[..|h| - 1], day) && Releases(h, day) <= Granted(quota, h, day)
  {
    var before := h[..|h| - 1];
    assert h[..|h|] == h;
    forall i | 0 <= i <= |before|
      ensures before[..i] == h[..i]
    {
    }
    if Matched(quota, before, day) && Releases(h, day) <= Granted(quota, h, day) {
      forall i | 0 <= i <= |h|
        ensures Releases(h[..i], day) <= Granted(quota, h[..i], day)
      {
        if i < |h| {
          assert before[..i] == h[..i];
        }
      }
    }
  }

  /** A release with nothing to give back is dropped, so the count can only be above the difference. */
  lemma {:induction false} CountConserved(quota: int, h: seq<Event>, day: Day)
    ensures Count(After(quota, h), day) >= Granted(quota, h, day) - Releases(h, day)
    ensures Count(After(quota, h), day) == Granted(quota, h, day) - Releases(h, day) <==> Matched(quota, h, day)
  {
    if h == [] {
      assert h[..0] == h;
    } else {
      CountConserved(quota, h[..|h| - 1], day);
      CountInRange(quota, h[..|h| - 1], day);
      Prefixes(quota, h, day);
    }
  }

  /** With a quota of at least one, a reservation is granted, after any history, exactly below the quota. */
  lemma GrantedIffRoom(quota: int, h: seq<Event>, day: Day)
    requires quota >= 1
    ensures var before := Count(After(quota, h), day);
            Count(After(quota, h + [Reserve(day)]), day) == if before < quota then before + 1 else before
  {
    assert (h + [Reserve(day)])[..|h|] == h;
  }

  /** A release undoes a granted reservation of its day and touches no other day. */
  lemma ReleaseUndoesReserve(rows: Rows, day: Day, quota: int, other: Day)
    requires Grants(rows, day, quota) && Count(rows, day) >= 0
    ensures Count(Released(Reserved(rows, day, quota), day), other) == Count(rows, other)
  {
  }

  datatype IngestError = InvalidDocument | QuotaExceeded | StorageFailed | IndexingFailed | TimedOut

  /** How one step of an ingest ends; the request's timeout may cancel it. */
  datatype Step = Succeeds | Fails | TimesOut

  /** How the steps of one ingest go, and the days on which its two quota statements run. */
  datatype Course = Course(valid: bool, storing: Step, indexing: Step, reserveDay: Day, releaseDay: Day)

  class SqlUploadQuotaStore {
    var rows: Rows

    method TryReserve(day: Day, quota: int) returns (granted: bool)
      modifies this
      ensures rows == Reserved(old(rows), day, quota)
      ensures granted <==> Count(rows, day) == Count(old(rows), day) + 1
      ensures granted <==> day !in old(rows) || old(rows)[day] < quota
      ensures rows == if granted then old(rows)[day := Count(old(rows), day) + 1] else old(rows)
    {
      granted := day !in rows || rows[day] < quota;
      if day !in rows {
        rows := rows[day := 1];
      } else if rows[day] < quota {
        rows := rows[day := rows[day] + 1];
      }
    }

    method Release(day: Day)
      modifies this
      ensures rows == Released(old(rows), day)
      ensures forall other: Day :: Count(rows, other) ==
                if other == day && Count(old(rows), day) > 0 then Count(old(rows), day) - 1 else Count(old(rows), other)
    {
      if day in rows && rows[day] > 0 {
        rows := rows[day := rows[day] - 1];
      }
    }
  }

  class KnowledgeService {
    const store: SqlUploadQuotaStore
    /** None when uploads are not limited. */
    const quota: Option<int>

    constructor (store: SqlUploadQuotaStore, quota: Option<int>)
      ensures this.store == store && this.quota == quota
    {
      this.store, this.quota := store, quota;
    }

    method ReserveUpload(day: Day) returns (granted: bool)
      modifies store
      ensures quota.None? ==> granted && store.rows == old(store.rows)
      ensures quota.Some? ==>
                && store.rows == Reserved(old(store.rows), day, quota.value)
                && (granted <==> Grants(old(store.rows), day, quota.value))
    {
      if quota.None? {
        return true;
      }
      granted := store.TryReserve(day, quota.value);
    }

    method ReleaseUpload(day: Day)
      modifies store
      ensures store.rows == if quota.None? then old(store.rows) else Released(old(store.rows), day)
    {
      if quota.None? {
        return;
      }
      store.Release(day);
    }

    /** Which step ends an ingest, if one does. */
    ghost function Ending(course: Course, rows: Rows): Result<(), IngestError> {
      if !course.valid then Err(InvalidDocument)
      else if quota.Some? && !Grants(rows, course.reserveDay, quota.value) then Err(QuotaExceeded)
      else
        match course.storing
        case Fails => Err(StorageFailed)
        case TimesOut => Err(TimedOut)
        case Succeeds =>
          match course.indexing
          case Fails => Err(IndexingFailed)
          case TimesOut => Err(TimedOut)
          case Succeeds => Ok(())
    }

    /**
     An ingest that succeeds costs one slot of its day. One whose indexing fails costs none if the day is
     still the same, and otherwise a slot of the first day while the later day gets one back. A failure to
     store the document, and a timeout after the reservation, keep the slot; only the rollback of the
     request returns it.
     */
    method IngestDocument(course: Course) returns (r: Result<(), IngestError>)
      requires forall day: Day :: Count(store.rows, day) >= 0
      modifies store
      ensures r == Ending(course, old(store.rows))
      ensures var room := quota.None? || course.reserveDay !in old(store.rows)
                          || old(store.rows)[course.reserveDay] < quota.value;
              && (r == Err(InvalidDocument) <==> !course.valid)
              && (r == Err(QuotaExceeded) <==> course.valid && !room)
              && (r.Ok? <==> course.valid && room && course.storing.Succeeds? && course.indexing.Succeeds?)
              && (r == Err(IndexingFailed) <==>
                    course.valid && room && course.storing.Succeeds? && course.indexing.Fails?)
              && (r == Err(StorageFailed) <==> course.valid && room && course.storing.Fails?)
      ensures quota.None? || r == Err(InvalidDocument) || r == Err(QuotaExceeded) ==> store.rows == old(store.rows)
      ensures quota.Some? && (r.Ok? || r == Err(StorageFailed) || r == Err(TimedOut)) ==>
                forall day: Day ::
                  Count(store.rows, day) == Count(old(store.rows), day) + if day == course.reserveDay then 1 else 0
      ensures quota.Some? && r == Err(IndexingFailed) ==>
                forall day: Day :: Count(store.rows, day) ==
                  if course.reserveDay == course.releaseDay then Count(old(store.rows), day)
                  else if day == course.reserveDay then Count(old(store.rows), day) + 1
                  else if day == course.releaseDay && Count(old(store.rows), day) > 0
                  then Count(old(store.rows), day) - 1
                  else Count(old(store.rows), day)
    {
      if !course.valid {
        return Err(InvalidDocument);
      }
      var granted := ReserveUpload(course.reserveDay);
      if !granted {
        return Err(QuotaExceeded);
      }
      if !course.storing.Succeeds? {
        return Err(if course.storing.Fails? then StorageFailed else TimedOut);
      }
      if course.indexing.Succeeds? {
        return Ok(());
      }
      if course.indexing.TimesOut? {
        return Err(TimedOut);
      }
      ReleaseUpload(course.releaseDay);
      return Err(IndexingFailed);
    }

    /**
     The request around it commits on success and rolls back on failure: only a success costs a slot.
     `others` is what other uploads have committed by then. They cannot have touched the row this upload
     holds, which is locked until the end, but they may have committed on other days.
     */
    method UploadDocument(course: Course, others: Rows) returns (r: Result<(), IngestError>)
      requires forall day: Day :: Count(store.rows, day) >= 0
      requires course.valid && quota.Some? && Grants(store.rows, course.reserveDay, quota.value) ==>
                 Count(others, course.reserveDay) == Count(store.rows, course.reserveDay)
      modifies store
      ensures r == Ending(course, old(store.rows))
      ensures r.Err? || quota.None? ==> store.rows == others
      ensures r.Ok? && quota.Some? ==>
                forall day: Day ::
                  Count(store.rows, day) == Count(others, day) + if day == course.reserveDay then 1 else 0
    {
      r := IngestDocument(course);
      if r.Ok? && quota.Some? {
        store.rows := others[course.reserveDay := Count(store.rows, course.reserveDay)];
      } else {
        store.rows := others;
      }
    }
  }
}

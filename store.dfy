/**
 * The GUI's per-category property cache (PropertyStorage in gui/src/app.rs) and the fixed polling
 * schedule that auto_refresh_properties walks. Time is a natural number of milliseconds.
 */
module Store {
  import opened Basics
  import opened Device
  import Messages

  /** One category's cached rows and when they last arrived (None: never, or forced stale). */
  datatype Entry = Entry(data: seq<Messages.PropertyData>, updated: Option<nat>)

  const EmptyEntry: Entry := Entry([], None)

  /** The four categories' entries, one field per category. */
  datatype PropertyStorage = PropertyStorage(general: Entry, failure: Entry, operation: Entry, io: Entry) {

    /** PropertyStorage::get. */
    function Get(kind: PropertyKind): Entry {
      match kind
      case General => general
      case Failure => failure
      case Operation => operation
      case Io => io
    }

    /** Writing through PropertyStorage::get_mut: the category's entry replaced, the other three untouched. */
    function With(kind: PropertyKind, e: Entry): (s: PropertyStorage)
      ensures s.Get(kind) == e
      ensures forall k :: k != kind ==> s.Get(k) == Get(k)
    {
      match kind
      case General => this.(general := e)
      case Failure => this.(failure := e)
      case Operation => this.(operation := e)
      case Io => this.(io := e)
    }

    /** "Refresh All": every timestamp forgotten, every cached list kept. */
    function Stale(): (s: PropertyStorage)
      ensures forall k :: s.Get(k) == Entry(Get(k).data, None)
    {
      PropertyStorage(general.(updated := None), failure.(updated := None),
                      operation.(updated := None), io.(updated := None))
    }
  }

  /** The default storage, and PropertyStorage::clear: no rows and no timestamp in any category. */
  function Cleared(): (s: PropertyStorage)
    ensures forall k :: s.Get(k) == Entry([], None)
  {
    PropertyStorage(EmptyEntry, EmptyEntry, EmptyEntry, EmptyEntry)
  }

  /** Instant::duration_since in milliseconds; it saturates at zero for a later instant. */
  function Elapsed(now: nat, since: nat): nat {
    if now >= since then now - since else 0
  }

  /** The auto-refresh schedule in priority order, with each category's interval in milliseconds. */
  const Schedule: seq<(PropertyKind, nat)> := [(Io, 500), (Operation, 1000), (Failure, 5000), (General, 30000)]

  /** A category is due when it has no timestamp or its interval has passed since it. */
  predicate Due(e: Entry, interval: nat, now: nat) {
    e.updated.None? || Elapsed(now, e.updated.value) >= interval
  }

  /** Whether the schedule's i-th category is due. */
  predicate DueAt(s: PropertyStorage, now: nat, i: nat)
    requires i < |Schedule|
  {
    Due(s.Get(Schedule[i].0), Schedule[i].1, now)
  }

  /** The position of the first due category at or after `from`. */
  function FirstDueFrom(s: PropertyStorage, now: nat, from: nat): (r: Option<nat>)
    requires from <= |Schedule|
    ensures r.Some? ==> from <= r.value < |Schedule| && DueAt(s, now, r.value)
    ensures r.Some? ==> forall j :: from <= j < r.value ==> !DueAt(s, now, j)
    ensures r.None? ==> forall j :: from <= j < |Schedule| ==> !DueAt(s, now, j)
    decreases |Schedule| - from
  {
    if from == |Schedule| then None
    else if DueAt(s, now, from) then Some(from)
    else FirstDueFrom(s, now, from + 1)
  }

  /** The category the scheduler asks for: the first due one in priority order, if any. */
  function FirstDue(s: PropertyStorage, now: nat): (r: Option<PropertyKind>)
    ensures r.Some? <==> exists i :: 0 <= i < |Schedule| && DueAt(s, now, i)
  {
    match FirstDueFrom(s, now, 0)
    case None => None
    case Some(i) => Some(Schedule[i].0)
  }

  /**
   * The scheduler's choice in plain terms: Io when Io is due; otherwise Operation when it is due;
   * otherwise Failure; otherwise General; nothing when no category is due.
   */
  lemma FirstDuePriority(s: PropertyStorage, now: nat)
    ensures var io, op, fa, ge := Due(s.io, 500, now), Due(s.operation, 1000, now), Due(s.failure, 5000, now), Due(s.general, 30000, now);
      FirstDue(s, now) == if io then Some(Io) else if op then Some(Operation)
                          else if fa then Some(Failure) else if ge then Some(General) else None
  {
    assert DueAt(s, now, 0) == Due(s.io, 500, now);
    assert DueAt(s, now, 1) == Due(s.operation, 1000, now);
    assert DueAt(s, now, 2) == Due(s.failure, 5000, now);
    assert DueAt(s, now, 3) == Due(s.general, 30000, now);
  }

  /** After "Refresh All" every category is due, so the next scheduled query is for Io. */
  lemma RefreshAllRequestsIo(s: PropertyStorage, now: nat)
    ensures forall i :: 0 <= i < |Schedule| ==> DueAt(s.Stale(), now, i)
    ensures FirstDue(s.Stale(), now) == Some(Io)
  {
    FirstDuePriority(s.Stale(), now);
  }
}

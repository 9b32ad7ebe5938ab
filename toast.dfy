/** `src/hooks/useToast.js`: the notification queue. The list of toasts is
    replaced by every operation and the id counter grows in place; the clock
    is a parameter and the timers are left out. */
module Toast {
  import opened Wrappers
  import opened Seqs

  datatype ToastType = SuccessToast | ErrorToast | InfoToast | WarningToast

  /** `UI_CONFIG.TOAST_DURATION`, in milliseconds. */
  const DefaultDuration := 4000

  /** `toast_<timestamp>_<counter>`: the time of issue and the counter value. */
  datatype ToastId = ToastId(stamp: int, serial: nat)

  datatype Toast = Toast(id: ToastId, message: string, kind: ToastType, duration: int, createdAt: int)

  /** Counter values strictly increase along the list. */
  predicate SerialsIncrease(ts: seq<Toast>)
  {
    forall i, j :: 0 <= i < j < |ts| ==> ts[i].id.serial < ts[j].id.serial
  }

  /** No id occurs twice. */
  predicate DistinctIds(ts: seq<Toast>)
  {
    forall i, j :: 0 <= i < j < |ts| ==> ts[i].id != ts[j].id
  }

  lemma IncreasingSerialsAreDistinct(ts: seq<Toast>)
    requires SerialsIncrease(ts)
    ensures DistinctIds(ts)
  {
  }

  /** Filtering keeps the serials in increasing order. */
  lemma {:induction false} FilterKeepsSerialsIncreasing(ts: seq<Toast>, p: Toast -> bool)
    requires SerialsIncrease(ts)
    ensures SerialsIncrease(Filter(ts, p))
  {
    if ts != [] {
      assert SerialsIncrease(ts[1..]);
      FilterKeepsSerialsIncreasing(ts[1..], p);
      var rest := Filter(ts[1..], p);
      forall x | x in rest
        ensures ts[0].id.serial < x.id.serial
      {
        var k :| 0 <= k < |ts[1..]| && ts[1..][k] == x;
        assert x == ts[k + 1];
      }
    }
  }

  // ----------------------------------------------------------- removal

  /** `prevToasts.filter(toast => toast.id !== id)`. */
  function RemoveId(ts: seq<Toast>, id: ToastId): (r: seq<Toast>)
    ensures IsSubsequence(r, ts)
    ensures forall i :: 0 <= i < |r| ==> r[i].id != id
    ensures forall i :: 0 <= i < |ts| && ts[i].id != id ==> ts[i] in r
  {
    Filter(ts, (t: Toast) => t.id != id)
  }

  /** Removing an id that is not there changes nothing. */
  lemma RemoveAbsentIdIsNoOp(ts: seq<Toast>, id: ToastId)
    requires forall i :: 0 <= i < |ts| ==> ts[i].id != id
    ensures RemoveId(ts, id) == ts
  {
  }

  /** Removing the same id twice is removing it once. */
  lemma RemoveIdIdempotent(ts: seq<Toast>, id: ToastId)
    ensures RemoveId(RemoveId(ts, id), id) == RemoveId(ts, id)
  {
    FilterIdempotent(ts, (t: Toast) => t.id != id);
  }

  /** With distinct ids, removing the id of the toast at `k` deletes exactly
      that toast. */
  lemma RemoveIdDeletesOne(ts: seq<Toast>, k: nat)
    requires DistinctIds(ts) && k < |ts|
    ensures RemoveId(ts, ts[k].id) == ts[..k] + ts[k + 1..]
  {
    var id := ts[k].id;
    FilterDropsOne(ts, (t: Toast) => t.id != id, k);
  }

  // ------------------------------------------------------------- sweep

  /** The sweep keeps a toast that is permanent (`duration <= 0`) or younger
      than its duration. */
  predicate Alive(t: Toast, now: int)
  {
    t.duration <= 0 || now - t.createdAt < t.duration
  }

  /** The periodic sweep of expired toasts. */
  function Sweep(ts: seq<Toast>, now: int): (r: seq<Toast>)
    ensures IsSubsequence(r, ts)
    ensures forall i :: 0 <= i < |r| ==> r[i].duration <= 0 || now - r[i].createdAt < r[i].duration
    ensures forall i :: 0 <= i < |ts| && ts[i].duration <= 0 ==> ts[i] in r
    ensures forall i :: 0 <= i < |ts| && now - ts[i].createdAt < ts[i].duration ==> ts[i] in r
  {
    Filter(ts, t => Alive(t, now))
  }

  /** A timed toast is gone after a sweep at or past `createdAt + duration`. */
  lemma ExpiredToastIsSwept(ts: seq<Toast>, now: int, t: Toast)
    requires t.duration > 0 && now >= t.createdAt + t.duration
    ensures t !in Sweep(ts, now)
  {
  }

  /** A later sweep subsumes an earlier one. */
  lemma {:induction false} SweepsCompose(ts: seq<Toast>, earlier: int, later: int)
    requires earlier <= later
    ensures Sweep(Sweep(ts, earlier), later) == Sweep(ts, later)
  {
    if ts != [] {
      SweepsCompose(ts[1..], earlier, later);
      assert Sweep(ts, earlier) == if Alive(ts[0], earlier) then [ts[0]] + Sweep(ts[1..], earlier)
                                   else Sweep(ts[1..], earlier);
    }
  }

  // ------------------------------------------------------------- queue

  /** The state of one `useToast` instance. */
  class ToastQueue {
    var toasts: seq<Toast>
    /** `toastIdRef.current`. */
    var counter: nat

    /** Every toast's serial was issued by this queue, and the list is in
        issue order. */
    ghost predicate Valid()
      reads this
    {
      (forall i :: 0 <= i < |toasts| ==> 1 <= toasts[i].id.serial <= counter) &&
      SerialsIncrease(toasts)
    }

    constructor ()
      ensures Valid() && toasts == [] && counter == 0
    {
      toasts := [];
      counter := 0;
    }

    /** `generateId`. */
    method GenerateId(now: int) returns (id: ToastId)
      requires Valid()
      modifies this`counter
      ensures Valid()
      ensures counter == old(counter) + 1
      ensures id == ToastId(now, counter)
      ensures forall i :: 0 <= i < |toasts| ==> toasts[i].id != id
    {
      counter := counter + 1;
      id := ToastId(now, counter);
    }

    /** `addToast(message, type = 'info', duration = 4000)`: appends one toast
        and reports whether an auto-removal timer is scheduled. */
    method AddToast(now: int, message: string, kind: ToastType := InfoToast,
                    duration: int := DefaultDuration)
      returns (id: ToastId, timerScheduled: bool)
      requires Valid()
      modifies this
      ensures Valid()
      ensures toasts == old(toasts) + [Toast(id, message, kind, duration, now)]
      ensures counter == old(counter) + 1 && id == ToastId(now, counter)
      ensures forall i :: 0 <= i < |old(toasts)| ==> old(toasts)[i].id != id
      ensures DistinctIds(toasts)
      ensures timerScheduled <==> duration > 0
    {
      id := GenerateId(now);
      toasts := toasts + [Toast(id, message, kind, duration, now)];
      timerScheduled := duration > 0;
      IncreasingSerialsAreDistinct(toasts);
    }

    /** `showSuccess`, `showError`, `showInfo`, `showWarning`: an omitted
        duration takes the default. */
    method Show(now: int, kind: ToastType, message: string, duration: Option<int>)
      returns (id: ToastId, timerScheduled: bool)
      requires Valid()
      modifies this
      ensures Valid()
      ensures toasts == old(toasts) + [Toast(id, message, kind, duration.GetOr(DefaultDuration), now)]
      ensures counter == old(counter) + 1 && id == ToastId(now, counter)
      ensures timerScheduled <==> duration.GetOr(DefaultDuration) > 0
    {
      id, timerScheduled := AddToast(now, message, kind, duration.GetOr(DefaultDuration));
    }

    /** `removeToast(id)`. */
    method RemoveToast(id: ToastId)
      requires Valid()
      modifies this`toasts
      ensures Valid()
      ensures toasts == RemoveId(old(toasts), id)
    {
      FilterKeepsSerialsIncreasing(toasts, (t: Toast) => t.id != id);
      toasts := RemoveId(toasts, id);
    }

    /** `clearAllToasts`. */
    method ClearAllToasts()
      requires Valid()
      modifies this`toasts
      ensures Valid()
      ensures toasts == []
    {
      toasts := [];
    }

    /** One tick of the one-second sweep interval. */
    method SweepExpired(now: int)
      requires Valid()
      modifies this`toasts
      ensures Valid()
      ensures toasts == Sweep(old(toasts), now)
    {
      FilterKeepsSerialsIncreasing(toasts, t => Alive(t, now));
      toasts := Sweep(toasts, now);
    }

    /** `hasToasts`. */
    function HasToasts(): (r: bool)
      reads this
      ensures r <==> |toasts| > 0
    {
      toasts != []
    }
  }
}

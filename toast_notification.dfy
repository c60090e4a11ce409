/**
 * One rendered toast: its defaults, its style table, and the lifecycle
 * driven by its two timers — the auto-dismiss timeout armed by the mount
 * effect and the 300 ms timeout that `handleClose` arms before calling
 * `onClose(id)`. Time is an explicit clock in milliseconds.
 */
module ToastNotification {
  import opened Wrappers
  import opened ToastContainer

  const DefaultVariant: Variant := Info
  const DefaultDuration: int := 4000
  /** The exit animation that `handleClose` waits for before `onClose`. */
  const CloseDelay: nat := 300

  /** `variant = 'info'`: the default applies only when the prop is absent. */
  function EffectiveVariant(variant: Option<Variant>): (v: Variant)
    ensures variant.None? ==> v == Info
    ensures variant.Some? ==> v == variant.value
  {
    variant.GetOr(DefaultVariant)
  }

  /** `duration = 4000`: the default applies only when the prop is absent. */
  function EffectiveDuration(duration: Option<int>): (d: int)
    ensures duration.None? ==> d == 4000
    ensures duration.Some? ==> d == duration.value
  {
    duration.GetOr(DefaultDuration)
  }

  const TwoTo31: int := 0x8000_0000
  const TwoTo32: int := 0x1_0000_0000

  /**
   * The Web IDL `long` conversion of an integral timeout: reduced modulo
   * 2^32 into the signed 32-bit range.
   */
  function ToLong(ms: int): (l: int)
    ensures -TwoTo31 <= l < TwoTo31
    ensures (ms - l) % TwoTo32 == 0
  {
    var m := ms % TwoTo32;
    if m >= TwoTo31 then m - TwoTo32 else m
  }

  /**
   * The delay `setTimeout` waits: the timeout converted to a `long`, and a
   * negative `long` waits no time at all, as the HTML Standard's timer
   * initialisation steps say. A duration of 2^31 ms or more wraps negative
   * and fires at once.
   */
  function TimerDelay(ms: int): (d: nat)
    ensures d < TwoTo31
    ensures 0 <= ms < TwoTo31 ==> d == ms
    ensures -TwoTo31 <= ms < 0 ==> d == 0
    ensures TwoTo31 <= ms < TwoTo32 ==> d == 0
    ensures d > 0 ==> (ms - d) % TwoTo32 == 0
  {
    var l := ToLong(ms);
    if l < 0 then 0 else l
  }

  datatype Style = Style(bg: string, text: string, icon: string, border: string)

  /** `VARIANT_STYLES[variant]`: each icon belongs to exactly one variant. */
  function VariantStyle(v: Variant): (s: Style)
    ensures s.icon == "\U{2139}\U{FE0F}" <==> v == Info
    ensures s.icon == "\U{2713}" <==> v == Success
    ensures s.icon == "\U{26A0}" <==> v == Warning
    ensures s.icon == "\U{2715}" <==> v == Error
  {
    match v
    case Info => Style("bg-blue-50 dark:bg-blue-900/20", "text-blue-800 dark:text-blue-200",
                       "\U{2139}\U{FE0F}", "border-blue-200 dark:border-blue-800")
    case Success => Style("bg-green-50 dark:bg-green-900/20", "text-green-800 dark:text-green-200",
                          "\U{2713}", "border-green-200 dark:border-green-800")
    case Warning => Style("bg-yellow-50 dark:bg-yellow-900/20", "text-yellow-800 dark:text-yellow-200",
                          "\U{26A0}", "border-yellow-200 dark:border-yellow-800")
    case Error => Style("bg-red-50 dark:bg-red-900/20", "text-red-800 dark:text-red-200",
                        "\U{2715}", "border-red-200 dark:border-red-800")
  }

  /** The icons are ℹ️, ✓, ⚠ and ✕, and no two variants share an icon. */
  lemma VariantIcons(v: Variant, w: Variant)
    ensures VariantStyle(Info).icon == "\U{2139}\U{FE0F}"
    ensures VariantStyle(Success).icon == "\U{2713}"
    ensures VariantStyle(Warning).icon == "\U{26A0}"
    ensures VariantStyle(Error).icon == "\U{2715}"
    ensures v != w ==> VariantStyle(v).icon != VariantStyle(w).icon
  {
  }

  /**
   * How many of the pending timeouts are due at time `t`: one for a single
   * due timeout, none for a single later one, and with `DueCountAppend` the
   * sum over any split, so every due timeout is counted once.
   */
  function DueCount(pending: seq<int>, t: int): (n: nat)
    ensures n <= |pending|
    ensures |pending| == 1 ==> (n == 1 <==> pending[0] <= t)
    ensures n == 0 <==> forall k :: 0 <= k < |pending| ==> pending[k] > t
    ensures n == |pending| <==> forall k :: 0 <= k < |pending| ==> pending[k] <= t
  {
    if pending == [] then 0
    else (if pending[0] <= t then 1 else 0) + DueCount(pending[1..], t)
  }

  /** The due timeouts of two runs of arming add up. */
  lemma {:induction false} DueCountAppend(a: seq<int>, b: seq<int>, t: int)
    ensures DueCount(a + b, t) == DueCount(a, t) + DueCount(b, t)
    decreases |a|
  {
    if a != [] {
      assert (a + b)[1..] == a[1..] + b;
      DueCountAppend(a[1..], b, t);
    } else {
      assert a + b == b;
    }
  }

  /** The pending timeouts still waiting after time `t`, in arming order. */
  function StillPending(pending: seq<int>, t: int): (r: seq<int>)
    ensures |r| + DueCount(pending, t) == |pending|
    ensures forall x :: x in r <==> x in pending && x > t
  {
    if pending == [] then []
    else (if pending[0] <= t then [] else [pending[0]]) + StillPending(pending[1..], t)
  }

  /** One or two pending timeouts, the earlier one first: which are due at `t`. */
  lemma PendingPair(a: int, b: int, t: int)
    requires a <= b
    ensures DueCount([a], t) == (if a <= t then 1 else 0)
    ensures StillPending([a], t) == (if a <= t then [] else [a])
    ensures DueCount([a, b], t) == (if b <= t then 2 else if a <= t then 1 else 0)
    ensures StillPending([a, b], t) == (if b <= t then [] else if a <= t then [b] else [a, b])
  {
    assert [a, b][1..] == [b];
    assert [a][1..] == [];
  }

  /**
   * The component's state: the two flags and the two kinds of timers. The
   * mount effect depends on `handleClose`, which depends on `onClose`, and
   * the provider creates a new `removeToast` on every render, so the effect
   * may run again while the toast is shown: each run clears the previous
   * auto-dismiss timer and arms a fresh one. The 300 ms timers are never
   * cleared.
   */
  class ToastLifecycle {
    const id: string
    const duration: int
    var now: int
    var mounted: bool
    var closing: bool
    /** The auto-dismiss timeout, when armed: the time it fires. */
    var dismissAt: Option<int>
    /** The 300 ms timeouts that will call `onClose(id)`: the times they fire. */
    var closeAt: seq<int>

    ghost predicate Valid()
      reads this
    {
      && (dismissAt.Some? ==> mounted && dismissAt.value >= now)
      && (forall k :: 0 <= k < |closeAt| ==> closeAt[k] >= now)
      && (closeAt != [] ==> closing)
    }

    /**
     * The toast is on screen (slid in, opaque) iff it is mounted and not
     * closing; a visible toast has no `onClose` pending.
     */
    function Visible(): (v: bool)
      reads this
      ensures v ==> mounted && !closing
      ensures v && Valid() ==> closeAt == []
    {
      mounted && !closing
    }

    /** The first render, before any effect has run. */
    constructor (id: string, duration: Option<int>, now: int)
      ensures this.id == id && this.duration == EffectiveDuration(duration) && this.now == now
      ensures !mounted && !closing && dismissAt.None? && closeAt == []
      ensures Valid() && !Visible()
    {
      this.id := id;
      this.duration := EffectiveDuration(duration);
      this.now := now;
      mounted := false;
      closing := false;
      dismissAt := None;
      closeAt := [];
    }

    /** The mount effect: clean up the previous run, set mounted, arm the auto-dismiss. */
    method RunEffect()
      requires Valid()
      modifies this
      ensures Valid()
      ensures mounted && closing == old(closing) && now == old(now)
      ensures dismissAt == Some(now + TimerDelay(duration))
      ensures closeAt == old(closeAt)
      ensures Visible() <==> !closing
    {
      mounted := true;
      dismissAt := Some(now + TimerDelay(duration));
    }

    /** `handleClose`: start the exit animation and arm the 300 ms `onClose(id)`. */
    method HandleClose()
      requires Valid()
      modifies this
      ensures Valid()
      ensures closing && !Visible()
      ensures closeAt == old(closeAt) + [now + CloseDelay]
      ensures mounted == old(mounted) && dismissAt == old(dismissAt) && now == old(now)
    {
      closing := true;
      closeAt := closeAt + [now + CloseDelay];
    }

    /** The effect's cleanup when the provider drops the toast: the auto-dismiss is cleared. */
    method Unmount()
      requires Valid()
      modifies this
      ensures Valid()
      ensures dismissAt.None?
      ensures mounted == old(mounted) && closing == old(closing)
      ensures closeAt == old(closeAt) && now == old(now)
    {
      dismissAt := None;
    }

    /**
     * Lets time run to `t`, firing every timer due by then. A due
     * auto-dismiss runs `handleClose` at its own firing time; the result is
     * the number of `onClose(id)` calls made meanwhile. An `onClose` makes
     * the provider drop the toast, whose effect cleanup then clears the
     * auto-dismiss: a caller must stop at each `onClose` time and call
     * `Unmount` before advancing further, or the count may exceed the
     * program's.
     */
    method Advance(t: int) returns (onCloseCalls: nat)
      requires Valid() && t >= now
      modifies this
      ensures Valid() && now == t
      ensures mounted == old(mounted)
      ensures closing == (old(closing) || (old(dismissAt).Some? && old(dismissAt).value <= t))
      ensures dismissAt == if old(dismissAt).Some? && old(dismissAt).value <= t then None else old(dismissAt)
      ensures var armed := if old(dismissAt).Some? && old(dismissAt).value <= t
                           then old(closeAt) + [old(dismissAt).value + CloseDelay]
                           else old(closeAt);
              onCloseCalls == DueCount(armed, t) && closeAt == StillPending(armed, t)
    {
      if dismissAt.Some? && dismissAt.value <= t {
        closing := true;
        closeAt := closeAt + [dismissAt.value + CloseDelay];
        dismissAt := None;
      }
      onCloseCalls := DueCount(closeAt, t);
      closeAt := StillPending(closeAt, t);
      assert forall k :: 0 <= k < |closeAt| ==> closeAt[k] > t by {
        forall k | 0 <= k < |closeAt| ensures closeAt[k] > t { assert closeAt[k] in closeAt; }
      }
      now := t;
    }
  }

  /**
   * Once mounted, an untouched toast with the default duration stays
   * visible for 4000 ms, then closes, and calls `onClose(id)` exactly once,
   * 300 ms later.
   */
  method AutoDismissScenario(id: string, start: int) returns (visibleBefore: bool, closesOnTime: bool, calls: nat)
    ensures visibleBefore && closesOnTime && calls == 1
  {
    var toast := new ToastLifecycle(id, None, start);
    toast.RunEffect();
    var early := toast.Advance(start + 3999);
    visibleBefore := early == 0 && toast.Visible();
    var atTimeout := toast.Advance(start + 4000);
    closesOnTime := atTimeout == 0 && toast.closing && !toast.Visible();
    calls := toast.Advance(start + 4300);
  }

  /**
   * A freshly rendered toast with the default duration is mounted at time 0
   * and clicked at 3800 ms: the click arms an `onClose(id)` for 4100 ms while
   * the auto-dismiss stays armed for 4000 ms.
   */
  method MountAndClick(toast: ToastLifecycle) returns (calls: nat)
    requires toast.Valid() && toast.duration == DefaultDuration && toast.now == 0
    requires !toast.mounted && !toast.closing && toast.dismissAt.None? && toast.closeAt == []
    modifies toast
    ensures toast.Valid() && calls == 0 && toast.now == 3800
    ensures toast.mounted && toast.closing && toast.dismissAt == Some(4000) && toast.closeAt == [4100]
  {
    assert TimerDelay(4000) == 4000;
    toast.RunEffect();
    calls := toast.Advance(3800);
    toast.HandleClose();
  }

  /**
   * After `MountAndClick` the auto-dismiss still fires at 4000 ms and arms a
   * second `onClose(id)` for 4300 ms; time then runs up to the first one.
   */
  method DismissAfterClick(toast: ToastLifecycle) returns (calls: nat)
    requires toast.Valid() && toast.now == 3800
    requires toast.mounted && toast.closing && toast.dismissAt == Some(4000) && toast.closeAt == [4100]
    modifies toast
    ensures toast.Valid() && calls == 1 && toast.now == 4100
    ensures toast.mounted && toast.closing && toast.dismissAt.None? && toast.closeAt == [4300]
  {
    var atTimeout := toast.Advance(4000);
    PendingPair(4100, 4300, 4000);
    assert atTimeout == 0 && toast.closeAt == [4100, 4300];
    calls := toast.Advance(4100);
    PendingPair(4100, 4300, 4100);
  }

  /**
   * `addToast` with no duration, then `MountAndClick` and `DismissAfterClick`:
   * at the first `onClose(id)` the provider drops the toast and its effect
   * cleanup runs, but the 300 ms timer armed by the auto-dismiss is never
   * cleared, so `onClose(id)` runs twice and the provider's second removal
   * changes nothing.
   */
  method ClickThenTimeoutScenario(title: string, id: string) returns (calls: nat, afterFirst: seq<Toast>, afterSecond: seq<Toast>)
    ensures calls == 2 && afterFirst == [] && afterSecond == afterFirst
  {
    var provider := new ToastProvider();
    provider.AddToast(ToastInput(title, None, None, None), id);
    var shown := provider.toasts[|provider.toasts| - 1];
    assert shown.id == id && shown.duration.None?;
    var toast := new ToastLifecycle(shown.id, shown.duration, 0);
    var early := MountAndClick(toast);
    var first := DismissAfterClick(toast);
    provider.RemoveToast(id);
    toast.Unmount();
    afterFirst := provider.toasts;
    PendingPair(4300, 4300, 4300);
    var second := toast.Advance(4300);
    provider.RemoveToast(id);
    afterSecond := provider.toasts;
    calls := early + first + second;
  }
}

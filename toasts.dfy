/** The toast list: a toast is appended at the back, and each expiry (the
    timer every toast starts) drops the front one, so toasts leave in the
    order they came. */
module Toasts {
  import opened Wrappers

  datatype Variant = Default | Destructive

  /** What a caller passes; any part may be omitted. */
  datatype ToastProps = ToastProps(title: Option<string>, description: Option<string>, variant: Option<Variant>)

  /** What the list stores. */
  datatype Toast = Toast(title: Option<string>, description: Option<string>, variant: Variant)

  /** A toast as stored: title and description as given, an omitted variant
      as Default. */
  function Stored(props: ToastProps): (t: Toast)
    ensures t.title == props.title && t.description == props.description
    ensures props.variant.None? ==> t.variant == Default
    ensures props.variant.Some? ==> t.variant == props.variant.value
  {
    Toast(props.title, props.description, if props.variant.Some? then props.variant.value else Default)
  }

  /** The list after one expiry, as `slice(1)` leaves it. */
  function Expired(toasts: seq<Toast>): (rest: seq<Toast>)
    ensures toasts == [] ==> rest == []
    ensures toasts != [] ==> [toasts[0]] + rest == toasts
  {
    if toasts == [] then [] else toasts[1..]
  }

  /** The list after `n` expiries. */
  function ExpiredTimes(toasts: seq<Toast>, n: nat): seq<Toast> {
    if n == 0 then toasts else ExpiredTimes(Expired(toasts), n - 1)
  }

  /** First in, first out: as many expiries as there are older toasts remove
      exactly those, whatever came after them. */
  lemma {:induction false} ExpiryIsFifo(older: seq<Toast>, newer: seq<Toast>)
    ensures ExpiredTimes(older + newer, |older|) == newer
  {
    if older != [] {
      assert Expired(older + newer) == older[1..] + newer;
      ExpiryIsFifo(older[1..], newer);
    }
  }

  /** On a non-empty list, pushing and expiring commute. */
  lemma ExpiryCommutesWithPush(toasts: seq<Toast>, t: Toast)
    requires toasts != []
    ensures Expired(toasts + [t]) == Expired(toasts) + [t]
  {
    assert (toasts + [t])[1..] == toasts[1..] + [t];
  }

  class Toaster {
    var toasts: seq<Toast>

    constructor ()
      ensures toasts == []
    {
      toasts := [];
    }

    /** `toast`: one entry at the back, earlier entries untouched. */
    method Push(props: ToastProps)
      modifies this
      ensures toasts == old(toasts) + [Stored(props)]
    {
      toasts := toasts + [Stored(props)];
    }

    /** A toast's timer firing: the oldest entry goes; an empty list stays empty. */
    method Expire()
      modifies this
      ensures toasts == Expired(old(toasts))
    {
      if toasts != [] {
        toasts := toasts[1..];
      }
    }
  }
}

/**
 * The delivery handle of the messaging core: a SimpleDelivery binds one
 * routable, one delivery observer and a completion flag, and forwards the
 * three outcome operations (acknowledge, cancel, redeliver) to whichever
 * observer is bound at the time of the call.
 */
module Delivery {
  import opened Wrappers

  /** The unit of content being delivered. Only its own textual rendering
      (what its toString gives) is visible to the delivery core. */
  class Routable {
    const rendering: string

    constructor (rendering: string)
      ensures this.rendering == rendering
    {
      this.rendering := rendering;
    }
  }

  /** A consuming endpoint that a routable can be redelivered to. The
      delivery core only passes it along. */
  class Receiver {
    constructor ()
    {
    }
  }

  /** One call that reached a delivery observer, as the observer saw it;
      `doneBefore` and `doneAfter` are the delivery's done flag as the
      observer found it and as it left it. */
  datatype Notification =
    | Acknowledged(delivery: SimpleDelivery, doneBefore: bool, doneAfter: bool)
    | Cancelled(delivery: SimpleDelivery, redeliverable: bool, doneBefore: bool, doneAfter: bool)
    | Redelivered(delivery: SimpleDelivery, receiver: Receiver?, doneBefore: bool, doneAfter: bool)

  /**
   * The broker-side component told of every delivery's outcome. Its real
   * implementations are not part of this model; this class stands in for
   * any of them by recording each call it receives. Each call may also
   * change the delivery's `done` flag (its frame allows it; the record
   * says what the flag was before and is afterwards), and cancel answers with a decision
   * of its own, so nothing a caller proves can depend on what a
   * particular observer would do there.
   */
  class DeliveryObserver {
    var notifications: seq<Notification>

    constructor ()
      ensures notifications == []
    {
      notifications := [];
    }

    method Acknowledge(d: SimpleDelivery)
      modifies this, d`done
      ensures notifications == old(notifications) + [Acknowledged(d, old(d.done), d.done)]
    {
      notifications := notifications + [Acknowledged(d, d.done, d.done)];
    }

    method Cancel(d: SimpleDelivery) returns (redeliverable: bool)
      modifies this, d`done
      ensures notifications == old(notifications) + [Cancelled(d, redeliverable, old(d.done), d.done)]
    {
      redeliverable :| true;
      notifications := notifications + [Cancelled(d, redeliverable, d.done, d.done)];
    }

    method Redeliver(d: SimpleDelivery, r: Receiver?)
      modifies this, d`done
      ensures notifications == old(notifications) + [Redelivered(d, r, old(d.done), d.done)]
    {
      notifications := notifications + [Redelivered(d, r, d.done, d.done)];
    }
  }

  /** How a routable reference appears inside string concatenation:
      a missing one prints as "null". */
  function RoutableText(r: Routable?): string
  {
    if r == null then "null" else r.rendering
  }

  const DescriptionPrefix := "delivery["

  /** The closing part of a delivery's rendering, naming its state. */
  function DescriptionSuffix(done: bool): (s: string)
    ensures |s| == (if done then 7 else 9)
  {
    "](" + (if done then "done" else "active") + ")"
  }

  /** Reads a delivery's rendering back into the routable's text and the
      done flag; None for a string that no delivery renders to. */
  function ParseDescription(s: string): Option<(string, bool)>
  {
    var n := |DescriptionPrefix|;
    if |s| >= n + 7 && s[..n] == DescriptionPrefix && s[|s| - 7..] == DescriptionSuffix(true) then
      Some((s[n..|s| - 7], true))
    else if |s| >= n + 9 && s[..n] == DescriptionPrefix && s[|s| - 9..] == DescriptionSuffix(false) then
      Some((s[n..|s| - 9], false))
    else
      None
  }

  /** A rendering can be read back: the text between the brackets and the
      state are recovered, whatever characters the text holds. */
  lemma DescriptionRoundTrip(text: string, done: bool)
    ensures ParseDescription(DescriptionPrefix + text + DescriptionSuffix(done)) == Some((text, done))
  {
    var s := DescriptionPrefix + text + DescriptionSuffix(done);
    var n := |DescriptionPrefix|;
    assert s[..n] == DescriptionPrefix;
    if done {
      assert s[|s| - 7..] == DescriptionSuffix(true);
      assert s[n..|s| - 7] == text;
    } else {
      assert s[|s| - 7..] != DescriptionSuffix(true) by {
        assert s[|s| - 7..][2] == 't' != DescriptionSuffix(true)[2];
      }
      assert s[|s| - 9..] == DescriptionSuffix(false);
      assert s[n..|s| - 9] == text;
    }
  }

  /** Conversely, a string that reads back as a delivery's rendering is
      exactly that rendering, so a rendering determines its string. */
  lemma ParseDescriptionExact(s: string, text: string, done: bool)
    requires ParseDescription(s) == Some((text, done))
    ensures s == DescriptionPrefix + text + DescriptionSuffix(done)
  {
  }

  class SimpleDelivery {
    var done: bool
    var observer: DeliveryObserver?
    var routable: Routable?

    /** The no-argument form: not done, nothing bound. */
    constructor ()
      ensures !done && observer == null && routable == null
    {
      done, observer, routable := false, null, null;
    }

    /** A delivery that carries only a completion flag. */
    constructor WithDone(d: bool)
      ensures done == d && observer == null && routable == null
    {
      done, observer, routable := d, null, null;
    }

    /** A delivery of `routable` watched by `observer`, not yet done. */
    constructor WithBinding(observer: DeliveryObserver?, routable: Routable?)
      ensures !done && this.observer == observer && this.routable == routable
    {
      done, this.observer, this.routable := false, observer, routable;
    }

    /** The full form: stores exactly the three given values. */
    constructor WithAll(observer: DeliveryObserver?, routable: Routable?, done: bool)
      ensures this.done == done && this.observer == observer && this.routable == routable
    {
      this.done, this.observer, this.routable := done, observer, routable;
    }

    method GetRoutable() returns (r: Routable?)
      ensures r == routable
    {
      r := routable;
    }

    method IsDone() returns (d: bool)
      ensures d == done
    {
      d := done;
    }

    method GetObserver() returns (o: DeliveryObserver?)
      ensures o == observer
    {
      o := observer;
    }

    /** Rebinds the observer; later outcome calls go to `o`. */
    method SetObserver(o: DeliveryObserver?)
      modifies this`observer
      ensures observer == o
      ensures done == old(done) && routable == old(routable)
    {
      observer := o;
    }

    /** Forwards one acknowledge call, naming this delivery, to the bound
        observer. The delivery itself does not write `done`: the observer
        finds it as it was before the call, and it holds afterwards
        whatever the observer left, as the observer recorded both. */
    method Acknowledge()
      requires observer != null
      modifies observer, this`done
      ensures observer == old(observer) && routable == old(routable)
      ensures observer.notifications == old(observer.notifications) + [Acknowledged(this, old(done), done)]
    {
      observer.Acknowledge(this);
    }

    /** Forwards one cancel call to the bound observer and returns its
        answer (true: the routable may be delivered again) unchanged. */
    method Cancel() returns (redeliverable: bool)
      requires observer != null
      modifies observer, this`done
      ensures observer == old(observer) && routable == old(routable)
      ensures observer.notifications == old(observer.notifications) + [Cancelled(this, redeliverable, old(done), done)]
    {
      redeliverable := observer.Cancel(this);
    }

    /** Forwards one redeliver call, naming this delivery and `r`, to the
        bound observer. */
    method Redeliver(r: Receiver?)
      requires observer != null
      modifies observer, this`done
      ensures observer == old(observer) && routable == old(routable)
      ensures observer.notifications == old(observer.notifications) + [Redelivered(this, r, old(done), done)]
    {
      observer.Redeliver(this, r);
    }

    /** The diagnostic rendering "delivery[<routable>](done|active)". */
    function ToString(): (s: string)
      reads this
      ensures ParseDescription(s) == Some((RoutableText(routable), done))
    {
      DescriptionRoundTrip(RoutableText(routable), done);
      DescriptionPrefix + RoutableText(routable) + DescriptionSuffix(done)
    }
  }

  /** Rebinding decides where outcome calls go: after SetObserver(o2) an
      acknowledge reaches o2 exactly once and leaves o1 untouched. */
  method RebindThenAcknowledge(o1: DeliveryObserver, o2: DeliveryObserver, r: Routable?)
    returns (d: SimpleDelivery)
    requires o1 != o2
    modifies o2
    ensures fresh(d) && d.observer == o2 && d.routable == r
    ensures o1.notifications == old(o1.notifications)
    ensures o2.notifications == old(o2.notifications) + [Acknowledged(d, false, d.done)]
  {
    d := new SimpleDelivery.WithBinding(o1, r);
    d.SetObserver(o2);
    d.Acknowledge();
  }
}

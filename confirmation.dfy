/**
 * What the four trader routes share while they wait for the worker's
 * confirmation: the notification message, the settled outcome, the setup
 * phase of subscribe-then-publish, and the route response.
 */
module Confirmation {
  import opened Wrappers
  import opened JsValue

  /**
   * A parsed notification. `dataId` is `msg.data?.id` (undefined when there
   * is no `data`).
   */
  datatype Message = Message(event: JsValue, taskId: JsValue, dataId: JsValue, error: JsValue, success: JsValue)

  /** A command as an object, before it is serialised onto the task channel. */
  type Payload = map<string, JsValue>

  /** How a wait can end in failure. */
  datatype Failure =
    | HttpError(statusCode: int, message: JsValue)
    | SetupException(cause: JsValue)

  /** The promise of a wait: pending, resolved with the confirming message, or rejected. */
  datatype Outcome = Pending | Confirmed(confirmation: Message) | Rejected(failure: Failure)

  /** How the subscribe-then-publish block is doing. */
  datatype Setup =
    | Subscribing   // `subscribeNotifications` was called and has not returned
    | Publishing    // it returned and `publishTask` was called
    | Ready         // `publishTask` returned
    | Failed        // one of the two threw

  /** What a route's handler makes of one message. */
  datatype Verdict = Ignore | Accept | Refuse(errorMessage: JsValue)

  /** The wait's deadline, in milliseconds. */
  const TimeoutMs: nat := 30000

  const TimeoutFailure: Failure := HttpError(504, JStr("Timeout waiting for backend confirmation"))

  const DefaultError: JsValue := JStr("Backend task failed")

  /** `createError({ statusCode: 500, message: msg.error || 'Backend task failed' })` */
  function BackendFailure(msg: Message): (f: Failure)
    ensures f.HttpError? && f.statusCode == 500 && Truthy(f.message)
    ensures Truthy(msg.error) ==> f.message == msg.error
    ensures !Truthy(msg.error) ==> f.message == DefaultError
  {
    HttpError(500, Or(msg.error, DefaultError))
  }

  /** What a route returns. */
  datatype Response = Response(success: JsValue, data: ResponseData)
  datatype ResponseData = Confirmation(msg: Message) | Trader(fields: Payload)

  /** The route's reply once the promise resolved with `msg`: `{ success: true, data: msg }`. */
  function ConfirmedResponse(msg: Message): (r: Response)
    ensures r.success == JBool(true) && r.data.Confirmation? && r.data.msg == msg
  {
    Response(JBool(true), Confirmation(msg))
  }

  /**
   * The promise body every trader route builds around its command, as a
   * state machine driven by the events that can reach it: notifications,
   * the timer, and the return or failure of `subscribeNotifications` and
   * `publishTask`. The routes differ only in the command published
   * (`payload`) and in how a notification is judged (`verdict`). Creating a
   * gate is the moment the timer is armed and `subscribeNotifications` is
   * called.
   */
  class Gate {
    const payload: Payload
    const verdict: Message -> Verdict
    const timeoutMs: nat
    /** `isResolved` */
    var resolved: bool
    /** What the promise was settled with. */
    var outcome: Outcome
    /** Whether the closure's `subscription` variable is assigned. */
    var subscription: bool
    var setup: Setup
    /** How many times `subscription.cleanup()` was called. */
    var cleanupCount: nat
    /** Whether `clearTimeout(timer)` was called. */
    var timerCleared: bool
    /** The command handed to `publishTask`, once it has been. */
    var published: Option<Payload>

    ghost predicate Valid()
      reads this
    {
      && timeoutMs == TimeoutMs
      && (resolved <==> !outcome.Pending?)
      && (published.Some? ==> subscription && published.value == payload)
      && (setup == Subscribing ==> !subscription && published.None?)
      && (setup == Publishing ==> published.Some?)
      && (setup == Publishing || setup == Ready ==> subscription)
      && cleanupCount <= 1
      && (cleanupCount == 1 ==> resolved && subscription)
      && (timerCleared ==> resolved)
    }

    /** A settled wait holds no subscription that was not released. */
    ghost predicate Released()
      reads this
    {
      resolved && subscription ==> cleanupCount == 1
    }

    constructor (payload: Payload, verdict: Message -> Verdict)
      ensures Valid() && Released()
      ensures this.payload == payload && this.verdict == verdict
      ensures !resolved && outcome == Pending && !subscription && setup == Subscribing
      ensures cleanupCount == 0 && !timerCleared && published == None
    {
      this.payload := payload;
      this.verdict := verdict;
      timeoutMs := TimeoutMs;
      resolved := false;
      outcome := Pending;
      subscription := false;
      setup := Subscribing;
      cleanupCount := 0;
      timerCleared := false;
      published := None;
    }

    /**
     * The block every settling path runs: set the flag, maybe clear the
     * timer, release the subscription if it is assigned, and settle.
     */
    method Settle(o: Outcome, clearTimer: bool)
      requires Valid() && !resolved && !o.Pending?
      modifies this
      ensures Valid() && Released()
      ensures resolved && outcome == o
      ensures timerCleared == (old(timerCleared) || clearTimer)
      ensures cleanupCount == old(cleanupCount) + (if subscription then 1 else 0)
      ensures subscription == old(subscription) && setup == old(setup) && published == old(published)
    {
      resolved := true;
      if clearTimer {
        timerCleared := true;
      }
      if subscription {
        cleanupCount := cleanupCount + 1;
      }
      outcome := o;
    }

    /** The notification handler; once the wait is settled every message is dropped. */
    method OnMessage(msg: Message)
      requires Valid()
      modifies this
      ensures Valid()
      ensures old(Released()) ==> Released()
      ensures old(resolved) || verdict(msg).Ignore? ==> unchanged(this)
      ensures !old(resolved) && verdict(msg).Accept? ==>
        resolved && outcome == Confirmed(msg) && timerCleared
        && cleanupCount == (if subscription then 1 else 0)
      ensures !old(resolved) && verdict(msg).Refuse? ==>
        resolved && outcome == Rejected(HttpError(500, verdict(msg).errorMessage)) && timerCleared
        && cleanupCount == (if subscription then 1 else 0)
      ensures subscription == old(subscription) && setup == old(setup) && published == old(published)
    {
      var v := verdict(msg);
      if v.Accept? {
        if !resolved {
          Settle(Confirmed(msg), true);
        }
      } else if v.Refuse? {
        if !resolved {
          Settle(Rejected(HttpError(500, v.errorMessage)), true);
        }
      }
    }

    /** The timer fires; it does nothing once the wait is settled, and clears nothing. */
    method OnTimeout()
      requires Valid()
      modifies this
      ensures Valid()
      ensures old(Released()) ==> Released()
      ensures old(resolved) ==> unchanged(this)
      ensures !old(resolved) ==>
        resolved && outcome == Rejected(TimeoutFailure) && !timerCleared
        && cleanupCount == (if subscription then 1 else 0)
      ensures subscription == old(subscription) && setup == old(setup) && published == old(published)
    {
      if !resolved {
        Settle(Rejected(TimeoutFailure), false);
      }
    }

    /**
     * `subscribeNotifications` returns, as the routes are written: the
     * subscription is assigned and the command is published whether or not
     * the wait is already settled. When it is, nothing releases the new
     * subscription.
     */
    method OnSubscribeReturned()
      requires Valid() && setup == Subscribing
      modifies this
      ensures Valid()
      ensures subscription && setup == Publishing && published == Some(payload)
      ensures resolved == old(resolved) && outcome == old(outcome)
      ensures cleanupCount == old(cleanupCount) && timerCleared == old(timerCleared)
      ensures old(resolved) ==> !Released()
      ensures !old(resolved) ==> Released()
    {
      subscription := true;
      published := Some(payload);
      setup := Publishing;
    }

    /**
     * `subscribeNotifications` returns, with the release the settling paths
     * leave to whoever assigns the subscription: a wait that settled in the
     * meantime has the new subscription released at once. The command is
     * published as before.
     */
    method OnSubscribeReturnedReleasing()
      requires Valid() && setup == Subscribing
      modifies this
      ensures Valid() && Released()
      ensures subscription && setup == Publishing && published == Some(payload)
      ensures old(resolved) ==> cleanupCount == 1
      ensures !old(resolved) ==> cleanupCount == old(cleanupCount)
      ensures resolved == old(resolved) && outcome == old(outcome) && timerCleared == old(timerCleared)
    {
      subscription := true;
      if resolved {
        cleanupCount := cleanupCount + 1;
      }
      published := Some(payload);
      setup := Publishing;
    }

    /** `publishTask` returns. */
    method OnPublishReturned()
      requires Valid() && setup == Publishing
      modifies this
      ensures Valid() && setup == Ready
      ensures old(Released()) ==> Released()
      ensures resolved == old(resolved) && outcome == old(outcome) && subscription == old(subscription)
      ensures cleanupCount == old(cleanupCount) && timerCleared == old(timerCleared) && published == old(published)
    {
      setup := Ready;
    }

    /** `subscribeNotifications` or `publishTask` throws `e`. */
    method OnSetupError(e: JsValue)
      requires Valid() && (setup == Subscribing || setup == Publishing)
      modifies this
      ensures Valid() && setup == Failed
      ensures old(Released()) ==> Released()
      ensures old(resolved) ==>
        outcome == old(outcome) && cleanupCount == old(cleanupCount) && timerCleared == old(timerCleared)
      ensures !old(resolved) ==>
        resolved && outcome == Rejected(SetupException(e)) && timerCleared
        && cleanupCount == (if subscription then 1 else 0)
      ensures subscription == old(subscription) && published == old(published)
    {
      setup := Failed;
      if !resolved {
        Settle(Rejected(SetupException(e)), true);
      }
    }

    /** What `await new Promise(...)` yields once the wait is settled. */
    function Settled(): (r: Result<Message, Failure>)
      reads this
      requires Valid() && resolved
      ensures r.Ok? <==> outcome.Confirmed?
      ensures r.Ok? ==> r.value == outcome.confirmation
      ensures r.Err? ==> r.error == outcome.failure
    {
      match outcome
      case Confirmed(msg) => Ok(msg)
      case Rejected(f) => Err(f)
    }
  }
}

/** The notifications context: notifications enqueued on the snackbar, and `tx`, which wraps a
    transaction with a start notice, an end notice after confirmation, or an error notice and a rethrow. */
module Notifications {
  import opened Types

  /** A thrown value as the error notice reads it: `msg.error.message`, `msg.responseText`,
      `msg.message`, and `msg` itself as text. */
  datatype Thrown = Thrown(errorMessage: Option<string>, responseText: Option<string>, message: Option<string>, text: string)

  datatype Notification =
    | TxNote(description: string, hash: string)
    | ErrorNote(message: string)
    | SuccessNote(title: string, message: string)

  /** One enqueued snackbar entry with its `persist` option. */
  datatype Snack = Snack(notification: Notification, persist: bool)

  /** What becomes of `makeTx`: it throws, or it yields a hash whose `wait` throws or resolves. */
  datatype TxOutcome =
    | MakeTxFailed(error: Thrown)
    | WaitFailed(hash: string, error: Thrown)
    | Mined(hash: string)

  /** `i` is the first candidate that is truthy. */
  ghost predicate IsFirstTruthy(candidates: seq<Option<string>>, i: int)
  {
    0 <= i < |candidates| && Truthy(candidates[i]) && forall j | 0 <= j < i :: !Truthy(candidates[j])
  }

  /** The first truthy candidate, else the fallback. */
  function FirstTruthy(candidates: seq<Option<string>>, fallback: string): (m: string)
    ensures (forall i | 0 <= i < |candidates| :: !Truthy(candidates[i])) ==> m == fallback
    ensures (exists i | 0 <= i < |candidates| :: Truthy(candidates[i])) ==>
            exists i :: IsFirstTruthy(candidates, i) && m == candidates[i].value
  {
    if |candidates| == 0 then fallback
    else if Truthy(candidates[0]) then (assert IsFirstTruthy(candidates, 0); candidates[0].value)
    else
      var m := FirstTruthy(candidates[1..], fallback);
      assert (exists i | 0 <= i < |candidates| :: Truthy(candidates[i])) ==>
             exists i :: IsFirstTruthy(candidates, i) && m == candidates[i].value by {
        if exists i | 0 <= i < |candidates| :: Truthy(candidates[i]) {
          var k :| 0 <= k < |candidates| && Truthy(candidates[k]);
          assert Truthy(candidates[1..][k - 1]);
          var i :| IsFirstTruthy(candidates[1..], i) && m == candidates[1..][i].value;
          assert IsFirstTruthy(candidates, i + 1);
        }
      }
      m
  }

  /** The `||` chain of the error notice. */
  function ErrorMessage(e: Thrown): (m: string)
    ensures m == FirstTruthy([e.errorMessage, e.responseText, e.message], e.text)
  {
    var cs := [e.errorMessage, e.responseText, e.message];
    assert cs[1..] == [e.responseText, e.message] && cs[1..][1..] == [e.message] && cs[1..][1..][1..] == [];
    assert FirstTruthy(cs[1..][1..][1..], e.text) == e.text;
    assert FirstTruthy(cs[1..][1..], e.text) == if Truthy(e.message) then e.message.value else e.text;
    assert FirstTruthy(cs[1..], e.text) ==
           if Truthy(e.responseText) then e.responseText.value else FirstTruthy(cs[1..][1..], e.text);
    if Truthy(e.errorMessage) then e.errorMessage.value
    else if Truthy(e.responseText) then e.responseText.value
    else if Truthy(e.message) then e.message.value
    else e.text
  }

  /** The entries `tx` enqueues for an outcome. */
  function TxTrace(start: string, end: string, outcome: TxOutcome): seq<Snack>
  {
    match outcome
    case MakeTxFailed(e) => [Snack(ErrorNote(ErrorMessage(e)), true)]
    case WaitFailed(h, e) => [Snack(TxNote(start, h), true), Snack(ErrorNote(ErrorMessage(e)), true)]
    case Mined(h) => [Snack(TxNote(start, h), true), Snack(TxNote(end, h), true)]
  }

  /** The error `tx` rethrows, if any. */
  function Rethrown(outcome: TxOutcome): Option<Thrown>
  {
    match outcome
    case MakeTxFailed(e) => Some(e)
    case WaitFailed(_, e) => Some(e)
    case Mined(_) => None
  }

  function TxNotes(s: seq<Snack>): seq<Notification>
  {
    if s == [] then []
    else (if s[0].notification.TxNote? then [s[0].notification] else []) + TxNotes(s[1..])
  }

  function ErrorNotes(s: seq<Snack>): seq<Notification>
  {
    if s == [] then []
    else (if s[0].notification.ErrorNote? then [s[0].notification] else []) + ErrorNotes(s[1..])
  }

  /** A mined transaction gives a start and an end notice with one hash and no error; a failed
      `makeTx` gives one error notice and no tx notice; a failed `wait` gives the start notice, then
      one error notice. Every entry persists, and an error notice means a rethrow. */
  lemma TxTraceShape(start: string, end: string, outcome: TxOutcome)
    ensures var t := TxTrace(start, end, outcome);
            && (outcome.Mined? ==> TxNotes(t) == [TxNote(start, outcome.hash), TxNote(end, outcome.hash)] && ErrorNotes(t) == [])
            && (outcome.MakeTxFailed? ==> TxNotes(t) == [] && ErrorNotes(t) == [ErrorNote(ErrorMessage(outcome.error))])
            && (outcome.WaitFailed? ==> TxNotes(t) == [TxNote(start, outcome.hash)] &&
                                        ErrorNotes(t) == [ErrorNote(ErrorMessage(outcome.error))] &&
                                        t[0].notification.TxNote? && t[1].notification.ErrorNote?)
            && (forall i | 0 <= i < |t| :: t[i].persist)
            && (|ErrorNotes(t)| == 1 <==> Rethrown(outcome).Some?)
  {
    var t := TxTrace(start, end, outcome);
    if |t| == 2 {
      assert t[1..] == [t[1]] && t[1..][1..] == [];
      assert TxNotes(t[1..]) == (if t[1].notification.TxNote? then [t[1].notification] else []) + TxNotes([]);
      assert ErrorNotes(t[1..]) == (if t[1].notification.ErrorNote? then [t[1].notification] else []) + ErrorNotes([]);
    } else {
      assert t[1..] == [];
    }
  }

  class NotificationsProvider {
    /** Everything enqueued on the snackbar, oldest first. */
    var queue: seq<Snack>

    constructor ()
      ensures queue == []
    {
      queue := [];
    }

    method ShowTxNotification(description: string, hash: string)
      modifies this
      ensures queue == old(queue) + [Snack(TxNote(description, hash), true)]
    {
      queue := queue + [Snack(TxNote(description, hash), true)];
    }

    method ShowErrorNotification(e: Thrown)
      modifies this
      ensures queue == old(queue) + [Snack(ErrorNote(ErrorMessage(e)), true)]
    {
      queue := queue + [Snack(ErrorNote(ErrorMessage(e)), true)];
    }

    method ShowSuccessNotification(title: string, message: string)
      modifies this
      ensures queue == old(queue) + [Snack(SuccessNote(title, message), true)]
    {
      queue := queue + [Snack(SuccessNote(title, message), true)];
    }

    /** `tx(start, end, makeTx)`; `rethrown` is the error the caller's `await` sees. */
    method Tx(start: string, end: string, outcome: TxOutcome) returns (rethrown: Option<Thrown>)
      modifies this
      ensures queue == old(queue) + TxTrace(start, end, outcome)
      ensures rethrown == Rethrown(outcome)
    {
      match outcome {
        case MakeTxFailed(e) =>
          ShowErrorNotification(e);
          rethrown := Some(e);
        case WaitFailed(hash, e) =>
          ShowTxNotification(start, hash);
          ShowErrorNotification(e);
          rethrown := Some(e);
        case Mined(hash) =>
          ShowTxNotification(start, hash);
          ShowTxNotification(end, hash);
          rethrown := None;
      }
    }
  }
}

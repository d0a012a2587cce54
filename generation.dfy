/** `generatePoster`'s effect on the poster handle: the network exchange is
    abstracted as the outcome it produced. */
module Generation {
  import opened Optional

  /** The fixed prefix of the failure notification. */
  const ErrorPrefix: string := "حدث خطأ: "

  /** The message of the error thrown when the response is not ok. */
  const NotOkMessage: string := "فشل في توليد البوستر"

  /** How one request ended. */
  datatype FetchOutcome =
    | Delivered(objectUrl: string)  // ok response; `objectUrl` is the handle created for its body
    | NotOk                         // a response whose `ok` flag is false
    | Threw(message: string)        // the request, reading the body or creating the handle threw

  /** What one generation leaves behind: the poster handle, and the text of
      the notification shown, if any. */
  datatype StepResult = StepResult(poster: Option<string>, notification: Option<string>)

  /** The message of the error caught for a failed outcome. */
  function ErrorMessage(outcome: FetchOutcome): (m: string)
    requires !outcome.Delivered?
    ensures outcome.NotOk? ==> m == NotOkMessage
    ensures outcome.Threw? ==> m == outcome.message
  {
    if outcome.NotOk? then NotOkMessage else outcome.message
  }

  /** One generation: a delivered image replaces the handle silently; a
      failure keeps the handle and notifies "حدث خطأ: " plus the error's
      message. */
  function Generate(poster: Option<string>, outcome: FetchOutcome): (r: StepResult)
    ensures r.notification.None? <==> outcome.Delivered?
    ensures outcome.Delivered? ==> r.poster == Some(outcome.objectUrl)
    ensures !outcome.Delivered? ==> r.poster == poster
    ensures !outcome.Delivered? ==>
              r.notification == Some(ErrorPrefix + ErrorMessage(outcome))
              && r.notification.value[..|ErrorPrefix|] == ErrorPrefix
  {
    match outcome
    case Delivered(url) => StepResult(Some(url), None)
    case _ => StepResult(poster, Some(ErrorPrefix + ErrorMessage(outcome)))
  }

  /** The poster handle after generations that resolved in the order of
      `outcomes`, each applied as one atomic step. */
  function RunAll(poster: Option<string>, outcomes: seq<FetchOutcome>): (r: Option<string>)
    ensures r == poster || (r.Some? && exists k :: 0 <= k < |outcomes| && outcomes[k] == Delivered(r.value))
    decreases |outcomes|
  {
    if outcomes == [] then poster
    else RunAll(Generate(poster, outcomes[0]).poster, outcomes[1..])
  }

  /** The handle of the last delivered outcome, if any. */
  function LastDelivered(outcomes: seq<FetchOutcome>): (r: Option<string>)
    ensures r.Some? <==> exists k :: 0 <= k < |outcomes| && outcomes[k].Delivered?
  {
    if outcomes == [] then None
    else
      var last := outcomes[|outcomes| - 1];
      if last.Delivered? then Some(last.objectUrl)
      else
        var init := outcomes[..|outcomes| - 1];
        assert forall k :: 0 <= k < |init| ==> init[k] == outcomes[k];
        LastDelivered(init)
  }

  /** A delivery followed only by failures is the last delivery. */
  lemma {:induction false} LastDeliveredIsLast(outcomes: seq<FetchOutcome>, k: nat)
    requires k < |outcomes| && outcomes[k].Delivered?
    requires forall j :: k < j < |outcomes| ==> !outcomes[j].Delivered?
    ensures LastDelivered(outcomes) == Some(outcomes[k].objectUrl)
  {
    if k < |outcomes| - 1 {
      var init := outcomes[..|outcomes| - 1];
      LastDeliveredIsLast(init, k);
    }
  }

  /** Running one more generation after a run. */
  lemma {:induction false} RunAllSnoc(poster: Option<string>, outcomes: seq<FetchOutcome>, o: FetchOutcome)
    ensures RunAll(poster, outcomes + [o]) == Generate(RunAll(poster, outcomes), o).poster
    decreases |outcomes|
  {
    if outcomes != [] {
      assert (outcomes + [o])[1..] == outcomes[1..] + [o];
      RunAllSnoc(Generate(poster, outcomes[0]).poster, outcomes[1..], o);
    }
  }

  /** The last resolved success wins: after any run, the handle is that of the
      last delivered outcome, or the original one when every attempt failed. */
  lemma {:induction false} LastDeliveredWins(poster: Option<string>, outcomes: seq<FetchOutcome>)
    ensures RunAll(poster, outcomes)
         == if LastDelivered(outcomes).Some? then LastDelivered(outcomes) else poster
  {
    if outcomes != [] {
      var init := outcomes[..|outcomes| - 1];
      var last := outcomes[|outcomes| - 1];
      assert outcomes == init + [last];
      LastDeliveredWins(poster, init);
      RunAllSnoc(poster, init, last);
    }
  }

  /** However many attempts fail, the handle stays what it was. */
  lemma {:induction false} FailuresKeepPoster(poster: Option<string>, outcomes: seq<FetchOutcome>)
    requires forall k :: 0 <= k < |outcomes| ==> !outcomes[k].Delivered?
    ensures RunAll(poster, outcomes) == poster
  {
    LastDeliveredWins(poster, outcomes);
  }
}

/**
 * The home page's submission controller: one OCR result record, the stored
 * abort handle of the request in flight, and the reset counter that remounts
 * the summary section.
 *
 * Each request is a numbered handle. A handle is aborted when a later
 * submission or a reset replaces it, and it settles at most once. Aborting a
 * handle makes its pending fetch (or body read) reject with an "AbortError"
 * DOMException; the network's own outcome reaches the code only for handles
 * that were never aborted.
 */
module Home {
  import opened Wrappers
  import opened Records
  import NutritionSummary

  datatype OCRResult = OCRResult(
    nutrients: Option<Record>,
    analysis: Option<string>,
    isLoading: bool,
    error: Option<string>)

  const Idle := OCRResult(None, None, false, None)
  const Loading := OCRResult(None, None, true, None)

  const ProcessFailedMessage := "Failed to process the image"
  const UnknownErrorMessage := "An unknown error occurred"
  const AbortErrorName := "AbortError"

  type Handle = nat

  /** The parsed body of a 2xx response; each field is present or absent. */
  datatype ResponseBody = ResponseBody(nutrients: Option<Record>, analysis: Option<string>)

  /** A value that reaches the `catch` block. */
  datatype Thrown =
      /** a DOMException, which is also an instance of Error */
    | DomException(name: string, message: string)
      /** any other instance of Error */
    | ErrorObject(message: string)
      /** a thrown value that is not an Error */
    | NonError

  /** How the network settles a request whose handle was never aborted. */
  datatype Outcome =
    | Responded(body: ResponseBody)
    | NotOk
    | Rejected(thrown: Thrown)

  predicate IsAbortError(t: Thrown)
  {
    t.DomException? && t.name == AbortErrorName
  }

  /** What an aborted handle's pending request rejects with. */
  const AbortRejection := DomException(AbortErrorName, "signal is aborted without reason")

  /** The network never produces an "AbortError" of its own accord. */
  predicate FromNetwork(o: Outcome)
  {
    !(o.Rejected? && IsAbortError(o.thrown))
  }

  datatype Controller = Controller(
    result: OCRResult,
    stored: Option<Handle>,
    issued: nat,
    aborted: set<Handle>,
    settled: set<Handle>,
    resetCounter: nat)

  const Initial := Controller(Idle, None, 0, {}, {}, 0)

  /** `handleFileSelected` up to the `await`: abort, replace the handle, go to loading. */
  function Submit(c: Controller): (c': Controller)
  {
    var aborted := if c.stored.Some? then c.aborted + {c.stored.value} else c.aborted;
    c.(aborted := aborted, stored := Some(c.issued), issued := c.issued + 1, result := Loading)
  }

  /** `handleReset` */
  function Reset(c: Controller): (c': Controller)
  {
    var c' := if c.stored.Some? then c.(aborted := c.aborted + {c.stored.value}, stored := None) else c;
    c'.(result := Idle, resetCounter := c.resetCounter + 1)
  }

  /** `x || null` for a string field: the empty string is falsy. */
  function OrNull(s: Option<string>): (r: Option<string>)
  {
    if s == Some("") then None else s
  }

  /** The `catch` block: an abort returns silently, anything else becomes the error. */
  function Caught(t: Thrown, current: OCRResult): (r: OCRResult)
  {
    if IsAbortError(t) then current
    else OCRResult(None, None, false, Some(if t.NonError? then UnknownErrorMessage else t.message))
  }

  /** The result once the `try` block has run against outcome `o`. */
  function Settled(current: OCRResult, o: Outcome): (r: OCRResult)
  {
    match o
    case Responded(body) => OCRResult(body.nutrients, OrNull(body.analysis), false, None)
    case NotOk => Caught(ErrorObject(ProcessFailedMessage), current)
    case Rejected(t) => Caught(t, current)
  }

  /**
   * What the awaiting code of handle `h` receives, assuming every abort
   * reaches it as an "AbortError". `DeliveredAsWritten` below drops that
   * assumption.
   */
  function Delivered(c: Controller, h: Handle, o: Outcome): (o': Outcome)
  {
    if h in c.aborted then Rejected(AbortRejection) else o
  }

  predicate Pending(c: Controller, h: Handle)
  {
    h < c.issued && h !in c.settled
  }

  /** `handleFileSelected` after the `await`, for handle `h`. */
  function Settle(c: Controller, h: Handle, o: Outcome): (c': Controller)
    requires Pending(c, h)
  {
    c.(result := Settled(c.result, Delivered(c, h, o)), settled := c.settled + {h})
  }

  // ---- An abort that arrives after the body was read ----

  /**
   * Aborting errors the response body only while it is still readable. When
   * the abort lands after `response.json()` has read the whole body but before
   * its parse task has run (`bodyRead`), the parsed body is still delivered.
   */
  function DeliveredAsWritten(c: Controller, h: Handle, o: Outcome, bodyRead: bool): (o': Outcome)
  {
    if h in c.aborted && !(bodyRead && o.Responded?) then Rejected(AbortRejection) else o
  }

  /** `handleFileSelected` after the `await` as written: no check of `controller.signal.aborted`. */
  function SettleAsWritten(c: Controller, h: Handle, o: Outcome, bodyRead: bool): (c': Controller)
    requires Pending(c, h)
  {
    c.(result := Settled(c.result, DeliveredAsWritten(c, h, o, bodyRead)), settled := c.settled + {h})
  }

  /**
   * Two submissions in a row, the first request's body already read when the
   * second submission aborts it: as written, the first response overwrites
   * the loading state of the second, and the controller invariant breaks.
   */
  lemma LateAbortWritesAsWritten(c: Controller, body: ResponseBody)
    requires Inv(c)
    ensures var later := Submit(Submit(c));
      && Pending(later, c.issued) && c.issued in later.aborted
      && SettleAsWritten(later, c.issued, Responded(body), true).result
         == OCRResult(body.nutrients, OrNull(body.analysis), false, None)
      && SettleAsWritten(later, c.issued, Responded(body), true).result != later.result
      && !Inv(SettleAsWritten(later, c.issued, Responded(body), true))
  {
  }

  /**
   * The settle with `if (controller.signal.aborted) return;` before any
   * `setResult`: an aborted handle never writes, however late the abort came,
   * and the result is `Settle`, which the rest of the model uses.
   */
  function SettleGuarded(c: Controller, h: Handle, o: Outcome, bodyRead: bool): (c': Controller)
    requires Pending(c, h)
    ensures h in c.aborted ==> c'.result == c.result
    ensures h !in c.aborted ==> c' == SettleAsWritten(c, h, o, bodyRead)
    ensures c' == Settle(c, h, o)
  {
    if h in c.aborted then c.(settled := c.settled + {h}) else SettleAsWritten(c, h, o, bodyRead)
  }

  /**
   * The controller's invariant: only the latest handle can be stored and it is
   * the only handle not aborted; the result is loading exactly while the
   * stored request is outstanding, and loading, error and empty results have
   * their fixed shapes.
   */
  predicate Inv(c: Controller)
  {
    && (c.stored.Some? ==> c.stored.value + 1 == c.issued)
    && (forall h :: h in c.aborted ==> h < c.issued)
    && (forall h :: h in c.settled ==> h < c.issued)
    && (forall h: nat :: h < c.issued ==> (h in c.aborted <==> c.stored != Some(h)))
    && (c.result.isLoading <==> c.stored.Some? && c.stored.value !in c.settled)
    && (c.result.isLoading ==> c.result == Loading)
    && c.result.analysis != Some("")
    && (c.result.error.Some? ==> c.result.nutrients.None? && c.result.analysis.None? && !c.result.isLoading)
  }

  lemma InitialInv()
    ensures Inv(Initial)
  {
  }

  /**
   * Submitting aborts the stored handle, stores a fresh one that nobody has
   * aborted, and shows the loading result with everything else cleared.
   */
  lemma SubmitEffect(c: Controller)
    requires Inv(c)
    ensures c.stored.Some? ==> c.stored.value in Submit(c).aborted
    ensures Submit(c).stored == Some(c.issued) && c.issued !in Submit(c).aborted
    ensures Pending(Submit(c), c.issued)
    ensures Submit(c).result == OCRResult(None, None, true, None)
    ensures Inv(Submit(c))
  {
  }

  /** Reset aborts and clears the handle, restores the idle result and bumps the counter by one. */
  lemma ResetEffect(c: Controller)
    requires Inv(c)
    ensures c.stored.Some? ==> c.stored.value in Reset(c).aborted
    ensures Reset(c).stored.None?
    ensures Reset(c).result == OCRResult(None, None, false, None)
    ensures Reset(c).resetCounter == c.resetCounter + 1
    ensures forall h: nat :: h < Reset(c).issued ==> h in Reset(c).aborted
    ensures Inv(Reset(c))
  {
  }

  /** A request whose handle was aborted settles without touching the result. */
  lemma StaleCompletionIgnored(c: Controller, h: Handle, o: Outcome)
    requires Pending(c, h) && h in c.aborted
    ensures Settle(c, h, o).result == c.result
  {
  }

  /**
   * A completion changes the result only if it belongs to the stored handle,
   * which is the most recent submission.
   */
  lemma OnlyLatestWrites(c: Controller, h: Handle, o: Outcome)
    requires Inv(c) && Pending(c, h)
    requires Settle(c, h, o).result != c.result
    ensures c.stored == Some(h) && h + 1 == c.issued && h !in c.aborted
  {
  }

  /**
   * The live request's outcome: a response sets nutrients and analysis
   * without error (a missing nutrients field and a missing or empty analysis
   * become null; an empty nutrients record, being truthy, is kept); a non-ok
   * response and any other failure clear both and record the message.
   */
  lemma LiveCompletion(c: Controller, h: Handle, o: Outcome)
    requires Inv(c) && Pending(c, h) && h !in c.aborted && FromNetwork(o)
    ensures var r := Settle(c, h, o).result;
      && !r.isLoading
      && (o.Responded? ==> r == OCRResult(o.body.nutrients, OrNull(o.body.analysis), false, None))
      && (o.NotOk? ==> r == OCRResult(None, None, false, Some(ProcessFailedMessage)))
      && (o.Rejected? && o.thrown.NonError? ==> r == OCRResult(None, None, false, Some(UnknownErrorMessage)))
      && (o.Rejected? && !o.thrown.NonError? ==> r == OCRResult(None, None, false, Some(o.thrown.message)))
  {
  }

  lemma SettlePreservesInv(c: Controller, h: Handle, o: Outcome)
    requires Inv(c) && Pending(c, h) && FromNetwork(o)
    ensures Inv(Settle(c, h, o))
  {
  }

  /** At most one handle is not aborted, and it is the stored one. */
  lemma AtMostOneLive(c: Controller, h: Handle, h': Handle)
    requires Inv(c)
    requires h < c.issued && h !in c.aborted
    requires h' < c.issued && h' !in c.aborted
    ensures h == h' && c.stored == Some(h)
  {
  }

  // ---- Arbitrary interleavings of user events and completions ----

  datatype Event = FileSelected | ResetClicked | Completed(h: Handle, outcome: Outcome)

  function Step(c: Controller, e: Event): (c': Controller)
  {
    match e
    case FileSelected => Submit(c)
    case ResetClicked => Reset(c)
    case Completed(h, o) => if Pending(c, h) then Settle(c, h, o) else c
  }

  function Run(c: Controller, es: seq<Event>): (c': Controller)
    decreases |es|
  {
    if es == [] then c else Run(Step(c, es[0]), es[1..])
  }

  predicate AllFromNetwork(es: seq<Event>)
  {
    forall i :: 0 <= i < |es| && es[i].Completed? ==> FromNetwork(es[i].outcome)
  }

  /** The invariant holds after every interleaving of submissions, resets and completions. */
  lemma {:induction false} RunPreservesInv(c: Controller, es: seq<Event>)
    requires Inv(c) && AllFromNetwork(es)
    ensures Inv(Run(c, es))
    decreases |es|
  {
    if es != [] {
      match es[0] {
        case FileSelected => SubmitEffect(c);
        case ResetClicked => ResetEffect(c);
        case Completed(h, o) =>
          assert FromNetwork(es[0].outcome);
          if Pending(c, h) { SettlePreservesInv(c, h, o); }
      }
      assert AllFromNetwork(es[1..]) by {
        forall i | 0 <= i < |es[1..]| && es[1..][i].Completed?
          ensures FromNetwork(es[1..][i].outcome)
        {
          assert es[1..][i] == es[i + 1];
        }
      }
      RunPreservesInv(Step(c, es[0]), es[1..]);
    }
  }

  predicate Supersedes(e: Event)
  {
    e.FileSelected? || e.ResetClicked?
  }

  /** Handle `h` is either the stored one or already aborted. */
  predicate Tracked(c: Controller, h: Handle)
  {
    h < c.issued && (h in c.aborted || c.stored == Some(h))
  }

  lemma {:induction false} TrackedAfterRun(c: Controller, h: Handle, es: seq<Event>)
    requires Tracked(c, h)
    ensures Tracked(Run(c, es), h)
    ensures h in c.aborted ==> h in Run(c, es).aborted
    ensures (exists i :: 0 <= i < |es| && Supersedes(es[i])) ==> h in Run(c, es).aborted
    decreases |es|
  {
    if es != [] {
      var c' := Step(c, es[0]);
      assert Tracked(c', h);
      assert Supersedes(es[0]) ==> h in c'.aborted;
      TrackedAfterRun(c', h, es[1..]);
      if exists i :: 0 <= i < |es| && Supersedes(es[i]) {
        var i :| 0 <= i < |es| && Supersedes(es[i]);
        if i > 0 {
          assert Supersedes(es[1..][i - 1]);
        }
      }
    }
  }

  /**
   * Once any later submission or reset has happened, the request issued by a
   * submission can no longer write the result, whatever else interleaves.
   */
  lemma SupersededNeverWrites(c: Controller, es: seq<Event>, k: nat, o: Outcome)
    requires k < |es| && Supersedes(es[k])
    requires Pending(Run(Submit(c), es), c.issued)
    ensures var later := Run(Submit(c), es);
      Settle(later, c.issued, o).result == later.result
  {
    var start := Submit(c);
    assert Tracked(start, c.issued);
    TrackedAfterRun(start, c.issued, es);
    StaleCompletionIgnored(Run(start, es), c.issued, o);
  }

  /**
   * A camera photo is handed to the controller twice in a row: the first of
   * the two requests is aborted at once and only the second can write.
   */
  lemma DoubleSubmitAbortsFirst(c: Controller)
    requires Inv(c)
    ensures c.issued in Submit(Submit(c)).aborted && c.issued + 1 !in Submit(Submit(c)).aborted
    ensures Submit(Submit(c)).stored == Some(c.issued + 1) && Submit(Submit(c)).issued == c.issued + 2
    ensures Submit(Submit(c)).result.isLoading
  {
  }

  // ---- What the page renders ----

  /** Line 114: the summary section is mounted. */
  predicate SummaryShown(r: OCRResult)
  {
    r.nutrients.Some? || NutritionSummary.Truthy(r.analysis) || r.isLoading
  }

  /**
   * The summary section is shown exactly when there are nutrients, an
   * analysis or a request in flight, and then the summary renders something.
   */
  lemma SummaryShownIff(c: Controller)
    requires Inv(c)
    ensures SummaryShown(c.result) <==> c.result.nutrients.Some? || c.result.analysis.Some? || c.result.isLoading
    ensures SummaryShown(c.result) <==>
      NutritionSummary.Render(c.result.nutrients, c.result.analysis, c.result.isLoading) != NutritionSummary.Nothing
  {
    NutritionSummary.RenderBranches(c.result.nutrients, c.result.analysis, c.result.isLoading);
  }

  /** A failed request leaves the summary hidden: the error text itself is never rendered. */
  lemma FailureHidesSummary(c: Controller)
    requires Inv(c) && c.result.error.Some?
    ensures !SummaryShown(c.result)
  {
  }

  // ---- The component's state, updated in place ----

  class HomePage {
    var result: OCRResult
    /** `abortControllerRef.current` */
    var abortControllerRef: Option<Handle>
    var issued: nat
    var aborted: set<Handle>
    var settled: set<Handle>
    var resetCounter: nat

    function State(): (c: Controller)
      reads this
    {
      Controller(result, abortControllerRef, issued, aborted, settled, resetCounter)
    }

    constructor ()
      ensures State() == Initial && Inv(State())
    {
      result := Idle;
      abortControllerRef := None;
      issued, aborted, settled := 0, {}, {};
      resetCounter := 0;
    }

    /** The synchronous part of `handleFileSelected`; returns the new request's handle. */
    method HandleFileSelected() returns (controller: Handle)
      modifies this
      ensures State() == Submit(old(State()))
      ensures controller == old(issued) && abortControllerRef == Some(controller)
      ensures Inv(old(State())) ==> Inv(State())
    {
      if abortControllerRef.Some? {
        aborted := aborted + {abortControllerRef.value};
      }
      controller := issued;
      issued := issued + 1;
      abortControllerRef := Some(controller);
      result := Loading;
      if Inv(old(State())) { SubmitEffect(old(State())); }
    }

    /** The rest of `handleFileSelected` once request `h` settles with `outcome`. */
    method RequestSettled(h: Handle, outcome: Outcome)
      requires Pending(State(), h)
      modifies this
      ensures State() == Settle(old(State()), h, outcome)
      ensures Inv(old(State())) && FromNetwork(outcome) ==> Inv(State())
    {
      settled := settled + {h};
      var failed := true;
      var thrown := NonError;
      if h in aborted {
        thrown := AbortRejection;
      } else {
        match outcome
        case NotOk =>
          thrown := ErrorObject(ProcessFailedMessage);
        case Rejected(t) =>
          thrown := t;
        case Responded(body) =>
          result := OCRResult(body.nutrients, if body.analysis == Some("") then None else body.analysis, false, None);
          failed := false;
      }
      if failed && !IsAbortError(thrown) {
        var errorMessage := if thrown.NonError? then UnknownErrorMessage else thrown.message;
        result := OCRResult(None, None, false, Some(errorMessage));
      }
      if Inv(old(State())) && FromNetwork(outcome) { SettlePreservesInv(old(State()), h, outcome); }
    }

    /** `handleReset` */
    method HandleReset()
      modifies this
      ensures State() == Reset(old(State()))
      ensures Inv(old(State())) ==> Inv(State())
    {
      if abortControllerRef.Some? {
        aborted := aborted + {abortControllerRef.value};
        abortControllerRef := None;
      }
      result := Idle;
      resetCounter := resetCounter + 1;
      if Inv(old(State())) { ResetEffect(old(State())); }
    }
  }
}

/**
 * The ad-view dialog: an open flag, a `viewed` flag and a `loading` flag,
 * changed by the start and close buttons and by the end of the simulated
 * playback; the random draw and the end of the delay are inputs.
 */
module AdInteractionModal {

  /** A view succeeds when the draw exceeds this value (an 80% chance for a uniform draw in [0, 1)). */
  const FAILURE_CUTOFF: real := 0.2

  function ViewSucceeded(draw: real): bool
  {
    draw > FAILURE_CUTOFF
  }

  lemma OutcomeThreshold(draw: real)
    ensures ViewSucceeded(draw) <==> draw > 0.2
    ensures ViewSucceeded(0.5) && !ViewSucceeded(0.2) && !ViewSucceeded(0.1)
  {
  }

  datatype Description = SuccessText | FailureText | PromptText
  datatype Icon = CheckIcon | CrossIcon
  datatype Caption = RewardText | RetryText
  datatype Body = ResultPanel(icon: Icon, caption: Caption) | AdArea(loadingText: bool)
  datatype StartButton = Hidden | Shown(disabled: bool, watchingLabel: bool)
  datatype ModalView = ModalView(open: bool, description: Description, body: Body, start: StartButton)

  /** The rendered dialog, with the nested conditionals as written. */
  function Render(isOpen: bool, viewed: bool, loading: bool): ModalView
  {
    ModalView(
      isOpen,
      if viewed then (if viewed then SuccessText else FailureText) else PromptText,
      if viewed then ResultPanel(if viewed then CheckIcon else CrossIcon, if viewed then RewardText else RetryText)
      else AdArea(loading),
      if !viewed then Shown(loading, loading) else Hidden)
  }

  /** The failure text, icon and caption never render: `viewed` is false exactly when they would be chosen. */
  lemma FailureBranchesUnreachable(isOpen: bool, viewed: bool, loading: bool)
    ensures Render(isOpen, viewed, loading).description != FailureText
    ensures Render(isOpen, viewed, loading).body != ResultPanel(CrossIcon, RetryText)
    ensures Render(isOpen, viewed, loading).body.ResultPanel? ==>
              Render(isOpen, viewed, loading).body == ResultPanel(CheckIcon, RewardText)
  {
  }

  /** The start button shows only while nothing has been viewed, and is disabled while loading. */
  lemma StartButtonRule(isOpen: bool, viewed: bool, loading: bool)
    ensures Render(isOpen, viewed, loading).start.Shown? <==> !viewed
    ensures Render(isOpen, viewed, loading).start.Shown? ==> Render(isOpen, viewed, loading).start.disabled == loading
  {
  }

  /** One call `onAdViewed(adId, success)`. */
  datatype Report = Report(adId: string, success: bool)

  class Modal {
    const adId: string
    var isOpen: bool
    var viewed: bool
    var loading: bool
    var reports: seq<Report>

    constructor (adId: string)
      ensures this.adId == adId && !isOpen && !viewed && !loading && reports == []
    {
      this.adId := adId;
      isOpen, viewed, loading := false, false, false;
      reports := [];
    }

    function View(): ModalView
      reads this
    {
      Render(isOpen, viewed, loading)
    }

    /** `onOpenChange`/the trigger button: `setIsOpen(open)`. */
    method SetOpen(open: bool)
      modifies this`isOpen
      ensures isOpen == open
    {
      isOpen := open;
    }

    /** A click on the start button runs `handleViewAd` up to its delay; a hidden or disabled button ignores it. */
    method ClickStart()
      modifies this`loading
      ensures old(View().start) == Shown(false, false) ==> loading
      ensures old(View().start) != Shown(false, false) ==> loading == old(loading)
    {
      if !viewed && !loading {
        loading := true;
      }
    }

    /** The playback delay ends with the given draw: the rest of `handleViewAd`. */
    method AdDelayElapsed(draw: real)
      requires loading
      modifies this`viewed, this`loading, this`reports
      ensures viewed == ViewSucceeded(draw)
      ensures reports == old(reports) + [Report(adId, ViewSucceeded(draw))]
      ensures !loading
    {
      var success := ViewSucceeded(draw);
      viewed := success;
      reports := reports + [Report(adId, success)];
      loading := false;
    }

    /** `handleClose`: close and forget the outcome, whatever the state; `loading` is left alone. */
    method HandleClose()
      modifies this`isOpen, this`viewed
      ensures !isOpen && !viewed
    {
      isOpen := false;
      viewed := false;
    }
  }

  /**
   * Open, start, let the delay end with a failing draw: one report `(adId, false)`, and the dialog
   * shows the initial prompt, the ad area and an enabled start button again.
   */
  method FailedViewScenario(adId: string) returns (reports: seq<Report>, view: ModalView)
    ensures reports == [Report(adId, false)]
    ensures view == ModalView(true, PromptText, AdArea(false), Shown(false, false))
  {
    var m := new Modal(adId);
    m.SetOpen(true);
    m.ClickStart();
    m.AdDelayElapsed(0.1);
    reports, view := m.reports, m.View();
  }

  /** After a successful draw the start button is gone and the reward shows. */
  method SuccessfulViewScenario(adId: string) returns (reports: seq<Report>, view: ModalView)
    ensures reports == [Report(adId, true)]
    ensures view == ModalView(true, SuccessText, ResultPanel(CheckIcon, RewardText), Hidden)
  {
    var m := new Modal(adId);
    m.SetOpen(true);
    m.ClickStart();
    m.AdDelayElapsed(0.9);
    reports, view := m.reports, m.View();
  }
}

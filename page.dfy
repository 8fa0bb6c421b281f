/**
 * The page's request lifecycle (frontend/pages/index.tsx): the form fields,
 * the abort controller of the latest submission, and the two kinds of timer
 * a submission arms (the 300-second timeout and the 3-second publication
 * after a successful response). Every handler and every callback is a
 * method; the browser may run the callbacks in any order their
 * preconditions allow.
 */
module FetchPage {
  import opened Wrappers
  import opened UrlRules

  datatype Theme = Light | Dark

  /** The theme toggle's update: light becomes dark and dark becomes light. */
  function Toggled(t: Theme): (r: Theme)
    ensures r != t
  {
    if t == Light then Dark else Light
  }

  /** Two toggles restore the original theme. */
  lemma ToggleTwice(t: Theme)
    ensures Toggled(Toggled(t)) == t
  {
  }

  /** The fields of a successful response that the page shows. */
  datatype VideoInfo = VideoInfo(
    title: string,
    thumbnail: string,
    downloadUrl: string,
    captions: Option<string>,
    postCaption: Option<string>,
    filesizeMb: Option<real>)

  /** The form `handleSubmit` posts, and the controller whose signal it carries. */
  datatype Request = Request(url: string, quality: string, signal: AbortController)

  /** How the awaited fetch and JSON parse can end up in the catch block. */
  datatype Failure =
    | AbortError                   // the request's controller was aborted
    | ApiError(detail: string)     // a non-ok response; "" when the body has no truthy `detail`
    | OtherError(message: string)  // a network failure or a body that is not JSON

  const FallbackApiMessage := "Failed to fetch video info."
  const FallbackMessage := "Something went wrong. Try again later."
  const TimeoutMessage := "Download taking too long. Try again later."
  const CancelledMessage := "Fetch cancelled."

  /** The `message` of the error the catch block receives. */
  function ThrownMessage(f: Failure): string
  {
    match f
    case AbortError => ""
    case ApiError(detail) => if detail == "" then FallbackApiMessage else detail
    case OtherError(message) => message
  }

  /**
   * What the catch block does to the error text: nothing for an abort,
   * otherwise the thrown message, or a generic text when that is empty.
   */
  function CatchMessage(f: Failure): (m: Option<string>)
    ensures m.None? <==> f.AbortError?
    ensures m.Some? ==> m.value != ""
    ensures f.ApiError? ==> m.value != FallbackMessage || f.detail == FallbackMessage
    ensures f.ApiError? && f.detail != "" ==> m == Some(f.detail)
    ensures f.OtherError? && f.message != "" ==> m == Some(f.message)
    ensures f == ApiError("") ==> m == Some(FallbackApiMessage)
    ensures f == OtherError("") ==> m == Some(FallbackMessage)
  {
    if f.AbortError? then None
    else if ThrownMessage(f) == "" then Some(FallbackMessage)
    else Some(ThrownMessage(f))
  }

  /** The abort controller of one submission. */
  class AbortController {
    var aborted: bool

    constructor ()
      ensures !aborted
    {
      aborted := false;
    }

    method Abort()
      modifies this
      ensures aborted
    {
      aborted := true;
    }
  }

  /** All of the page's state, for stating what a handler changes. */
  datatype Snapshot = Snapshot(
    videoUrl: string,
    quality: string,
    theme: Theme,
    platform: string,
    loading: bool,
    merging: bool,
    progress: int,
    error: string,
    videoData: Option<VideoInfo>,
    controllerRef: AbortController?,
    armedTimeouts: set<AbortController>,
    scheduledMerges: seq<VideoInfo>)

  class Page {
    var videoUrl: string
    var quality: string
    var theme: Theme
    var platform: string
    var loading: bool
    var merging: bool
    var progress: int
    var error: string
    var videoData: Option<VideoInfo>
    var controllerRef: AbortController?
    /** The controllers whose submission still has its 300-second timeout armed. */
    var armedTimeouts: set<AbortController>
    /** Responses waiting for their 3-second publication, in the order the timers fire. */
    var scheduledMerges: seq<VideoInfo>

    ghost function State(): Snapshot
      reads this
    {
      Snapshot(videoUrl, quality, theme, platform, loading, merging, progress, error,
               videoData, controllerRef, armedTimeouts, scheduledMerges)
    }

    /**
     * The badge always matches the text in the field, "Merging..." is shown
     * only while a publication is pending, and progress stays in 0..100.
     */
    ghost predicate Valid()
      reads this
    {
      && platform == DetectPlatform(videoUrl)
      && (merging ==> scheduledMerges != [])
      && 0 <= progress <= 100
    }

    constructor ()
      ensures Valid()
      ensures State() == Snapshot("", "best", Light, "", false, false, 0, "", None, null, {}, [])
    {
      videoUrl, quality, theme, platform := "", "best", Light, "";
      loading, merging, progress, error, videoData := false, false, 0, "", None;
      controllerRef, armedTimeouts, scheduledMerges := null, {}, [];
    }

    /**
     * `handleSubmit` up to the awaited fetch. A blank or unrecognised URL
     * only sets the error. Otherwise the previous controller is aborted, a
     * new one is installed, the timeout is armed and the cleaned URL is sent
     * with the selected quality.
     */
    method Submit() returns (checked: Result<string, string>, sent: Option<Request>)
      requires Valid()
      modifies this, controllerRef
      ensures Valid()
      ensures checked.Err? ==>
        && sent == None
        && State() == old(State()).(error := checked.error)
        && (old(controllerRef) != null ==> old(controllerRef).aborted == old(controllerRef.aborted))
      ensures checked.Ok? ==>
        && controllerRef != null && fresh(controllerRef) && !controllerRef.aborted
        && (old(controllerRef) != null ==> old(controllerRef).aborted)
        && sent == Some(Request(checked.value, old(quality), controllerRef))
        && State() == old(State()).(
             loading := true, merging := false, error := "", videoData := None,
             progress := if old(loading) then old(progress) else 0,
             controllerRef := controllerRef,
             armedTimeouts := old(armedTimeouts) + {controllerRef})
      ensures checked == Validate(old(videoUrl))
    {
      checked := Validate(videoUrl);
      if checked.Err? {
        ShowError(checked.error);
        sent := None;
      } else {
        var request := StartRequest(checked.value);
        sent := Some(request);
      }
    }

    /** A refused submission only sets the error text. */
    method ShowError(message: string)
      requires Valid()
      modifies this
      ensures Valid()
      ensures State() == old(State()).(error := message)
    {
      error := message;
    }

    /** `setPlatform(detectPlatform(videoUrl))`: under Valid the badge is already current. */
    method RefreshBadge()
      requires Valid()
      modifies this
      ensures State() == old(State())
    {
      platform := DetectPlatform(videoUrl);
    }

    /** `controllerRef.current?.abort()`: the page's own fields stay as they are. */
    method AbortCurrent()
      modifies controllerRef
      ensures controllerRef != null ==> controllerRef.aborted
      ensures State() == old(State())
    {
      if controllerRef != null {
        controllerRef.Abort();
      }
    }

    /**
     * The part of `handleSubmit` after the checks: the badge is recomputed,
     * the previous controller is aborted, a fresh one is installed, the
     * timeout is armed and the state shows loading.
     */
    method StartRequest(cleanedUrl: string) returns (sent: Request)
      requires Valid()
      modifies this, controllerRef
      ensures Valid()
      ensures controllerRef != null && fresh(controllerRef) && !controllerRef.aborted
      ensures old(controllerRef) != null ==> old(controllerRef).aborted
      ensures sent == Request(cleanedUrl, old(quality), controllerRef)
      ensures State() == old(State()).(
                loading := true, merging := false, error := "", videoData := None,
                progress := if old(loading) then old(progress) else 0,
                controllerRef := controllerRef,
                armedTimeouts := old(armedTimeouts) + {controllerRef})
    {
      RefreshBadge();
      AbortCurrent();
      var controller := Install();
      sent := Request(cleanedUrl, quality, controller);
    }

    /**
     * A fresh controller becomes the current one with its timeout armed,
     * and the page shows loading with no error and no result.
     */
    method Install() returns (controller: AbortController)
      requires Valid()
      modifies this
      ensures Valid()
      ensures fresh(controller) && !controller.aborted
      ensures State() == old(State()).(
                loading := true, merging := false, error := "", videoData := None,
                progress := if old(loading) then old(progress) else 0,
                controllerRef := controller,
                armedTimeouts := old(armedTimeouts) + {controller})
    {
      controller := new AbortController();
      // the progress effect restarts from 0 when `loading` turns true
      var restarted := if loading then progress else 0;
      controllerRef, armedTimeouts := controller, armedTimeouts + {controller};
      loading, merging, progress, error, videoData := true, false, restarted, "", None;
    }

    /**
     * The fetch and its JSON body resolved with an ok status: the timeout is
     * cleared, progress jumps to 100, "Merging..." shows and the publication
     * is scheduled. A signal already aborted would have rejected instead.
     */
    method ResponseOk(signal: AbortController, data: VideoInfo)
      requires Valid()
      requires !signal.aborted
      modifies this
      ensures Valid()
      ensures State() == old(State()).(
                progress := 100, merging := true,
                armedTimeouts := old(armedTimeouts) - {signal},
                scheduledMerges := old(scheduledMerges) + [data])
    {
      armedTimeouts := armedTimeouts - {signal};
      progress, merging := 100, true;
      scheduledMerges := scheduledMerges + [data];
    }

    /** The 3-second timer fires: the oldest scheduled response is shown and both spinners stop. */
    method MergeDone()
      requires Valid()
      requires scheduledMerges != []
      modifies this
      ensures Valid()
      ensures State() == old(State()).(
                videoData := Some(old(scheduledMerges)[0]), loading := false, merging := false,
                scheduledMerges := old(scheduledMerges)[1..])
    {
      videoData := Some(scheduledMerges[0]);
      loading, merging := false, false;
      scheduledMerges := scheduledMerges[1..];
    }

    /**
     * The catch block: the timeout is cleared, the error text is replaced
     * unless the failure is an abort, and both spinners stop. Only an
     * aborted signal produces an AbortError.
     */
    method FetchFailed(signal: AbortController, f: Failure)
      requires Valid()
      requires f.AbortError? ==> signal.aborted
      modifies this
      ensures Valid()
      ensures State() == old(State()).(
                error := if f.AbortError? then old(error) else CatchMessage(f).value,
                loading := false, merging := false,
                armedTimeouts := old(armedTimeouts) - {signal})
    {
      armedTimeouts := armedTimeouts - {signal};
      var m := CatchMessage(f);
      if m.Some? {
        error := m.value;
      }
      loading, merging := false, false;
    }

    /** The 300-second timer of the submission owning `controller` fires. */
    method Timeout(controller: AbortController)
      requires Valid()
      requires controller in armedTimeouts
      modifies this, controller
      ensures Valid()
      ensures controller.aborted
      ensures State() == old(State()).(
                error := TimeoutMessage, loading := false, merging := false,
                armedTimeouts := old(armedTimeouts) - {controller})
    {
      armedTimeouts := armedTimeouts - {controller};
      error, loading, merging := TimeoutMessage, false, false;
      controller.Abort();
    }

    /**
     * `handleCancel`: aborts the current controller and resets the spinner
     * and progress. It leaves `merging`, the shown result and any scheduled
     * publication alone.
     */
    method Cancel()
      requires Valid()
      modifies this, controllerRef
      ensures Valid()
      ensures old(controllerRef) != null ==> old(controllerRef).aborted
      ensures State() == old(State()).(loading := false, progress := 0, error := CancelledMessage)
    {
      AbortCurrent();
      loading, progress, error := false, 0, CancelledMessage;
    }

    /** `handleUrlChange`: stores the text, recomputes the badge, and cancels only while loading. */
    method UrlChange(newUrl: string)
      requires Valid()
      modifies this, controllerRef
      ensures Valid()
      ensures old(loading) ==>
        && (old(controllerRef) != null ==> old(controllerRef).aborted)
        && State() == old(State()).(
             videoUrl := newUrl, platform := DetectPlatform(newUrl),
             loading := false, progress := 0, error := CancelledMessage)
      ensures !old(loading) ==>
        && (old(controllerRef) != null ==> old(controllerRef).aborted == old(controllerRef.aborted))
        && State() == old(State()).(videoUrl := newUrl, platform := DetectPlatform(newUrl))
    {
      // React applies the three updates together, so their order does not matter
      if loading {
        Cancel();
      }
      videoUrl := newUrl;
      platform := DetectPlatform(newUrl);
    }

    /** `handleThemeToggle`. */
    method ToggleTheme()
      requires Valid()
      modifies this
      ensures Valid()
      ensures State() == old(State()).(theme := Toggled(old(theme)))
    {
      theme := Toggled(theme);
    }

    /**
     * `autoPasteClipboard`: text that matches the pattern as it is (it is not
     * trimmed) replaces the field and the badge; anything else, or a failed
     * clipboard read (None), changes nothing. It never cancels a request.
     */
    method PasteFromClipboard(clipboard: Option<string>)
      requires Valid()
      modifies this
      ensures Valid()
      ensures clipboard.Some? && PatternAccepts(clipboard.value) ==>
        State() == old(State()).(videoUrl := clipboard.value, platform := DetectPlatform(clipboard.value))
      ensures !(clipboard.Some? && PatternAccepts(clipboard.value)) ==> State() == old(State())
    {
      if clipboard.Some? {
        MatcherDecidesPattern(clipboard.value);
        if MatchesPattern(clipboard.value) {
          videoUrl := clipboard.value;
          platform := DetectPlatform(clipboard.value);
        }
      }
    }

    /** The quality selector's `onChange`. */
    method SelectQuality(q: string)
      requires Valid()
      modifies this
      ensures Valid()
      ensures State() == old(State()).(quality := q)
    {
      quality := q;
    }
  }

  // -----------------------------------------------------------------------
  // Event sequences the handlers allow
  // -----------------------------------------------------------------------

  /**
   * The timeout fires, aborts the controller, and the resulting AbortError
   * leaves the timeout's text on screen with both spinners stopped.
   */
  method TimeoutOutlivesAbort(url: string) returns (error: string, loading: bool, merging: bool)
    requires Validate(url).Ok?
    ensures error == TimeoutMessage && !loading && !merging
  {
    var page := new Page();
    page.UrlChange(url);
    var _, sent := page.Submit();
    var signal := sent.value.signal;
    page.Timeout(signal);
    page.FetchFailed(signal, AbortError);
    error, loading, merging := page.error, page.loading, page.merging;
  }

  /**
   * Cancelling during the merge phase stops the spinner but not "Merging...",
   * and the scheduled publication still shows the result beside the
   * "Fetch cancelled." text.
   */
  method CancelDuringMerge(url: string, data: VideoInfo)
    returns (mergingAfterCancel: bool, shown: Option<VideoInfo>, error: string, loading: bool)
    requires Validate(url).Ok?
    ensures mergingAfterCancel
    ensures shown == Some(data) && error == CancelledMessage && !loading
  {
    var page := new Page();
    page.UrlChange(url);
    var _, sent := page.Submit();
    page.ResponseOk(sent.value.signal, data);
    page.Cancel();
    mergingAfterCancel := page.merging;
    page.MergeDone();
    shown, error, loading := page.videoData, page.error, page.loading;
  }

  /** A second submission aborts the first one's controller and installs a live one. */
  method ResubmitAbortsPrevious(url: string) returns (firstAborted: bool, secondAborted: bool, distinct: bool)
    requires Validate(url).Ok?
    ensures firstAborted && !secondAborted && distinct
  {
    var page := new Page();
    page.UrlChange(url);
    var _, first := page.Submit();
    var _, second := page.Submit();
    firstAborted := first.value.signal.aborted;
    secondAborted := second.value.signal.aborted;
    distinct := first.value.signal != second.value.signal;
  }

  /** A URL the checks refuse never reaches a request and never starts loading. */
  method RefusedUrlSendsNothing(url: string) returns (sent: Option<Request>, error: string, loading: bool)
    requires Validate(url).Err?
    ensures sent == None && !loading
    ensures error == EmptyUrlMessage <==> IsBlank(url)
    ensures error == InvalidUrlMessage <==> !IsBlank(url)
  {
    var page := new Page();
    page.UrlChange(url);
    var _, s := page.Submit();
    sent := s;
    error, loading := page.error, page.loading;
  }
}

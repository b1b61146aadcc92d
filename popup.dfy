/** The extension's popup (chrome-extension/popup.tsx). */
module Popup {
  import opened Wrappers
  import opened Text
  import opened Types
  import Background

  /** The summarize status: `'idle' | 'loading' | 'success' | 'error'`. */
  datatype SummarizeStatus = Idle | Summarizing | Sent | Errored

  /** The copy button's status: `'idle' | 'copied'`. */
  datatype CopyStatus = CopyIdle | Copied

  const NotConfigured: string := "Please configure the extension in the options page."
  const NoTabUrl: string := "Cannot get URL from the current tab."
  const UnknownError: string := "An unknown error occurred."
  const CopyFailed: string := "Failed to copy URL."
  const Triggered: string := "Webhook triggered successfully!"

  /** How many characters of an error the popup shows before cutting it off. */
  const MaxShownError: nat := 50

  /**
   * The error text on screen: an error of at most 50 characters as it is, a longer one
   * cut to its first 50 characters followed by "...".
   */
  function DisplayedError(e: string): (shown: string)
    ensures |shown| <= MaxShownError + 3
    ensures |e| <= MaxShownError ==> shown == e
    ensures |e| > MaxShownError ==> |shown| == MaxShownError + 3 && shown[..MaxShownError] == e[..MaxShownError] && shown[MaxShownError..] == "..."
  {
    if |e| > MaxShownError then e[..MaxShownError] + "..." else e
  }

  /** Showing a shown error again changes nothing. */
  lemma DisplayedErrorIdempotent(e: string)
    ensures DisplayedError(DisplayedError(e)) == DisplayedError(e)
  {
    if |e| > MaxShownError {
      var shown := DisplayedError(e);
      assert shown[..MaxShownError] == e[..MaxShownError];
    }
  }

  /** Two long errors look the same on screen exactly when their first 50 characters agree. */
  lemma LongErrorsShownAlike(e1: string, e2: string)
    requires |e1| > MaxShownError && |e2| > MaxShownError
    ensures DisplayedError(e1) == DisplayedError(e2) <==> e1[..MaxShownError] == e2[..MaxShownError]
  {
    if DisplayedError(e1) == DisplayedError(e2) {
      assert e1[..MaxShownError] == DisplayedError(e1)[..MaxShownError];
    }
  }

  /** The popup's state. `handleSummarize` is split at its request; the tab query's answer is a parameter. */
  class PopupView {
    var configs: seq<WebhookConfig>
    var selectedWebhook: string
    var status: SummarizeStatus
    var error: string
    var apiBaseUrl: string
    var copyStatus: CopyStatus

    constructor ()
      ensures configs == [] && selectedWebhook == "" && status == Idle && error == ""
      ensures apiBaseUrl == "" && copyStatus == CopyIdle
    {
      configs, selectedWebhook, status, error, apiBaseUrl, copyStatus := [], "", Idle, "", "", CopyIdle;
    }

    /**
     * `isConfigured`: at least one webhook and a non-empty API server URL, the same test
     * the background worker applies to stored settings before it sends anything.
     */
    predicate IsConfigured()
      reads this
      ensures IsConfigured() <==> Background.Configured(StoredSettings(Some(configs), Some(apiBaseUrl)))
    {
      |configs| > 0 && apiBaseUrl != ""
    }

    /**
     * The summarize button's `disabled` attribute: set while a request is in flight, when
     * no status line is shown.
     */
    predicate SummarizeDisabled()
      reads this
      ensures SummarizeDisabled() ==> StatusLine().None?
    {
      status == Summarizing
    }

    /**
     * The status line under the summarize button, if any. It belongs to the picker, so
     * an unconfigured popup, which shows the setup prompt instead, has none.
     */
    function StatusLine(): (line: Option<string>)
      reads this
      ensures !IsConfigured() ==> line.None?
      ensures IsConfigured() ==> (line.None? <==> status == Idle || status == Summarizing)
      ensures IsConfigured() && status == Sent ==> line == Some(Triggered)
      ensures IsConfigured() && status == Errored ==> line == Some("Error: " + DisplayedError(error))
    {
      if !IsConfigured() then None
      else
        match status
        case Sent => Some(Triggered)
        case Errored => Some("Error: " + DisplayedError(error))
        case _ => None
    }

    /**
     * The load effect: a missing list becomes empty and a missing URL becomes '', and the
     * first webhook, if any, is selected. The popup then asks for setup exactly when a
     * click on the context menu would open the options page instead.
     */
    method Load(stored: StoredSettings)
      modifies this
      ensures configs == stored.webhookConfigs.GetOr([])
      ensures apiBaseUrl == OrElse(stored.apiBaseUrl, "")
      ensures |configs| > 0 ==> selectedWebhook == configs[0].id
      ensures |configs| == 0 ==> selectedWebhook == old(selectedWebhook)
      ensures status == old(status) && error == old(error) && copyStatus == old(copyStatus)
      ensures IsConfigured() <==> Background.Configured(stored)
    {
      configs := stored.webhookConfigs.GetOr([]);
      apiBaseUrl := OrElse(stored.apiBaseUrl, "");
      if |configs| > 0 {
        selectedWebhook := configs[0].id;
      }
    }

    /** The picker's `onChange`. */
    method SelectWebhook(id: string)
      modifies this
      ensures selectedWebhook == id
      ensures configs == old(configs) && status == old(status) && error == old(error)
      ensures apiBaseUrl == old(apiBaseUrl) && copyStatus == old(copyStatus)
    {
      selectedWebhook := id;
    }

    /**
     * `handleSummarize` up to the request, with the active tab (None when the query finds
     * no tab, which makes the handler throw before touching any state). Without a
     * selected webhook or API server URL, or without a tab URL, the error is set and
     * nothing is sent; otherwise the status becomes loading, the error is cleared and the
     * tab's URL is posted to the selected webhook.
     */
    method StartSummarize(activeTab: Option<Tab>) returns (request: Option<WebhookRequest>)
      modifies this
      ensures configs == old(configs) && selectedWebhook == old(selectedWebhook)
      ensures apiBaseUrl == old(apiBaseUrl) && copyStatus == old(copyStatus)
      ensures old(selectedWebhook) == "" || old(apiBaseUrl) == "" ==>
        request == None && error == NotConfigured && status == Errored
      ensures old(selectedWebhook) != "" && old(apiBaseUrl) != "" && activeTab.None? ==>
        request == None && error == old(error) && status == old(status)
      ensures old(selectedWebhook) != "" && old(apiBaseUrl) != "" && activeTab.Some? && !Truthy(activeTab.value.url) ==>
        request == None && error == NoTabUrl && status == Errored
      ensures request.Some? <==>
        old(selectedWebhook) != "" && old(apiBaseUrl) != "" && activeTab.Some? && Truthy(activeTab.value.url)
      ensures request.Some? ==>
        && request.value == WebhookRequest(WebhookUrl(apiBaseUrl, selectedWebhook), activeTab.value.url.value)
        && status == Summarizing && error == ""
      ensures request.Some? ==> SummarizeDisabled()
    {
      if selectedWebhook == "" || apiBaseUrl == "" {
        error := NotConfigured;
        status := Errored;
        return None;
      }
      if activeTab.None? {
        return None;
      }
      var tab := activeTab.value;
      if !Truthy(tab.url) {
        error := NoTabUrl;
        status := Errored;
        return None;
      }
      status := Summarizing;
      error := "";
      request := Some(WebhookRequest(WebhookUrl(apiBaseUrl, selectedWebhook), tab.url.value));
    }

    /**
     * `handleSummarize` after the request: an ok response means success; otherwise the
     * error is the thrown `Error`'s message (for a non-ok response, RequestFailed's) or
     * the fixed text for anything else thrown, and the status is error.
     */
    method FinishSummarize(outcome: FetchOutcome)
      modifies this
      ensures configs == old(configs) && selectedWebhook == old(selectedWebhook)
      ensures apiBaseUrl == old(apiBaseUrl) && copyStatus == old(copyStatus)
      ensures status == Sent <==> Settle(outcome).Success?
      ensures Settle(outcome).Success? ==> error == old(error)
      ensures Settle(outcome).Failure? ==> status == Errored && error == MessageOr(Settle(outcome).error, UnknownError)
      ensures !SummarizeDisabled()
    {
      var settled := Settle(outcome);
      if settled.Success? {
        status := Sent;
      } else {
        error := MessageOr(settled.error, UnknownError);
        status := Errored;
      }
    }

    /**
     * `handleCopyUrl`, with `written` telling whether the clipboard accepted the text.
     * Without a selected webhook or API server URL nothing happens; otherwise the
     * webhook's URL is offered to the clipboard, and on success the button shows
     * "Copied!", on failure the error is set.
     */
    method CopyUrl(written: bool) returns (clipboard: Option<string>)
      modifies this
      ensures configs == old(configs) && selectedWebhook == old(selectedWebhook) && apiBaseUrl == old(apiBaseUrl)
      ensures clipboard.None? <==> selectedWebhook == "" || apiBaseUrl == ""
      ensures clipboard.None? ==> status == old(status) && error == old(error) && copyStatus == old(copyStatus)
      ensures clipboard.Some? ==> clipboard.value == WebhookUrl(apiBaseUrl, selectedWebhook)
      ensures clipboard.Some? && written ==>
        copyStatus == Copied && status == old(status) && error == old(error)
      ensures clipboard.Some? && !written ==>
        copyStatus == old(copyStatus) && status == Errored && error == CopyFailed
    {
      if selectedWebhook == "" || apiBaseUrl == "" {
        return None;
      }
      clipboard := Some(WebhookUrl(apiBaseUrl, selectedWebhook));
      if written {
        copyStatus := Copied;
      } else {
        error := CopyFailed;
        status := Errored;
      }
    }

    /** The copy button's two-second timer: the label goes back to "Copy URL". */
    method ResetCopyStatus()
      modifies this
      ensures copyStatus == CopyIdle
      ensures configs == old(configs) && selectedWebhook == old(selectedWebhook) && apiBaseUrl == old(apiBaseUrl)
      ensures status == old(status) && error == old(error)
    {
      copyStatus := CopyIdle;
    }
  }
}

/** The extension's background worker (chrome-extension/background.ts). */
module Background {
  import opened Wrappers
  import opened Text
  import opened Types
  import Seqs

  /** `CONTEXT_MENU_ID`: the id of the parent menu item. */
  const ContextMenuId: string := "ai_webhook_summarize"
  const ParentTitle: string := "Summarize with AI Webhook"

  /** A context-menu item: its id, its parent's id (none for a top-level item), its title and contexts. */
  datatype MenuItem = MenuItem(id: string, parentId: Option<string>, title: string, contexts: seq<string>)

  /** The top-level item every webhook entry hangs under. */
  const ParentItem: MenuItem := MenuItem(ContextMenuId, None, ParentTitle, ["page"])

  /** The entry for one webhook: its id and name, under the parent item. */
  function ChildItem(c: WebhookConfig): MenuItem {
    MenuItem(c.id, Some(ContextMenuId), c.name, ["page"])
  }

  /**
   * The menu `createOrUpdateContextMenu(configs)` leaves behind: nothing for missing or
   * empty configurations, else the parent item followed by one entry per configuration,
   * in their order.
   */
  function MenuFor(configs: Option<seq<WebhookConfig>>): (items: seq<MenuItem>)
    ensures configs.None? || |configs.value| == 0 ==> items == []
    ensures configs.Some? && |configs.value| > 0 ==>
      && |items| == |configs.value| + 1
      && items[0] == ParentItem
      && forall i :: 0 <= i < |configs.value| ==>
           items[i + 1].id == configs.value[i].id && items[i + 1].title == configs.value[i].name
           && items[i + 1].parentId == Some(ContextMenuId)
           && items[i + 1].contexts == ["page"]
  {
    if configs.None? || |configs.value| == 0 then [] else [ParentItem] + Seqs.Map(configs.value, ChildItem)
  }

  /** Every entry below the parent is a child of the parent item, so its clicks carry the parent's id. */
  lemma ChildrenHangUnderParent(configs: seq<WebhookConfig>, i: nat)
    requires 0 < i < |MenuFor(Some(configs))|
    ensures MenuFor(Some(configs))[i].parentId == Some(ContextMenuId)
    ensures MenuFor(Some(configs))[i].id == configs[i - 1].id
  {
  }

  /**
   * `changes` holds the keys that changed; `updateContextMenu` runs only for the sync
   * area and only when the configurations or the API server URL changed.
   */
  predicate ShouldRebuild(changes: set<string>, namespace: string)
    ensures ShouldRebuild(changes, namespace) <==> namespace == "sync" && changes * {"webhookConfigs", "apiBaseUrl"} != {}
  {
    var watched := {"webhookConfigs", "apiBaseUrl"};
    assert "webhookConfigs" in changes ==> "webhookConfigs" in changes * watched;
    assert "apiBaseUrl" in changes ==> "apiBaseUrl" in changes * watched;
    namespace == "sync" && ("webhookConfigs" in changes || "apiBaseUrl" in changes)
  }

  /** The item that was clicked: its own id and the id of its parent, if any. */
  datatype ClickInfo = ClickInfo(menuItemId: string, parentMenuItemId: Option<string>)

  /** The click guard: there is a tab with a URL, and the clicked item is an entry under the parent item. */
  predicate ClickAccepted(info: ClickInfo, tab: Option<Tab>)
    ensures ClickAccepted(info, tab) <==>
      tab.Some? && tab.value.url.Some? && tab.value.url.value != "" && info.parentMenuItemId == Some(ContextMenuId)
  {
    tab.Some? && Truthy(tab.value.url) && Truthy(info.parentMenuItemId) && info.parentMenuItemId.value == ContextMenuId
  }

  /** Clicking a webhook entry of the menu, in a tab with a URL, is never ignored. */
  lemma ChildClicksAccepted(configs: seq<WebhookConfig>, i: nat, url: string)
    requires 0 < i < |MenuFor(Some(configs))| && url != ""
    ensures ClickAccepted(ClickInfo(MenuFor(Some(configs))[i].id, MenuFor(Some(configs))[i].parentId), Some(Tab(Some(url))))
  {
    ChildrenHangUnderParent(configs, i);
  }

  /** The extension is ready to send: an API server URL is set and at least one webhook is stored. */
  predicate Configured(stored: StoredSettings)
    ensures Configured(stored) <==> OrElse(stored.apiBaseUrl, "") != "" && |stored.webhookConfigs.GetOr([])| > 0
  {
    Truthy(stored.apiBaseUrl) && stored.webhookConfigs.Some? && |stored.webhookConfigs.value| > 0
  }

  const UnknownWebhook: string := "Unknown Webhook"

  /** The name of the first configuration with this id, or 'Unknown Webhook' when there is none or it is empty. */
  function WebhookName(configs: seq<WebhookConfig>, id: string): (name: string)
    ensures name != ""
    ensures FindConfig(configs, id).None? ==> name == UnknownWebhook
    ensures FindConfig(configs, id).Some? && FindConfig(configs, id).value.name != "" ==>
      name == FindConfig(configs, id).value.name
    ensures FindConfig(configs, id).Some? && FindConfig(configs, id).value.name == "" ==> name == UnknownWebhook
  {
    match FindConfig(configs, id)
    case None => UnknownWebhook
    case Some(c) => OrElse(Some(c.name), UnknownWebhook)
  }

  /** A system notification: its title and message. */
  datatype SystemNotification = SystemNotification(title: string, message: string)

  /** What a click did: nothing, opened the options page, or sent a request and then notified. */
  datatype ClickEffect =
    | Ignored
    | OpenedOptions
    | Triggered(request: WebhookRequest, notification: SystemNotification)

  /**
   * The `onClicked` listener, given what storage holds and how `fetch` answers. A click
   * that fails the guard changes nothing; an unconfigured extension opens its options
   * and sends nothing; otherwise the tab's URL is posted to the clicked webhook and the
   * notification is the success one exactly when the response is ok.
   */
  method OnClicked(info: ClickInfo, tab: Option<Tab>, stored: StoredSettings, fetch: WebhookRequest -> FetchOutcome)
    returns (effect: ClickEffect)
    ensures effect.Ignored? <==> !ClickAccepted(info, tab)
    ensures effect.OpenedOptions? <==> ClickAccepted(info, tab) && !Configured(stored)
    ensures effect.Triggered? ==>
      && effect.request == WebhookRequest(WebhookUrl(stored.apiBaseUrl.value, info.menuItemId), tab.value.url.value)
      && (effect.notification.title == "AI Webhook" <==> Settle(fetch(effect.request)).Success?)
    ensures effect.Triggered? && Settle(fetch(effect.request)).Success? ==>
      effect.notification.message == "Webhook for \"" + WebhookName(stored.webhookConfigs.value, info.menuItemId)
        + "\" triggered successfully!"
    ensures effect.Triggered? && Settle(fetch(effect.request)).Failure? ==>
      effect.notification == SystemNotification("AI Webhook Error", "Failed to trigger webhook. "
        + MessageOr(Settle(fetch(effect.request)).error, "See extension console."))
  {
    if !ClickAccepted(info, tab) {
      return Ignored;
    }
    var webhookId := info.menuItemId;
    if !Configured(stored) {
      return OpenedOptions;
    }
    var apiBaseUrl := stored.apiBaseUrl.value;
    var webhookConfigs := stored.webhookConfigs.value;
    var request := WebhookRequest(WebhookUrl(apiBaseUrl, webhookId), tab.value.url.value);
    var webhookName := WebhookName(webhookConfigs, webhookId);
    match Settle(fetch(request)) {
      case Success(_) =>
        effect := Triggered(request, SystemNotification("AI Webhook",
          "Webhook for \"" + webhookName + "\" triggered successfully!"));
      case Failure(thrown) =>
        effect := Triggered(request, SystemNotification("AI Webhook Error",
          "Failed to trigger webhook. " + MessageOr(thrown, "See extension console.")));
    }
  }

  /** The browser's context-menu registry. */
  class ContextMenus {
    var items: seq<MenuItem>

    constructor ()
      ensures items == []
    {
      items := [];
    }

    /** `chrome.contextMenus.removeAll`. */
    method RemoveAll()
      modifies this
      ensures items == []
    {
      items := [];
    }

    /** `chrome.contextMenus.create(item)`: the item joins the menu at the end. */
    method Create(item: MenuItem)
      modifies this
      ensures items == old(items) + [item]
    {
      items := items + [item];
    }

    /**
     * `createOrUpdateContextMenu(configs)`: the menu is cleared, then, unless the
     * configurations are missing or empty, the parent item is created and then one entry
     * per configuration, in order. Whatever the menu held before, it ends as MenuFor(configs).
     */
    method CreateOrUpdate(configs: Option<seq<WebhookConfig>>)
      modifies this
      ensures items == MenuFor(configs)
    {
      RemoveAll();
      if configs.None? || |configs.value| == 0 {
        return;
      }
      var cs := configs.value;
      Create(ParentItem);
      for i := 0 to |cs|
        invariant items == [ParentItem] + Seqs.Map(cs[..i], ChildItem)
      {
        assert cs[..i + 1] == cs[..i] + [cs[i]];
        Seqs.MapAppend(cs[..i], [cs[i]], ChildItem);
        Create(ChildItem(cs[i]));
      }
      assert cs[..|cs|] == cs;
    }

    /** `updateContextMenu`, with what storage holds: a missing list is rebuilt as an empty one. */
    method Update(stored: Option<seq<WebhookConfig>>)
      modifies this
      ensures items == MenuFor(Some(stored.GetOr([])))
    {
      CreateOrUpdate(Some(stored.GetOr([])));
    }

    /** The `storage.onChanged` listener: the menu is rebuilt when ShouldRebuild holds and left alone otherwise. */
    method OnStorageChanged(changes: set<string>, namespace: string, stored: Option<seq<WebhookConfig>>)
      modifies this
      ensures ShouldRebuild(changes, namespace) ==> items == MenuFor(Some(stored.GetOr([])))
      ensures !ShouldRebuild(changes, namespace) ==> items == old(items)
    {
      if ShouldRebuild(changes, namespace) {
        Update(stored);
      }
    }
  }
}

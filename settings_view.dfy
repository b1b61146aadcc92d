/** The dashboard's webhook settings page (components/dashboard/SettingsView.tsx). */
module Settings {
  import opened Wrappers
  import opened Text
  import opened Types
  import Seqs
  import N = Notifications

  /** An entry of the model picker. */
  datatype AiModel = AiModel(id: string, name: string)

  /** `AI_MODELS`: the models a webhook can be given. */
  const AiModels: seq<AiModel> := [AiModel("gemini-2.5-flash", "Gemini 2.5 Flash")]

  const DefaultModelLabel: string := "Default Model"

  /**
   * `AI_MODELS.find(m => m.id === aiModel)?.name || 'Default Model'`: the name of the
   * first model with this id, or the default label when there is none or its name is empty.
   */
  function ModelLabel(models: seq<AiModel>, aiModel: Option<string>): (shown: string)
    ensures shown != ""
    ensures (forall i :: 0 <= i < |models| ==> Some(models[i].id) != aiModel) ==> shown == DefaultModelLabel
    ensures shown == DefaultModelLabel || exists i :: 0 <= i < |models| && Some(models[i].id) == aiModel && models[i].name == shown
    ensures forall i ::
      (0 <= i < |models| && Some(models[i].id) == aiModel
       && forall j :: 0 <= j < i ==> Some(models[j].id) != aiModel)
      ==> shown == (if models[i].name != "" then models[i].name else DefaultModelLabel)
  {
    match Seqs.FindIndex(models, (m: AiModel) => Some(m.id) == aiModel)
    case None => DefaultModelLabel
    case Some(i) => OrElse(Some(models[i].name), DefaultModelLabel)
  }

  /** With the one model on offer, its id is labelled with its name and every other value falls back. */
  lemma ModelLabels(aiModel: Option<string>)
    ensures ModelLabel(AiModels, aiModel)
         == if aiModel == Some("gemini-2.5-flash") then "Gemini 2.5 Flash" else DefaultModelLabel
  {
    if aiModel == Some("gemini-2.5-flash") {
      assert Seqs.FindIndex(AiModels, (m: AiModel) => Some(m.id) == aiModel) == Some(0);
    }
  }

  const EmptyName: string := "Webhook name cannot be empty."
  const UrlCopied: string := "Webhook URL copied to clipboard!"

  /**
   * The page's state: the configurations (held by the dashboard and handed down), the
   * name and model entered for a new webhook, and the notification provider it reports to.
   */
  class SettingsView {
    var webhookConfigs: seq<WebhookConfig>
    var newWebhookName: string
    var newWebhookModel: string
    const notices: N.NotificationCenter

    /** The page opens with an empty name and the first model selected. */
    constructor (configs: seq<WebhookConfig>, notices: N.NotificationCenter)
      ensures webhookConfigs == configs && this.notices == notices
      ensures newWebhookName == "" && newWebhookModel == AiModels[0].id
    {
      webhookConfigs := configs;
      newWebhookName := "";
      newWebhookModel := AiModels[0].id;
      this.notices := notices;
    }

    /** The name field's `onChange`. */
    method SetNewWebhookName(name: string)
      modifies this
      ensures newWebhookName == name
      ensures webhookConfigs == old(webhookConfigs) && newWebhookModel == old(newWebhookModel)
    {
      newWebhookName := name;
    }

    /** The model picker's `onChange`. */
    method SetNewWebhookModel(model: string)
      modifies this
      ensures newWebhookModel == model
      ensures webhookConfigs == old(webhookConfigs) && newWebhookName == old(newWebhookName)
    {
      newWebhookModel := model;
    }

    /**
     * `handleAddWebhook` with the generated id `id` at clock reading `now`. A blank name
     * leaves the list and the field alone and raises an error toast; otherwise the
     * configuration is appended (AddConfig), the field is cleared and a success toast
     * names the trimmed name.
     */
    method AddWebhook(id: string, now: int)
      modifies this, notices
      ensures newWebhookModel == old(newWebhookModel)
      ensures IsBlank(old(newWebhookName)) ==>
        && webhookConfigs == old(webhookConfigs)
        && newWebhookName == old(newWebhookName)
        && notices.notifications == old(notices.notifications) + [N.Notification(now, EmptyName, N.Error)]
      ensures !IsBlank(old(newWebhookName)) ==>
        var name := Trim(old(newWebhookName));
        && Some(webhookConfigs) == AddConfig(old(webhookConfigs), old(newWebhookName), id, Some(old(newWebhookModel)))
        && newWebhookName == ""
        && notices.notifications == old(notices.notifications)
             + [N.Notification(now, "Webhook \"" + name + "\" created successfully!", N.Success)]
    {
      var added := AddConfig(webhookConfigs, newWebhookName, id, Some(newWebhookModel));
      if added.None? {
        notices.AddNotification(EmptyName, N.Error, now);
        return;
      }
      var name := Trim(newWebhookName);
      webhookConfigs := added.value;
      newWebhookName := "";
      notices.AddNotification("Webhook \"" + name + "\" created successfully!", N.Success, now);
    }

    /**
     * `handleDeleteWebhook(id)`: when a configuration has this id, every one with it is
     * removed (the rest keep their order) and a toast names the first; for an unknown id
     * nothing changes and no toast appears.
     */
    method DeleteWebhook(id: string, now: int)
      modifies this, notices
      ensures newWebhookName == old(newWebhookName) && newWebhookModel == old(newWebhookModel)
      ensures FindConfig(old(webhookConfigs), id).None? ==>
        webhookConfigs == old(webhookConfigs) && notices.notifications == old(notices.notifications)
      ensures FindConfig(old(webhookConfigs), id).Some? ==>
        && webhookConfigs == WithoutConfig(old(webhookConfigs), id)
        && notices.notifications == old(notices.notifications) + [N.Notification(now,
             "Webhook \"" + FindConfig(old(webhookConfigs), id).value.name + "\" has been deleted.", N.Success)]
    {
      var found := FindConfig(webhookConfigs, id);
      if found.Some? {
        webhookConfigs := WithoutConfig(webhookConfigs, id);
        notices.AddNotification("Webhook \"" + found.value.name + "\" has been deleted.", N.Success, now);
      }
    }

    /**
     * `handleCopyToClipboard(id)` on a page served from `origin`: the text put on the
     * clipboard is that webhook's URL, and a success toast is raised.
     */
    method CopyToClipboard(id: string, origin: string, now: int) returns (clipboard: string)
      modifies notices
      ensures clipboard == WebhookUrl(origin, id)
      ensures notices.notifications == old(notices.notifications) + [N.Notification(now, UrlCopied, N.Success)]
    {
      clipboard := WebhookUrl(origin, id);
      notices.AddNotification(UrlCopied, N.Success, now);
    }
  }
}

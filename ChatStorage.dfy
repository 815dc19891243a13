// ChatStorageService: the conversation history and the app settings kept
// in the device's key-value store. Each stored key is a field holding the
// decoded value (None when the key is absent); whether a read or a write
// of the store succeeds is a parameter of the operation.
module ChatStorage {
  import opened Common
  import opened KeyedList
  import opened OpenRouter

  datatype ChatConversation = ChatConversation(
    id: string,
    title: string,
    messages: seq<ChatMessage>,
    createdAt: int,
    updatedAt: int)

  datatype Theme = Light | Dark

  datatype AppSettings = AppSettings(selectedModel: string, apiKey: string, theme: Theme, enableHaptics: bool)

  /** The settings `saveApiKey` starts from when none are stored. */
  const DEFAULT_SETTINGS := AppSettings("anthropic/claude-3.5-sonnet", "", Dark, true)

  function ConversationId(c: ChatConversation): string {
    c.id
  }

  /** `settings?.apiKey || null`: an empty key reads as no key. */
  function ApiKeyOf(settings: Option<AppSettings>): (r: Option<string>)
    ensures r.Some? <==> settings.Some? && settings.value.apiKey != ""
    ensures r.Some? ==> r.value == settings.value.apiKey
  {
    if settings.Some? && settings.value.apiKey != "" then Some(settings.value.apiKey) else None
  }

  /** The settings `saveApiKey` writes: the stored ones, or the defaults, with the new key. */
  function WithApiKey(settings: Option<AppSettings>, apiKey: string): (r: AppSettings)
    ensures r.apiKey == apiKey
    ensures settings.Some? ==>
      r.selectedModel == settings.value.selectedModel && r.theme == settings.value.theme && r.enableHaptics == settings.value.enableHaptics
    ensures settings.None? ==> r == DEFAULT_SETTINGS.(apiKey := apiKey)
  {
    var base := if settings.Some? then settings.value else DEFAULT_SETTINGS;
    base.(apiKey := apiKey)
  }

  /** Saving a key and reading it back gives the key, unless it is empty. */
  lemma ApiKeyRoundTrip(settings: Option<AppSettings>, apiKey: string)
    ensures ApiKeyOf(Some(WithApiKey(settings, apiKey))) == if apiKey == "" then None else Some(apiKey)
  {
  }

  /** Saving the same key twice stores the same settings as saving it once. */
  lemma WithApiKeyIdempotent(settings: Option<AppSettings>, apiKey: string)
    ensures WithApiKey(Some(WithApiKey(settings, apiKey)), apiKey) == WithApiKey(settings, apiKey)
  {
  }

  class ChatStorageService {
    /** The `@ai_assistant_chat_history` item. */
    var history: Option<seq<ChatConversation>>
    /** The `@ai_assistant_settings` item. */
    var settings: Option<AppSettings>

    constructor (history: Option<seq<ChatConversation>>, settings: Option<AppSettings>)
      ensures this.history == history && this.settings == settings
    {
      this.history := history;
      this.settings := settings;
    }

    /** `getConversations`: a missing item or a failed read gives the empty list. */
    function GetConversations(readOk: bool): (r: seq<ChatConversation>)
      reads this
      ensures readOk && history.Some? ==> r == history.value
      ensures !(readOk && history.Some?) ==> r == []
    {
      if readOk && history.Some? then history.value else []
    }

    /** `saveConversation`: replaces the conversation with the same id in
        place, or appends it. The read failure is swallowed by
        `getConversations`, so the list written is then the new
        conversation alone; a failed write is reported and changes nothing. */
    method SaveConversation(conversation: ChatConversation, readOk: bool, writeOk: bool) returns (ok: bool)
      modifies this`history
      ensures ok == writeOk
      ensures ok ==> history == Some(Upsert(old(GetConversations(readOk)), conversation, ConversationId))
      ensures ok ==> FindFirst(history.value, ConversationId, conversation.id) == Some(conversation)
      ensures ok && !readOk ==> history == Some([conversation])
      ensures !ok ==> history == old(history)
    {
      var conversations := GetConversations(readOk);
      ghost var before := conversations;
      var index := FindIndex(conversations, ConversationId, conversation.id);
      if index >= 0 {
        conversations := conversations[index := conversation];
      } else {
        conversations := conversations + [conversation];
      }
      if !writeOk {
        return false;
      }
      FindAfterUpsert(before, conversation, ConversationId);
      assert [] + [conversation] == [conversation];
      history := Some(conversations);
      return true;
    }

    /** `deleteConversation`: keeps every conversation with another id. */
    method DeleteConversation(id: string, readOk: bool, writeOk: bool) returns (ok: bool)
      modifies this`history
      ensures ok == writeOk
      ensures ok ==> history == Some(RemoveKey(old(GetConversations(readOk)), ConversationId, id))
      ensures ok ==> FindFirst(history.value, ConversationId, id).None?
      ensures !ok ==> history == old(history)
    {
      var conversations := GetConversations(readOk);
      var filtered := RemoveKey(conversations, ConversationId, id);
      if !writeOk {
        return false;
      }
      FindAfterRemove(conversations, ConversationId, id, id);
      history := Some(filtered);
      return true;
    }

    /** `clearAllConversations`: removes the item. */
    method ClearAllConversations(writeOk: bool) returns (ok: bool)
      modifies this`history
      ensures ok == writeOk
      ensures history == if ok then None else old(history)
    {
      if !writeOk {
        return false;
      }
      history := None;
      return true;
    }

    /** `getSettings`: null when the item is missing or cannot be read. */
    function GetSettings(readOk: bool): (r: Option<AppSettings>)
      reads this
      ensures r.Some? <==> readOk && settings.Some?
      ensures r.Some? ==> r == settings
    {
      if readOk then settings else None
    }

    method SaveSettings(newSettings: AppSettings, writeOk: bool) returns (ok: bool)
      modifies this`settings
      ensures ok == writeOk
      ensures settings == if ok then Some(newSettings) else old(settings)
    {
      if !writeOk {
        return false;
      }
      settings := Some(newSettings);
      return true;
    }

    function GetApiKey(readOk: bool): (r: Option<string>)
      reads this
      ensures r.Some? <==> readOk && settings.Some? && settings.value.apiKey != ""
      ensures r.Some? ==> r.value == settings.value.apiKey
    {
      ApiKeyOf(GetSettings(readOk))
    }

    /** `saveApiKey`: the stored settings (the defaults when there are none
        or they cannot be read) with the key replaced. */
    method SaveApiKey(apiKey: string, readOk: bool, writeOk: bool) returns (ok: bool)
      modifies this`settings
      ensures ok == writeOk
      ensures ok ==> settings == Some(WithApiKey(old(GetSettings(readOk)), apiKey))
      ensures ok ==> GetApiKey(true) == if apiKey == "" then None else Some(apiKey)
      ensures !ok ==> settings == old(settings)
    {
      var current := GetSettings(readOk);
      var updated := if current.Some? then current.value else DEFAULT_SETTINGS;
      updated := updated.(apiKey := apiKey);
      ok := SaveSettings(updated, writeOk);
      ApiKeyRoundTrip(current, apiKey);
    }
  }

  /** Saving a conversation and then deleting its id leaves the list as if
      only the delete had happened. */
  lemma DeleteUndoesSave(history: seq<ChatConversation>, c: ChatConversation)
    ensures RemoveKey(Upsert(history, c, ConversationId), ConversationId, c.id)
         == RemoveKey(history, ConversationId, c.id)
  {
    RemoveAfterUpsert(history, c, ConversationId);
  }

  /** Saving a conversation leaves every other id's conversation where it was. */
  lemma SaveKeepsOthers(history: seq<ChatConversation>, c: ChatConversation, id: string)
    requires id != c.id
    ensures FindFirst(Upsert(history, c, ConversationId), ConversationId, id) == FindFirst(history, ConversationId, id)
  {
    FindOtherAfterUpsert(history, c, ConversationId, id);
  }
}

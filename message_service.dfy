/** src/app/v1/_lib/proxy/message-service.ts: opens the billing record of a proxied request
    once the caller is authenticated and an upstream provider is chosen. */
module MessageService {
  import opened Wrappers
  import opened Json
  import opened Domain
  import opened Session
  import opened MessageRepository

  /** The guard of `ensureContext`: an authenticated state carrying a user and a non-empty key
      (`!authState.apiKey` rejects `""`), and a chosen provider. */
  predicate Eligible(authState: Option<AuthState>, provider: Option<Provider>) {
    && authState.Some? && authState.value.success
    && authState.value.user.Some?
    && authState.value.apiKey.Some? && authState.value.apiKey.value != []
    && provider.Some?
  }

  /** The record `ensureContext` asks the repository to store, when it stores one: the
      provider, the user, the key and the request body, and no duration or cost yet. */
  function PlannedRecord(authState: Option<AuthState>, provider: Option<Provider>, message: Message)
    : (r: Option<CreateMessageData>)
    ensures r.Some? <==> Eligible(authState, provider)
    ensures r.Some? ==> && r.value.providerId == provider.value.id
                        && r.value.userId == authState.value.user.value.id
                        && r.value.key == authState.value.apiKey.value && r.value.key != []
                        && r.value.message == JObject(message)
                        && r.value.durationMs.None? && r.value.costUsd.None?
  {
    if Eligible(authState, provider) then
      Some(CreateMessageData(provider.value.id, authState.value.user.value.id,
                             authState.value.apiKey.value, JObject(message), None, None))
    else None
  }

  /** `ProxyMessageService.ensureContext(session)`: either clears the context, or appends one
      billing row and points the context at it. `now` is the insertion time. */
  method EnsureContext(session: ProxySession, messages: MessageTable, now: int)
    requires messages.Valid() && messages.CanInsertAt(now)
    modifies session, messages
    ensures messages.Valid()
    ensures session.authState == old(session.authState) && session.provider == old(session.provider)
    ensures var planned := PlannedRecord(old(session.authState), old(session.provider), session.request.message);
      match planned
      case None =>
        && session.messageContext.None? && session.userName == old(session.userName)
        && messages.rows == old(messages.rows) && messages.nextId == old(messages.nextId)
      case Some(data) =>
        var row := MessageRow(old(messages.nextId), data.providerId, data.userId, data.key,
                              data.message, None, None, now, now, None);
        && messages.rows == old(messages.rows) + [row] && messages.nextId == old(messages.nextId) + 1
        && session.messageContext == Some(MessageContext(row.id, old(session.authState).value.user.value,
                                                        data.key))
        && session.userName == old(session.authState).value.user.value.name
  {
    var authState := session.authState;
    var provider := session.provider;
    if !Eligible(authState, provider) {
      session.SetMessageContext(None);
      return;
    }
    var user := authState.value.user.value;
    var apiKey := authState.value.apiKey.value;
    var m := messages.CreateMessageRequest(
      CreateMessageData(provider.value.id, user.id, apiKey, JObject(session.request.message), None, None), now);
    session.SetMessageContext(Some(MessageContext(m.id, user, apiKey)));
  }
}

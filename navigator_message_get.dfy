/** `navigator message get` (src/commands/navigator/message/get.ts): the same
    two-phase fetch for a Sales Navigator conversation, with type 'nv' and the
    `nvSyncConversation` workflow. */
module NavigatorMessageGet {

  import opened Wrappers
  import opened Process
  import ConfigStore
  import AuthManager
  import opened LinkedApi
  import opened BaseCommand
  import MessageGet

  /** `navigator message get <person-url> [--since]`. */
  method Run(store: ConfigStore.Store, service: Service, console: Console, flags: BaseFlags, personUrl: string,
             since: Option<string>)
    requires service.Valid() && console.Open()
    modifies store, service, console
    ensures service.Valid()
    ensures store.disk == ConfigStore.Rewritten(old(store.disk))
    ensures var auth := AuthManager.Resolve(ConfigStore.Load(old(store.disk)), flags.account);
            auth.Err? ==> Unauthenticated(service, console, auth.error)
    ensures var auth := AuthManager.Resolve(ConfigStore.Load(old(store.disk)), flags.account);
            auth.Ok? ==>
              Performed(service, console,
                        MessageGet.ConversationFetch(service, old(service.clock), auth.value, personUrl, "nv", "nvSyncConversation", since,
                                          flags.quiet), flags)
  {
    var client := BuildAuthenticatedClient(store, console, flags);
    if client.None? {
      return;
    }
    MessageGet.FetchConversation(service, console, client.value, flags, personUrl, since, "nv", "nvSyncConversation");
  }
}

/** The `/login` dialogue (telegram_bot/handlers/login.py): login, then
    password, then one call that links the chat to the account. */
module LoginDialogue {
  import opened Wrappers
  import opened Fsm

  /** The API call `provider_user.update_telegram_id(login, password, id)`. */
  datatype LinkCall = LinkCall(login: Option<string>, password: Option<string>, telegramId: int)

  /** `/login`: with no signed-in user, ask for the login; otherwise
      "already authorised" and no state change. */
  method HandlerLogin(ctx: FsmContext, user: Option<AccessTokenResponse>) returns (reply: BotReply)
    modifies ctx
    ensures ctx.data == old(ctx.data)
    ensures user.None? ==> reply == Ask("login") && ctx.state == Some(LoginWaitingForLogin)
    ensures user.Some? ==> reply == AlreadyAuthorised && ctx.state == old(ctx.state)
  {
    if user.None? {
      reply := Ask("login");
      ctx.SetState(LoginWaitingForLogin);
    } else {
      reply := AlreadyAuthorised;
    }
  }

  /** The login step: store the text as `login`, ask for the password. */
  method HandleLoginLogin(ctx: FsmContext, text: Option<string>) returns (reply: BotReply)
    requires ctx.state == Some(LoginWaitingForLogin)
    modifies ctx
    ensures ctx.data == old(ctx.data)["login" := text]
    ensures ctx.state == Some(LoginWaitingForPassword)
    ensures reply == Ask("password")
  {
    ctx.UpdateData("login", text);
    reply := Ask("password");
    ctx.SetState(LoginWaitingForPassword);
  }

  /** The password step: link the sender's id to the stored login with the
      typed password; `linked` is what the API client returned. The state is
      cleared whatever the result. */
  method HandleLoginPassword(ctx: FsmContext, text: Option<string>, senderId: int, linked: Option<BotUser>)
    returns (call: LinkCall, reply: BotReply)
    requires ctx.state == Some(LoginWaitingForPassword)
    modifies ctx
    ensures call == LinkCall(old(ctx.Get("login")), text, senderId)
    ensures reply == if linked.Some? then LoggedIn else LoginFailed
    ensures ctx.state == None && ctx.data == map[]
  {
    call := LinkCall(ctx.Get("login"), text, senderId);
    reply := if linked.Some? then LoggedIn else LoginFailed;
    ctx.Clear();
  }
}

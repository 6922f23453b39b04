/** The `/register` dialogue (telegram_bot/handlers/register.py): login, then
    password, then one call to the API. */
module RegisterDialogue {
  import opened Wrappers
  import opened Validation
  import opened UserSchemas
  import opened Fsm

  /** The API call `provider_user.create_user(login, password, telegram_id)`. */
  datatype RegisterCall = RegisterCall(login: Option<string>, password: Option<string>, telegramId: int)

  /** The request body the client posts to `/register`. */
  function RegisterPayload(call: RegisterCall): Body
  {
    map["username" := OptStrToJson(call.login), "password" := OptStrToJson(call.password),
        "telegram_id" := JInt(call.telegramId)]
  }

  /** The server accepts the bot's registration exactly when login and
      password are present, reads them unchanged and ignores the chat id. */
  lemma RegisterPayloadParsed(call: RegisterCall)
    ensures ParseUserCreate(RegisterPayload(call)).Success? <==> call.login.Some? && call.password.Some?
    ensures call.login.Some? && call.password.Some? ==>
      ParseUserCreate(RegisterPayload(call)) == Success(UserCreate(call.login.value, call.password.value))
  {
  }

  /** `/register`: with no signed-in user, ask for the login; otherwise
      "already authorised" and no state change. */
  method HandlerRegister(ctx: FsmContext, user: Option<AccessTokenResponse>) returns (reply: BotReply)
    modifies ctx
    ensures ctx.data == old(ctx.data)
    ensures user.None? ==> reply == Ask("login") && ctx.state == Some(RegisterWaitingForLogin)
    ensures user.Some? ==> reply == AlreadyAuthorised && ctx.state == old(ctx.state)
  {
    if user.None? {
      reply := Ask("login");
      ctx.SetState(RegisterWaitingForLogin);
    } else {
      reply := AlreadyAuthorised;
    }
  }

  /** The login step: store the text as `login`, ask for the password. */
  method HandleRegisterLogin(ctx: FsmContext, text: Option<string>) returns (reply: BotReply)
    requires ctx.state == Some(RegisterWaitingForLogin)
    modifies ctx
    ensures ctx.data == old(ctx.data)["login" := text]
    ensures ctx.state == Some(RegisterWaitingForPassword)
    ensures reply == Ask("password")
  {
    ctx.UpdateData("login", text);
    reply := Ask("password");
    ctx.SetState(RegisterWaitingForPassword);
  }

  /** The password step: register the stored login with the typed password
      and the sender's id; `created` is what the API client returned. The
      state is cleared whether registration succeeded or failed. */
  method HandleRegisterPassword(ctx: FsmContext, text: Option<string>, senderId: int, created: Option<BotUser>)
    returns (call: RegisterCall, reply: BotReply)
    requires ctx.state == Some(RegisterWaitingForPassword)
    modifies ctx
    ensures call == RegisterCall(old(ctx.Get("login")), text, senderId)
    ensures reply == if created.Some? then Registered else RegisterFailed
    ensures ctx.state == None && ctx.data == map[]
  {
    call := RegisterCall(ctx.Get("login"), text, senderId);
    reply := if created.Some? then Registered else RegisterFailed;
    ctx.Clear();
  }
}

/** The two Telegram handlers, `start` (bot_telegram.py, lines 30-109) and
    `button_handler` (lines 112-143), with every transport effect and every
    remote call recorded as an event on a trace. The external services are
    inputs: the active user, what get_balance and get_tiering_info return or
    raise, and the timestamp-to-date conversion. */
module Handlers {
  import opened Wrappers
  import opened Thousands
  import opened Keyboard
  import opened Profile

  /** What triggered the handler: a new /start message; an edited /start
      message, which the command handler also accepts (it arrives as
      `update.edited_message`, so `update.message` is None); or a button press
      (a callback query; `update.message` is None as well). */
  datatype Trigger = Command | EditedCommand | Callback(data: string)

  /** Everything outside the handlers that they consult. `balance` and
      `tiering` are the outcomes of the one call to each service, should it be
      made; `dateOf` is `datetime.fromtimestamp(t).strftime("%Y-%m-%d")`, which
      depends on the local time zone and may raise for a timestamp out of range. */
  datatype Env = Env(
    activeUser: Option<ActiveUser>,
    apiKey: string,
    balance: Result<Balance>,
    tiering: Result<Tiering>,
    dateOf: int -> Result<string>)

  /** One observable effect. `html` is whether parse_mode='HTML' is passed. */
  datatype Event =
    | Answer                                          // query.answer()
    | CallBalance(apiKey: string, idToken: string)    // get_balance(...)
    | CallTiering(apiKey: string, tokens: Tokens)     // get_tiering_info(...)
    | Reply(text: string, markup: Option<Layout>, html: bool)  // reply_text(...): a new message
    | Edit(text: string, layout: Layout, html: bool)           // edit_message_text(...): in place

  /** The effects of one handler run, and the exception that escaped it, if any. */
  datatype Run = Run(trace: seq<Event>, failure: Option<string>)

  /** What `update.message.reply_text(...)` raises when the update is an
      edited message or a callback query, so that `update.message` is None. */
  const NoMessageError: string := "'NoneType' object has no attribute 'reply_text'"

  const EchoPrefix: string := "Anda memilih menu dengan data: "

  // ---------------------------------------------------------------------------
  // Specification

  /** The calls made inside the `try` block, and the profile text it settles on. */
  datatype Attempt = Attempt(calls: seq<Event>, text: string)

  /** The `try`/`except` block of lines 44-69: balance first, then the date
      conversion, then tiering for PREPAID accounts only; the first exception
      becomes the error text. */
  function FetchProfile(user: ActiveUser, env: Env): Attempt
  {
    var balanceCall := [CallBalance(env.apiKey, user.tokens.idToken)];
    match env.balance
    case Raised(e) => Attempt(balanceCall, ErrorText(e))
    case Ok(b) =>
      var remaining := b.remaining.GetOr(0);
      match env.dateOf(b.expiredAt.GetOr(0))
      case Raised(e) => Attempt(balanceCall, ErrorText(e))
      case Ok(date) =>
        if !IsPrepaid(user) then
          Attempt(balanceCall, ProfileText(user, remaining, date, NoPointInfo))
        else
          var calls := balanceCall + [CallTiering(env.apiKey, user.tokens)];
          match env.tiering
          case Raised(e) => Attempt(calls, ErrorText(e))
          case Ok(t) => Attempt(calls, ProfileText(user, remaining, date, PointInfo(t)))
  }

  /** Lines 106-109: a callback query edits its message, a new /start message
      gets a new reply (an edited one has nothing to reply through). */
  function Present(trigger: Trigger, text: string): Event
  {
    if trigger.Callback? then Edit(text, MainKeyboard, true)
    else Reply(text, Some(MainKeyboard), true)
  }

  function StartRun(trigger: Trigger, env: Env): Run
  {
    match env.activeUser
    case None =>
      if trigger.Command? then Run([Reply(NoUserNotice, None, false)], None)
      else Run([], Some(NoMessageError))
    case Some(user) =>
      var attempt := FetchProfile(user, env);
      if trigger.EditedCommand? then Run(attempt.calls, Some(NoMessageError))
      else Run(attempt.calls + [Present(trigger, attempt.text)], None)
  }

  /** The reply to a button other than refresh (lines 129-143). */
  function MenuReply(data: string): Event
  {
    if data == "menu_1" then Reply("Fitur Ganti Akun belum diimplementasikan di Bot.", None, false)
    else if data == "menu_2" then
      Reply("\U{1F4E6} <b>Daftar Paket Anda:</b>\n(Fitur ini butuh modifikasi fungsi fetch_my_packages agar return string)", None, true)
    else if data == "menu_3" then Reply("\U{1F525} <b>Menu Hot</b> dipilih.", None, true)
    else Reply(EchoPrefix + data, None, false)
  }

  function ButtonRun(data: string, env: Env): Run
  {
    if data == RefreshId then
      var refresh := StartRun(Callback(data), env);
      Run([Answer] + refresh.trace, refresh.failure)
    else Run([Answer, MenuReply(data)], None)
  }

  // ---------------------------------------------------------------------------
  // The handlers, step by step

  method Start(trigger: Trigger, env: Env) returns (run: Run)
    ensures run == StartRun(trigger, env)
  {
    var trace: seq<Event> := [];
    if env.activeUser.None? {
      if !trigger.Command? {
        return Run(trace, Some(NoMessageError));
      }
      trace := trace + [Reply(NoUserNotice, None, false)];
      return Run(trace, None);
    }
    var user := env.activeUser.value;

    var profileText: string;
    var raised: Option<string> := None;
    trace := trace + [CallBalance(env.apiKey, user.tokens.idToken)];
    if env.balance.Raised? {
      raised := Some(env.balance.error);
    } else {
      var balance := env.balance.value;
      var remaining := balance.remaining.GetOr(0);
      var expiredAt := balance.expiredAt.GetOr(0);
      var expiredDate := env.dateOf(expiredAt);
      if expiredDate.Raised? {
        raised := Some(expiredDate.error);
      } else {
        var pointInfo := NoPointInfo;
        if user.subscriptionType == Prepaid {
          trace := trace + [CallTiering(env.apiKey, user.tokens)];
          if env.tiering.Raised? {
            raised := Some(env.tiering.error);
          } else {
            pointInfo := PointInfo(env.tiering.value);
          }
        }
        if raised.None? {
          profileText := ProfileText(user, remaining, expiredDate.value, pointInfo);
        }
      }
    }
    if raised.Some? {
      profileText := ErrorText(raised.value);
    }

    var keyboard := MainKeyboard;
    if trigger.Callback? {
      trace := trace + [Edit(profileText, keyboard, true)];
    } else if trigger.EditedCommand? {
      return Run(trace, Some(NoMessageError));
    } else {
      trace := trace + [Reply(profileText, Some(keyboard), true)];
    }
    run := Run(trace, None);
  }

  method ButtonHandler(data: string, env: Env) returns (run: Run)
    ensures run == ButtonRun(data, env)
  {
    var trace := [Answer];
    if data == RefreshId {
      var refresh := Start(Callback(data), env);
      return Run(trace + refresh.trace, refresh.failure);
    }
    var reply := MenuReply(data);
    run := Run(trace + [reply], None);
  }

  // ---------------------------------------------------------------------------
  // Properties of the handlers

  /** Whether the trace shows a call to get_tiering_info. */
  predicate CallsTiering(trace: seq<Event>)
  {
    exists i :: 0 <= i < |trace| && trace[i].CallTiering?
  }

  /** The text of the last event of a non-empty trace that ends in an output. */
  function LastText(trace: seq<Event>): string
    requires |trace| > 0 && (trace[|trace| - 1].Reply? || trace[|trace| - 1].Edit?)
  {
    trace[|trace| - 1].text
  }

  /** Without an active user the notice is the only effect of /start: no
      keyboard, no remote call. On an edited /start or a callback the notice
      cannot be sent at all, because `update.message` is None: nothing is
      output and the handler fails. */
  lemma NoActiveUser(trigger: Trigger, env: Env)
    requires env.activeUser.None?
    ensures trigger.Command? ==> StartRun(trigger, env) == Run([Reply(NoUserNotice, None, false)], None)
    ensures !trigger.Command? ==> StartRun(trigger, env) == Run([], Some(NoMessageError))
  {
  }

  /** With an active user, the balance is requested first, with the user's id
      token, exactly once. A new /start or a callback then ends in one output
      and does not fail; an edited /start outputs nothing and fails. */
  lemma BalanceCalledFirst(trigger: Trigger, env: Env)
    requires env.activeUser.Some?
    ensures var run := StartRun(trigger, env);
      1 <= |run.trace| <= 3 &&
      run.trace[0] == CallBalance(env.apiKey, env.activeUser.value.tokens.idToken) &&
      (forall i :: 0 < i < |run.trace| ==> !run.trace[i].CallBalance?)
    ensures var run := StartRun(trigger, env);
      !trigger.EditedCommand? ==>
        run.failure.None? && 2 <= |run.trace| &&
        (forall i :: 0 <= i < |run.trace| - 1 ==> !run.trace[i].Reply? && !run.trace[i].Edit?) &&
        (run.trace[|run.trace| - 1].Reply? || run.trace[|run.trace| - 1].Edit?)
    ensures var run := StartRun(trigger, env);
      trigger.EditedCommand? ==>
        run.failure == Some(NoMessageError) &&
        forall i :: 0 <= i < |run.trace| ==> !run.trace[i].Reply? && !run.trace[i].Edit?
  {
  }

  /** An edited /start makes the same remote calls as a new one, in the same
      order, and then fails where the new one sends its reply. */
  lemma EditedCommandFails(env: Env)
    ensures var edited, newRun := StartRun(EditedCommand, env), StartRun(Command, env);
      edited.failure == Some(NoMessageError) &&
      (forall i :: 0 <= i < |edited.trace| ==> !edited.trace[i].Reply? && !edited.trace[i].Edit?) &&
      (env.activeUser.Some? ==>
        |newRun.trace| == |edited.trace| + 1 && newRun.trace[..|edited.trace|] == edited.trace)
    ensures env.activeUser.None? ==> StartRun(EditedCommand, env).trace == []
  {
  }

  /** get_tiering_info is called if and only if there is an active user, the
      balance call returned, the expiry date converted, and the account is
      PREPAID; when called, it comes straight after the balance call. */
  lemma TieringCalledIff(trigger: Trigger, env: Env)
    ensures var run := StartRun(trigger, env);
      CallsTiering(run.trace) <==>
        env.activeUser.Some? && env.balance.Ok? &&
        env.dateOf(env.balance.value.expiredAt.GetOr(0)).Ok? &&
        IsPrepaid(env.activeUser.value)
    ensures var run := StartRun(trigger, env);
      CallsTiering(run.trace) ==>
        run.trace[1] == CallTiering(env.apiKey, env.activeUser.value.tokens) &&
        forall i :: 0 <= i < |run.trace| && i != 1 ==> !run.trace[i].CallTiering?
  {
    var run := StartRun(trigger, env);
    if env.activeUser.Some? && env.balance.Ok? &&
       env.dateOf(env.balance.value.expiredAt.GetOr(0)).Ok? && IsPrepaid(env.activeUser.value)
    {
      assert run.trace[1].CallTiering?;
    }
  }

  /** A successful fetch renders the profile; the points line reads N/A for an
      account that is not PREPAID and the fetched values (0 when missing) for
      a PREPAID one whose tiering call returned. */
  lemma SuccessView(trigger: Trigger, env: Env)
    requires env.activeUser.Some? && env.balance.Ok?
    requires env.dateOf(env.balance.value.expiredAt.GetOr(0)).Ok?
    requires IsPrepaid(env.activeUser.value) ==> env.tiering.Ok?
    ensures var run := StartRun(trigger, env);
      var user, b := env.activeUser.value, env.balance.value;
      var date := env.dateOf(b.expiredAt.GetOr(0)).value;
      !trigger.EditedCommand? ==>
        LastText(run.trace) ==
          ProfileText(user, b.remaining.GetOr(0), date,
            if IsPrepaid(user) then PointInfo(env.tiering.value) else NoPointInfo)
  {
  }

  /** The first exception raised, by get_balance, by the date conversion or by
      get_tiering_info, becomes "Error mengambil data akun: " and its text, and
      the full keyboard is still attached (an edited /start outputs nothing). */
  lemma ErrorView(trigger: Trigger, env: Env, cause: string)
    requires env.activeUser.Some?
    requires
      || env.balance == Raised(cause)
      || (env.balance.Ok? && env.dateOf(env.balance.value.expiredAt.GetOr(0)) == Raised(cause))
      || (env.balance.Ok? && env.dateOf(env.balance.value.expiredAt.GetOr(0)).Ok? &&
          IsPrepaid(env.activeUser.value) && env.tiering == Raised(cause))
    ensures var run := StartRun(trigger, env);
      !trigger.EditedCommand? ==> run.trace[|run.trace| - 1] == Present(trigger, ErrorText(cause))
  {
  }

  /** Every output of /start or refresh that carries a keyboard carries the
      same fixed keyboard; with an active user the last output of a new /start
      or a callback always has it, whether the fetch succeeded or failed, and
      without one nothing has it. */
  lemma KeyboardAlwaysAttached(trigger: Trigger, env: Env)
    ensures var run := StartRun(trigger, env);
      forall i :: 0 <= i < |run.trace| ==>
        (run.trace[i].Edit? ==> run.trace[i].layout == MainKeyboard) &&
        (run.trace[i].Reply? && run.trace[i].markup.Some? ==> run.trace[i].markup.value == MainKeyboard)
    ensures var run := StartRun(trigger, env);
      env.activeUser.Some? && !trigger.EditedCommand? ==>
        var last := run.trace[|run.trace| - 1];
        (last.Edit? && last.layout == MainKeyboard) || (last.Reply? && last.markup == Some(MainKeyboard))
    ensures var run := StartRun(trigger, env);
      env.activeUser.None? ==> forall i :: 0 <= i < |run.trace| ==> run.trace[i].Reply? && run.trace[i].markup.None?
  {
  }

  /** A render triggered by a callback query edits the message and never sends
      a new one; a render triggered by /start, new or edited, never edits. */
  lemma OutputMode(trigger: Trigger, env: Env)
    ensures var run := StartRun(trigger, env);
      trigger.Callback? ==> forall i :: 0 <= i < |run.trace| ==> !run.trace[i].Reply?
    ensures var run := StartRun(trigger, env);
      !trigger.Callback? ==> forall i :: 0 <= i < |run.trace| ==> !run.trace[i].Edit?
    ensures var run := StartRun(trigger, env);
      env.activeUser.Some? ==> (run.trace[|run.trace| - 1].Edit? <==> trigger.Callback?)
  {
  }

  /** button_handler acknowledges the query before any other effect, and only once. */
  lemma AnswerFirst(data: string, env: Env)
    ensures var run := ButtonRun(data, env);
      |run.trace| >= 1 && run.trace[0] == Answer &&
      forall i :: 0 < i < |run.trace| ==> run.trace[i] != Answer
  {
    var run := ButtonRun(data, env);
    if data == RefreshId {
      var inner := StartRun(Callback(data), env);
      assert run.trace == [Answer] + inner.trace;
      forall i | 0 < i < |run.trace| ensures run.trace[i] != Answer {
        assert run.trace[i] == inner.trace[i - 1];
      }
    }
  }

  /** Refresh re-renders in place: after the acknowledgement it edits the
      message with the fixed keyboard and never sends a new message; with no
      active user it outputs nothing and fails. */
  lemma RefreshEditsInPlace(env: Env)
    ensures var run := ButtonRun(RefreshId, env);
      forall i :: 0 <= i < |run.trace| ==> !run.trace[i].Reply?
    ensures var run := ButtonRun(RefreshId, env);
      env.activeUser.Some? ==>
        run.failure.None? && run.trace[|run.trace| - 1].Edit? &&
        run.trace[|run.trace| - 1].layout == MainKeyboard
    ensures env.activeUser.None? ==> ButtonRun(RefreshId, env) == Run([Answer], Some(NoMessageError))
  {
    var run := ButtonRun(RefreshId, env);
    var inner := StartRun(Callback(RefreshId), env);
    OutputMode(Callback(RefreshId), env);
    KeyboardAlwaysAttached(Callback(RefreshId), env);
    forall i | 0 <= i < |run.trace| ensures !run.trace[i].Reply? {
      if i > 0 {
        assert run.trace[i] == inner.trace[i - 1];
      }
    }
  }

  /** menu_1, menu_2 and menu_3 get their fixed texts; every other id except
      refresh, catalogued or not, gets the echo with the id appended. */
  lemma MenuReplies(data: string, env: Env)
    requires data != RefreshId
    ensures ButtonRun(data, env) == Run([Answer, MenuReply(data)], None)
    ensures data == "menu_1" ==>
      MenuReply(data) == Reply("Fitur Ganti Akun belum diimplementasikan di Bot.", None, false)
    ensures data == "menu_3" ==> MenuReply(data) == Reply("\U{1F525} <b>Menu Hot</b> dipilih.", None, true)
    ensures data !in {"menu_1", "menu_2", "menu_3"} ==>
      MenuReply(data) == Reply(EchoPrefix + data, None, false) &&
      MenuReply(data).text[|EchoPrefix|..] == data
  {
  }

  /** menu_2 gets the fixed package-list notice, sent as HTML. */
  lemma PackageListReply()
    ensures MenuReply("menu_2") == Reply(
      "\U{1F4E6} <b>Daftar Paket Anda:</b>\n(Fitur ini butuh modifikasi fungsi fetch_my_packages agar return string)",
      None, true)
  {
  }

  /** Of the catalogued buttons, only menu_1, menu_2, menu_3 and refresh have
      their own handling; the other fifteen fall through to the echo. */
  lemma CatalogueFallsThrough()
    ensures forall r, c :: 0 <= r < |MainKeyboard| && 0 <= c < |MainKeyboard[r]| && r !in {0, 1, 2, 14} ==>
      var id := MainKeyboard[r][c].callbackData;
      id != RefreshId && MenuReply(id) == Reply(EchoPrefix + id, None, false)
  {
    forall r, c | 0 <= r < |MainKeyboard| && 0 <= c < |MainKeyboard[r]| && r !in {0, 1, 2, 14}
      ensures var id := MainKeyboard[r][c].callbackData;
        id != RefreshId && MenuReply(id) == Reply(EchoPrefix + id, None, false)
    {
      var id := MainKeyboard[r][c].callbackData;
      assert id != "menu_1" && id != "menu_2" && id != "menu_3" && id != RefreshId;
    }
  }

  /** An id outside the catalogue, such as menu_99, is echoed back as well. */
  lemma UnknownIdEchoes()
    ensures !InMenu("menu_99")
    ensures MenuReply("menu_99") == Reply("Anda memilih menu dengan data: menu_99", None, false)
  {
  }

  /** An example: a PREPAID account with 15000 remaining, tier 2 and
      340 points asks for the balance, then the tiering, and replies with the
      profile whose points line reads "Points: 340 | Tier: 2" (its lines are
      those that Profile.ProfileExample gives). */
  lemma PrepaidExample(env: Env, user: ActiveUser, date: string)
    requires user.number == "0812xxxx" && user.subscriptionType == Prepaid
    requires env.activeUser == Some(user)
    requires env.balance == Ok(Balance(Some(15000), Some(1715000000)))
    requires env.tiering == Ok(Tiering(Some(2), Some(340)))
    requires env.dateOf(1715000000) == Ok(date)
    ensures StartRun(Command, env) == Run(
      [ CallBalance(env.apiKey, user.tokens.idToken), CallTiering(env.apiKey, user.tokens),
        Reply(ProfileText(user, 15000, date, "Points: 340 | Tier: 2"), Some(MainKeyboard), true) ],
      None)
  {
    var calls := [CallBalance(env.apiKey, user.tokens.idToken), CallTiering(env.apiKey, user.tokens)];
    var text := ProfileText(user, 15000, date, PointInfo(Tiering(Some(2), Some(340))));
    assert FetchProfile(user, env) == Attempt(calls, text);
    assert StartRun(Command, env) == Run(calls + [Present(Command, text)], None);
    PointInfoExample();
  }
}

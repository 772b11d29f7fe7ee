# Telegram front end of the subscriber-account CLI: a Dafny model

`bot_telegram.py` is a small Telegram bot. It shows the active subscriber's
profile, which is the number, subscription type, remaining balance, expiry date
and, for PREPAID accounts, points and tier. Under the profile it puts a fixed
inline keyboard of menu actions. Button presses are routed to fixed replies.
The model covers the decision core of the two handlers, `start` and
`button_handler`, with the outside world made into inputs:

- the active user, present or absent, from the session service;
- what `get_balance` and `get_tiering_info` return (a dictionary whose keys
  may be missing) or raise (the exception text);
- the conversion of the expiry timestamp to a `YYYY-MM-DD` date. It depends on
  the local time zone, so it is left an uninterpreted function. It may raise,
  because a timestamp can be out of range.

Every effect becomes an event on a trace: `Answer` (`query.answer()`), a call
to either service, `Reply` (a new message) and `Edit` (the message edited in
place). Each reply or edit records its text, its keyboard and whether it is
sent as HTML. A handler run is the trace plus the exception that escaped, if
any.

Modules:

- `Wrappers`: `Option` and `Result`.
- `Thousands`: Python's `str(n)` and the `f"{n:,}"` comma grouping, with the
  parser that undoes them.
- `Keyboard`: the constant 15-row menu.
- `Profile`: the service records and the pure construction of the profile
  text, the points line and the error text.
- `Handlers`: the specification functions `StartRun` and `ButtonRun`, the
  step-by-step methods `Start` and `ButtonHandler`, which are proved equal to
  them, and the ordering and output properties.

Behaviour of the code that the model keeps:

- The expiry date is converted before `get_tiering_info` is called. So a
  failing conversion also skips the tiering call: tiering is requested exactly
  when the user is present, the balance call returned, the date converted and
  the account is PREPAID (`Handlers.TieringCalledIff`).
- On a `refresh_menu` press with no active user, `start` replies through
  `update.message`, which is `None` for a callback query. That raises. The
  model records the failure (`NoMessageError`) and no output after the
  acknowledgement.
- `CommandHandler("start", start)` (line 153) also accepts an edited `/start`
  message. Such an update carries `update.edited_message`, and `update.message`
  is `None`. Without a user the notice then cannot be sent (line 40); with a
  user the balance and tiering calls are made and the final `reply_text` (line
  109) raises. The trigger `EditedCommand` models this: the run has the same
  remote calls as a new `/start`, no output, and the `NoMessageError` failure
  (`Handlers.EditedCommandFails`).
- The keyboard as coded has 19 buttons in 15 rows.
- A service that returns something other than a dictionary, for example
  `None`, makes the following `.get` raise. That is the same as the call
  raising with that message, which `Result.Raised` already covers.

## Model

| member | source | states |
|---|---|---|
| `Handlers.Start` | bot_telegram.py:30-109 | the step-by-step `start` (assignment of `point_info` and its overwrite, try/except choice of `profile_text`, edit-or-reply) yields exactly the run `StartRun` specifies |
| `Handlers.ButtonHandler` | bot_telegram.py:112-143 | the step-by-step `button_handler` (answer, then refresh or the if/elif chain) yields exactly the run `ButtonRun` specifies |
| `Handlers.NoActiveUser` | bot_telegram.py:37-41 | with no active user, `/start` yields only the warning reply, with no keyboard and no remote call; an edited `/start` or a callback trigger yields no output and the AttributeError |
| `Handlers.BalanceCalledFirst` | bot_telegram.py:44-47 | with an active user, the first effect is the balance call with that user's id token; it happens once; for a new `/start` or a callback the run does not fail (transport calls assumed to succeed, see Left out) and exactly one output comes last; for an edited `/start` there is no output and the run fails with the AttributeError |
| `Handlers.EditedCommandFails` | bot_telegram.py:37-109 | an edited `/start` (`update.message` is None) makes the same remote calls as a new `/start`, in the same order, then fails where that one replies; it never outputs anything, and without a user it makes no call |
| `Handlers.TieringCalledIff` | bot_telegram.py:45-53 | the tiering call happens if and only if the user is present, the balance call returned, the date converted and the type is PREPAID; when it happens it is the second effect and happens once |
| `Handlers.SuccessView` | bot_telegram.py:44-65 | when nothing raises, the output of a new `/start` or a callback is the profile text with the balance and expiry defaulting to 0, and with points line "Points: N/A \| Tier: N/A" for non-PREPAID or the fetched point/tier for PREPAID |
| `Handlers.ErrorView` | bot_telegram.py:44-69 | if get_balance, the date conversion or get_tiering_info raises, the output of a new `/start` or a callback is "Error mengambil data akun: " plus that exception's text, still sent with the full keyboard in the trigger's output mode |
| `Handlers.KeyboardAlwaysAttached` | bot_telegram.py:73-109 | every output carrying a keyboard carries the same fixed keyboard; with an active user the final output of a new `/start` or a callback always has it, success or error; without one nothing carries a keyboard |
| `Handlers.OutputMode` | bot_telegram.py:105-109 | a callback-triggered render only edits and never sends a new message; a `/start` render, new or edited, never edits; with a user the last event is an edit exactly for callbacks |
| `Handlers.AnswerFirst` | bot_telegram.py:116-117 | button_handler's first effect is the acknowledgement, which never recurs |
| `Handlers.RefreshEditsInPlace` | bot_telegram.py:121-123 | `refresh_menu` never sends a new message; with a user it ends in an edit carrying the fixed keyboard; without one the run is the acknowledgement followed by the AttributeError |
| `Handlers.MenuReplies` | bot_telegram.py:129-143 | any id but refresh yields the acknowledgement and one reply; menu_1 and menu_3 get their fixed texts and HTML modes; every id outside menu_1..menu_3 gets "Anda memilih menu dengan data: " followed by the id, which can be read back |
| `Handlers.PackageListReply` | bot_telegram.py:132-135 | the reply to menu_2 (sent after the acknowledgement, by `MenuReplies`) is the fixed "Daftar Paket Anda" notice, as HTML and with no keyboard |
| `Handlers.CatalogueFallsThrough` | bot_telegram.py:129-143 | every catalogued button in rows 4-14 (menu_4 to menu_00) gets the echo reply |
| `Handlers.UnknownIdEchoes` | bot_telegram.py:142-143 | menu_99 is not in the catalogue and gets the reply "Anda memilih menu dengan data: menu_99" |
| `Handlers.PrepaidExample` | bot_telegram.py:44-65 | for a PREPAID user with balance 15000, tier 2 and 340 points, `/start` calls the balance, then the tiering, then replies with the profile (points line "Points: 340 \| Tier: 2") and the fixed keyboard |
| `Profile.ProfileLayout` | bot_telegram.py:58-65 | the profile text splits into exactly six lines: the frame, number and type, "Pulsa: Rp " with the comma-grouped balance, the expiry date, the bold points line, the frame |
| `Profile.PointInfoRoundTrip` | bot_telegram.py:51-56 | the PREPAID points line is "Points: " p " \| Tier: " t, and p and t parse back to the point count and tier, with missing fields read as 0; it never equals the N/A line of line 51 |
| `Profile.ErrorTextCause` | bot_telegram.py:69 | the error text is the fixed prefix followed by the exception text, which can be recovered |
| `Profile.ProfileExample` | bot_telegram.py:58-65 | the example profile's lines read "Pulsa: Rp 15,000", the converted date, and "Points: 340 \| Tier: 2" |
| `Profile.SplitJoin` | bot_telegram.py:58-65 | newline-joined lines that contain no newline split back into the same lines |
| `Thousands.FormatThousandsCorrect` | bot_telegram.py:61 | `f"{x:,}"` with its commas stripped is `str(x)` and parses back to x; its digits, after the sign, are well grouped |
| `Thousands.GroupStrips` | bot_telegram.py:61 | removing the separators from the grouped digits gives the digits back |
| `Thousands.GroupWellGrouped` | bot_telegram.py:61 | the grouping has a first group of 1-3 digits and then groups of exactly 3 digits, each after a comma |
| `Thousands.WellGroupedIsGroup` | bot_telegram.py:61 | any well-grouped string is the grouping of its own digits, so the grouping is the only well-grouped spelling |
| `Thousands.FifteenThousand` | bot_telegram.py:61 | a balance of 15000 renders as "15,000" |
| `Thousands.NegativeGrouped` | bot_telegram.py:61 | a negative balance keeps its minus sign ahead of the grouped digits: -1500 renders as "-1,500" |
| `Thousands.NatToDecimalCorrect` | bot_telegram.py:56 | `str(n)` is a non-empty digit string with no leading zero that denotes n |
| `Thousands.IntToStringRoundTrip` | bot_telegram.py:56 | `str(x)` parses back to x, including negative x |
| `Profile.PointInfoExample` | bot_telegram.py:54-56 | tier 2 with 340 points gives "Points: 340 \| Tier: 2" |
| `Profile.PointInfoMissingFields` | bot_telegram.py:54-56 | a tiering answer with neither `tier` nor `current_point` gives "Points: 0 \| Tier: 0" |
| `Thousands.FormatThousandsCharset` | bot_telegram.py:61 | the formatted balance contains only digits, commas and the minus sign |
| `Keyboard.RowShape` | bot_telegram.py:73-101 | the keyboard has 15 rows, each one or two buttons wide |
| `Keyboard.ButtonCount` | bot_telegram.py:73-101 | the keyboard holds 19 buttons |
| `Keyboard.CallbackIdsDistinct` | bot_telegram.py:73-101 | no two positions of the keyboard send the same callback id |
| `Keyboard.TwoButtonRows` | bot_telegram.py:78-97 | the two-button rows are exactly rows 5, 10, 11 and 12 (counting from 1), holding {menu_5, menu_6}, {menu_11, menu_12}, {menu_13, menu_14} and {menu_R, menu_N} |
| `Keyboard.LastRowIsRefresh` | bot_telegram.py:100 | the last row is the single "Refresh Data" button with id refresh_menu, and no other button sends that id |

## Left out

- Process bootstrap: `load_dotenv`, the `TELEGRAM_BOT_TOKEN` check, `main_bot`, `ApplicationBuilder`, handler registration and `run_polling` (lines 19, 28, 145-162). This is library wiring with no decision in it.
- Logging (lines 22-25 and the `logging.error` call on line 68) has no observable contract, so it is not modelled.
- `get_balance`, `get_tiering_info` and `AuthInstance` (app.client.engsel and app.service.auth) are not part of this model. Their outcomes are inputs, and `AuthInstance.api_key` is the `apiKey` input.
- `datetime.fromtimestamp(...).strftime("%Y-%m-%d")` (line 49) depends on the local time zone. It is the input function `dateOf`, which may raise.
- The active-user record is assumed to carry `number`, `subscription_type` and `tokens` (with `id_token`), as the session service provides them. A record missing one of these keys would raise KeyError inside the `try` block, and that path is not modelled. An empty dictionary, which is falsy like `None`, is not distinguished from no user.
- `remaining`, `expired_at`, `tier` and `current_point` are integers. A string or float value from the service, and a key present with value `None`, are not modelled. The grouping and `str` are modelled for integers only.
- `update.effective_user.id` (line 34) is read and never used. `query.message` being `None` for inaccessible messages is not modelled.
- Async execution, Telegram object types and the rendering of HTML and emoji by the client are not modelled. Texts keep the tags and emoji as literal characters.
- `query.answer()`, `reply_text` and `edit_message_text` are assumed to succeed. In the program they raise when Telegram rejects them: an edit whose text and keyboard are unchanged fails with "Message is not modified" (line 107), and a text that is not valid HTML fails to send. Texts are sent without HTML escaping: the exception text (line 69) and the number (line 60) go into `parse_mode='HTML'` messages as they are, so a `<` or `&` in them can make the send fail. The "does not fail" clauses of `Handlers.BalanceCalledFirst` and `Handlers.RefreshEditsInPlace` hold under this assumption only.

# Sitterfied: the sitter-booking dialog of an Alexa skill, in Dafny

This project models the core of the Sitterfied Alexa skill. The skill asks
the user, over several turns, for the date, the start time, and the
duration or end time of a babysitting booking, then reads the booking back
for confirmation. Every turn does the same things in order:

- it merges the four slot values spoken in the intent (`Date`, `Start`,
  `End`, `Duration`) with the values stored in the session;
- it picks what to ask next, in the fixed order date, then start, then
  duration-or-end;
- it stores what it learnt in the session's attribute dictionary;
- it answers with an Alexa response envelope.

The project has five modules:

- `Wrappers` (`wrappers.dfy`): `Option` for Python's `None`, and `Result` for
  a call that raises.
- `Utils` (`utils.py`):
  - slot and session lookup and `merge_data`, where a value is
    `Option<string>` and Python truthiness is `Some(s)` with `s != ""`;
  - `set_session_data`, as a method on a `Session` object whose attribute map
    it updates in place;
  - `camel_to_snake`, written out character by character;
  - the empty-input guards of the three formatters. The formatters
    themselves are functions passed in as a `Formatters` value.
- `Alexa` (`alexa.py`):
  - the response envelope and `create_speechlet_object`;
  - the binding of that function's keyword arguments;
  - the `Response` class. Its `session` is the same `Session` object the
    handlers update, so an envelope carries the attributes as they are after
    the handler's writes;
  - `on_intent`'s table lookup, and the `'process_' + camel_to_snake(type)`
    routing of `execute`.
- `Dialog`: the slot-filling dialog as pure functions.
  - A `Step` is one of: ask for the date, ask for the start, ask for
    duration-or-end, confirm, or help.
  - Each handler has its own choice of step, given as a function of the
    merged booking.
  - `Perform` says what a step stores and what it says.
  - Lemmas state what the dialog guarantees across steps and turns.
- `Sitterfied` (`sitterfied.py`):
  - the class `SitterfiedSkill`, whose handler methods call one another
    exactly as the Python handlers do and mutate the shared `Session`. Each
    method is proved to store and say what `Dialog` prescribes;
  - `Execute`, proved equal to the function `Respond`;
  - lemmas that retrace the skill's integration test turn by turn.

The handlers call one another without any cycle, so Dafny proves they
terminate without a `decreases` clause. The `ask` response in the source
passes a misspelt keyword. The rest of the model uses the intended `ask`;
see "Findings".

## Model

| member | source | states |
|---|---|---|
| Utils.GetSlotOrNone | skills/utils.py:122-131 | None when the slot name is missing or the slot has no value, otherwise the slot's value |
| Utils.GetSlotData | skills/utils.py:94-103 | each field is the value of the slot of the same capitalised name, None when that slot is missing |
| Utils.GetSessionData | skills/utils.py:82-91 | each field is the value stored under its lowercase key, None when the key is absent |
| Utils.MergeData | skills/utils.py:106-119 | per field, the spoken value when it is truthy, otherwise the stored value |
| Utils.MergeWithoutSpokenValues | skills/utils.py:111-119 | with no truthy slot value, the merge is exactly the stored tuple |
| Utils.MergeTruthy | skills/utils.py:114-117 | a merged field is truthy exactly when it was spoken truthy or stored truthy |
| Utils.Updated | skills/utils.py:139 | the key maps to the value (None allowed), the keys grow by that key only, every other entry is kept |
| Utils.SetSessionData | skills/utils.py:134-139 | the session's attributes become the old attributes updated at that key |
| Utils.MergeStableUnderStore | skills/utils.py:106-139 | storing a field's merged value under its lowercase key leaves the merge unchanged |
| Utils.MergeIgnoresOtherKeys | skills/utils.py:87-90 | writing a key other than the four lowercase keys leaves the merge unchanged |
| Utils.LStripSuffix | skills/utils.py:19 | lstrip returns a suffix that does not start with the stripped character, and removes only that character |
| Utils.CamelToSnake | skills/utils.py:11-19 | the result holds no upper-case ASCII letter and does not start with an underscore |
| Utils.CamelToSnakeOnlyAddsUnderscores | skills/utils.py:19 | once underscores are removed, the result is the lower-cased input |
| Utils.UnderscoredConcat | skills/utils.py:19 | the underscore insertion distributes over concatenation |
| Utils.CamelToSnakeOfTwoWords | skills/utils.py:11-19 | two capitalised words become their lower-cased forms joined by one underscore |
| Utils.CamelToSnakeOfThreeWords | skills/utils.py:11-19 | three capitalised words become their lower-cased forms joined by underscores |
| Utils.CamelToSnakeExample | skills/utils.py:15-16 | "UpperCamelCase" becomes "upper_camel_case" |
| Utils.FormatDate | skills/utils.py:36-39 | None exactly for None or "", otherwise the rendered date |
| Utils.FormatDuration | skills/utils.py:56-59 | None exactly for None or "", otherwise the rendered duration |
| Utils.FormatTime | skills/utils.py:76-79 | None exactly for None or "", otherwise the rendered time |
| Alexa.CreateSpeechletObject | skills/alexa.py:9-49 | the speech is PlainText; shouldEndSession is the flag; version is "1.0"; a reprompt exactly when the reprompt is truthy; a Simple card exactly when title and content are truthy; sessionAttributes exactly when the session's attributes are non-empty |
| Alexa.CreateSpeechObject | skills/alexa.py:9-13 | the speech object is of type PlainText and carries the speech unchanged, string or dictionary |
| Alexa.BindKeywords | skills/alexa.py:16-23 | binding succeeds exactly when every keyword is a declared parameter, and otherwise fails naming an undeclared one |
| Alexa.CallSpeechletObject | skills/alexa.py:16-23 | a call with keyword arguments succeeds exactly when every keyword binds, fails naming one of the given keywords otherwise, and on success gives a version "1.0" envelope with the speech as PlainText |
| Alexa.Response.Tell | skills/alexa.py:58-63 | ends the session, no reprompt, no card |
| Alexa.Response.TellWithCard | skills/alexa.py:65-72 | ends the session, a card exactly when title and content are truthy |
| Alexa.Response.AskAsWritten | skills/alexa.py:74-80 | the call as written always fails on the keyword `end_essopm` |
| Alexa.Response.Ask | skills/alexa.py:74-80 | keeps the session open, reprompts exactly when the reprompt is truthy, no card |
| Alexa.Response.AskWithCard | skills/alexa.py:82-90 | keeps the session open, reprompt and card as their arguments allow |
| Alexa.ResponseKeywordsBind | skills/alexa.py:58-90 | the keywords that tell, tell_with_card, ask_with_card and the corrected ask pass all bind, giving the envelopes above |
| Alexa.LookupIntent | skills/alexa.py:112-119 | fails with "Unsupported intent: " and the name exactly when the name is not registered, otherwise gives the registered handler |
| Alexa.HandlerNamed | skills/alexa.py:103-110 | finds the request handler whose attribute name is the given name, if any |
| Alexa.HandlerNamedByName | skills/alexa.py:103-110 | every request handler is found under its own name |
| Alexa.Route | skills/alexa.py:147-148 | the handler found is the one named `process_` plus camel_to_snake of the request type; None means no handler has that name |
| Alexa.SnakeOfIntentRequest | skills/alexa.py:147 | "IntentRequest" becomes "intent_request" |
| Alexa.SnakeOfLaunchRequest | skills/alexa.py:147 | "LaunchRequest" becomes "launch_request" |
| Alexa.SnakeOfSessionEndedRequest | skills/alexa.py:147 | "SessionEndedRequest" becomes "session_ended_request" |
| Alexa.RouteIntentRequest | skills/alexa.py:147-148 | an IntentRequest is routed to process_intent_request |
| Alexa.RouteLaunchRequest | skills/alexa.py:147-148 | a LaunchRequest is routed to process_launch_request |
| Alexa.RouteSessionEndedRequest | skills/alexa.py:147-148 | a SessionEndedRequest is routed to process_session_ended_request |
| Dialog.Render | skills/alexa.py:58-80 | an ask keeps the session open and a tell ends it; PlainText speech; a reprompt only for an ask with a truthy reprompt; sessionAttributes exactly when the attributes are non-empty |
| Dialog.DateClause | skills/sitterfied.py:205 | "tomorrow" and "today" stand alone, anything else (None too) is preceded by "on " |
| Dialog.TailClause | skills/sitterfied.py:207 | "for " and the duration when it is truthy, otherwise "until " and the end |
| Dialog.ConfirmationText | skills/sitterfied.py:202-209 | the confirmation opens with "You need a sitter " and closes with ". Is that correct?" |
| Dialog.ConfirmationAsksAboutSitter | skills/sitterfied.py:202-211 | the confirmation mentions "need a sitter" and "Is that correct?" |
| Dialog.ConfirmationNamesStart | skills/sitterfied.py:202-209 | the confirmation names the start time after " at " |
| Dialog.ConfirmationNamesLength | skills/sitterfied.py:207 | the confirmation says "for" and the duration when it is truthy, otherwise "until" and the end |
| Dialog.DialogStep | skills/sitterfied.py:84-95 | no date asks for the date; else no start asks for the start; else no end and no duration asks for them; else confirm |
| Dialog.DateSlotStep | skills/sitterfied.py:105-126 | no start asks for the start; else no end and no duration asks for them; else confirm |
| Dialog.StartSlotStep | skills/sitterfied.py:133-149 | no end and no duration asks for them, otherwise confirm |
| Dialog.NoSlotsStep | skills/sitterfied.py:177-189 | as the dialog, but help where the dialog would confirm |
| Dialog.EndDurationStep | skills/sitterfied.py:162-170 | confirm a complete booking; without a start ask for the start; without a date ask for the date; never help |
| Dialog.HelpTurn | skills/sitterfied.py:61-74 | asks with the two PlainText dictionaries and leaves the session as it was |
| Dialog.Perform | skills/sitterfied.py:100-211 | every step asks with a truthy reprompt; it keeps every key of the session and adds at most "date", "start", "End" and "Duration" |
| Dialog.DialogTurn | skills/sitterfied.py:79-95 | the dialog turn asks, and the session it leaves gives the same merge as before |
| Dialog.DateSlotTurn | skills/sitterfied.py:100-126 | the date-slot turn asks, and the session it leaves gives the same merge as before |
| Dialog.StartSlotTurn | skills/sitterfied.py:128-149 | the start-slot turn asks, and the session it leaves gives the same merge as before |
| Dialog.NoSlotsTurn | skills/sitterfied.py:172-189 | the no-slots turn asks, and the session it leaves gives the same merge as before |
| Dialog.ConfirmTurn | skills/sitterfied.py:191-211 | the confirmation text of the merged booking is both the speech and the reprompt |
| Dialog.EndDurationStored | skills/sitterfied.py:156-160 | the keys "end" and "duration" are added and hold the merged end and duration |
| Dialog.EndDurationTurn | skills/sitterfied.py:151-170 | the end/duration turn asks, and the session it leaves gives the same merge as before |
| Dialog.PerformKeepsMerge | skills/sitterfied.py:100-211 | no step changes what merge_data sees in the session afterwards |
| Dialog.EndDurationStoredKeepsMerge | skills/sitterfied.py:156-160 | storing end and duration leaves the merge unchanged |
| Dialog.ConfirmLeavesSessionTuple | skills/sitterfied.py:194-195 | the confirmation adds only the keys 'End' and 'Duration', and the lowercase tuple is unchanged |
| Dialog.PerformAsks | skills/sitterfied.py:100-211 | every step asks, keeps the session open and carries a reprompt |
| Dialog.PerformNeverForgets | skills/sitterfied.py:100-211 | a field that was truthy in the stored tuple is still truthy after any step |
| Dialog.EndDurationNeverForgets | skills/sitterfied.py:151-170 | a field that was truthy in the stored tuple is still truthy after the end/duration handler |
| Dialog.DialogReplay | skills/sitterfied.py:79-95 | replaying a turn on the session it produced gives the same reply |
| Dialog.DialogRecordsAnswers | skills/sitterfied.py:105-146 | asking for the start stores the date, and a silent next turn asks for the start again; asking for duration or end stores the start |
| Dialog.EndDurationAsksStartFirst | skills/sitterfied.py:151-170 | without a start the reply asks for the start even when the date is missing, and the stored tuple becomes the merged one; the date is asked for only once a start is known |
| Dialog.DateSpokenWithStartIsNotStored | skills/sitterfied.py:128-146 | a date spoken together with the start is not stored, so a next turn without a date asks for the date again |
| Sitterfied.SitterfiedIntents | skills/sitterfied.py:24-30 | five intents are registered, among them the two sitter requests |
| Sitterfied.IntentTurn | skills/sitterfied.py:58-98 | only cancel and stop end the session; every handler but the two sitter requests leaves the session as it was |
| Sitterfied.LaunchTurn | skills/sitterfied.py:32-40 | the launch asks when a sitter is needed, with the help hint as reprompt, and writes nothing |
| Sitterfied.Respond | skills/alexa.py:130-154 | an envelope only for an authorised event whose session has attributes and whose type routes to the launch or intent handler; a launch keeps the session open |
| Sitterfied.ForeignApplicationGetsNoReply | skills/alexa.py:137-139 | an event of another application id gets no envelope |
| Sitterfied.SessionWithoutAttributesGetsNoReply | skills/alexa.py:141-142 | an event whose session has no attributes gets no envelope, since setattr on the namedtuple raises |
| Sitterfied.SessionEndedGetsNoReply | skills/alexa.py:109-110 | a SessionEndedRequest gets no envelope |
| Sitterfied.LaunchGreets | skills/alexa.py:106-107 | a LaunchRequest gets the greeting, with the session open and the reprompt present |
| Sitterfied.UnsupportedIntentGetsNoReply | skills/alexa.py:116-117 | an unregistered intent gets no envelope |
| Sitterfied.IntentIsAnswered | skills/alexa.py:103-104 | a registered intent gets its handler's reply, built on the event's attributes |
| Sitterfied.CancelAndStopEndTheSession | skills/sitterfied.py:58-77 | cancel and stop say "As you wish!", end the session and write nothing |
| Sitterfied.DialogOpensWithDateQuestion | skills/tests/test_sitterfied.py:48-60 | nothing spoken, nothing stored: the question for the date, no session attributes |
| Sitterfied.DialogStoresSpokenDate | skills/tests/test_sitterfied.py:62-75 | a date alone is stored and the start time is asked for |
| Sitterfied.DialogStoresSpokenStart | skills/tests/test_sitterfied.py:77-93 | then a start: date and start are stored and the duration is asked for |
| Sitterfied.DialogConfirmsDuration | skills/tests/test_sitterfied.py:95-116 | then a duration: date and start stay stored and the confirmation says "for" the duration |
| Sitterfied.RequestSitterConfirmsEndTime | skills/tests/test_sitterfied.py:32-46 | date, start and end without a duration are confirmed "until" the end |
| Sitterfied.SitterfiedSkill.OnLaunch | skills/sitterfied.py:32-40 | answers with the launch turn |
| Sitterfied.SitterfiedSkill.CancelIntentHandler | skills/sitterfied.py:58-59 | answers with the goodbye tell |
| Sitterfied.SitterfiedSkill.HelpIntentHandler | skills/sitterfied.py:61-74 | answers with the help turn |
| Sitterfied.SitterfiedSkill.StopIntentHandler | skills/sitterfied.py:76-77 | answers with the goodbye tell |
| Sitterfied.SitterfiedSkill.DialogRequestSitterHandler | skills/sitterfied.py:79-95 | the session and the reply are those of the dialog step for the merged booking |
| Sitterfied.SitterfiedSkill.RequestSitterHandler | skills/sitterfied.py:97-98 | exactly what the dialog request does |
| Sitterfied.SitterfiedSkill.ProcessDateSlotDialogRequest | skills/sitterfied.py:100-126 | the session and the reply of the date-slot step |
| Sitterfied.SitterfiedSkill.ProcessStartSlotDialogRequest | skills/sitterfied.py:128-149 | the session and the reply of the start-slot step |
| Sitterfied.SitterfiedSkill.ProcessEndDurationSlotDialogRequest | skills/sitterfied.py:151-170 | end and duration are stored, then the session and the reply of the end-duration step |
| Sitterfied.SitterfiedSkill.ProcessNoSlotsDialogRequest | skills/sitterfied.py:172-189 | the session and the reply of the no-slots step |
| Sitterfied.SitterfiedSkill.ConfirmBookingDetails | skills/sitterfied.py:191-211 | 'End' and 'Duration' are stored and the confirmation is asked as both speech and reprompt |
| Sitterfied.SitterfiedSkill.OnIntent | skills/alexa.py:112-119 | an unsupported intent fails with the session untouched; a registered one gets its handler's session and reply |
| Sitterfied.SitterfiedSkill.Execute | skills/alexa.py:130-154 | the result is the envelope `Respond` gives; None for a foreign application, a session without attributes, or any other error execute swallows |

## Left out

- The non-empty branches of `format_date`, `format_duration` and `format_time`
  (humanize, isodate and datetime) are functions supplied from outside. A
  date, time or duration they cannot parse, and therefore the exception it
  would raise, is not modelled.
- `tupperware`, `namedtuple_from_mapping` and `ProtectedDict` are not
  modelled. Events and sessions are typed records here. In the source,
  `execute` turns the session's attributes into an immutable namedtuple,
  which has neither `.get` nor `.update`. The model gives the session a
  mutable dictionary, as the handlers expect.
- Logging, `on_session_started` and `on_session_ended` are left out: they
  only log. `Execute` answers a SessionEndedRequest with None, because
  `process_session_ended_request` takes one argument fewer than `execute`
  passes, and on_session_ended returns None anyway.
- main.py, skills/__init__.py (an older skill with constant answers) and
  skills/tests/utils.py (fixture loading) are not part of this model.
- The class-level `intents` registry shared by every `AlexaSkill` subclass is
  modelled as a fixed table per skill object.
- Sitterfied.Respond: the Python failures are folded into one "no envelope"
  outcome. These are `raise 'Invalid app_id'`, `setattr` on a namedtuple
  when the session has no attributes, a request without an intent, and
  `getattr` of a missing handler. `Route`
  also finds no handler for the `process_*_dialog_request` methods, which
  `getattr` would find. Called with an event in place of an intent, those
  methods raise in `merge_data`, so the outcome is None either way.
- Utils.Lower: lower-casing is ASCII only. The request type arrives from JSON
  as a Python 2 `unicode`, whose `lower()` covers all of Unicode, so a type
  with a non-ASCII capital letter can be routed by the source and not by the
  model. Unicode case mapping is not modelled.
- Alexa.BindKeywords: positional arguments and a keyword given twice are not
  modelled. A keyword's value is tagged with the kind of parameter it is
  meant for, and a declared keyword given a value of another kind (say
  `end_session=None`) is refused, where Python would accept it.
- Python's dynamic typing of speech is narrowed to two shapes: a plain
  string, or the dictionary `help_intent` passes.
- `process_end_duration_slot_dialog_request` is not registered as an intent.
  The only route to it is `execute`'s `getattr` for a request of type
  "EndDurationSlotDialogRequest", which calls it with the event in place of
  an intent and raises (see the `Sitterfied.Respond` line). It is modelled
  and proved like the other handlers, as called with an intent.

## Findings

| source | as written | input that shows it | evidently intended | confidence | as-written member | corrected member |
|---|---|---|---|---|---|---|
| skills/alexa.py:74-80 | `ask` passes the keyword `end_essopm=False`, which `create_speechlet_object` does not declare, so every call raises TypeError and `execute` returns None | any `ask`, for example the launch greeting or any dialog turn | `end_session=False`: keep the session open, as the integration test expects of launch and dialog turns | high (not executed) | Alexa.Response.AskAsWritten | Alexa.Response.Ask |

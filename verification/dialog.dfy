/**
 * The slot-filling dialog of skills/sitterfied.py as pure functions: which
 * step a handler takes for the merged booking, what that step stores in the
 * session and what it says. The handler methods in module Sitterfied are
 * proved against these definitions.
 */
module Dialog {
  import opened Wrappers
  import opened Utils
  import opened Alexa

  const SESSION_ENDED_MESSAGE := "As you wish!"
  const LAUNCH_SPEECH := "Hi. When do you need a sitter?"
  const LAUNCH_REPROMPT := "For instructions, you can say, please help me."
  const HELP_SPEECH := "This is the help."
  const HELP_REPROMPT := "What can I help you with?"
  const DATE_PROMPT := "When do you need a sitter?"
  const START_PROMPT := "Please try saying a start time for your request. For example, 7pm."
  const START_REPROMPT := "You can also say a start time and end time, or a duration and start time. For example, 7pm to 11pm or 4 hours starting at 7pm."
  const FINISH_PROMPT := "Please try saying a duration for your request. For example, 4 hours."
  const FINISH_REPROMPT := "You can also say just an end time. For example, 11pm."

  /** What a handler says: ask (keep the session open) or tell (end it). */
  datatype Reply = Asking(speech: Speech, reprompt: Speech) | Telling(speech: Speech)

  /** The attribute dictionary after a handler ran, and what it said. */
  datatype Turn = Turn(attributes: Attributes, reply: Reply)

  /** The envelope a Response over a session holding these attributes builds for the reply. */
  function Render(attributes: Attributes, reply: Reply): (r: Envelope)
    ensures r.response.shouldEndSession <==> reply.Telling?
    ensures r.response.outputSpeech == OutputSpeech(PLAIN_TEXT, reply.speech)
    ensures r.response.reprompt.Some? <==> reply.Asking? && SpeechTruthy(reply.reprompt)
    ensures r.response.card.None?
    ensures r.sessionAttributes.Some? <==> |attributes| > 0
  {
    match reply
    case Asking(speech, reprompt) => CreateSpeechletObject(Some(attributes), speech, false, Some(reprompt), None, None)
    case Telling(speech) => CreateSpeechletObject(Some(attributes), speech, true, None, None, None)
  }

  // ---------------------------------------------------------------------
  // The confirmation sentence
  // ---------------------------------------------------------------------

  /** w occurs in s at index i. */
  predicate OccursAt(s: string, w: string, i: int) {
    0 <= i <= |s| - |w| && s[i..i + |w|] == w
  }

  /** Whether w occurs in s. */
  predicate Mentions(s: string, w: string) {
    exists i :: 0 <= i <= |s| && OccursAt(s, w, i)
  }

  /** w occurs in any string built around it. */
  lemma MentionsMiddle(a: string, w: string, c: string)
    ensures Mentions(a + w + c, w)
  {
    assert (a + w + c)[|a|..|a| + |w|] == w;
    assert OccursAt(a + w + c, w, |a|);
  }

  /** The date part: "tomorrow" and "today" stand alone, anything else follows "on ". */
  function DateClause(humanDate: Value): (r: string)
    ensures humanDate == Some("tomorrow") || humanDate == Some("today") ==> r == humanDate.value
    ensures humanDate != Some("tomorrow") && humanDate != Some("today") ==> r == "on " + Show(humanDate)
  {
    if humanDate == Some("tomorrow") || humanDate == Some("today") then Show(humanDate)
    else "on " + Show(humanDate)
  }

  /** The length part: "for" the duration when there is one, else "until" the end time. */
  function TailClause(humanDuration: Value, humanEnd: Value): (r: string)
    ensures Truthy(humanDuration) ==> r == "for " + humanDuration.value
    ensures !Truthy(humanDuration) ==> r == "until " + Show(humanEnd)
  {
    if Truthy(humanDuration) then "for " + Show(humanDuration) else "until " + Show(humanEnd)
  }

  /** The three filled-in parts of the confirmation: "<date> at <start> <length>". */
  function ConfirmationDetails(fmt: Formatters, m: Booking): string {
    DateClause(FormatDate(fmt, m.date)) + " at " + Show(FormatTime(fmt, m.start))
      + " " + TailClause(FormatDuration(fmt, m.duration), FormatTime(fmt, m.end))
  }

  const SITTER_REQUEST := "need a sitter"
  const CONFIRMATION_QUESTION := "Is that correct?"
  const CONFIRM_LEAD := "You " + SITTER_REQUEST + " "
  const CONFIRM_CLOSE := ". " + CONFIRMATION_QUESTION

  /** The sentence confirm_booking_details asks with, for the merged booking. */
  function ConfirmationText(fmt: Formatters, m: Booking): (r: string)
    ensures |r| >= |CONFIRM_LEAD| + |CONFIRM_CLOSE|
    ensures r[..|CONFIRM_LEAD|] == CONFIRM_LEAD
    ensures r[|r| - |CONFIRM_CLOSE|..] == CONFIRM_CLOSE
  {
    CONFIRM_LEAD + ConfirmationDetails(fmt, m) + CONFIRM_CLOSE
  }

  /** Any sentence built on the confirmation's frame asks about a sitter. */
  lemma FrameMentions(details: string)
    ensures Mentions(CONFIRM_LEAD + details + CONFIRM_CLOSE, SITTER_REQUEST)
    ensures Mentions(CONFIRM_LEAD + details + CONFIRM_CLOSE, CONFIRMATION_QUESTION)
  {
    var s := CONFIRM_LEAD + details + CONFIRM_CLOSE;
    assert s == "You " + SITTER_REQUEST + (" " + details + CONFIRM_CLOSE);
    MentionsMiddle("You ", SITTER_REQUEST, " " + details + CONFIRM_CLOSE);
    assert s == CONFIRM_LEAD + details + ". " + CONFIRMATION_QUESTION + "";
    MentionsMiddle(CONFIRM_LEAD + details + ". ", CONFIRMATION_QUESTION, "");
  }

  /** The confirmation is a question about a sitter request. */
  lemma ConfirmationAsksAboutSitter(fmt: Formatters, m: Booking)
    ensures Mentions(ConfirmationText(fmt, m), SITTER_REQUEST)
    ensures Mentions(ConfirmationText(fmt, m), CONFIRMATION_QUESTION)
  {
    FrameMentions(ConfirmationDetails(fmt, m));
  }

  /** The parts of the confirmation appear in it in their order. */
  lemma FrameParts(date: string, start: string, tail: string)
    ensures Mentions(CONFIRM_LEAD + (date + " at " + start + " " + tail) + CONFIRM_CLOSE, " at " + start + " ")
    ensures Mentions(CONFIRM_LEAD + (date + " at " + start + " " + tail) + CONFIRM_CLOSE, tail)
  {
    var s := CONFIRM_LEAD + (date + " at " + start + " " + tail) + CONFIRM_CLOSE;
    assert s == (CONFIRM_LEAD + date) + (" at " + start + " ") + (tail + CONFIRM_CLOSE);
    MentionsMiddle(CONFIRM_LEAD + date, " at " + start + " ", tail + CONFIRM_CLOSE);
    assert s == (CONFIRM_LEAD + date + " at " + start + " ") + tail + CONFIRM_CLOSE;
    MentionsMiddle(CONFIRM_LEAD + date + " at " + start + " ", tail, CONFIRM_CLOSE);
  }

  /** The confirmation names the start time after " at ". */
  lemma ConfirmationNamesStart(fmt: Formatters, m: Booking)
    ensures Mentions(ConfirmationText(fmt, m), " at " + Show(FormatTime(fmt, m.start)) + " ")
  {
    FrameParts(DateClause(FormatDate(fmt, m.date)), Show(FormatTime(fmt, m.start)),
      TailClause(FormatDuration(fmt, m.duration), FormatTime(fmt, m.end)));
  }

  /** The length of the booking is "for" the duration when there is one, otherwise "until" the end. */
  lemma ConfirmationNamesLength(fmt: Formatters, m: Booking)
    ensures var humanDuration := FormatDuration(fmt, m.duration);
      Truthy(humanDuration) ==> Mentions(ConfirmationText(fmt, m), "for " + humanDuration.value)
    ensures var humanDuration := FormatDuration(fmt, m.duration);
      !Truthy(humanDuration) ==> Mentions(ConfirmationText(fmt, m), "until " + Show(FormatTime(fmt, m.end)))
  {
    FrameParts(DateClause(FormatDate(fmt, m.date)), Show(FormatTime(fmt, m.start)),
      TailClause(FormatDuration(fmt, m.duration), FormatTime(fmt, m.end)));
  }

  // ---------------------------------------------------------------------
  // Steps and the handlers' choice of step
  // ---------------------------------------------------------------------

  /**
   * What a handler ends up doing: ask for the date, the start, the duration
   * or end; confirm the booking; or give the help.
   */
  datatype Step = AskDate | AskStart | AskFinish | Confirm | Help

  /** The booking has a duration or an end time. */
  predicate HasFinish(m: Booking) {
    Truthy(m.end) || Truthy(m.duration)
  }

  /**
   * dialog_request_sitter (and request_sitter, which delegates to it): the
   * first missing piece of date, start, and duration-or-end is asked for;
   * with all three the booking is confirmed.
   */
  function DialogStep(m: Booking): (s: Step)
    ensures s == AskDate <==> !Truthy(m.date)
    ensures s == AskStart <==> Truthy(m.date) && !Truthy(m.start)
    ensures s == AskFinish <==> Truthy(m.date) && Truthy(m.start) && !HasFinish(m)
    ensures s == Confirm <==> Truthy(m.date) && Truthy(m.start) && HasFinish(m)
  {
    if !Truthy(m.date) then NoSlotsStep(m)
    else if !Truthy(m.start) then DateSlotStep(m)
    else if !HasFinish(m) then StartSlotStep(m)
    else Confirm
  }

  /** process_date_slot_dialog_request: the date is not looked at. */
  function DateSlotStep(m: Booking): (s: Step)
    ensures s == AskStart <==> !Truthy(m.start)
    ensures s == AskFinish <==> Truthy(m.start) && !HasFinish(m)
    ensures s == Confirm <==> Truthy(m.start) && HasFinish(m)
  {
    if !Truthy(m.start) then AskStart
    else if !HasFinish(m) then StartSlotStep(m)
    else Confirm
  }

  /** process_start_slot_dialog_request: neither date nor start is looked at. */
  function StartSlotStep(m: Booking): (s: Step)
    ensures s == AskFinish <==> !HasFinish(m)
    ensures s == Confirm <==> HasFinish(m)
  {
    if !HasFinish(m) then AskFinish else Confirm
  }

  /** process_no_slots_dialog_request: as the dialog, but help instead of a confirmation. */
  function NoSlotsStep(m: Booking): (s: Step)
    ensures s == AskDate <==> !Truthy(m.date)
    ensures s == AskStart <==> Truthy(m.date) && !Truthy(m.start)
    ensures s == AskFinish <==> Truthy(m.date) && Truthy(m.start) && !HasFinish(m)
    ensures s == Help <==> Truthy(m.date) && Truthy(m.start) && HasFinish(m)
  {
    if !Truthy(m.date) then AskDate
    else if !Truthy(m.start) then DateSlotStep(m)
    else if !HasFinish(m) then StartSlotStep(m)
    else Help
  }

  /**
   * process_end_duration_slot_dialog_request, after it stored end and
   * duration: a complete booking is confirmed; without a start it asks for
   * the start even when the date is missing too; otherwise it goes the
   * no-slots way.
   */
  function EndDurationStep(m: Booking): (s: Step)
    ensures s == Confirm <==> Truthy(m.date) && Truthy(m.start) && HasFinish(m)
    ensures s == AskStart <==> !Truthy(m.start)
    ensures s == AskDate <==> Truthy(m.start) && !Truthy(m.date)
    ensures s == AskFinish <==> Truthy(m.date) && Truthy(m.start) && !HasFinish(m)
    ensures s != Help
  {
    if Truthy(m.date) && Truthy(m.start) && HasFinish(m) then Confirm
    else if !Truthy(m.start) then DateSlotStep(m)
    else NoSlotsStep(m)
  }

  // ---------------------------------------------------------------------
  // What each step stores and says
  // ---------------------------------------------------------------------

  /** help_intent: two dictionaries of plain text, session untouched. */
  function HelpTurn(attributes: Attributes): (t: Turn)
    ensures t.attributes == attributes
    ensures t.reply == Asking(SpeechDict(HELP_SPEECH, PLAIN_TEXT), SpeechDict(HELP_REPROMPT, PLAIN_TEXT))
  {
    Turn(attributes, Asking(SpeechDict(HELP_SPEECH, PLAIN_TEXT), SpeechDict(HELP_REPROMPT, PLAIN_TEXT)))
  }

  /**
   * One step, on the session's attributes before it: the field asked after
   * the one just learnt is stored (the date before asking for the start,
   * the start before asking for duration or end); a confirmation stores end
   * and duration under 'End' and 'Duration'.
   */
  function Perform(fmt: Formatters, intent: Intent, attributes: Attributes, step: Step): (t: Turn)
    ensures t.reply.Asking? && SpeechTruthy(t.reply.reprompt)
    ensures attributes.Keys <= t.attributes.Keys <= attributes.Keys + {"date", "start", "End", "Duration"}
  {
    var m := MergeData(intent, attributes);
    match step
    case AskDate => Turn(attributes, Asking(Text(DATE_PROMPT), Text(DATE_PROMPT)))
    case AskStart => Turn(Updated(attributes, "date", m.date), Asking(Text(START_PROMPT), Text(START_REPROMPT)))
    case AskFinish => Turn(Updated(attributes, "start", m.start), Asking(Text(FINISH_PROMPT), Text(FINISH_REPROMPT)))
    case Confirm =>
      var text := ConfirmationText(fmt, m);
      Turn(Updated(Updated(attributes, "End", m.end), "Duration", m.duration), Asking(Text(text), Text(text)))
    case Help => HelpTurn(attributes)
  }

  /** dialog_request_sitter and request_sitter. */
  function DialogTurn(fmt: Formatters, intent: Intent, attributes: Attributes): (t: Turn)
    ensures t.reply.Asking?
    ensures MergeData(intent, t.attributes) == MergeData(intent, attributes)
  {
    var step := DialogStep(MergeData(intent, attributes));
    PerformKeepsMerge(fmt, intent, attributes, step);
    Perform(fmt, intent, attributes, step)
  }

  function DateSlotTurn(fmt: Formatters, intent: Intent, attributes: Attributes): (t: Turn)
    ensures t.reply.Asking?
    ensures MergeData(intent, t.attributes) == MergeData(intent, attributes)
  {
    var step := DateSlotStep(MergeData(intent, attributes));
    PerformKeepsMerge(fmt, intent, attributes, step);
    Perform(fmt, intent, attributes, step)
  }

  function StartSlotTurn(fmt: Formatters, intent: Intent, attributes: Attributes): (t: Turn)
    ensures t.reply.Asking?
    ensures MergeData(intent, t.attributes) == MergeData(intent, attributes)
  {
    var step := StartSlotStep(MergeData(intent, attributes));
    PerformKeepsMerge(fmt, intent, attributes, step);
    Perform(fmt, intent, attributes, step)
  }

  function NoSlotsTurn(fmt: Formatters, intent: Intent, attributes: Attributes): (t: Turn)
    ensures t.reply.Asking?
    ensures MergeData(intent, t.attributes) == MergeData(intent, attributes)
  {
    var step := NoSlotsStep(MergeData(intent, attributes));
    PerformKeepsMerge(fmt, intent, attributes, step);
    Perform(fmt, intent, attributes, step)
  }

  function ConfirmTurn(fmt: Formatters, intent: Intent, attributes: Attributes): (t: Turn)
    ensures var text := ConfirmationText(fmt, MergeData(intent, attributes));
      t.reply == Asking(Text(text), Text(text))
  {
    Perform(fmt, intent, attributes, Confirm)
  }

  /** The attributes after end and duration were stored. */
  function EndDurationStored(intent: Intent, attributes: Attributes): (r: Attributes)
    ensures r.Keys == attributes.Keys + {"end", "duration"}
    ensures GetSessionData(r).end == MergeData(intent, attributes).end
    ensures GetSessionData(r).duration == MergeData(intent, attributes).duration
  {
    var m := MergeData(intent, attributes);
    Updated(Updated(attributes, "end", m.end), "duration", m.duration)
  }

  /** process_end_duration_slot_dialog_request: store end and duration, then take the step. */
  function EndDurationTurn(fmt: Formatters, intent: Intent, attributes: Attributes): (t: Turn)
    ensures t.reply.Asking?
    ensures MergeData(intent, t.attributes) == MergeData(intent, attributes)
  {
    var stored := EndDurationStored(intent, attributes);
    var step := EndDurationStep(MergeData(intent, attributes));
    EndDurationStoredKeepsMerge(intent, attributes);
    PerformKeepsMerge(fmt, intent, stored, step);
    Perform(fmt, intent, stored, step)
  }

  // ---------------------------------------------------------------------
  // Properties of the dialog
  // ---------------------------------------------------------------------

  /** No step changes what merge_data sees: stored values are the merged ones, or under other keys. */
  lemma PerformKeepsMerge(fmt: Formatters, intent: Intent, attributes: Attributes, step: Step)
    ensures MergeData(intent, Perform(fmt, intent, attributes, step).attributes) == MergeData(intent, attributes)
  {
    var m := MergeData(intent, attributes);
    match step
    case AskDate =>
    case AskStart => MergeStableUnderStore(intent, attributes, Date);
    case AskFinish => MergeStableUnderStore(intent, attributes, Start);
    case Confirm =>
      var a1 := Updated(attributes, "End", m.end);
      MergeIgnoresOtherKeys(intent, attributes, "End", m.end);
      MergeIgnoresOtherKeys(intent, a1, "Duration", m.duration);
    case Help =>
  }

  /**
   * The confirmation writes only the keys 'End' and 'Duration': the tuple
   * read back from the lowercase keys is unchanged.
   */
  lemma ConfirmLeavesSessionTuple(fmt: Formatters, intent: Intent, attributes: Attributes)
    ensures var after := ConfirmTurn(fmt, intent, attributes).attributes;
      && after.Keys == attributes.Keys + {"End", "Duration"}
      && (forall k :: k in attributes && k != "End" && k != "Duration" ==> after[k] == attributes[k])
      && GetSessionData(after) == GetSessionData(attributes)
  {
    var after := ConfirmTurn(fmt, intent, attributes).attributes;
    forall f ensures GetSessionData(after).Get(f) == GetSessionData(attributes).Get(f) {
      assert SessionKey(f) != "End" && SessionKey(f) != "Duration";
    }
    BookingExtensional(GetSessionData(after), GetSessionData(attributes));
  }

  /** Storing end and duration does not change what merge_data sees. */
  lemma EndDurationStoredKeepsMerge(intent: Intent, attributes: Attributes)
    ensures MergeData(intent, EndDurationStored(intent, attributes)) == MergeData(intent, attributes)
  {
    var m := MergeData(intent, attributes);
    var a1 := Updated(attributes, "end", m.end);
    MergeStableUnderStore(intent, attributes, End);
    MergeStableUnderStore(intent, a1, Duration);
  }

  /** Every step keeps the session open and has a reprompt to fall back on. */
  lemma PerformAsks(fmt: Formatters, intent: Intent, attributes: Attributes, step: Step)
    ensures var t := Perform(fmt, intent, attributes, step);
      t.reply.Asking? && SpeechTruthy(t.reply.reprompt)
      && !Render(t.attributes, t.reply).response.shouldEndSession
      && Render(t.attributes, t.reply).response.reprompt.Some?
  {
  }

  /**
   * A turn only ever adds to what the session knows: a field truthy in the
   * stored tuple before is truthy after, and a field written is written
   * with its merged value.
   */
  lemma PerformNeverForgets(fmt: Formatters, intent: Intent, attributes: Attributes, step: Step, f: Field)
    requires Truthy(GetSessionData(attributes).Get(f))
    ensures Truthy(GetSessionData(Perform(fmt, intent, attributes, step).attributes).Get(f))
  {
    var m := MergeData(intent, attributes);
    var after := Perform(fmt, intent, attributes, step).attributes;
    MergeTruthy(intent, attributes, f);
    match step
    case AskDate =>
    case AskStart =>
      if f != Date {
        assert SessionKey(f) != "date";
      }
    case AskFinish =>
      if f != Start {
        assert SessionKey(f) != "start";
      }
    case Confirm =>
      assert SessionKey(f) != "End" && SessionKey(f) != "Duration";
    case Help =>
  }

  /**
   * process_end_duration_slot_dialog_request forgets nothing either: the
   * end and duration it stores first are the merged ones.
   */
  lemma EndDurationNeverForgets(fmt: Formatters, intent: Intent, attributes: Attributes, f: Field)
    requires Truthy(GetSessionData(attributes).Get(f))
    ensures Truthy(GetSessionData(EndDurationTurn(fmt, intent, attributes).attributes).Get(f))
  {
    var stored := EndDurationStored(intent, attributes);
    MergeTruthy(intent, attributes, f);
    if f != End && f != Duration {
      assert SessionKey(f) != "end" && SessionKey(f) != "duration";
    }
    assert Truthy(GetSessionData(stored).Get(f));
    PerformNeverForgets(fmt, intent, stored, EndDurationStep(MergeData(intent, attributes)), f);
  }

  /** The step a handler takes, and so what it says, is the same when the turn is replayed on its own result. */
  lemma {:induction false} DialogReplay(fmt: Formatters, intent: Intent, attributes: Attributes)
    ensures var t := DialogTurn(fmt, intent, attributes);
      DialogTurn(fmt, intent, t.attributes).reply == t.reply
  {
    var m := MergeData(intent, attributes);
    PerformKeepsMerge(fmt, intent, attributes, DialogStep(m));
  }

  /**
   * Asking for the start records the date, and a follow-up turn in which
   * nothing new is said asks for the start again; asking for duration or
   * end records the start.
   */
  lemma DialogRecordsAnswers(fmt: Formatters, intent: Intent, attributes: Attributes, silent: Intent)
    requires forall f :: !Truthy(GetSlotData(silent).Get(f))
    ensures var m := MergeData(intent, attributes);
      var t := DialogTurn(fmt, intent, attributes);
      && (DialogStep(m) == AskStart ==>
            GetSessionData(t.attributes).date == m.date
            && DialogStep(MergeData(silent, t.attributes)) == AskStart)
      && (DialogStep(m) == AskFinish ==> GetSessionData(t.attributes).start == m.start)
  {
    var m := MergeData(intent, attributes);
    var t := DialogTurn(fmt, intent, attributes);
    MergeWithoutSpokenValues(silent, t.attributes);
    if DialogStep(m) == AskStart {
      assert SessionKey(Start) == "start" != "date";
      MergeTruthy(intent, attributes, Start);
      assert !Truthy(GetSessionData(attributes).start);
    }
  }

  /**
   * Without a start, process_end_duration_slot_dialog_request asks for the
   * start time even when the date is missing as well, storing the (missing)
   * date on the way; the date is asked for only once a start is known.
   */
  lemma EndDurationAsksStartFirst(fmt: Formatters, intent: Intent, attributes: Attributes)
    ensures var m := MergeData(intent, attributes);
      var t := EndDurationTurn(fmt, intent, attributes);
      && (!Truthy(m.start) ==>
            t.reply == Asking(Text(START_PROMPT), Text(START_REPROMPT))
            && GetSessionData(t.attributes) == m)
      && (Truthy(m.start) && !Truthy(m.date) ==>
            t.reply == Asking(Text(DATE_PROMPT), Text(DATE_PROMPT)))
  {
    var m := MergeData(intent, attributes);
    EndDurationStoredKeepsMerge(intent, attributes);
    if !Truthy(m.start) {
      var stored := EndDurationStored(intent, attributes);
      var t := EndDurationTurn(fmt, intent, attributes);
      forall f ensures GetSessionData(t.attributes).Get(f) == m.Get(f) {
        if f == Start {
          MergeTruthy(intent, attributes, Start);
          assert GetSessionData(t.attributes).start == GetSessionData(attributes).start;
        }
      }
      BookingExtensional(GetSessionData(t.attributes), m);
    }
  }

  /**
   * When date and start are spoken together and neither end nor duration is
   * known, only the start is stored: a next turn that does not repeat the
   * date finds no date and asks for it again.
   */
  lemma DateSpokenWithStartIsNotStored(fmt: Formatters, intent: Intent, attributes: Attributes, next: Intent)
    requires Truthy(GetSlotData(intent).date) && Truthy(GetSlotData(intent).start)
    requires !HasFinish(MergeData(intent, attributes))
    requires !Truthy(GetSessionData(attributes).date)
    requires !Truthy(GetSlotData(next).date)
    ensures DialogStep(MergeData(intent, attributes)) == AskFinish
    ensures DialogStep(MergeData(next, DialogTurn(fmt, intent, attributes).attributes)) == AskDate
  {
    var t := DialogTurn(fmt, intent, attributes);
    assert SessionKey(Date) == "date" != "start";
    assert GetSessionData(t.attributes).date == GetSessionData(attributes).date;
  }
}

/** One scheduled run of the price alert: fetch the day's records, classify the last
    two, and, for a sign flip not yet reported, send one SMS and remember the event in
    the single-key state file. The outside world enters as parameters: the fetch
    result, the record encoding and rendering, and whether each SMS and each file
    write succeeded. */
module PriceJob {
  import opened PriceSignal

  /** The JSON object kept in the state file. */
  type State = map<string, string>

  const LastEventKey := "last_event_id"

  /** How the world answered the run's three side effects: the write that creates an
      absent state file, the SMS send, and the write that records a handled event.
      A failed effect is swallowed by the run. */
  datatype Effects = Effects(initSaveOk: bool, smsDelivered: bool, eventSaveOk: bool)

  /** An SMS handed to the provider, and whether the provider accepted it. */
  datatype SmsAttempt = SmsAttempt(body: string, delivered: bool)

  /** The alert of one run: the message, the id of the event it reports, and delivery. */
  datatype Alert = Alert(message: string, eventId: string, delivered: bool)

  /** What one run leaves behind: the state file (None when it does not exist) and
      the alert it raised, if any. */
  datatype RunResult = RunResult(stateFile: Option<State>, alert: Option<Alert>)

  /** The id stored in a state file; a missing file reads as the empty object. */
  function StoredId(file: Option<State>): (id: Option<string>)
    ensures id.Some? <==> file.Some? && LastEventKey in file.value
    ensures id.Some? ==> id.value == file.value[LastEventKey]
  {
    match file
    case None => None
    case Some(s) => if LastEventKey in s then Some(s[LastEventKey]) else None
  }

  /** The state file after loading it: an absent file is created empty, when the write succeeds. */
  function FileAfterLoad(file: Option<State>, saveOk: bool): (f: Option<State>)
    ensures file.Some? ==> f == file
    ensures file.None? ==> (f.Some? <==> saveOk) && (f.Some? ==> f.value == map[])
    ensures StoredId(f) == StoredId(file)
  {
    if file.None? && saveOk then Some(map[]) else file
  }

  function Attempts(alert: Option<Alert>): (sms: seq<SmsAttempt>)
    ensures |sms| <= 1
    ensures |sms| == 1 <==> alert.Some?
    ensures alert.Some? ==> sms[0] == SmsAttempt(alert.value.message, alert.value.delivered)
  {
    match alert
    case None => []
    case Some(a) => [SmsAttempt(a.message, a.delivered)]
  }

  /** A run would alert: there are two records, they flip sign, and the newest one's
      id is not the stored one. */
  predicate WouldAlert(fetched: Option<seq<PriceRecord>>, file: Option<State>, encode: PriceRecord -> string) {
    && fetched.Some?
    && |fetched.value| >= 2
    && Detect(fetched.value[|fetched.value| - 2], fetched.value[|fetched.value| - 1]).Significant()
    && StoredId(file) != Some(encode(fetched.value[|fetched.value| - 1]))
  }

  /** One run as a function of its inputs and of the state file it starts from.
      `fetched` is None when the request failed. */
  function RunSpec(fetched: Option<seq<PriceRecord>>, file: Option<State>,
                   encode: PriceRecord -> string, render: seq<PriceRecord> -> string,
                   fx: Effects): (r: RunResult)
    ensures r.alert.Some? ==> fetched.Some? && |fetched.value| >= 2
    ensures r.alert.Some? ==> StoredId(file) != Some(r.alert.value.eventId)
    ensures r.alert.Some? && fx.eventSaveOk ==> r.stateFile == Some(map[LastEventKey := r.alert.value.eventId])
    ensures r.alert.None? ==> StoredId(r.stateFile) == StoredId(file)
  {
    if fetched.None? || |fetched.value| < 2 then RunResult(file, None)
    else
      var rows := fetched.value;
      var lastTwo := rows[|rows| - 2..];
      var kind := Detect(lastTwo[0], lastTwo[1]);
      var id := encode(lastTwo[1]);
      if kind.Significant() && StoredId(file) != Some(id) then
        RunResult(if fx.eventSaveOk then Some(map[LastEventKey := id]) else FileAfterLoad(file, fx.initSaveOk),
                  Some(Alert(Message(kind, render(lastTwo)), id, fx.smsDelivered)))
      else
        RunResult(FileAfterLoad(file, fx.initSaveOk), None)
  }

  /** A run alerts exactly when its rows hold a fresh sign flip; the alert reports the
      newest record, its message names the direction of the flip, and the saved state
      is then exactly that record's id. */
  lemma AlertIffFreshFlip(fetched: Option<seq<PriceRecord>>, file: Option<State>,
                          encode: PriceRecord -> string, render: seq<PriceRecord> -> string, fx: Effects)
    ensures var r := RunSpec(fetched, file, encode, render, fx);
      r.alert.Some? <==> WouldAlert(fetched, file, encode)
    ensures var r := RunSpec(fetched, file, encode, render, fx);
      r.alert.Some? ==>
        var rows := fetched.value;
        && r.alert.value.eventId == encode(rows[|rows| - 1])
        && r.alert.value.message == Message(Detect(rows[|rows| - 2], rows[|rows| - 1]), render(rows[|rows| - 2..]))
        && KindOf(r.alert.value.message) == Detect(rows[|rows| - 2], rows[|rows| - 1])
        && r.alert.value.delivered == fx.smsDelivered
        && r.stateFile == (if fx.eventSaveOk then Some(map[LastEventKey := r.alert.value.eventId])
                           else FileAfterLoad(file, fx.initSaveOk))
  {
    var r := RunSpec(fetched, file, encode, render, fx);
    if r.alert.Some? {
      var rows := fetched.value;
      var lastTwo := rows[|rows| - 2..];
      KindOfMessage(Detect(lastTwo[0], lastTwo[1]), render(lastTwo));
    }
  }

  /** A failed fetch, an empty day or a single record: no SMS, and the state file is
      not even loaded, so it is left exactly as it was. */
  lemma NoDecisionWithoutTwoRows(fetched: Option<seq<PriceRecord>>, file: Option<State>,
                                 encode: PriceRecord -> string, render: seq<PriceRecord> -> string, fx: Effects)
    requires fetched.None? || |fetched.value| < 2
    ensures RunSpec(fetched, file, encode, render, fx) == RunResult(file, None)
  {
  }

  /** Only the last two records decide the run, in their order. */
  lemma OnlyLastTwoRowsMatter(rows: seq<PriceRecord>, file: Option<State>,
                              encode: PriceRecord -> string, render: seq<PriceRecord> -> string, fx: Effects)
    requires |rows| >= 2
    ensures RunSpec(Some(rows), file, encode, render, fx)
         == RunSpec(Some([rows[|rows| - 2], rows[|rows| - 1]]), file, encode, render, fx)
  {
    assert rows[|rows| - 2..] == [rows[|rows| - 2], rows[|rows| - 1]];
  }

  /** Without an alert the run changes the state file at most by creating it empty. */
  lemma QuietRunKeepsState(fetched: Option<seq<PriceRecord>>, file: Option<State>,
                           encode: PriceRecord -> string, render: seq<PriceRecord> -> string, fx: Effects)
    requires !WouldAlert(fetched, file, encode)
    ensures var r := RunSpec(fetched, file, encode, render, fx);
      r.alert.None? && StoredId(r.stateFile) == StoredId(file)
      && (file.Some? ==> r.stateFile == file)
  {
  }

  /** With no stored id (no file, or no key in it) every sign flip is reported. */
  lemma FreshStateAlertsOnFlip(rows: seq<PriceRecord>, file: Option<State>,
                               encode: PriceRecord -> string, render: seq<PriceRecord> -> string, fx: Effects)
    requires |rows| >= 2 && Detect(rows[|rows| - 2], rows[|rows| - 1]).Significant()
    requires file.None? || LastEventKey !in file.value
    ensures RunSpec(Some(rows), file, encode, render, fx).alert.Some?
  {
  }

  /** The state the run leaves does not depend on whether the SMS was delivered:
      a failed send still marks the event handled. */
  lemma DeliveryDoesNotAffectState(fetched: Option<seq<PriceRecord>>, file: Option<State>,
                                   encode: PriceRecord -> string, render: seq<PriceRecord> -> string,
                                   fx: Effects, delivered: bool)
    ensures RunSpec(fetched, file, encode, render, fx).stateFile
         == RunSpec(fetched, file, encode, render, fx.(smsDelivered := delivered)).stateFile
  {
  }

  /** Running again on the same records after a run that alerted and saved its event
      sends nothing and leaves the state alone. */
  lemma SecondRunIsQuiet(fetched: Option<seq<PriceRecord>>, file: Option<State>,
                         encode: PriceRecord -> string, render: seq<PriceRecord> -> string,
                         fx1: Effects, fx2: Effects)
    requires RunSpec(fetched, file, encode, render, fx1).alert.Some? && fx1.eventSaveOk
    ensures var first := RunSpec(fetched, file, encode, render, fx1);
      RunSpec(fetched, first.stateFile, encode, render, fx2) == RunResult(first.stateFile, None)
  {
  }

  /** When the event write fails the stored id is unchanged, so the same flip is
      reported again by the next run: delivery is at least once in that case. */
  lemma FailedSaveAlertsAgain(fetched: Option<seq<PriceRecord>>, file: Option<State>,
                              encode: PriceRecord -> string, render: seq<PriceRecord> -> string,
                              fx1: Effects, fx2: Effects)
    requires RunSpec(fetched, file, encode, render, fx1).alert.Some? && !fx1.eventSaveOk
    ensures var first := RunSpec(fetched, file, encode, render, fx1);
      RunSpec(fetched, first.stateFile, encode, render, fx2).alert == Some(first.alert.value.(delivered := fx2.smsDelivered))
  {
  }

  /** Once an event is stored, a sign flip ending in a record whose id differs from
      the handled one's is reported. */
  lemma NewEventIsReported(rows: seq<PriceRecord>, handled: PriceRecord,
                           encode: PriceRecord -> string, render: seq<PriceRecord> -> string, fx: Effects)
    requires |rows| >= 2 && Detect(rows[|rows| - 2], rows[|rows| - 1]).Significant()
    requires rows[|rows| - 1] != handled
    requires encode(rows[|rows| - 1]) == encode(handled) ==> rows[|rows| - 1] == handled
    ensures RunSpec(Some(rows), Some(map[LastEventKey := encode(handled)]), encode, render, fx).alert.Some?
  {
  }

  /** One scheduled invocation: what the fetch returned and how the effects went. */
  datatype Invocation = Invocation(fetched: Option<seq<PriceRecord>>, fx: Effects)

  /** Invocations run one after another, each starting from the file the previous left. */
  function Replay(runs: seq<Invocation>, file: Option<State>,
                  encode: PriceRecord -> string, render: seq<PriceRecord> -> string): (r: (Option<State>, seq<Alert>))
    ensures |r.1| <= |runs|
  {
    if runs == [] then (file, [])
    else
      var first := RunSpec(runs[0].fetched, file, encode, render, runs[0].fx);
      var rest := Replay(runs[1..], first.stateFile, encode, render);
      (rest.0, (if first.alert.Some? then [first.alert.value] else []) + rest.1)
  }

  /** Once no alert is due for some records, none is due for them ever again. */
  lemma {:induction false} QuietStaysQuiet(runs: seq<Invocation>, fetched: Option<seq<PriceRecord>>,
                                           file: Option<State>,
                                           encode: PriceRecord -> string, render: seq<PriceRecord> -> string)
    requires forall k :: 0 <= k < |runs| ==> runs[k].fetched == fetched
    requires !WouldAlert(fetched, file, encode)
    ensures Replay(runs, file, encode, render).1 == []
    ensures StoredId(Replay(runs, file, encode, render).0) == StoredId(file)
  {
    if runs != [] {
      var first := RunSpec(fetched, file, encode, render, runs[0].fx);
      QuietRunKeepsState(fetched, file, encode, render, runs[0].fx);
      QuietStaysQuiet(runs[1..], fetched, first.stateFile, encode, render);
    }
  }

  /** Repeated runs over the same records, with every event write succeeding, send
      at most one SMS however often the scheduler fires. */
  lemma {:induction false} RepeatedRunsAlertAtMostOnce(runs: seq<Invocation>, fetched: Option<seq<PriceRecord>>,
                                                       file: Option<State>,
                                                       encode: PriceRecord -> string, render: seq<PriceRecord> -> string)
    requires forall k :: 0 <= k < |runs| ==> runs[k].fetched == fetched && runs[k].fx.eventSaveOk
    ensures |Replay(runs, file, encode, render).1| <= 1
  {
    if runs != [] {
      var first := RunSpec(fetched, file, encode, render, runs[0].fx);
      if first.alert.Some? {
        AlertIffFreshFlip(fetched, file, encode, render, runs[0].fx);
        assert StoredId(first.stateFile) == Some(encode(fetched.value[|fetched.value| - 1]));
        QuietStaysQuiet(runs[1..], fetched, first.stateFile, encode, render);
      } else {
        AlertIffFreshFlip(fetched, file, encode, render, runs[0].fx);
        QuietStaysQuiet(runs, fetched, file, encode, render);
      }
    }
  }

  /** The stored id only ever names an event that was reported: after any sequence of
      runs it is the id the file started with or the id of one of the alerts. */
  lemma {:induction false} StoredIdWasReported(runs: seq<Invocation>, file: Option<State>,
                                               encode: PriceRecord -> string, render: seq<PriceRecord> -> string)
    ensures var (final, alerts) := Replay(runs, file, encode, render);
      StoredId(final) == StoredId(file) || exists a :: a in alerts && Some(a.eventId) == StoredId(final)
  {
    if runs != [] {
      var first := RunSpec(runs[0].fetched, file, encode, render, runs[0].fx);
      AlertIffFreshFlip(runs[0].fetched, file, encode, render, runs[0].fx);
      StoredIdWasReported(runs[1..], first.stateFile, encode, render);
      var (final, alerts) := Replay(runs, file, encode, render);
      var rest := Replay(runs[1..], first.stateFile, encode, render);
      assert alerts == (if first.alert.Some? then [first.alert.value] else []) + rest.1;
      if StoredId(final) != StoredId(first.stateFile) {
        var a :| a in rest.1 && Some(a.eventId) == StoredId(final);
        assert a in alerts;
      } else if StoredId(first.stateFile) != StoredId(file) {
        assert first.alert.value in alerts;
      }
    }
  }

  /** When every event write succeeds, the stored id is the id of the last alert sent. */
  lemma {:induction false} StoredIdIsLastAlert(runs: seq<Invocation>, file: Option<State>,
                                               encode: PriceRecord -> string, render: seq<PriceRecord> -> string)
    requires forall k :: 0 <= k < |runs| ==> runs[k].fx.eventSaveOk
    ensures var (final, alerts) := Replay(runs, file, encode, render);
      StoredId(final) == if alerts == [] then StoredId(file) else Some(alerts[|alerts| - 1].eventId)
  {
    if runs != [] {
      var first := RunSpec(runs[0].fetched, file, encode, render, runs[0].fx);
      AlertIffFreshFlip(runs[0].fetched, file, encode, render, runs[0].fx);
      StoredIdIsLastAlert(runs[1..], first.stateFile, encode, render);
    }
  }

  /** The running script: the persisted state file and the SMS handed to the provider. */
  class Monitor {
    var stateFile: Option<State>
    var outbox: seq<SmsAttempt>

    constructor (file: Option<State>)
      ensures stateFile == file && outbox == []
    {
      stateFile := file;
      outbox := [];
    }

    /** Overwrites the state file; a failed write is swallowed and leaves the old file. */
    method SaveLastState(state: State, ok: bool)
      modifies this`stateFile
      ensures stateFile == if ok then Some(state) else old(stateFile)
    {
      if ok {
        stateFile := Some(state);
      }
    }

    /** Reads the state file; an absent one reads as `{}` and is created empty. */
    method LoadLastState(saveOk: bool) returns (state: State)
      modifies this`stateFile
      ensures old(stateFile).Some? ==> state == old(stateFile).value && stateFile == old(stateFile)
      ensures old(stateFile).None? ==> state == map[] && stateFile == (if saveOk then Some(map[]) else None)
    {
      if stateFile.Some? {
        state := stateFile.value;
      } else {
        SaveLastState(map[], saveOk);
        state := map[];
      }
    }

    /** Hands one message to the SMS provider; a failure is swallowed. */
    method SendSms(message: string, delivered: bool)
      modifies this`outbox
      ensures outbox == old(outbox) + [SmsAttempt(message, delivered)]
    {
      outbox := outbox + [SmsAttempt(message, delivered)];
    }

    /** One run of the script, step by step as it is written. */
    method FetchAndProcessData(fetched: Option<seq<PriceRecord>>,
                               encode: PriceRecord -> string, render: seq<PriceRecord> -> string, fx: Effects)
      modifies this
      ensures var r := RunSpec(fetched, old(stateFile), encode, render, fx);
        stateFile == r.stateFile && outbox == old(outbox) + Attempts(r.alert)
    {
      if fetched.None? {
        return;
      }
      var data := fetched.value;
      if |data| > 0 {
        if |data| >= 2 {
          var lastTwo := data[|data| - 2..];
          var firstCen := lastTwo[0].cen;
          var secondCen := lastTwo[1].cen;
          var currentEventId := encode(lastTwo[1]);
          var lastState := LoadLastState(fx.initSaveOk);

          var significantChange := false;
          var message;
          if firstCen > 0.0 && secondCen < 0.0 {
            message := NegativeHeadline + " " + render(lastTwo);
            significantChange := true;
          } else if firstCen < 0.0 && secondCen > 0.0 {
            message := PositiveHeadline + " " + render(lastTwo);
            significantChange := true;
          } else {
            message := NoChangeMessage;
          }

          var lastEventId := if LastEventKey in lastState then Some(lastState[LastEventKey]) else None;
          if significantChange && lastEventId != Some(currentEventId) {
            SendSms(message, fx.smsDelivered);
            SaveLastState(map[LastEventKey := currentEventId], fx.eventSaveOk);
          }
        }
      }
    }
  }
}

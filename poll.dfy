/** One cycle of the bot's polling loop as a state machine, the loop itself
    run over a finite sequence of fetch results, and start-up. The state is
    the request cursor, the text of the last error alert, and the messages
    sent so far. */
module Poll {
  import opened Json
  import opened Optional
  import opened Errors
  import opened Homework

  /** The fixed part of every error alert. */
  const AlertPrefix := "Сбой в работе программы: "

  /** What one call to the API client produced: an exception (whose text is
      `detail`) or a decoded body. A body that could not be decoded reaches
      the loop as `Answer(Null)`. */
  datatype Fetch = Raised(detail: string) | Answer(body: Json)

  /** What the body of the loop's `try` block decides. `date` is the
      answer's `current_date` entry, if it has one. */
  datatype Outcome =
    | Idle(date: Option<Json>)
    | Notify(message: string, date: Option<Json>)
    | Failed(alert: string)

  /** The loop's variables and the Telegram messages sent so far. */
  datatype State = State(cursor: Json, lastError: string, sent: seq<string>)

  /** The error alert built from an exception's text. */
  function Alert(detail: string): string
  {
    AlertPrefix + detail
  }

  /** The loop's state right after start-up at Unix time `now`. */
  function Init(now: int): State
  {
    State(Int(now), "", [])
  }

  /** The `try` block: validate the answer, format the first homework if
      there is one, and read the new cursor. Any exception becomes an
      alert. */
  function Classify(f: Fetch, statuses: map<string, string>): (o: Outcome)
    ensures f.Raised? ==> o == Failed(Alert(f.detail))
    ensures o.Idle? <==> f.Answer? && CheckResponse(f.body).Ok? && CheckResponse(f.body).value == []
    ensures o.Notify? ==>
      && f.Answer? && CheckResponse(f.body).Ok? && CheckResponse(f.body).value != []
      && ParseStatus(CheckResponse(f.body).value[0], statuses) == Ok(o.message)
    ensures !o.Failed? ==>
      o.date == if "current_date" in f.body.fields then Some(f.body.fields["current_date"]) else None
  {
    match f
    case Raised(detail) => Failed(Alert(detail))
    case Answer(body) =>
      match CheckResponse(body)
      case Err(e) => Failed(Alert(Text(e)))
      case Ok(homeworks) =>
        var date := if "current_date" in body.fields then Some(body.fields["current_date"]) else None;
        if homeworks == [] then Idle(date)
        else
          match ParseStatus(homeworks[0], statuses)
          case Err(e) => Failed(Alert(Text(e)))
          case Ok(message) => Notify(message, date)
  }

  function Advance(cursor: Json, date: Option<Json>): Json
  {
    match date
    case None => cursor
    case Some(d) => d
  }

  /** What the loop does with the outcome of its `try` block: send the
      sentence and move the cursor on success; on failure send the alert
      unless it repeats the last one, and remember it. */
  function Apply(s: State, o: Outcome): (r: State)
    // the log only grows, by at most one message
    ensures |s.sent| <= |r.sent| <= |s.sent| + 1 && r.sent[..|s.sent|] == s.sent
    ensures r.lastError == if o.Failed? then o.alert else s.lastError
    ensures o.Failed? ==> r.cursor == s.cursor
    ensures o.Notify? ==> r.sent == s.sent + [o.message]
  {
    match o
    case Idle(date) => s.(cursor := Advance(s.cursor, date))
    case Notify(message, date) => s.(cursor := Advance(s.cursor, date), sent := s.sent + [message])
    case Failed(alert) =>
      if alert != s.lastError then s.(lastError := alert, sent := s.sent + [alert]) else s
  }

  /** One pass of the loop, sleep aside. */
  function Cycle(s: State, f: Fetch, statuses: map<string, string>): (r: State)
    ensures |s.sent| <= |r.sent| <= |s.sent| + 1 && r.sent[..|s.sent|] == s.sent
    ensures Classify(f, statuses).Failed? ==>
      r.cursor == s.cursor && r.lastError == Classify(f, statuses).alert
    ensures !Classify(f, statuses).Failed? ==> r.lastError == s.lastError
    ensures f.Raised? ==> r.cursor == s.cursor && r.lastError == Alert(f.detail)
  {
    Apply(s, Classify(f, statuses))
  }

  /** The state after running the cycles `fs` in order from `s`. */
  function Replay(s: State, fs: seq<Fetch>, statuses: map<string, string>): (r: State)
    // the log only grows, by at most one message per cycle
    ensures |s.sent| <= |r.sent| <= |s.sent| + |fs|
    ensures r.sent[..|s.sent|] == s.sent
  {
    if fs == [] then s
    else
      var before := Replay(s, fs[..|fs| - 1], statuses);
      var after := Cycle(before, fs[|fs| - 1], statuses);
      assert after.sent[..|s.sent|] == before.sent[..|before.sent|][..|s.sent|];
      after
  }

  // ---------------------------------------------------------------------
  // The loop's variables and its send primitive, in place.

  class Session {
    /** The status-code-to-verdict table from the settings. */
    const statuses: map<string, string>
    /** `current_timestamp` */
    var cursor: Json
    /** `last_error` */
    var lastError: string
    /** The messages handed to Telegram, oldest first. */
    var sent: seq<string>

    function Snapshot(): State
      reads this
    {
      State(cursor, lastError, sent)
    }

    constructor (now: int, statuses: map<string, string>)
      ensures Snapshot() == Init(now)
      ensures this.statuses == statuses
    {
      this.statuses := statuses;
      cursor := Int(now);
      lastError := "";
      sent := [];
    }

    /** `send_message`: delivery failures are swallowed, so sending never
        changes anything but the log. */
    method Send(message: string)
      modifies this`sent
      ensures sent == old(sent) + [message]
    {
      sent := sent + [message];
    }

    /** The `except` branch: alert unless the text equals the last alert,
        then remember it. */
    method Fail(detail: string)
      modifies this`sent, this`lastError
      ensures lastError == Alert(detail)
      ensures sent == if Alert(detail) != old(lastError) then old(sent) + [Alert(detail)] else old(sent)
    {
      var errorMessage := Alert(detail);
      if errorMessage != lastError {
        Send(errorMessage);
        lastError := errorMessage;
      }
    }

    /** One pass of the loop on the result of one fetch. */
    method Step(f: Fetch)
      modifies this
      ensures Snapshot() == Cycle(old(Snapshot()), f, statuses)
    {
      match f
      case Raised(detail) =>
        Fail(detail);
      case Answer(response) =>
        var homeworks := CheckResponse(response);
        if homeworks.Err? {
          Fail(Text(homeworks.error));
          return;
        }
        if homeworks.value != [] {
          var message := ParseStatus(homeworks.value[0], statuses);
          if message.Err? {
            Fail(Text(message.error));
            return;
          }
          Send(message.value);
        }
        cursor := Get(response.fields, "current_date", cursor);
    }

    /** The `while True` loop, over a finite run of fetch results. */
    method Run(fetches: seq<Fetch>)
      modifies this
      ensures Snapshot() == Replay(old(Snapshot()), fetches, statuses)
    {
      var i := 0;
      while i < |fetches|
        invariant 0 <= i <= |fetches|
        invariant Snapshot() == Replay(old(Snapshot()), fetches[..i], statuses)
      {
        Step(fetches[i]);
        assert fetches[..i + 1][..i] == fetches[..i];
        i := i + 1;
      }
      assert fetches[..i] == fetches;
    }
  }
}

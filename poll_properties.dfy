/** What the polling loop guarantees: the effects of one successful or
    failing cycle, and, over any run of cycles, which alerts and which status
    messages reach Telegram and where the cursor ends up. */
module PollProperties {
  import opened Json
  import opened Optional
  import opened Errors
  import opened Homework
  import opened Poll

  // ---------------------------------------------------------------------
  // Sequence helpers

  function Last<T>(xs: seq<T>): T
    requires xs != []
  {
    xs[|xs| - 1]
  }

  function DropLast<T>(xs: seq<T>): seq<T>
    requires xs != []
  {
    xs[..|xs| - 1]
  }

  lemma DropLastAppend<T>(xs: seq<T>, x: T)
    ensures DropLast(xs + [x]) == xs && Last(xs + [x]) == x
  {
    assert (xs + [x])[..|xs|] == xs;
  }

  /** No element equals the one before it. */
  predicate NoStutter(xs: seq<string>)
  {
    forall k | 0 < k < |xs| :: xs[k - 1] != xs[k]
  }

  /** The reference behaviour of the alert filter: a run of equal texts is
      reported once. */
  function Dedup(xs: seq<string>): (r: seq<string>)
    ensures |r| <= |xs|
    ensures r == [] <==> xs == []
    ensures xs != [] ==> Last(r) == Last(xs)
    ensures NoStutter(r)
    ensures forall x :: x in r <==> x in xs
  {
    if xs == [] then []
    else
      var d := Dedup(DropLast(xs));
      if d != [] && Last(d) == Last(xs) then d else d + [Last(xs)]
  }

  // ---------------------------------------------------------------------
  // Telling alerts from status messages in the log

  predicate IsAlert(m: string)
  {
    |AlertPrefix| <= |m| && m[..|AlertPrefix|] == AlertPrefix
  }

  /** The alerts in a log, oldest first. */
  function Alerts(log: seq<string>): (r: seq<string>)
    ensures forall k | 0 <= k < |r| :: IsAlert(r[k])
  {
    if log == [] then []
    else Alerts(DropLast(log)) + (if IsAlert(Last(log)) then [Last(log)] else [])
  }

  /** The status messages in a log, oldest first. */
  function Notices(log: seq<string>): (r: seq<string>)
    ensures forall k | 0 <= k < |r| :: !IsAlert(r[k])
  {
    if log == [] then []
    else Notices(DropLast(log)) + (if IsAlert(Last(log)) then [] else [Last(log)])
  }

  lemma LogAppend(log: seq<string>, m: string)
    ensures Alerts(log + [m]) == Alerts(log) + (if IsAlert(m) then [m] else [])
    ensures Notices(log + [m]) == Notices(log) + (if IsAlert(m) then [] else [m])
  {
    DropLastAppend(log, m);
  }

  /** Every alert the loop builds carries the alert prefix. */
  lemma AlertIsAlert(detail: string)
    ensures IsAlert(Alert(detail)) && Alert(detail) != ""
  {
    assert (AlertPrefix + detail)[..|AlertPrefix|] == AlertPrefix;
  }

  /** A status message can never be mistaken for an alert. */
  lemma NoticeIsNotAlert(f: Fetch, statuses: map<string, string>)
    requires Classify(f, statuses).Notify?
    ensures !IsAlert(Classify(f, statuses).message)
  {
    var homeworks := CheckResponse(f.body).value;
    ParseStatusPrefix(homeworks[0], statuses);
    var m := Classify(f, statuses).message;
    assert m[0] == m[..|StatusPrefix|][0] == StatusPrefix[0] == 'И';
    assert AlertPrefix[0] == 'С';
  }

  /** Every failing cycle's alert carries the alert prefix. */
  lemma FailedIsAlert(f: Fetch, statuses: map<string, string>)
    requires Classify(f, statuses).Failed?
    ensures IsAlert(Classify(f, statuses).alert) && Classify(f, statuses).alert != ""
  {
    match f
    case Raised(detail) => AlertIsAlert(detail);
    case Answer(body) =>
      var checked := CheckResponse(body);
      if checked.Err? {
        AlertIsAlert(Text(checked.error));
      } else {
        AlertIsAlert(Text(ParseStatus(checked.value[0], statuses).error));
      }
  }

  // ---------------------------------------------------------------------
  // One cycle

  /** Which cycles take the exception path, and the text they alert with. */
  lemma FailureCauses(f: Fetch, statuses: map<string, string>)
    ensures f.Raised? ==> Classify(f, statuses) == Failed(Alert(f.detail))
    ensures f.Answer? && CheckResponse(f.body).Err? ==>
      Classify(f, statuses) == Failed(Alert(Text(CheckResponse(f.body).error)))
    ensures (f.Answer? && CheckResponse(f.body).Ok? && CheckResponse(f.body).value != []
             && ParseStatus(CheckResponse(f.body).value[0], statuses).Err?) ==>
      Classify(f, statuses) == Failed(Alert(Text(ParseStatus(CheckResponse(f.body).value[0], statuses).error)))
    ensures Classify(f, statuses).Failed? <==>
      || f.Raised?
      || CheckResponse(f.body).Err?
      || (CheckResponse(f.body).value != [] && ParseStatus(CheckResponse(f.body).value[0], statuses).Err?)
  {
  }

  /** A successful cycle sends the first homework's sentence, or nothing for
      an empty list, moves the cursor to `current_date` when the answer has
      one, and leaves the last alert alone. */
  lemma SuccessfulCycle(s: State, body: Json, statuses: map<string, string>)
    requires CheckResponse(body).Ok?
    requires CheckResponse(body).value == [] || ParseStatus(CheckResponse(body).value[0], statuses).Ok?
    ensures Cycle(s, Answer(body), statuses).lastError == s.lastError
    ensures Cycle(s, Answer(body), statuses).cursor == Get(body.fields, "current_date", s.cursor)
    ensures CheckResponse(body).value == [] ==> Cycle(s, Answer(body), statuses).sent == s.sent
    ensures CheckResponse(body).value != [] ==>
      Cycle(s, Answer(body), statuses).sent == s.sent + [ParseStatus(CheckResponse(body).value[0], statuses).value]
  {
  }

  /** A failing cycle keeps the cursor, sends its alert only when the text
      differs from the last alert, and remembers the text either way. */
  lemma FailingCycle(s: State, f: Fetch, statuses: map<string, string>)
    requires Classify(f, statuses).Failed?
    ensures Cycle(s, f, statuses).cursor == s.cursor
    ensures Cycle(s, f, statuses).lastError == Classify(f, statuses).alert
    ensures Cycle(s, f, statuses).sent ==
      s.sent + (if Classify(f, statuses).alert != s.lastError then [Classify(f, statuses).alert] else [])
  {
  }

  /** The same error twice in a row: the second cycle changes nothing. */
  lemma RepeatedFailure(s: State, f: Fetch, g: Fetch, statuses: map<string, string>)
    requires Classify(f, statuses).Failed?
    requires Classify(g, statuses) == Classify(f, statuses)
    ensures Cycle(Cycle(s, f, statuses), g, statuses) == Cycle(s, f, statuses)
    ensures |Cycle(Cycle(s, f, statuses), g, statuses).sent| <= |s.sent| + 1
  {
  }

  /** Two different errors in a row: the second is always sent, and so is the
      first unless it repeats the alert before it. */
  lemma DistinctFailures(s: State, f: Fetch, g: Fetch, statuses: map<string, string>)
    requires Classify(f, statuses).Failed? && Classify(g, statuses).Failed?
    requires Classify(f, statuses).alert != Classify(g, statuses).alert
    ensures Classify(f, statuses).alert != s.lastError ==>
      Cycle(Cycle(s, f, statuses), g, statuses).sent
        == s.sent + [Classify(f, statuses).alert, Classify(g, statuses).alert]
    ensures Cycle(Cycle(s, f, statuses), g, statuses).sent
        == Cycle(s, f, statuses).sent + [Classify(g, statuses).alert]
  {
  }

  /** The last alert survives successful cycles, so an error that comes back
      after a success is not sent again. */
  lemma FailureAfterSuccess(s: State, f: Fetch, g: Fetch, statuses: map<string, string>)
    requires Classify(f, statuses).Failed? && !Classify(g, statuses).Failed?
    ensures Cycle(Cycle(Cycle(s, f, statuses), g, statuses), f, statuses).sent
         == Cycle(Cycle(s, f, statuses), g, statuses).sent
  {
  }

  /** Status messages are not deduplicated: the same answer twice is
      reported twice. */
  lemma RepeatedNotice(s: State, f: Fetch, statuses: map<string, string>)
    requires Classify(f, statuses).Notify?
    ensures Cycle(Cycle(s, f, statuses), f, statuses).sent
         == s.sent + [Classify(f, statuses).message, Classify(f, statuses).message]
  {
  }

  // ---------------------------------------------------------------------
  // Runs of cycles, first as runs of outcomes

  /** The outcomes of the cycles `fs`, in order. */
  function Outcomes(fs: seq<Fetch>, statuses: map<string, string>): (os: seq<Outcome>)
    ensures |os| == |fs|
    ensures forall k | 0 <= k < |fs| :: os[k] == Classify(fs[k], statuses)
  {
    if fs == [] then []
    else
      var prefix := DropLast(fs);
      assert forall k | 0 <= k < |prefix| :: prefix[k] == fs[k];
      Outcomes(prefix, statuses) + [Classify(Last(fs), statuses)]
  }

  /** Applying the outcomes `os` in order. */
  function Fold(s: State, os: seq<Outcome>): State
  {
    if os == [] then s else Apply(Fold(s, DropLast(os)), Last(os))
  }

  lemma {:induction false} ReplayIsFold(s: State, fs: seq<Fetch>, statuses: map<string, string>)
    ensures Replay(s, fs, statuses) == Fold(s, Outcomes(fs, statuses))
  {
    if fs != [] {
      ReplayIsFold(s, DropLast(fs), statuses);
      DropLastAppend(Outcomes(DropLast(fs), statuses), Classify(Last(fs), statuses));
    }
  }

  /** An outcome whose text tells by its prefix which kind it is. */
  predicate Labelled(o: Outcome)
  {
    && (o.Failed? ==> IsAlert(o.alert))
    && (o.Notify? ==> !IsAlert(o.message))
  }

  lemma OutcomesLabelled(fs: seq<Fetch>, statuses: map<string, string>)
    ensures forall k | 0 <= k < |fs| :: Labelled(Outcomes(fs, statuses)[k])
  {
    forall k | 0 <= k < |fs| ensures Labelled(Outcomes(fs, statuses)[k]) {
      var f := fs[k];
      if Classify(f, statuses).Failed? { FailedIsAlert(f, statuses); }
      if Classify(f, statuses).Notify? { NoticeIsNotAlert(f, statuses); }
    }
  }

  /** The alerts of the failing outcomes among `os`, in order, duplicates
      included. */
  function ErrorTexts(os: seq<Outcome>): seq<string>
  {
    if os == [] then []
    else ErrorTexts(DropLast(os)) + (if Last(os).Failed? then [Last(os).alert] else [])
  }

  /** The sentences of the outcomes among `os` that found a homework. */
  function Messages(os: seq<Outcome>): seq<string>
  {
    if os == [] then []
    else Messages(DropLast(os)) + (if Last(os).Notify? then [Last(os).message] else [])
  }

  /** The cursor an outcome moves to, if it moves it. */
  function NewDate(o: Outcome): Option<Json>
  {
    match o
    case Idle(date) => date
    case Notify(_, date) => date
    case Failed(_) => None
  }

  /** The last alert a run of error texts leaves behind. */
  function LastOr(errors: seq<string>): string
  {
    if errors == [] then "" else Last(errors)
  }

  /** A successful outcome adds no alert and keeps the last one. */
  lemma ApplyQuietAlerts(s: State, o: Outcome)
    requires !o.Failed? && Labelled(o)
    ensures Alerts(Apply(s, o).sent) == Alerts(s.sent)
    ensures Apply(s, o).lastError == s.lastError
  {
    if o.Notify? {
      LogAppend(s.sent, o.message);
    }
  }

  /** A new alert is sent, and extends the deduplicated alerts. */
  lemma ApplyNewAlert(s: State, a: string, errors: seq<string>)
    requires IsAlert(a) && a != s.lastError
    requires Alerts(s.sent) == Dedup(errors) && s.lastError == LastOr(errors)
    ensures Alerts(Apply(s, Failed(a)).sent) == Dedup(errors + [a])
    ensures Apply(s, Failed(a)).lastError == LastOr(errors + [a])
  {
    LogAppend(s.sent, a);
    DropLastAppend(errors, a);
    assert Dedup(errors + [a]) == Dedup(errors) + [a];
  }

  /** A repeated alert is suppressed, and so is it in the deduplicated
      alerts. */
  lemma ApplyRepeatedAlert(s: State, a: string, errors: seq<string>)
    requires IsAlert(a) && a == s.lastError
    requires Alerts(s.sent) == Dedup(errors) && s.lastError == LastOr(errors)
    ensures Alerts(Apply(s, Failed(a)).sent) == Dedup(errors + [a])
    ensures Apply(s, Failed(a)).lastError == LastOr(errors + [a])
  {
    DropLastAppend(errors, a);
    assert errors != [];
    assert Dedup(errors + [a]) == Dedup(errors);
  }

  lemma {:induction false} FoldAlerts(os: seq<Outcome>)
    requires forall k | 0 <= k < |os| :: Labelled(os[k])
    ensures Alerts(Fold(State(Null, "", []), os).sent) == Dedup(ErrorTexts(os))
    ensures Fold(State(Null, "", []), os).lastError == LastOr(ErrorTexts(os))
  {
    if os != [] {
      var prefix, o := DropLast(os), Last(os);
      assert forall k | 0 <= k < |prefix| :: prefix[k] == os[k];
      FoldAlerts(prefix);
      var s := Fold(State(Null, "", []), prefix);
      var errors := ErrorTexts(prefix);
      assert Fold(State(Null, "", []), os) == Apply(s, o);
      assert Labelled(os[|os| - 1]);
      if o.Failed? {
        assert ErrorTexts(os) == errors + [o.alert];
        if o.alert == s.lastError {
          ApplyRepeatedAlert(s, o.alert, errors);
        } else {
          ApplyNewAlert(s, o.alert, errors);
        }
      } else {
        assert ErrorTexts(os) == errors;
        ApplyQuietAlerts(s, o);
      }
    }
  }

  /** Folding from any cursor gives the same log and last alert. */
  lemma {:induction false} FoldIgnoresCursor(c: Json, d: Json, e: string, log: seq<string>, os: seq<Outcome>)
    ensures Fold(State(c, e, log), os).sent == Fold(State(d, e, log), os).sent
    ensures Fold(State(c, e, log), os).lastError == Fold(State(d, e, log), os).lastError
  {
    if os != [] {
      FoldIgnoresCursor(c, d, e, log, DropLast(os));
    }
  }

  /** One outcome adds its sentence, if any, to the status messages. */
  lemma ApplyNotices(t: State, o: Outcome)
    requires Labelled(o)
    ensures Notices(Apply(t, o).sent) == Notices(t.sent) + (if o.Notify? then [o.message] else [])
  {
    match o
    case Idle(_) =>
    case Notify(m, _) => LogAppend(t.sent, m);
    case Failed(a) => LogAppend(t.sent, a);
  }

  lemma {:induction false} FoldNotices(s: State, os: seq<Outcome>)
    requires forall k | 0 <= k < |os| :: Labelled(os[k])
    ensures Notices(Fold(s, os).sent) == Notices(s.sent) + Messages(os)
  {
    if os != [] {
      var prefix, o := DropLast(os), Last(os);
      assert forall k | 0 <= k < |prefix| :: prefix[k] == os[k];
      FoldNotices(s, prefix);
      assert Labelled(os[|os| - 1]);
      ApplyNotices(Fold(s, prefix), o);
    }
  }

  lemma {:induction false} FoldCursor(s: State, os: seq<Outcome>)
    ensures (forall k | 0 <= k < |os| :: NewDate(os[k]).None?) ==> Fold(s, os).cursor == s.cursor
    ensures forall k | 0 <= k < |os| && NewDate(os[k]).Some?
                       && (forall j | k < j < |os| :: NewDate(os[j]).None?) ::
      Fold(s, os).cursor == NewDate(os[k]).value
  {
    if os != [] {
      var prefix := DropLast(os);
      FoldCursor(s, prefix);
      assert forall k | 0 <= k < |prefix| :: prefix[k] == os[k];
    }
  }

  lemma {:induction false} SplitLog(log: seq<string>)
    ensures |log| == |Alerts(log)| + |Notices(log)|
  {
    if log != [] {
      SplitLog(DropLast(log));
    }
  }

  // ---------------------------------------------------------------------
  // Runs of cycles

  /** From start-up, the alerts sent are exactly the failing cycles' alerts
      with each run of equal texts reported once, and the last alert is the
      latest failure's text (empty while nothing has failed). */
  lemma ReplayAlerts(now: int, fs: seq<Fetch>, statuses: map<string, string>)
    ensures Alerts(Replay(Init(now), fs, statuses).sent) == Dedup(ErrorTexts(Outcomes(fs, statuses)))
    ensures Replay(Init(now), fs, statuses).lastError ==
      var errors := ErrorTexts(Outcomes(fs, statuses));
      if errors == [] then "" else Last(errors)
  {
    var os := Outcomes(fs, statuses);
    ReplayIsFold(Init(now), fs, statuses);
    OutcomesLabelled(fs, statuses);
    FoldAlerts(os);
    FoldIgnoresCursor(Int(now), Null, "", [], os);
  }

  /** Whatever the state, the status messages sent by a run are the
      sentences of its cycles that found a homework, in order. */
  lemma ReplayNotices(s: State, fs: seq<Fetch>, statuses: map<string, string>)
    ensures Notices(Replay(s, fs, statuses).sent) == Notices(s.sent) + Messages(Outcomes(fs, statuses))
  {
    ReplayIsFold(s, fs, statuses);
    OutcomesLabelled(fs, statuses);
    FoldNotices(s, Outcomes(fs, statuses));
  }

  /** After a run the cursor is the `current_date` of the last successful
      cycle that carried one; with no such cycle it has not moved. */
  lemma ReplayCursor(s: State, fs: seq<Fetch>, statuses: map<string, string>)
    ensures (forall k | 0 <= k < |fs| :: NewDate(Classify(fs[k], statuses)).None?) ==>
      Replay(s, fs, statuses).cursor == s.cursor
    ensures forall k | 0 <= k < |fs| && NewDate(Classify(fs[k], statuses)).Some?
                       && (forall j | k < j < |fs| :: NewDate(Classify(fs[j], statuses)).None?) ::
      Replay(s, fs, statuses).cursor == NewDate(Classify(fs[k], statuses)).value
  {
    ReplayIsFold(s, fs, statuses);
    FoldCursor(s, Outcomes(fs, statuses));
  }

  /** From start-up, every message sent is either an alert or a status
      sentence: their numbers add up to the length of the log. */
  lemma ReplaySentCount(now: int, fs: seq<Fetch>, statuses: map<string, string>)
    ensures |Replay(Init(now), fs, statuses).sent|
         == |Dedup(ErrorTexts(Outcomes(fs, statuses)))| + |Messages(Outcomes(fs, statuses))|
  {
    ReplayAlerts(now, fs, statuses);
    ReplayNotices(Init(now), fs, statuses);
    SplitLog(Replay(Init(now), fs, statuses).sent);
  }
}

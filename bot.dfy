/** Start-up: the credential check, then the polling loop; and the
    behaviour of the loop on a few concrete answers. */
module Bot {
  import opened Json
  import opened Optional
  import opened Errors
  import opened Homework
  import opened Poll
  import opened PollProperties

  const MissingTokensMessage := "Отсутствует токены для запуска программы"

  /** The bot's entry point, with the endless loop cut to the fetch results
      `fetches` and the clock read once as `now`. Without all three secrets
      it raises before the loop starts; otherwise it returns every message
      it sent. */
  method RunBot(practicum: Option<string>, telegram: Option<string>, chat: Option<string>,
                now: int, statuses: map<string, string>, fetches: seq<Fetch>)
    returns (r: Result<seq<string>>)
    ensures r.Err? <==> !CheckTokens(practicum, telegram, chat)
    ensures r.Err? ==> r.error == Exception(ValueError, MissingTokensMessage)
    ensures r.Ok? ==> r.value == Replay(Init(now), fetches, statuses).sent
    ensures r.Ok? ==> Alerts(r.value) == Dedup(ErrorTexts(Outcomes(fetches, statuses)))
    ensures r.Ok? ==> Notices(r.value) == Messages(Outcomes(fetches, statuses))
  {
    if !CheckTokens(practicum, telegram, chat) {
      return Err(Exception(ValueError, MissingTokensMessage));
    }
    var session := new Session(now, statuses);
    session.Run(fetches);
    ReplayAlerts(now, fetches, statuses);
    ReplayNotices(Init(now), fetches, statuses);
    return Ok(session.sent);
  }

  /** An answer with no homework but a `current_date` sends nothing and
      moves the cursor. */
  lemma EmptyAnswerMovesCursor(s: State, statuses: map<string, string>)
    ensures var body := Object(map["homeworks" := List([]), "current_date" := Int(1000)]);
      Cycle(s, Answer(body), statuses) == s.(cursor := Int(1000))
  {
  }

  /** An approved homework is reported with the verdict for `approved`. */
  lemma ApprovedHomeworkReported(s: State, statuses: map<string, string>)
    requires "approved" in statuses
    ensures
      var record := Object(map["homework_name" := Str("hw1"), "status" := Str("approved")]);
      var body := Object(map["homeworks" := List([record]), "current_date" := Int(1000)]);
      Cycle(s, Answer(body), statuses)
        == s.(cursor := Int(1000),
              sent := s.sent + ["Изменился статус проверки работы \"hw1\". " + statuses["approved"]])
  {
    var record := Object(map["homework_name" := Str("hw1"), "status" := Str("approved")]);
    assert ParseStatus(record, statuses).value
        == "Изменился статус проверки работы \"hw1\". " + statuses["approved"];
  }

  /** Two unanswered requests in a row after start-up raise one alert. */
  lemma OutageAlertedOnce(now: int, statuses: map<string, string>)
    ensures var down := Raised("Ответ по API не получен");
      Replay(Init(now), [down, down], statuses).sent == ["Сбой в работе программы: Ответ по API не получен"]
  {
    var down := Raised("Ответ по API не получен");
    var alert := "Сбой в работе программы: Ответ по API не получен";
    assert Alert(down.detail) == alert;
    assert [down, down][..1] == [down];
    var first := Replay(Init(now), [down], statuses);
    assert [down][..0] == [];
    assert first == Cycle(Replay(Init(now), [], statuses), down, statuses);
    assert first == Cycle(Init(now), down, statuses) == State(Int(now), alert, [alert]);
    assert Replay(Init(now), [down, down], statuses) == Cycle(first, down, statuses) == first;
  }
}

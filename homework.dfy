/** The bot's pure validation steps: the shape check on an API answer, the
    status sentence built from one homework record, and the credential check
    made at start-up. Each failing branch returns the exception the bot
    raises there. */
module Homework {
  import opened Json
  import opened Optional
  import opened Errors

  const NotDictMessage := "Формат ответа API отличается от ожидаемого"
  const NotListMessage := "Тип значения домашки отличается от ожидаемого"
  const NoNameMessage := "Ответ API не содержит ключ 'homework_name'"
  const NoStatusMessage := "Ответ API не содержит ключ 'status'"
  const UnknownStatusMessage := "Ключ 'status' не содержится в словаре."

  /** Python's message when `in` is applied to a value that is not iterable. */
  function NotIterableMessage(record: Json): string
  {
    "argument of type '" + TypeName(record) + "' is not iterable"
  }

  /** Python's message when `.get` is called on a value that is not a dict. */
  function NoGetMessage(record: Json): string
  {
    "'" + TypeName(record) + "' object has no attribute 'get'"
  }

  /** Python's message when a list or dict is used as a dict key. */
  function UnhashableMessage(status: Json): string
  {
    "unhashable type: '" + TypeName(status) + "'"
  }

  /** The fixed part of a status sentence, up to the homework's name. */
  const StatusPrefix := "Изменился статус проверки работы \""

  // ---------------------------------------------------------------------
  // check_response

  /** Accepts a decoded answer only when it is an object whose `homeworks`
      entry is a list, and returns that list. */
  function CheckResponse(response: Json): (r: Result<seq<Json>>)
    ensures !response.Object? ==> r == Err(Exception(TypeError, NotDictMessage))
    ensures response.Object? ==>
      (r.Ok? <==> "homeworks" in response.fields && response.fields["homeworks"].List?)
    ensures response.Object? && r.Err? ==> r.error == Exception(TypeError, NotListMessage)
    ensures r.Ok? ==> response.Object? && r.value == response.fields["homeworks"].items
  {
    if !response.Object? then
      Err(Exception(TypeError, NotDictMessage))
    else
      var homework := Get(response.fields, "homeworks", Null);
      if !homework.List? then Err(Exception(TypeError, NotListMessage))
      else Ok(homework.items)
  }

  /** Whatever else an answer carries, putting a list under `homeworks`
      makes it pass the check, and the same list comes back. */
  lemma CheckResponseReturnsList(others: map<string, Json>, homeworks: seq<Json>)
    ensures CheckResponse(Object(others["homeworks" := List(homeworks)])) == Ok(homeworks)
  {
  }

  // ---------------------------------------------------------------------
  // parse_status

  /** `key in record`, the membership test the parser makes before reading
      a field. Dicts test their keys, strings test for a substring, lists
      test their elements; other values are not iterable. */
  function Contains(record: Json, key: string): (r: Result<bool>)
    ensures record.Object? ==> r == Ok(key in record.fields)
    ensures record.List? ==> r == Ok(Str(key) in record.items)
    ensures record.Str? ==> r == Ok(IsSubstring(key, record.s))
    ensures r.Err? <==> !(record.Object? || record.List? || record.Str?)
    ensures r.Err? ==> r.error.kind == TypeError
  {
    match record
    case Object(fields) => Ok(key in fields)
    case Str(s) => Ok(IsSubstring(key, s))
    case List(items) => Ok(Str(key) in items)
    case _ => Err(Exception(TypeError, NotIterableMessage(record)))
  }

  /** `status not in statuses.keys()`: a string is looked up, other scalars
      are never keys, and a list or dict cannot be hashed. */
  function IsUnknown(status: Json, statuses: map<string, string>): (r: Result<bool>)
    ensures r == Ok(false) <==> status.Str? && status.s in statuses
    ensures r.Err? <==> status.List? || status.Object?
    ensures r.Err? ==> r.error == Exception(TypeError, UnhashableMessage(status))
  {
    match status
    case Str(s) => Ok(s !in statuses)
    case List(_) => Err(Exception(TypeError, UnhashableMessage(status)))
    case Object(_) => Err(Exception(TypeError, UnhashableMessage(status)))
    case _ => Ok(true)
  }

  /** The sentence sent for a homework whose review status changed. */
  function StatusMessage(name: Json, verdict: string): (r: string)
    ensures |r| == |StatusPrefix| + |Format(name)| + 3 + |verdict|
    ensures r[..|StatusPrefix|] == StatusPrefix
    ensures r[|StatusPrefix|..|StatusPrefix| + |Format(name)|] == Format(name)
    ensures r[|StatusPrefix| + |Format(name)|..|r| - |verdict|] == "\". "
    ensures r[|r| - |verdict|..] == verdict
  {
    StatusPrefix + Format(name) + "\". " + verdict
  }

  /** Checks, in this order, that the record has a name, that it has a
      status and that the status is a known code, then builds the sentence
      from the name and the verdict for that code. */
  function ParseStatus(homework: Json, statuses: map<string, string>): (r: Result<string>)
    // a missing name is reported before the status is looked at
    ensures homework.Object? && "homework_name" !in homework.fields ==>
      r == Err(Exception(KeyError, NoNameMessage))
    // a missing status is reported before the table is consulted
    ensures homework.Object? && "homework_name" in homework.fields && "status" !in homework.fields ==>
      r == Err(Exception(KeyError, NoStatusMessage))
    // success exactly for a record with a name and a known string status
    ensures r.Ok? <==>
      && homework.Object?
      && "homework_name" in homework.fields
      && "status" in homework.fields
      && homework.fields["status"].Str?
      && homework.fields["status"].s in statuses
    ensures r.Ok? ==>
      r.value == StatusMessage(homework.fields["homework_name"], statuses[homework.fields["status"].s])
    // a present status that is not a known code is a KeyError, unless it cannot be hashed
    ensures (&& homework.Object? && "homework_name" in homework.fields && "status" in homework.fields
             && r.Err? && !(homework.fields["status"].List? || homework.fields["status"].Object?)) ==>
      r == Err(Exception(KeyError, UnknownStatusMessage))
    // a list or dict status cannot be hashed for the table lookup
    ensures (&& homework.Object? && "homework_name" in homework.fields && "status" in homework.fields
             && (homework.fields["status"].List? || homework.fields["status"].Object?)) ==>
      r == Err(Exception(TypeError, UnhashableMessage(homework.fields["status"])))
  {
    var hasName :- Contains(homework, "homework_name");
    if !hasName then Err(Exception(KeyError, NoNameMessage))
    else
      // the first test succeeded, so the record is iterable and this one cannot raise
      var hasStatus := Contains(homework, "status").value;
      if !hasStatus then Err(Exception(KeyError, NoStatusMessage))
      else if !homework.Object? then
        Err(Exception(AttributeError, NoGetMessage(homework)))
      else
        var name := Get(homework.fields, "homework_name", Null);
        var status := Get(homework.fields, "status", Null);
        var unknown :- IsUnknown(status, statuses);
        if unknown then Err(Exception(KeyError, UnknownStatusMessage))
        else Ok(StatusMessage(name, statuses[status.s]))
  }

  /** Every sentence the parser produces starts with the fixed prefix. */
  lemma ParseStatusPrefix(homework: Json, statuses: map<string, string>)
    requires ParseStatus(homework, statuses).Ok?
    ensures |ParseStatus(homework, statuses).value| > |StatusPrefix|
    ensures ParseStatus(homework, statuses).value[..|StatusPrefix|] == StatusPrefix
  {
    var m := ParseStatus(homework, statuses).value;
    var name := homework.fields["homework_name"];
    var verdict := statuses[homework.fields["status"].s];
    assert m == StatusPrefix + (Format(name) + "\". " + verdict);
  }

  /** Only the name and the status of a record matter: two records that agree
      on those two fields (including on their absence) get the same answer. */
  lemma ParseStatusReadsTwoFields(a: map<string, Json>, b: map<string, Json>, statuses: map<string, string>)
    requires "homework_name" in a <==> "homework_name" in b
    requires "status" in a <==> "status" in b
    requires "homework_name" in a ==> a["homework_name"] == b["homework_name"]
    requires "status" in a ==> a["status"] == b["status"]
    ensures ParseStatus(Object(a), statuses) == ParseStatus(Object(b), statuses)
  {
  }

  /** None, booleans and integers are not iterable: the first `in` raises. */
  lemma ParseStatusScalarRecord(homework: Json, statuses: map<string, string>)
    requires !(homework.Object? || homework.Str? || homework.List?)
    ensures ParseStatus(homework, statuses)
      == Err(Exception(TypeError, NotIterableMessage(homework)))
  {
  }

  /** A list is searched for the two key strings among its elements, and
      then fails at `.get`. */
  lemma ParseStatusListRecord(items: seq<Json>, statuses: map<string, string>)
    ensures ParseStatus(List(items), statuses) ==
      if Str("homework_name") !in items then Err(Exception(KeyError, NoNameMessage))
      else if Str("status") !in items then Err(Exception(KeyError, NoStatusMessage))
      else Err(Exception(AttributeError, NoGetMessage(List(items))))
  {
    var record := List(items);
    assert Contains(record, "homework_name") == Ok(Str("homework_name") in items);
    if Str("homework_name") in items {
      assert Contains(record, "status") == Ok(Str("status") in items);
    }
  }

  /** A string is searched for the two keys as substrings, and then fails at
      `.get`. */
  lemma ParseStatusStringRecord(text: string, statuses: map<string, string>)
    ensures ParseStatus(Str(text), statuses) ==
      if !IsSubstring("homework_name", text) then Err(Exception(KeyError, NoNameMessage))
      else if !IsSubstring("status", text) then Err(Exception(KeyError, NoStatusMessage))
      else Err(Exception(AttributeError, NoGetMessage(Str(text))))
  {
    var record := Str(text);
    assert Contains(record, "homework_name") == Ok(IsSubstring("homework_name", text));
    if IsSubstring("homework_name", text) {
      assert Contains(record, "status") == Ok(IsSubstring("status", text));
    }
  }

  /** A record that is not a dict never yields a sentence. */
  lemma ParseStatusNeedsDict(homework: Json, statuses: map<string, string>)
    requires !homework.Object?
    ensures ParseStatus(homework, statuses).Err?
    ensures !(homework.Str? || homework.List?) ==> ParseStatus(homework, statuses).error.kind == TypeError
    ensures homework.Str? || homework.List? ==> ParseStatus(homework, statuses).error.kind != TypeError
  {
    match homework
    case List(items) => ParseStatusListRecord(items, statuses);
    case Str(text) => ParseStatusStringRecord(text, statuses);
    case _ => ParseStatusScalarRecord(homework, statuses);
  }

  // ---------------------------------------------------------------------
  // check_tokens

  /** Python truthiness of an environment variable: set and non-empty. */
  predicate Truthy(token: Option<string>)
  {
    token.Some? && token.value != ""
  }

  /** `all(tokens)`. */
  function All(tokens: seq<Option<string>>): (r: bool)
    ensures r <==> forall k | 0 <= k < |tokens| :: Truthy(tokens[k])
  {
    if tokens == [] then true else Truthy(tokens[0]) && All(tokens[1..])
  }

  /** The three secrets may be used only when every one of them is set and
      non-empty. */
  function CheckTokens(practicum: Option<string>, telegram: Option<string>, chat: Option<string>): (r: bool)
    ensures r <==>
      && practicum.Some? && practicum.value != ""
      && telegram.Some? && telegram.value != ""
      && chat.Some? && chat.value != ""
  {
    var tokens := [practicum, telegram, chat];
    assert tokens[0] == practicum && tokens[1] == telegram && tokens[2] == chat;
    All(tokens)
  }
}

/** `check_response` and `parse_status`: the shape check of the API's
    answer and the verdict message for one homework. */
module Responses {
  import opened Results
  import opened PyJson
  import opened Failures

  /** `HOMEWORK_VERDICTS`: the phrase for each status the bot knows. */
  const HOMEWORK_VERDICTS: map<string, string> := map[
    "approved" := "Работа проверена: ревьюеру всё понравилось. Ура!",
    "reviewing" := "Работа взята на проверку ревьюером.",
    "rejected" := "Работа проверена: у ревьюера есть замечания."
  ]

  const VERDICT_HEAD: string := "Изменился статус проверки работы \""

  /** The f-string `parse_status` returns: the name in double quotes after
      a fixed head, and the verdict at the end, both readable back. */
  function VerdictMessage(name: string, verdict: string): (r: string)
    ensures |r| == |VERDICT_HEAD| + |name| + 3 + |verdict|
    ensures r[..|VERDICT_HEAD|] == VERDICT_HEAD
    ensures r[|VERDICT_HEAD|..|VERDICT_HEAD| + |name|] == name
    ensures r[|VERDICT_HEAD| + |name|..|VERDICT_HEAD| + |name| + 3] == "\". "
    ensures EndsWith(r, verdict)
  {
    var quoted := VERDICT_HEAD + name;
    assert quoted[..|VERDICT_HEAD|] == VERDICT_HEAD;
    EndsWithConcat(quoted + "\". ", verdict);
    quoted + "\". " + verdict
  }

  /** `check_response(response)`: returns normally, or raises one of three
      errors, tested in this order. */
  function CheckResponse(response: Json): (r: Outcome<Failure>)
    ensures !response.JDict? ==> r == Fail(NotADict(response))
    ensures response.JDict? && Lookup(response.members, "homeworks").None? ==>
      r == Fail(NoHomeworksKey)
    ensures (response.JDict? && Lookup(response.members, "homeworks").Some? &&
             !Lookup(response.members, "homeworks").value.JList?) ==>
      r == Fail(HomeworksNotAList(Lookup(response.members, "homeworks").value))
    ensures r.Pass? <==>
      response.JDict? && Lookup(response.members, "homeworks").Some? &&
      Lookup(response.members, "homeworks").value.JList?
  {
    if !response.JDict? then Fail(NotADict(response))
    else match Lookup(response.members, "homeworks")
      case None => Fail(NoHomeworksKey)
      case Some(homeworks) =>
        if !homeworks.JList? then Fail(HomeworksNotAList(homeworks)) else Pass
  }

  /** `response["homeworks"]` of an answer that passed validation. */
  function Homeworks(response: Json): (r: seq<Json>)
    requires CheckResponse(response).Pass?
    ensures Lookup(response.members, "homeworks") == Some(JList(r))
  {
    Lookup(response.members, "homeworks").value.items
  }

  /** `parse_status(homework)`: the verdict message, or the error raised.
      `homework.get(...)` gives None both for an absent key and for a
      null value. */
  function ParseStatus(homework: Json): (r: Result<string, Failure>)
    ensures !homework.JDict? ==> r == Err(NoGetMethod(homework))
    ensures homework.JDict? && DictGet(homework, "homework_name", JNull) == JNull ==>
      r == Err(NoHomeworkName)
    ensures r.Ok? <==>
      homework.JDict? && DictGet(homework, "homework_name", JNull) != JNull &&
      DictGet(homework, "status", JNull).JString? &&
      DictGet(homework, "status", JNull).s in HOMEWORK_VERDICTS
    ensures r.Ok? ==>
      r.value == VerdictMessage(Str(DictGet(homework, "homework_name", JNull)),
                                HOMEWORK_VERDICTS[DictGet(homework, "status", JNull).s])
  {
    if !homework.JDict? then Err(NoGetMethod(homework))
    else
      var status := DictGet(homework, "status", JNull);
      var name := DictGet(homework, "homework_name", JNull);
      if name == JNull then Err(NoHomeworkName)
      else if !Hashable(status) then Err(UnhashableStatus(status))
      else if !(status.JString? && status.s in HOMEWORK_VERDICTS) then Err(UnexpectedStatus(status))
      else Ok(VerdictMessage(Str(name), HOMEWORK_VERDICTS[status.s]))
  }

  /** Every dict whose "homeworks" is a list passes, the empty list included. */
  lemma AcceptsEveryHomeworksList(members: seq<(string, Json)>, items: seq<Json>)
    requires Lookup(members, "homeworks") == Some(JList(items))
    ensures CheckResponse(JDict(members)) == Pass
    ensures Homeworks(JDict(members)) == items
  {
  }

  /** The three rejections, one per shape defect, on the smallest answers
      that show them. */
  lemma RejectsThreeShapes(items: seq<Json>, other: Json)
    requires !other.JList?
    ensures CheckResponse(JList(items)) == Fail(NotADict(JList(items)))
    ensures CheckResponse(JDict([("current_date", JInt(0))])) == Fail(NoHomeworksKey)
    ensures CheckResponse(JDict([("homeworks", other)])) == Fail(HomeworksNotAList(other))
    ensures CheckResponse(JDict([("homeworks", JList([]))])) == Pass
  {
  }

  /** The name is tested before the status: a record with neither fails
      with the name error, whatever else it holds. */
  lemma NameCheckedFirst(members: seq<(string, Json)>)
    requires Lookup(members, "homework_name").None?
    ensures ParseStatus(JDict(members)) == Err(NoHomeworkName)
  {
  }

  /** With a name present, an absent, null or unknown status fails: a
      ValueError for a value that can be a dict key, a TypeError for a
      list or dict. */
  lemma UnknownStatusFails(homework: Json)
    requires homework.JDict? && DictGet(homework, "homework_name", JNull) != JNull
    requires var status := DictGet(homework, "status", JNull);
      !(status.JString? && status.s in {"approved", "reviewing", "rejected"})
    ensures var status := DictGet(homework, "status", JNull);
      ParseStatus(homework) ==
        if Hashable(status) then Err(UnexpectedStatus(status)) else Err(UnhashableStatus(status))
  {
  }

  /** An absent status is reported as `None`. */
  lemma AbsentStatusText(name: string)
    ensures ParseStatus(JDict([("homework_name", JString(name))])) == Err(UnexpectedStatus(JNull))
    ensures UnexpectedStatus(JNull).Text() ==
      "Неожиданный статус домашней работы. Полученный статус: " + "None"
  {
    assert Str(JNull) == "None";
    assert "Неожиданный статус домашней работы. " + ("Полученный статус: " + "None") ==
      "Неожиданный статус домашней работы. Полученный статус: " + "None";
  }

  /** For each known status the message is exactly the fixed sentence with
      the name in quotes. */
  lemma KnownStatusMessages(homework: Json, name: string)
    requires homework.JDict? && DictGet(homework, "homework_name", JNull) == JString(name)
    ensures DictGet(homework, "status", JNull) == JString("approved") ==>
      ParseStatus(homework) == Ok("Изменился статус проверки работы \"" + name + "\". " +
                                  "Работа проверена: ревьюеру всё понравилось. Ура!")
    ensures DictGet(homework, "status", JNull) == JString("reviewing") ==>
      ParseStatus(homework) == Ok("Изменился статус проверки работы \"" + name + "\". " +
                                  "Работа взята на проверку ревьюером.")
    ensures DictGet(homework, "status", JNull) == JString("rejected") ==>
      ParseStatus(homework) == Ok("Изменился статус проверки работы \"" + name + "\". " +
                                  "Работа проверена: у ревьюера есть замечания.")
  {
  }

  /** A change of status on the same homework always gives a different
      message: the message for the new status never equals the message for
      the status before it. */
  lemma {:induction false} StatusChangeChangesMessage(before: Json, after: Json)
    requires before.JDict? && after.JDict?
    requires DictGet(before, "homework_name", JNull) == DictGet(after, "homework_name", JNull)
    requires ParseStatus(before).Ok? && ParseStatus(after).Ok?
    requires DictGet(before, "status", JNull) != DictGet(after, "status", JNull)
    ensures ParseStatus(before).value != ParseStatus(after).value
  {
    var name := Str(DictGet(before, "homework_name", JNull));
    var s1, s2 := DictGet(before, "status", JNull).s, DictGet(after, "status", JNull).s;
    var v1, v2 := HOMEWORK_VERDICTS[s1], HOMEWORK_VERDICTS[s2];
    assert v1 != v2;
    var prefix := "Изменился статус проверки работы \"" + name + "\". ";
    assert VerdictMessage(name, v1) == prefix + v1;
    assert VerdictMessage(name, v2) == prefix + v2;
    assert (prefix + v1)[|prefix|..] == v1;
    assert (prefix + v2)[|prefix|..] == v2;
  }
}

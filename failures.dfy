/** Every error that one pass of the poll loop catches with
    `except Exception`, with the text `str(error)` gives it. */
module Failures {
  import opened PyJson

  datatype Failure =
    /** `get_api_answer` raised (connection error, non-200 status, body
        that is not JSON); the request is not modelled, only the text. */
    | ApiFailed(cause: string)
    /** `check_response`: TypeError, the answer is not a dict. */
    | NotADict(response: Json)
    /** `check_response`: KeyError, no "homeworks" key. */
    | NoHomeworksKey
    /** `check_response`: TypeError, "homeworks" holds something other than a list. */
    | HomeworksNotAList(homeworks: Json)
    /** `parse_status`: AttributeError, the first homework is not a dict
        and so has no `.get`. */
    | NoGetMethod(homework: Json)
    /** `parse_status`: KeyError, `homework_name` is absent or null. */
    | NoHomeworkName
    /** `parse_status`: TypeError from `status in HOMEWORK_VERDICTS`
        when the status is a list or a dict. */
    | UnhashableStatus(status: Json)
    /** `parse_status`: ValueError, the status is not one of the table's keys. */
    | UnexpectedStatus(status: Json)
  {
    /** `str(error)`. A KeyError shows the repr of its argument, hence the quotes. */
    function Text(): (r: string)
      ensures ApiFailed? ==> r == cause
      ensures !ApiFailed? ==> |r| >= 4
      ensures NotADict? ==> EndsWith(r, "Тип ответа: " + TypeText(response))
      ensures HomeworksNotAList? ==> EndsWith(r, "Полученный тип: " + TypeText(homeworks))
      ensures UnexpectedStatus? ==> EndsWith(r, "Полученный статус: " + Str(status))
      ensures NoGetMethod? ==>
        |r| > |TypeName(homework)| + 1 && r[0] == '\'' && r[1..|TypeName(homework)| + 1] == TypeName(homework)
        && r[|TypeName(homework)| + 1] == '\''
      ensures UnhashableStatus? ==>
        |r| > 18 && r[|r| - 1] == '\'' && r[|r| - 2 - |TypeName(status)|] == '\''
        && r[|r| - 1 - |TypeName(status)|..|r| - 1] == TypeName(status)
    {
      match this
      case ApiFailed(cause) => cause
      case NotADict(response) =>
        var shown := "Тип ответа: " + TypeText(response);
        EndsWithConcat("Ответ пришел не в виде словаря. ", shown);
        "Ответ пришел не в виде словаря. " + shown
      case NoHomeworksKey => "'В ответе нет ключа homeworks'"
      case HomeworksNotAList(homeworks) =>
        var shown := "Полученный тип: " + TypeText(homeworks);
        EndsWithConcat("Под ключом homeworks содержится не список ", shown);
        "Под ключом homeworks содержится не список " + shown
      case NoGetMethod(homework) =>
        QuotedAt("'", TypeName(homework), "' object has no attribute 'get'");
        "'" + TypeName(homework) + "' object has no attribute 'get'"
      case NoHomeworkName => "'В домашке нет ключа homework_name'"
      case UnhashableStatus(status) =>
        QuotedAt("unhashable type: '", TypeName(status), "'");
        "unhashable type: '" + TypeName(status) + "'"
      case UnexpectedStatus(status) =>
        var shown := "Полученный статус: " + Str(status);
        EndsWithConcat("Неожиданный статус домашней работы. ", shown);
        "Неожиданный статус домашней работы. " + shown
    }
  }

  /** Which raise produced the error, ignoring what it carries. */
  predicate SameKind(e1: Failure, e2: Failure) {
    && e1.ApiFailed? == e2.ApiFailed?
    && e1.NotADict? == e2.NotADict?
    && e1.NoHomeworksKey? == e2.NoHomeworksKey?
    && e1.HomeworksNotAList? == e2.HomeworksNotAList?
    && e1.NoGetMethod? == e2.NoGetMethod?
    && e1.NoHomeworkName? == e2.NoHomeworkName?
    && e1.UnhashableStatus? == e2.UnhashableStatus?
    && e1.UnexpectedStatus? == e2.UnexpectedStatus?
  }

  /** What the text of an error that is not a failed request starts
      with: three characters that tell the kinds apart. */
  function Signature(e: Failure): (char, char, char)
    requires !e.ApiFailed?
  {
    match e
    case NotADict(_) => ('О', 'т', 'е')
    case NoHomeworksKey => ('\'', 'В', 'о')
    case HomeworksNotAList(_) => ('П', 'о', ' ')
    case NoGetMethod(h) => ('\'', TypeName(h)[0], TypeName(h)[2])
    case NoHomeworkName => ('\'', 'В', 'д')
    case UnhashableStatus(_) => ('u', 'n', 'a')
    case UnexpectedStatus(_) => ('Н', 'е', 'ж')
  }

  lemma PrefixChars(prefix: string, rest: string)
    requires |prefix| >= 4
    ensures (prefix + rest)[0] == prefix[0] && (prefix + rest)[1] == prefix[1] && (prefix + rest)[3] == prefix[3]
  {
  }

  lemma NotADictSignature(response: Json)
    ensures var r := NotADict(response).Text(); |r| >= 4 && r[0] == 'О' && r[1] == 'т' && r[3] == 'е'
  {
    PrefixChars("Ответ пришел не в виде словаря. ", "Тип ответа: " + TypeText(response));
  }

  lemma HomeworksNotAListSignature(homeworks: Json)
    ensures var r := HomeworksNotAList(homeworks).Text(); |r| >= 4 && r[0] == 'П' && r[1] == 'о' && r[3] == ' '
  {
    PrefixChars("Под ключом homeworks содержится не список ", "Полученный тип: " + TypeText(homeworks));
  }

  lemma UnexpectedStatusSignature(status: Json)
    ensures var r := UnexpectedStatus(status).Text(); |r| >= 4 && r[0] == 'Н' && r[1] == 'е' && r[3] == 'ж'
  {
    PrefixChars("Неожиданный статус домашней работы. ", "Полученный статус: " + Str(status));
  }

  lemma UnhashableStatusSignature(status: Json)
    ensures var r := UnhashableStatus(status).Text(); |r| >= 4 && r[0] == 'u' && r[1] == 'n' && r[3] == 'a'
  {
    PrefixChars("unhashable type: '", TypeName(status) + "'");
  }

  lemma NoGetMethodSignature(homework: Json)
    ensures var r := NoGetMethod(homework).Text();
      |r| >= 4 && r[0] == '\'' && r[1] == TypeName(homework)[0] && r[3] == TypeName(homework)[2]
  {
    assert NoGetMethod(homework).Text() == "'" + TypeName(homework) + "' object has no attribute 'get'";
  }

  lemma KeyErrorSignatures()
    ensures var r := NoHomeworksKey.Text(); |r| >= 4 && r[0] == '\'' && r[1] == 'В' && r[3] == 'о'
    ensures var r := NoHomeworkName.Text(); |r| >= 4 && r[0] == '\'' && r[1] == 'В' && r[3] == 'д'
  {
  }

  /** The first, second and fourth characters of the text are its
      signature. */
  lemma TextSignature(e: Failure)
    requires !e.ApiFailed?
    ensures |e.Text()| >= 4
    ensures (e.Text()[0], e.Text()[1], e.Text()[3]) == Signature(e)
  {
    match e
    case NotADict(response) => NotADictSignature(response);
    case HomeworksNotAList(homeworks) => HomeworksNotAListSignature(homeworks);
    case UnexpectedStatus(status) => UnexpectedStatusSignature(status);
    case UnhashableStatus(status) => UnhashableStatusSignature(status);
    case NoGetMethod(h) => NoGetMethodSignature(h);
    case NoHomeworksKey => KeyErrorSignatures();
    case NoHomeworkName => KeyErrorSignatures();
  }

  /** Different kinds have different signatures. */
  lemma SignaturesDiffer(e1: Failure, e2: Failure)
    requires !e1.ApiFailed? && !e2.ApiFailed? && !SameKind(e1, e2)
    ensures Signature(e1) != Signature(e2)
  {
  }

  /** Errors raised by different checks of `check_response` and
      `parse_status` have different texts. */
  lemma DifferentKindsDifferentTexts(e1: Failure, e2: Failure)
    requires !e1.ApiFailed? && !e2.ApiFailed? && !SameKind(e1, e2)
    ensures e1.Text() != e2.Text()
  {
    TextSignature(e1);
    TextSignature(e2);
    SignaturesDiffer(e1, e2);
  }
}

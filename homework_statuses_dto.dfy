/**
 * The homework-statuses response object: a list of homework records and the
 * server's `current_date`, checked and converted when the object is built.
 */
module HomeworkStatusesDto {
  import opened Wrappers
  import opened PyValue

  /** One homework record.  Its six attributes are set once, by the constructor. */
  datatype HomeworkDTO = HomeworkDTO(
    id: JValue,
    status: JValue,
    homeworkName: JValue,
    reviewerComment: JValue,
    dateUpdated: JValue,
    lessonName: JValue)

  /** The keyword parameters of `HomeworkDTO.__init__`, in declaration order. */
  const ParameterNames: seq<string> :=
    ["id", "status", "homework_name", "reviewer_comment", "date_updated", "lesson_name"]

  /** The default every parameter of `HomeworkDTO.__init__` has. */
  const DefaultArgument := JStr("")

  /** The attribute of a record that the keyword parameter `ParameterNames[k]` sets. */
  function Attribute(h: HomeworkDTO, k: nat): JValue
    requires k < |ParameterNames|
  {
    [h.id, h.status, h.homeworkName, h.reviewerComment, h.dateUpdated, h.lessonName][k]
  }

  /** The exceptions building the response object can raise. */
  datatype DtoError =
    | NoCopyMethod                  // `homeworks.copy()` on a value that is neither a list nor a dict
    | HomeworksNotList              // the copy is not a list
    | HomeworkNotDict               // an element of the list is not a dict
    | UnexpectedKeyword(key: string) // `HomeworkDTO(**item)` got a key that is not one of its parameters
    | CurrentDateInvalid            // `current_date` is not an int, or is negative

  /** The Python exception class each error is raised as. */
  function PythonException(e: DtoError): string {
    match e
    case NoCopyMethod => "AttributeError"
    case HomeworksNotList => "TypeError"
    case HomeworkNotDict => "TypeError"
    case UnexpectedKeyword(_) => "TypeError"
    case CurrentDateInvalid => "ValueError"
  }

  /** The first key of a keyword dict that names no parameter of `HomeworkDTO.__init__`. */
  function FirstUnexpectedKey(fields: seq<(string, JValue)>): (r: Option<string>)
    ensures r.None? <==> forall i :: 0 <= i < |fields| ==> fields[i].0 in ParameterNames
    ensures r.Some? ==> exists i :: 0 <= i < |fields| && fields[i].0 == r.value && r.value !in ParameterNames
                                    && forall j :: 0 <= j < i ==> fields[j].0 in ParameterNames
  {
    if fields == [] then None
    else if fields[0].0 !in ParameterNames then Some(fields[0].0)
    else
      var r := FirstUnexpectedKey(fields[1..]);
      if r.Some? then
        ghost var i :| 0 <= i < |fields[1..]| && fields[1..][i].0 == r.value && r.value !in ParameterNames
                       && forall j :: 0 <= j < i ==> fields[1..][j].0 in ParameterNames;
        assert fields[i + 1].0 == r.value;
        r
      else
        r
  }

  /** The argument a parameter receives from `**fields`: the given value, or the default. */
  function Argument(fields: seq<(string, JValue)>, name: string): JValue {
    match Lookup(fields, name)
    case Some(v) => v
    case None => DefaultArgument
  }

  /** The record whose every attribute is the argument its parameter receives. */
  function RecordOfArguments(fields: seq<(string, JValue)>): HomeworkDTO {
    HomeworkDTO(
      Argument(fields, ParameterNames[0]),
      Argument(fields, ParameterNames[1]),
      Argument(fields, ParameterNames[2]),
      Argument(fields, ParameterNames[3]),
      Argument(fields, ParameterNames[4]),
      Argument(fields, ParameterNames[5]))
  }

  lemma AttributeIsArgument(fields: seq<(string, JValue)>, k: nat)
    requires k < |ParameterNames|
    ensures Attribute(RecordOfArguments(fields), k) == Argument(fields, ParameterNames[k])
  {
    var h := RecordOfArguments(fields);
    if k == 0 {
      assert Attribute(h, k) == h.id;
    } else if k == 1 {
      assert Attribute(h, k) == h.status;
    } else if k == 2 {
      assert Attribute(h, k) == h.homeworkName;
    } else if k == 3 {
      assert Attribute(h, k) == h.reviewerComment;
    } else if k == 4 {
      assert Attribute(h, k) == h.dateUpdated;
    } else {
      assert Attribute(h, k) == h.lessonName;
    }
  }

  lemma AttributesAreArguments(fields: seq<(string, JValue)>)
    ensures forall k :: 0 <= k < |ParameterNames| ==>
              Attribute(RecordOfArguments(fields), k) == Argument(fields, ParameterNames[k])
  {
    forall k | 0 <= k < |ParameterNames|
      ensures Attribute(RecordOfArguments(fields), k) == Argument(fields, ParameterNames[k])
    {
      AttributeIsArgument(fields, k);
    }
  }

  /**
   * The call `HomeworkDTO(**item)`.  Python binds the keywords in order and
   * raises `TypeError` at the first one that names no parameter (`self`
   * included, which is already bound).  Every attribute whose keyword is
   * absent is the empty string.
   */
  function HomeworkFromKeywords(fields: seq<(string, JValue)>): (r: Result<HomeworkDTO, DtoError>)
    ensures r.Ok? <==> forall i :: 0 <= i < |fields| ==> fields[i].0 in ParameterNames
    ensures r.Err? ==> exists i :: 0 <= i < |fields| && r.error == UnexpectedKeyword(fields[i].0)
                                   && fields[i].0 !in ParameterNames
                                   && forall j :: 0 <= j < i ==> fields[j].0 in ParameterNames
    ensures r.Ok? ==> forall k :: 0 <= k < |ParameterNames| ==>
                        var given := Lookup(fields, ParameterNames[k]);
                        Attribute(r.value, k) == (if given.Some? then given.value else DefaultArgument)
  {
    match FirstUnexpectedKey(fields)
    case Some(k) => Err(UnexpectedKeyword(k))
    case None =>
      AttributesAreArguments(fields);
      Ok(RecordOfArguments(fields))
  }

  /** One step of `_parse_homeworks`: the `isinstance(item, dict)` check, then `HomeworkDTO(**item)`. */
  function ParsedHomework(item: JValue): (r: Result<HomeworkDTO, DtoError>)
    ensures r.Err? ==> PythonException(r.error) == "TypeError"
    ensures r == Err(HomeworkNotDict) <==> !item.JObj?
    ensures r.Ok? <==> item.JObj? && forall i :: 0 <= i < |item.fields| ==> item.fields[i].0 in ParameterNames
  {
    if item.JObj? then HomeworkFromKeywords(item.fields) else Err(HomeworkNotDict)
  }

  /** The outcome of each element of the list, in list order. */
  function ElementResults(items: seq<JValue>): (rs: seq<Result<HomeworkDTO, DtoError>>)
    ensures |rs| == |items|
    ensures forall i :: 0 <= i < |items| ==> rs[i] == ParsedHomework(items[i])
  {
    seq(|items|, i requires 0 <= i < |items| => ParsedHomework(items[i]))
  }

  /** A loop that stops at the first exception: that exception, or every record in order. */
  function Collected(rs: seq<Result<HomeworkDTO, DtoError>>): Result<seq<HomeworkDTO>, DtoError> {
    if rs == [] then Ok([])
    else
      match Collected(rs[..|rs| - 1])
      case Err(e) => Err(e)
      case Ok(prefix) =>
        match rs[|rs| - 1]
        case Err(e) => Err(e)
        case Ok(h) => Ok(prefix + [h])
  }

  /** What `_parse_homeworks` leaves in `_homeworks` for a list, or the exception it raises. */
  function ParsedHomeworks(items: seq<JValue>): Result<seq<HomeworkDTO>, DtoError> {
    Collected(ElementResults(items))
  }

  /** `_current_date_validate`: an int (a bool is one) that is not negative; zero is accepted. */
  predicate CurrentDateValid(currentDate: JValue)
    ensures CurrentDateValid(currentDate) <==> currentDate.JBool? || (currentDate.JInt? && currentDate.i >= 0)
  {
    AsInt(currentDate).Some? && AsInt(currentDate).value >= 0
  }

  /**
   * What the constructor stores in `_homeworks`, or the exception it raises:
   * `.copy()`, then `_parse_homeworks`, then `_current_date_validate`.  The
   * stored `_current_date` is the argument itself.
   */
  function ParsedResponse(homeworks: JValue, currentDate: JValue): (r: Result<seq<HomeworkDTO>, DtoError>)
    ensures r.Ok? ==> homeworks.JList? && CurrentDateValid(currentDate) && Ok(r.value) == ParsedHomeworks(homeworks.items)
    ensures r == Err(CurrentDateInvalid) <==>
              homeworks.JList? && ParsedHomeworks(homeworks.items).Ok? && !CurrentDateValid(currentDate)
  {
    if !homeworks.JList? && !homeworks.JObj? then Err(NoCopyMethod)
    else if !homeworks.JList? then Err(HomeworksNotList)
    else
      match ParsedHomeworks(homeworks.items)
      case Err(e) =>
        ParsedHomeworksErr(homeworks.items);
        Err(e)
      case Ok(parsed) => if CurrentDateValid(currentDate) then Ok(parsed) else Err(CurrentDateInvalid)
  }

  // ---------------------------------------------------------------------
  // What ParsedHomeworks means

  /** An exception raised for a prefix is the exception for the whole list: nothing after it is looked at. */
  lemma {:induction false} ErrorPersists(rs: seq<Result<HomeworkDTO, DtoError>>, k: nat, e: DtoError)
    requires k <= |rs|
    requires Collected(rs[..k]) == Err(e)
    ensures Collected(rs) == Err(e)
  {
    if k < |rs| {
      var init := rs[..|rs| - 1];
      assert init[..k] == rs[..k];
      ErrorPersists(init, k, e);
    } else {
      assert rs[..k] == rs;
    }
  }

  lemma {:induction false} CollectedOk(rs: seq<Result<HomeworkDTO, DtoError>>)
    ensures Collected(rs).Ok? <==> forall i :: 0 <= i < |rs| ==> rs[i].Ok?
    ensures Collected(rs).Ok? ==>
              |Collected(rs).value| == |rs| && forall i :: 0 <= i < |rs| ==> Collected(rs).value[i] == rs[i].value
  {
    if rs != [] {
      var n := |rs| - 1;
      var init := rs[..n];
      CollectedOk(init);
      assert forall i :: 0 <= i < n ==> init[i] == rs[i];
      if Collected(init).Ok? && rs[n].Ok? {
        var prefix := Collected(init).value;
        assert Collected(rs).value == prefix + [rs[n].value];
      }
    }
  }

  lemma {:induction false} CollectedErr(rs: seq<Result<HomeworkDTO, DtoError>>)
    ensures Collected(rs).Err? ==>
              exists i :: 0 <= i < |rs| && rs[i] == Err(Collected(rs).error) && forall j :: 0 <= j < i ==> rs[j].Ok?
  {
    if rs != [] {
      var n := |rs| - 1;
      var init := rs[..n];
      CollectedErr(init);
      CollectedOk(init);
      assert forall i :: 0 <= i < n ==> init[i] == rs[i];
      if Collected(init).Err? {
        var i :| 0 <= i < n && init[i] == Err(Collected(init).error) && forall j :: 0 <= j < i ==> init[j].Ok?;
        assert rs[i] == init[i];
      }
    }
  }

  /**
   * The list is accepted exactly when every element is; the result then has
   * one record per element, in order, record i built from element i.
   */
  lemma ParsedHomeworksOk(items: seq<JValue>)
    ensures ParsedHomeworks(items).Ok? <==> forall i :: 0 <= i < |items| ==> ParsedHomework(items[i]).Ok?
    ensures ParsedHomeworks(items).Ok? ==>
              |ParsedHomeworks(items).value| == |items|
              && forall i :: 0 <= i < |items| ==> ParsedHomeworks(items).value[i] == ParsedHomework(items[i]).value
  {
    CollectedOk(ElementResults(items));
  }

  /**
   * A failing list raises the exception of its first failing element; no
   * partial list survives.
   */
  lemma ParsedHomeworksErr(items: seq<JValue>)
    ensures ParsedHomeworks(items).Err? ==>
              exists i :: 0 <= i < |items| && ParsedHomework(items[i]) == Err(ParsedHomeworks(items).error)
                          && forall j :: 0 <= j < i ==> ParsedHomework(items[j]).Ok?
  {
    CollectedErr(ElementResults(items));
  }

  // ---------------------------------------------------------------------
  // What the constructor as a whole does

  /**
   * The order of the checks: the list is checked before `current_date`, so
   * a bad list raises its `TypeError` (or `AttributeError`) whatever
   * `current_date` is; a good list is stored, one record per element in
   * order, exactly when `current_date` is an int that is not negative.
   */
  lemma ParsedResponseOutcome(homeworks: JValue, currentDate: JValue)
    ensures !homeworks.JList? && !homeworks.JObj? ==> ParsedResponse(homeworks, currentDate) == Err(NoCopyMethod)
    ensures homeworks.JObj? ==> ParsedResponse(homeworks, currentDate) == Err(HomeworksNotList)
    ensures homeworks.JList? && (exists i :: 0 <= i < |homeworks.items| && ParsedHomework(homeworks.items[i]).Err?) ==>
              ParsedResponse(homeworks, currentDate).Err?
              && PythonException(ParsedResponse(homeworks, currentDate).error) == "TypeError"
    ensures homeworks.JList? && (forall i :: 0 <= i < |homeworks.items| ==> ParsedHomework(homeworks.items[i]).Ok?) ==>
              && (ParsedResponse(homeworks, currentDate).Ok? <==> CurrentDateValid(currentDate))
              && (ParsedResponse(homeworks, currentDate).Err? ==> ParsedResponse(homeworks, currentDate).error == CurrentDateInvalid)
              && (ParsedResponse(homeworks, currentDate).Ok? ==>
                    var stored := ParsedResponse(homeworks, currentDate).value;
                    |stored| == |homeworks.items|
                    && forall i :: 0 <= i < |stored| ==> stored[i] == ParsedHomework(homeworks.items[i]).value)
  {
    if homeworks.JList? {
      ParsedHomeworksOk(homeworks.items);
      ParsedHomeworksErr(homeworks.items);
      if ParsedHomeworks(homeworks.items).Err? {
        var i :| 0 <= i < |homeworks.items| && ParsedHomework(homeworks.items[i]) == Err(ParsedHomeworks(homeworks.items).error);
        var item := homeworks.items[i];
        assert !item.JObj? || HomeworkFromKeywords(item.fields).Err?;
      }
    }
  }

  /** `current_date` passes exactly for the non-negative ints; zero passes, any string or null does not. */
  lemma CurrentDateBoundary(n: int, s: string)
    ensures CurrentDateValid(JInt(n)) <==> n >= 0
    ensures CurrentDateValid(JInt(0))
    ensures !CurrentDateValid(JStr(s)) && !CurrentDateValid(JNull)
  {
  }

  // ---------------------------------------------------------------------
  // The object

  /** `_parse_homeworks` over the copied list: the loop appends one record per element, or raises. */
  method ParseHomeworks(items: seq<JValue>) returns (r: Result<seq<HomeworkDTO>, DtoError>)
    ensures r == ParsedHomeworks(items)
  {
    ghost var rs := ElementResults(items);
    var parsed: seq<HomeworkDTO> := [];
    var i := 0;
    while i < |items|
      invariant 0 <= i <= |items|
      invariant Collected(rs[..i]) == Ok(parsed)
    {
      var item := items[i];
      assert rs[..i + 1][..i] == rs[..i];
      if !item.JObj? {
        ErrorPersists(rs, i + 1, HomeworkNotDict);
        return Err(HomeworkNotDict);
      }
      var h := HomeworkFromKeywords(item.fields);
      if h.Err? {
        ErrorPersists(rs, i + 1, h.error);
        return Err(h.error);
      }
      parsed := parsed + [h.value];
      i := i + 1;
    }
    assert rs[..i] == rs;
    return Ok(parsed);
  }

  /**
   * `HomeworkStatusesDTO`.  Its two fields are what the read-only properties
   * `homeworks` and `current_date` return.
   */
  class HomeworkStatusesDTO {
    const homeworks: seq<HomeworkDTO>
    const currentDate: JValue

    ghost predicate Valid()
      reads this
    {
      CurrentDateValid(currentDate)
    }

    constructor (parsed: seq<HomeworkDTO>, currentDate: JValue)
      requires CurrentDateValid(currentDate)
      ensures Valid()
      ensures homeworks == parsed && this.currentDate == currentDate
    {
      homeworks := parsed;
      this.currentDate := currentDate;
    }

    /**
     * `HomeworkStatusesDTO(homeworks, current_date)`: the object, or the
     * exception the constructor raises before the object is handed out.
     * Nothing the caller holds is modified.
     */
    static method Create(homeworks: JValue, currentDate: JValue) returns (r: Result<HomeworkStatusesDTO, DtoError>)
      ensures r.Err? <==> ParsedResponse(homeworks, currentDate).Err?
      ensures r.Err? ==> r.error == ParsedResponse(homeworks, currentDate).error
      ensures r.Ok? ==> fresh(r.value) && r.value.Valid()
                        && r.value.homeworks == ParsedResponse(homeworks, currentDate).value
                        && r.value.currentDate == currentDate
    {
      if !homeworks.JList? && !homeworks.JObj? {
        return Err(NoCopyMethod);
      }
      var copy := homeworks;
      if !copy.JList? {
        return Err(HomeworksNotList);
      }
      var parsed := ParseHomeworks(copy.items);
      if parsed.Err? {
        return Err(parsed.error);
      }
      if !CurrentDateValid(currentDate) {
        return Err(CurrentDateInvalid);
      }
      var dto := new HomeworkStatusesDTO(parsed.value, currentDate);
      return Ok(dto);
    }
  }
}

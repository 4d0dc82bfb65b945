/// The admin query-reports page: its fixed table of report tasks, the form the
/// page posts, the field checks of the form schema and the hand-written
/// cross-field validator (`superRefine`) that adds "required" and min/max
/// issues for the selected task.
module QueryReports {
  import opened Js

  // ---------------------------------------------------------------------------
  // The task table

  /// A report the admin can run.  `parameter` names the one form field a task
  /// needs; `parameters` is the list the table gives for custom report 4 (the
  /// validator and the request builder use their own copy of that list).
  datatype Task = Task(id: string, name: string, endpoint: string,
                       parameter: Option<string>, parameters: seq<string>)

  const Cr4Id := "custom-report-4"

  const QueryTasks: seq<Task> := [
    Task("task1", "Task 1: Pending Requests Status & Age", "/tree-requests-status", None, []),
    Task("task2", "Task 2: Trees Planted by Neighborhood", "/trees-planted", Some("neighborhood"), []),
    Task("task3", "Task 3: Tree Species Statistics", "/tree-species-statistics", None, []),
    Task("task4", "Task 4: Neighborhood Report", "/neighborhood-report", None, []),
    Task("custom-report-1", "Custom 1: Volunteer Planting Activity by Year", "/custom-report-1", Some("year"), []),
    Task("custom-report-2", "Custom 2: Org Member Activity by Year", "/custom-report-2", Some("year"), []),
    Task("custom-report-3", "Custom 3: Tree Planting Locations by Species", "/custom-report-3", Some("common_name"), []),
    Task(Cr4Id, "Custom 4: Find Trees by Size", "/custom-report-4", None,
         ["min_height", "max_height", "min_width", "max_width"]),
    Task("custom-report-5", "Custom 5: Volunteer success rate", "/custom-report-5", None, [])
  ]

  /// The fields custom report 4 requires, in the order they are checked.
  const SizeParams := ["min_height", "max_height", "min_width", "max_width"]

  /// `queryTasks.find(t => t.id === id)`: the first task with that id.
  function FindTask(id: string): (r: Option<Task>)
    ensures r.Some? ==> r.value in QueryTasks && r.value.id == id
    ensures r.None? <==> forall i :: 0 <= i < |QueryTasks| ==> QueryTasks[i].id != id
  {
    FindIn(QueryTasks, id)
  }

  function FindIn(ts: seq<Task>, id: string): (r: Option<Task>)
    ensures r.Some? ==> exists i :: 0 <= i < |ts| && ts[i] == r.value && r.value.id == id &&
                          forall j :: 0 <= j < i ==> ts[j].id != id
    ensures r.None? <==> forall i :: 0 <= i < |ts| ==> ts[i].id != id
  {
    if ts == [] then None
    else if ts[0].id == id then Some(ts[0])
    else
      var r := FindIn(ts[1..], id);
      assert forall i :: 0 < i < |ts| ==> ts[i] == ts[1..][i - 1];
      r
  }

  // ---------------------------------------------------------------------------
  // Form data

  /// The form after the schema has coerced it: every optional field is either
  /// absent or holds a string or a number (JavaScript numbers, taken as reals).
  datatype FormData = FormData(
    selectedTaskId: string,
    neighborhood: Option<string>,
    year: Option<real>,
    commonName: Option<string>,
    minHeight: Option<real>,
    maxHeight: Option<real>,
    minWidth: Option<real>,
    maxWidth: Option<real>)

  /// What `data[name]` evaluates to.
  datatype FieldValue = Undefined | Text(s: string) | Number(n: real)

  function OfText(o: Option<string>): FieldValue
  {
    if o.Some? then Text(o.value) else Undefined
  }

  function OfNumber(o: Option<real>): FieldValue
  {
    if o.Some? then Number(o.value) else Undefined
  }

  /// `data[name]`: the field of that name, Undefined for any other name.
  function Field(data: FormData, name: string): (v: FieldValue)
    ensures name in {"year", "min_height", "max_height", "min_width", "max_width"} ==> !v.Text?
    ensures name in {"neighborhood", "common_name"} ==> !v.Number?
  {
    match name
    case "selectedTaskId" => Text(data.selectedTaskId)
    case "neighborhood" => OfText(data.neighborhood)
    case "year" => OfNumber(data.year)
    case "common_name" => OfText(data.commonName)
    case "min_height" => OfNumber(data.minHeight)
    case "max_height" => OfNumber(data.maxHeight)
    case "min_width" => OfNumber(data.minWidth)
    case "max_width" => OfNumber(data.maxWidth)
    case _ => Undefined
  }

  // ---------------------------------------------------------------------------
  // Issues

  /// A validation issue: the path of the offending field and the message.
  datatype Issue = Issue(path: seq<string>, message: Message)

  /// The message of an issue: a fixed text, or the "required" message for a
  /// field and a task, kept as those two names; MessageText renders either.
  datatype Message = Fixed(text: string) | Required(field: string, taskName: string)

  /// `s.replace(/_/g, ' ')`.
  function SpaceUnderscores(s: string): (r: string)
    ensures |r| == |s|
    ensures forall i :: 0 <= i < |s| ==> r[i] == (if s[i] == '_' then ' ' else s[i])
  {
    if s == [] then [] else [if s[0] == '_' then ' ' else s[0]] + SpaceUnderscores(s[1..])
  }

  /// A word starts at position i when `\b\w` matches there: s[i] is a word
  /// character and the character before it (if any) is not.
  predicate StartsWord(s: string, i: int)
    requires 0 <= i < |s|
  {
    IsWordChar(s[i]) && (i == 0 || !IsWordChar(s[i - 1]))
  }

  /// `s.replace(/\b\w/g, l => l.toUpperCase())`, scanning left to right;
  /// `afterWord` says whether the character before s is a word character.
  function CapitalizeWords(s: string, afterWord: bool): (r: string)
    ensures |r| == |s|
  {
    if s == [] then []
    else
      var c := s[0];
      [if IsWordChar(c) && !afterWord then UpperAscii(c) else c] + CapitalizeWords(s[1..], IsWordChar(c))
  }

  /// What the regular expression makes of position i: the character is
  /// upper-cased exactly when a word starts there.
  function CapitalizedAt(s: string, afterWord: bool, i: nat): char
    requires i < |s|
  {
    var wordStart := IsWordChar(s[i]) && (if i == 0 then !afterWord else !IsWordChar(s[i - 1]));
    if wordStart then UpperAscii(s[i]) else s[i]
  }

  lemma {:induction false} CapitalizeWordsAt(s: string, afterWord: bool, i: nat)
    requires i < |s|
    ensures CapitalizeWords(s, afterWord)[i] == CapitalizedAt(s, afterWord, i)
  {
    if i > 0 {
      CapitalizeWordsAt(s[1..], IsWordChar(s[0]), i - 1);
      assert s[1..][i - 1] == s[i];
      assert i - 1 > 0 ==> s[1..][i - 2] == s[i - 1];
    }
  }

  /// The label of a form field in messages: underscores become spaces and the
  /// first letter of each word is upper-cased ("min_height" gives "Min Height").
  function ParamLabel(p: string): string
  {
    CapitalizeWords(SpaceUnderscores(p), false)
  }

  /// Position by position, a label is its field name with underscores turned
  /// into spaces and each word-initial letter upper-cased; nothing else changes.
  lemma ParamLabelAt(p: string, i: nat)
    requires i < |p|
    ensures |ParamLabel(p)| == |p|
    ensures ParamLabel(p)[i] == (var s := SpaceUnderscores(p);
                                 if StartsWord(s, i) then UpperAscii(s[i]) else s[i])
    ensures p[i] == '_' ==> ParamLabel(p)[i] == ' '
  {
    CapitalizeWordsAt(SpaceUnderscores(p), false, i);
  }

  lemma {:induction false} CapitalizeAppend(x: string, y: string, afterWord: bool)
    ensures CapitalizeWords(x + y, afterWord) ==
            CapitalizeWords(x, afterWord) +
            CapitalizeWords(y, if x == [] then afterWord else IsWordChar(x[|x| - 1]))
  {
    if x == [] {
      assert x + y == y;
    } else {
      assert (x + y)[0] == x[0];
      assert (x + y)[1..] == x[1..] + y;
      CapitalizeAppend(x[1..], y, IsWordChar(x[0]));
    }
  }

  /// A snake_case word: a non-empty run of `\w` characters other than `_`.
  predicate PlainWord(w: string)
  {
    w != [] && forall i :: 0 <= i < |w| ==> IsWordChar(w[i]) && w[i] != '_'
  }

  /// Inside a word nothing is upper-cased; at its start only its first letter.
  lemma {:induction false} CapitalizeWord(w: string)
    requires forall i :: 0 <= i < |w| ==> IsWordChar(w[i])
    ensures CapitalizeWords(w, true) == w
    ensures w != [] ==> CapitalizeWords(w, false) == [UpperAscii(w[0])] + w[1..]
  {
    if w != [] {
      CapitalizeWord(w[1..]);
    }
  }

  /// A one-word field name is labelled by upper-casing its first letter.
  lemma OneWordLabel(a: string)
    requires PlainWord(a)
    ensures ParamLabel(a) == [UpperAscii(a[0])] + a[1..]
  {
    assert SpaceUnderscores(a) == a;
    CapitalizeWord(a);
  }

  /// A two-word snake_case name "a_b" is labelled "A B".
  lemma TwoWordLabel(a: string, b: string)
    requires PlainWord(a) && PlainWord(b)
    ensures ParamLabel(a + "_" + b) == [UpperAscii(a[0])] + a[1..] + " " + [UpperAscii(b[0])] + b[1..]
  {
    var ua := [UpperAscii(a[0])] + a[1..];
    var ub := [UpperAscii(b[0])] + b[1..];
    assert ParamLabel(a + "_" + b) == ua + (" " + ub) by {
      SpacedTwoWords(a, b);
      CapitalizeWord(a);
      SecondWordLabel(a, b);
      CapitalizeAppend(a, " " + b, false);
    }
    assert ua + (" " + ub) == ua + " " + [UpperAscii(b[0])] + b[1..];
  }

  /// After a word, " b" is title-cased as " B".
  lemma SecondWordLabel(a: string, b: string)
    requires PlainWord(a) && PlainWord(b)
    ensures CapitalizeWords(" " + b, IsWordChar(a[|a| - 1])) == " " + ([UpperAscii(b[0])] + b[1..])
  {
    CapitalizeWord(b);
    CapitalizeAppend(" ", b, IsWordChar(a[|a| - 1]));
    assert CapitalizeWords(" ", IsWordChar(a[|a| - 1])) == " ";
  }

  /// Spacing "a_b" gives "a b" when neither word has an underscore.
  lemma SpacedTwoWords(a: string, b: string)
    requires PlainWord(a) && PlainWord(b)
    ensures SpaceUnderscores(a + "_" + b) == a + (" " + b)
  {
    var s := a + "_" + b;
    var t := a + (" " + b);
    forall i | 0 <= i < |s|
      ensures SpaceUnderscores(s)[i] == t[i]
    {
      if i < |a| {
        assert s[i] == a[i] && t[i] == a[i];
      } else if i > |a| {
        assert s[i] == b[i - |a| - 1] && t[i] == b[i - |a| - 1];
      }
    }
  }

  /// The labels of the size fields of custom report 4.
  lemma {:induction false} SizeLabels(p: string)
    ensures p == "min_height" ==> ParamLabel(p) == "Min Height"
    ensures p == "max_height" ==> ParamLabel(p) == "Max Height"
    ensures p == "min_width" ==> ParamLabel(p) == "Min Width"
    ensures p == "max_width" ==> ParamLabel(p) == "Max Width"
  {
    if p == "min_height" {
      MinHeightLabel(p);
    } else if p == "max_height" {
      MaxHeightLabel(p);
    } else if p == "min_width" {
      MinWidthLabel(p);
    } else if p == "max_width" {
      MaxWidthLabel(p);
    }
  }

  // One lemma per label keeps each proof obligation about a literal small.

  lemma MinHeightLabel(p: string)
    requires p == "min_height"
    ensures ParamLabel(p) == "Min Height"
  {
    TwoWordLabel("min", "height");
    assert p == "min" + "_" + "height";
  }

  lemma MaxHeightLabel(p: string)
    requires p == "max_height"
    ensures ParamLabel(p) == "Max Height"
  {
    TwoWordLabel("max", "height");
    assert p == "max" + "_" + "height";
  }

  lemma MinWidthLabel(p: string)
    requires p == "min_width"
    ensures ParamLabel(p) == "Min Width"
  {
    TwoWordLabel("min", "width");
    assert p == "min" + "_" + "width";
  }

  lemma MaxWidthLabel(p: string)
    requires p == "max_width"
    ensures ParamLabel(p) == "Max Width"
  {
    TwoWordLabel("max", "width");
    assert p == "max" + "_" + "width";
  }

  /// The labels of the single-parameter fields.
  lemma {:induction false} TaskParamLabels(p: string)
    ensures p == "common_name" ==> ParamLabel(p) == "Common Name"
    ensures p == "neighborhood" ==> ParamLabel(p) == "Neighborhood"
    ensures p == "year" ==> ParamLabel(p) == "Year"
  {
    if p == "common_name" {
      CommonNameLabel(p);
    } else if p == "neighborhood" {
      NeighborhoodLabel(p);
    } else if p == "year" {
      OneWordLabel(p);
    }
  }

  lemma NeighborhoodLabel(p: string)
    requires p == "neighborhood"
    ensures ParamLabel(p) == "Neighborhood"
  {
    OneWordLabel(p);
  }

  lemma CommonNameLabel(p: string)
    requires p == "common_name"
    ensures ParamLabel(p) == "Common Name"
  {
    TwoWordLabel("common", "name");
    assert p == "common" + "_" + "name";
  }

  /// The text of an issue message; a "required" message reads
  /// "<Label> is required for <task name>.".
  function MessageText(m: Message): string
  {
    match m
    case Fixed(text) => text
    case Required(field, taskName) => ParamLabel(field) + " is required for " + taskName + "."
  }

  /// The "required" message for min_height reads
  /// "Min Height is required for <task name>.".
  lemma MinHeightRequiredText(p: string, taskName: string)
    requires p == "min_height"
    ensures MessageText(Required(p, taskName)) == "Min Height is required for " + taskName + "."
  {
    MinHeightLabel(p);
  }

  function RequiredIssue(p: string, taskName: string): Issue
  {
    Issue([p], Required(p, taskName))
  }

  // ---------------------------------------------------------------------------
  // The field checks of the schema (before `superRefine`)

  /// The checks of the year: a whole number, not before 1900, not after
  /// next year; each failed check adds one issue at path ["year"].
  function YearIssues(y: real, currentYear: int): (r: seq<Issue>)
    ensures r == [] <==> y.Floor as real == y && 1900.0 <= y <= (currentYear + 1) as real
    ensures |r| <= 3
    ensures forall i :: 0 <= i < |r| ==> r[i].path == ["year"]
  {
    (if y.Floor as real != y then [Issue(["year"], Fixed("Year must be a whole number."))] else []) +
    (if y < 1900.0 then [Issue(["year"], Fixed("Year seems too early."))] else []) +
    (if y > (currentYear + 1) as real then [Issue(["year"], Fixed("Year cannot be in the future."))] else [])
  }

  /// The check of a size: an issue at the field's path exactly when the
  /// value is present and not positive.
  function PositiveIssue(field: string, v: Option<real>, message: string): (r: seq<Issue>)
    ensures r == [] <==> v.None? || v.value > 0.0
    ensures r != [] ==> r == [Issue([field], Fixed(message))]
  {
    if v.Some? && v.value <= 0.0 then [Issue([field], Fixed(message))] else []
  }

  /// The issues of the per-field checks, in field order: a task must be
  /// selected, a year must be a whole number from 1900 to next year, and the
  /// four sizes must be positive.  `currentYear` is the year read
  /// from the clock when the page module was loaded, once for all requests.
  function SchemaIssues(data: FormData, currentYear: int): (r: seq<Issue>)
    ensures r == [] <==>
              && |data.selectedTaskId| >= 1
              && (data.year.Some? ==> var y := data.year.value;
                                     y.Floor as real == y && 1900.0 <= y <= (currentYear + 1) as real)
              && (data.minHeight.None? || data.minHeight.value > 0.0)
              && (data.maxHeight.None? || data.maxHeight.value > 0.0)
              && (data.minWidth.None? || data.minWidth.value > 0.0)
              && (data.maxWidth.None? || data.maxWidth.value > 0.0)
  {
    (if |data.selectedTaskId| < 1 then [Issue(["selectedTaskId"], Fixed("Please select a query task."))] else []) +
    (if data.year.Some? then YearIssues(data.year.value, currentYear) else []) +
    PositiveIssue("min_height", data.minHeight, "Min height must be positive.") +
    PositiveIssue("max_height", data.maxHeight, "Max height must be positive.") +
    PositiveIssue("min_width", data.minWidth, "Min width must be positive.") +
    PositiveIssue("max_width", data.maxWidth, "Max width must be positive.")
  }

  // ---------------------------------------------------------------------------
  // The cross-field validator, as a specification

  /// Whether the value of a single-parameter task's field is acceptable.  A
  /// text field must hold a string that is not empty after trimming; the year
  /// must be defined; any other field name fails the check.
  predicate ParamSatisfied(p: string, v: FieldValue)
  {
    if p == "neighborhood" || p == "common_name" then v.Text? && |Trim(v.s)| > 0
    else if p == "year" then v != Undefined
    else false
  }

  predicate AllDefined(data: FormData, ps: seq<string>)
  {
    forall i :: 0 <= i < |ps| ==> Field(data, ps[i]) != Undefined
  }

  /// One "required" issue per field of ps that is undefined, in the order of ps.
  function MissingIssues(data: FormData, ps: seq<string>, taskName: string): (r: seq<Issue>)
    ensures r == [] <==> AllDefined(data, ps)
    ensures forall i :: 0 <= i < |r| ==> |r[i].path| == 1 && r[i].path[0] in ps
  {
    if ps == [] then []
    else MissingIssues(data, ps[..|ps| - 1], taskName) + MissingIssue(data, ps[|ps| - 1], taskName)
  }

  /// JavaScript's `a > b` on two form values: false unless both are numbers.
  predicate Exceeds(a: FieldValue, b: FieldValue)
  {
    a.Number? && b.Number? && a.n > b.n
  }

  const MinHeightMessage := "Min height cannot be greater than Max height."
  const MinWidthMessage := "Min width cannot be greater than Max width."

  function CrossIssues(data: FormData): seq<Issue>
  {
    (if Exceeds(Field(data, "min_height"), Field(data, "max_height"))
     then [Issue(["min_height"], Fixed(MinHeightMessage))] else []) +
    (if Exceeds(Field(data, "min_width"), Field(data, "max_width"))
     then [Issue(["min_width"], Fixed(MinWidthMessage))] else [])
  }

  /// The issue a single-parameter task adds: one "required" issue for its
  /// field when the field's value is not acceptable, none otherwise.
  function ParamIssues(data: FormData, p: string, taskName: string): seq<Issue>
  {
    if ParamSatisfied(p, Field(data, p)) then [] else [RequiredIssue(p, taskName)]
  }

  /// The issues of custom report 4: one per missing size field, in order,
  /// then, only when all four are present, the two min/max comparisons.
  function SizeIssues(data: FormData, taskName: string): (r: seq<Issue>)
    ensures forall i :: 0 <= i < |r| ==> |r[i].path| == 1 && r[i].path[0] in SizeParams
  {
    MissingIssues(data, SizeParams, taskName) +
    (if AllDefined(data, SizeParams) then CrossIssues(data) else [])
  }

  function TaskIssues(data: FormData, t: Task): (r: seq<Issue>)
    ensures forall i :: 0 <= i < |r| ==>
              |r[i].path| == 1 && (t.parameter == Some(r[i].path[0]) || r[i].path[0] in SizeParams)
  {
    if t.parameter.Some? then ParamIssues(data, t.parameter.value, t.name)
    else if t.id == Cr4Id then SizeIssues(data, t.name)
    else []
  }

  /// The issues `superRefine` adds for the form data, in order.
  /// Every issue is at the path of one field the selected task uses; an id
  /// that names no task yields none.
  function RefineIssues(data: FormData): (r: seq<Issue>)
    ensures FindTask(data.selectedTaskId).None? ==> r == []
    ensures forall i :: 0 <= i < |r| ==>
              var t := FindTask(data.selectedTaskId).value;
              |r[i].path| == 1 && (t.parameter == Some(r[i].path[0]) || r[i].path[0] in SizeParams)
  {
    match FindTask(data.selectedTaskId)
    case None => []
    case Some(t) => TaskIssues(data, t)
  }

  /// The form is valid when neither the field checks nor the validator
  /// report an issue.
  predicate FormValid(data: FormData, currentYear: int)
  {
    SchemaIssues(data, currentYear) == [] && RefineIssues(data) == []
  }

  // ---------------------------------------------------------------------------
  // Properties of the validator

  /// Task ids are unique, so `find` picks the task with that id.
  lemma {:induction false} TaskIdsUnique()
    ensures forall i, j :: 0 <= i < j < |QueryTasks| ==> QueryTasks[i].id != QueryTasks[j].id
  {
  }

  /// Exactly task1, task3, task4 and custom-report-5 have no parameter and
  /// are not custom report 4.
  lemma {:induction false} ParameterlessTasks(t: Task)
    requires t in QueryTasks
    ensures (t.parameter.None? && t.id != Cr4Id) <==> t.id in {"task1", "task3", "task4", "custom-report-5"}
  {
  }

  /// The parameters of the table: task2 asks for a neighborhood, custom
  /// reports 1 and 2 for a year, custom report 3 for a common name, and no
  /// other task has a single parameter.
  lemma {:induction false} TaskParameters(t: Task)
    requires t in QueryTasks
    ensures t.parameter == Some("neighborhood") <==> t.id == "task2"
    ensures t.parameter == Some("year") <==> t.id in {"custom-report-1", "custom-report-2"}
    ensures t.parameter == Some("common_name") <==> t.id == "custom-report-3"
    ensures t.parameter.Some? ==> t.parameter.value in {"neighborhood", "year", "common_name"}
  {
  }

  /// Every custom report is served at `/` followed by its id.
  lemma CustomReportEndpoints(t: Task)
    requires t in QueryTasks
    requires t.id in {"custom-report-1", "custom-report-2", "custom-report-3", "custom-report-4", "custom-report-5"}
    ensures t.endpoint == "/" + t.id
  {
  }

  /// An id that names no task, or a task without parameters other than
  /// custom report 4, yields no issue.
  lemma NoIssuesWithoutParameters(data: FormData)
    requires FindTask(data.selectedTaskId).None? ||
             data.selectedTaskId in {"task1", "task3", "task4", "custom-report-5"}
    ensures RefineIssues(data) == []
  {
    var r := FindTask(data.selectedTaskId);
    if r.Some? {
      ParameterlessTasks(r.value);
    }
  }

  /// A text field counts as blank when it is absent or holds only whitespace.
  predicate Blank(o: Option<string>)
  {
    o.None? || AllWhitespace(o.value)
  }

  lemma BlankIsUnsatisfied(p: string, data: FormData, taskName: string)
    requires p == "neighborhood" || p == "common_name"
    ensures ParamIssues(data, p, taskName) == [] <==> !Blank(if p == "neighborhood" then data.neighborhood else data.commonName)
  {
    var v := Field(data, p);
    if v.Text? {
      TrimNonEmpty(v.s);
    }
  }

  /// Task 2 reports exactly one issue, at path ["neighborhood"], when the
  /// neighborhood is missing or blank, and none otherwise.
  lemma NeighborhoodRequired(data: FormData)
    requires data.selectedTaskId == "task2"
    ensures RefineIssues(data) ==
            if Blank(data.neighborhood)
            then [RequiredIssue("neighborhood", "Task 2: Trees Planted by Neighborhood")]
            else []
  {
    assert FindTask(data.selectedTaskId) == Some(QueryTasks[1]);
    BlankIsUnsatisfied("neighborhood", data, QueryTasks[1].name);
  }

  /// Custom report 3 reports exactly one issue, at path ["common_name"],
  /// when the common name is missing or blank, and none otherwise.
  lemma CommonNameRequired(data: FormData)
    requires data.selectedTaskId == "custom-report-3"
    ensures RefineIssues(data) ==
            if Blank(data.commonName)
            then [RequiredIssue("common_name", "Custom 3: Tree Planting Locations by Species")]
            else []
  {
    assert FindTask(data.selectedTaskId) == Some(QueryTasks[6]);
    BlankIsUnsatisfied("common_name", data, QueryTasks[6].name);
  }

  /// Custom reports 1 and 2 report exactly one issue, at path ["year"], when
  /// the year is missing, and none otherwise.
  lemma YearRequired(data: FormData)
    requires data.selectedTaskId in {"custom-report-1", "custom-report-2"}
    ensures var name := if data.selectedTaskId == "custom-report-1"
                        then "Custom 1: Volunteer Planting Activity by Year"
                        else "Custom 2: Org Member Activity by Year";
            RefineIssues(data) ==
            if data.year.None? then [RequiredIssue("year", name)] else []
  {
    var t := if data.selectedTaskId == "custom-report-1" then QueryTasks[4] else QueryTasks[5];
    assert FindTask(data.selectedTaskId) == Some(t);
    YearParamIssues(data, t.name);
  }

  /// The year check of a single-parameter task: one "required" issue exactly
  /// when the year is missing.
  lemma YearParamIssues(data: FormData, taskName: string)
    ensures ParamIssues(data, "year", taskName) ==
            if data.year.None? then [RequiredIssue("year", taskName)] else []
  {
    assert Field(data, "year") == OfNumber(data.year);
  }

  const Cr4Name := "Custom 4: Find Trees by Size"

  function RequiredIfMissing(v: Option<real>, p: string): seq<Issue>
  {
    if v.None? then [RequiredIssue(p, Cr4Name)] else []
  }

  /// A missing-field issue for field p, if it is undefined.
  function MissingIssue(data: FormData, p: string, taskName: string): seq<Issue>
  {
    if Field(data, p) == Undefined then [RequiredIssue(p, taskName)] else []
  }

  lemma {:induction false} MissingIssuesOfFour(data: FormData, a: string, b: string, c: string, d: string, n: string)
    ensures MissingIssues(data, [a, b, c, d], n) ==
            MissingIssue(data, a, n) + MissingIssue(data, b, n) + MissingIssue(data, c, n) + MissingIssue(data, d, n)
    ensures AllDefined(data, [a, b, c, d]) <==>
            Field(data, a) != Undefined && Field(data, b) != Undefined &&
            Field(data, c) != Undefined && Field(data, d) != Undefined
  {
    var ps := [a, b, c, d];
    assert ps[..3] == [a, b, c];
    assert ps[..3][..2] == [a, b];
    assert ps[..3][..2][..1] == [a];
    assert ps[..3][..2][..1][..0] == [];
    assert MissingIssues(data, [a], n) == MissingIssue(data, a, n);
    assert MissingIssues(data, [a, b], n) == MissingIssues(data, [a], n) + MissingIssue(data, b, n);
    assert MissingIssues(data, [a, b, c], n) == MissingIssues(data, [a, b], n) + MissingIssue(data, c, n);
    assert MissingIssues(data, ps, n) == MissingIssues(data, [a, b, c], n) + MissingIssue(data, d, n);
    if Field(data, a) != Undefined && Field(data, b) != Undefined &&
       Field(data, c) != Undefined && Field(data, d) != Undefined {
      forall i | 0 <= i < 4 ensures Field(data, ps[i]) != Undefined {
        assert i == 0 || i == 1 || i == 2 || i == 3;
      }
    }
  }

  /// Custom report 4 reports one issue per missing size field, in the order
  /// min_height, max_height, min_width, max_width, each at its own path; the
  /// min/max comparisons are added only when none is missing.
  lemma SizeIssuesInOrder(data: FormData)
    requires data.selectedTaskId == Cr4Id
    ensures RefineIssues(data) ==
            RequiredIfMissing(data.minHeight, "min_height") +
            RequiredIfMissing(data.maxHeight, "max_height") +
            RequiredIfMissing(data.minWidth, "min_width") +
            RequiredIfMissing(data.maxWidth, "max_width") +
            (if data.minHeight.Some? && data.maxHeight.Some? && data.minWidth.Some? && data.maxWidth.Some?
             then CrossIssues(data) else [])
  {
    assert RefineIssues(data) == SizeIssues(data, Cr4Name) by {
      assert FindTask(data.selectedTaskId) == Some(QueryTasks[7]);
    }
    SizeFields(data);
    MissingIssuesOfFour(data, "min_height", "max_height", "min_width", "max_width", Cr4Name);
    assert MissingIssue(data, "min_height", Cr4Name) == RequiredIfMissing(data.minHeight, "min_height");
    assert MissingIssue(data, "max_height", Cr4Name) == RequiredIfMissing(data.maxHeight, "max_height");
    assert MissingIssue(data, "min_width", Cr4Name) == RequiredIfMissing(data.minWidth, "min_width");
    assert MissingIssue(data, "max_width", Cr4Name) == RequiredIfMissing(data.maxWidth, "max_width");
  }

  lemma SizeFields(data: FormData)
    ensures Field(data, "min_height") == OfNumber(data.minHeight)
    ensures Field(data, "max_height") == OfNumber(data.maxHeight)
    ensures Field(data, "min_width") == OfNumber(data.minWidth)
    ensures Field(data, "max_width") == OfNumber(data.maxWidth)
  {
  }

  /// With all four sizes present, custom report 4 reports an issue at
  /// min_height exactly when min_height > max_height, and one at min_width
  /// exactly when min_width > max_width; equal values pass.
  lemma SizeComparisons(data: FormData)
    requires data.selectedTaskId == Cr4Id
    requires data.minHeight.Some? && data.maxHeight.Some? && data.minWidth.Some? && data.maxWidth.Some?
    ensures RefineIssues(data) ==
            (if data.minHeight.value > data.maxHeight.value
             then [Issue(["min_height"], Fixed(MinHeightMessage))] else []) +
            (if data.minWidth.value > data.maxWidth.value
             then [Issue(["min_width"], Fixed(MinWidthMessage))] else [])
    ensures data.minHeight.value <= data.maxHeight.value && data.minWidth.value <= data.maxWidth.value
            ==> RefineIssues(data) == []
  {
    SizeIssuesInOrder(data);
    SizeFields(data);
    assert RequiredIfMissing(data.minHeight, "min_height") == [];
    assert RequiredIfMissing(data.maxHeight, "max_height") == [];
    assert RequiredIfMissing(data.minWidth, "min_width") == [];
    assert RequiredIfMissing(data.maxWidth, "max_width") == [];
  }

  /// A valid form for custom report 4 has all four sizes, each positive,
  /// with min_height <= max_height and min_width <= max_width.
  lemma ValidSizeForm(data: FormData, currentYear: int)
    requires data.selectedTaskId == Cr4Id && FormValid(data, currentYear)
    ensures data.minHeight.Some? && data.maxHeight.Some? && data.minWidth.Some? && data.maxWidth.Some?
    ensures data.minHeight.value > 0.0 && data.maxHeight.value > 0.0
    ensures data.minWidth.value > 0.0 && data.maxWidth.value > 0.0
    ensures data.minHeight.value <= data.maxHeight.value && data.minWidth.value <= data.maxWidth.value
  {
    SizeIssuesInOrder(data);
    if data.minHeight.Some? && data.maxHeight.Some? && data.minWidth.Some? && data.maxWidth.Some? {
      SizeComparisons(data);
    }
  }

  /// An id that names no task passes the validator: such a form is valid
  /// exactly when the field checks pass.
  lemma UnknownTaskIsValid(data: FormData, currentYear: int)
    requires FindTask(data.selectedTaskId).None?
    ensures FormValid(data, currentYear) <==> SchemaIssues(data, currentYear) == []
  {
  }

  // ---------------------------------------------------------------------------
  // The validator as the page runs it: issues are added to a context in place.

  /// The refinement context: the issues reported so far.
  class RefinementCtx {
    var issues: seq<Issue>

    constructor (initial: seq<Issue>)
      ensures issues == initial
    {
      issues := initial;
    }

    /// `ctx.addIssue(issue)`.
    method AddIssue(issue: Issue)
      modifies this
      ensures issues == old(issues) + [issue]
    {
      issues := issues + [issue];
    }
  }

  /// The `superRefine` callback: appends to ctx exactly the issues of
  /// RefineIssues, after those already there.
  method SuperRefine(data: FormData, ctx: RefinementCtx)
    modifies ctx
    ensures ctx.issues == old(ctx.issues) + RefineIssues(data)
  {
    var task := FindTask(data.selectedTaskId);
    if task.None? {
      return;
    }
    var t := task.value;
    if t.parameter.Some? {
      CheckParam(data, t.parameter.value, t.name, ctx);
    } else if t.id == Cr4Id {
      CheckSizes(data, t.name, ctx);
    }
  }

  /// The single-parameter branch of `superRefine`: the `switch` on the
  /// parameter name sets `isValid`, and an invalid value adds one issue.
  method CheckParam(data: FormData, p: string, taskName: string, ctx: RefinementCtx)
    modifies ctx
    ensures ctx.issues == old(ctx.issues) + ParamIssues(data, p, taskName)
  {
    var paramValue := Field(data, p);
    var isValid := false;
    if p == "neighborhood" {
      isValid := paramValue.Text? && |Trim(paramValue.s)| > 0;
    } else if p == "year" {
      isValid := paramValue != Undefined;
    } else if p == "common_name" {
      isValid := paramValue.Text? && |Trim(paramValue.s)| > 0;
    }
    if !isValid {
      ctx.AddIssue(RequiredIssue(p, taskName));
    }
  }

  /// The custom-report-4 branch of `superRefine`: a loop over the four size
  /// fields adds an issue for each missing one and clears `allParamsValid`;
  /// the min/max comparisons run only if the flag survived.
  method CheckSizes(data: FormData, taskName: string, ctx: RefinementCtx)
    modifies ctx
    ensures ctx.issues == old(ctx.issues) + SizeIssues(data, taskName)
  {
    var allParamsValid := CheckPresent(data, SizeParams, taskName, ctx);
    if allParamsValid {
      if Exceeds(Field(data, "min_height"), Field(data, "max_height")) {
        ctx.AddIssue(Issue(["min_height"], Fixed(MinHeightMessage)));
      }
      if Exceeds(Field(data, "min_width"), Field(data, "max_width")) {
        ctx.AddIssue(Issue(["min_width"], Fixed(MinWidthMessage)));
      }
    }
  }

  /// The loop `for (const param of requiredParams)`: adds a "required" issue
  /// for each missing field, in order, and reports whether none was missing.
  method CheckPresent(data: FormData, requiredParams: seq<string>, taskName: string, ctx: RefinementCtx)
    returns (allParamsValid: bool)
    modifies ctx
    ensures ctx.issues == old(ctx.issues) + MissingIssues(data, requiredParams, taskName)
    ensures allParamsValid == AllDefined(data, requiredParams)
  {
    allParamsValid := true;
    for i := 0 to |requiredParams|
      invariant ctx.issues == old(ctx.issues) + MissingIssues(data, requiredParams[..i], taskName)
      invariant allParamsValid == AllDefined(data, requiredParams[..i])
    {
      var param := requiredParams[i];
      assert requiredParams[..i + 1][..i] == requiredParams[..i];
      assert MissingIssues(data, requiredParams[..i + 1], taskName) ==
             MissingIssues(data, requiredParams[..i], taskName) + MissingIssue(data, param, taskName);
      var value := Field(data, param);
      if value == Undefined {
        allParamsValid := false;
        ctx.AddIssue(RequiredIssue(param, taskName));
      }
    }
    assert requiredParams[..|requiredParams|] == requiredParams;
  }
}

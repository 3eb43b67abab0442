/** The backend's `save_generated_project` (`backend/api/routes/projects.py`):
    turning the result record the agent service posts into the backend's
    project record. Storing the record is I/O and is not modelled; the
    model stops at the record that would be stored, or at the HTTP error
    the endpoint raises instead. */
module Projects {
  import opened Common
  import opened Text
  import opened Dicts
  import opened Values

  /** The "code" section: the coder's files joined into one text. */
  datatype CodeSection = CodeSection(finalCode: string, files: Dict<Value>)

  /** The sections filled from the agents' results. An empty `{}` section
      is `None`; `Some(x)` is the one-entry dict holding `x`. */
  datatype Sections = Sections(
    generatedFiles: Dict<Value>,
    code: Option<CodeSection>,
    documentation: Option<Value>,
    tests: Option<Value>,
    deployment: Option<Value>,
    ui: Option<Value>)

  const NoSections := Sections([], None, None, None, None, None)

  /** The backend's project record. */
  datatype Project = Project(
    projectId: Value,
    projectName: Value,
    userInput: Value,
    timestamp: Option<string>,
    success: bool,
    executionTime: int,
    sections: Sections,
    pipelineMetadata: Value)

  /** What the endpoint does with a posted record: the record it stores, or
      the `HTTPException` it raises. */
  datatype SaveOutcome = Saved(project: Project) | Refused(status: int, detail: string)

  const MissingId := "Missing project_id or execution_id"
  const SaveFailed := "Failed to save generated project: "

  /** `str()` of the `KeyError` a dict raises for the key `slice(None, 8, None)`. */
  const SliceKey := "slice(None, 8, None)"

  /** Python's `a or b`. */
  function Or(a: Value, b: Value): (r: Value)
    ensures Truthy(a) ==> r == a
    ensures !Truthy(a) ==> r == b
  {
    if Truthy(a) then a else b
  }

  // ---------------------------------------------------------------------
  // The id, the default name and the timestamp
  // ---------------------------------------------------------------------

  /** `f'project-{project_id[:8]}'`, which Python evaluates even when a
      "pipeline_name" is given. Slicing works on strings and lists (a list
      slice is shown by `render`), raises `TypeError` for the scalars, and
      raises for a dict, whose `[:8]` is a lookup of the key
      `slice(None, 8, None)`: a `KeyError` since Python 3.12 made slices
      hashable. */
  function DefaultName(id: Value, render: Renderer): (r: Outcome<string>)
    ensures r.Ok? <==> id.VStr? || id.VList?
    ensures id.VStr? ==>
              r.Ok? && StartsWith(r.value, "project-") && |r.value| == 8 + Min8(|id.s|) &&
              StartsWith(id.s, r.value[8..])
    ensures id.VDict? ==> r == Fail(SliceKey)
    ensures !id.VStr? && !id.VList? && !id.VDict? ==> r == Fail("'" + TypeName(id) + "' object is not subscriptable")
  {
    match id
    case VStr(s) =>
      var n := Min8(|s|);
      assert ("project-" + s[..n])[8..] == s[..n];
      Ok("project-" + s[..n])
    case VList(items) => Ok("project-" + render(VList(items[..Min8(|items|)])))
    case VDict(_) => Fail(SliceKey)
    case _ => Fail("'" + TypeName(id) + "' object is not subscriptable")
  }

  function Min8(n: nat): (m: nat)
    ensures m <= n && m <= 8 && (m == 8 || m == n)
  {
    if n < 8 then n else 8
  }

  /** `completed_at or started_at`, kept as is when it is a string, `None`
      when it is falsy, and otherwise formatted with `isoformat`, which no
      value of the posted JSON has. */
  function Timestamp(completed: Value, started: Value): (r: Outcome<Option<string>>)
    ensures Truthy(completed) && completed.VStr? ==> r == Ok(Some(completed.s))
    ensures !Truthy(completed) && started.VStr? ==> r == Ok(Some(started.s))
    ensures !Truthy(completed) && !Truthy(started) && !started.VStr? ==> r == Ok(None)
    ensures r.Fail? <==> Truthy(Or(completed, started)) && !Or(completed, started).VStr?
  {
    var ts := Or(completed, started);
    if ts.VStr? then Ok(Some(ts.s))
    else if !Truthy(ts) then Ok(None)
    else Fail(NoAttribute(ts, "isoformat"))
  }

  // ---------------------------------------------------------------------
  // Joining the coder's files
  // ---------------------------------------------------------------------

  /** The index of the first value that is not a string. */
  function FirstNonString(vs: seq<Value>): (r: Option<nat>)
    ensures r.Some? ==> r.value < |vs| && !vs[r.value].VStr? &&
                        forall j :: 0 <= j < r.value ==> vs[j].VStr?
    ensures r.None? <==> forall j :: 0 <= j < |vs| ==> vs[j].VStr?
    decreases |vs|
  {
    if |vs| == 0 then None
    else if !vs[0].VStr? then Some(0)
    else
      match FirstNonString(vs[1..])
      case None => None
      case Some(i) => Some(i + 1)
  }

  /** `'\n'.join(values)`: the strings joined by newlines, or the
      `TypeError` naming the first item that is not a string. */
  function JoinValues(vs: seq<Value>): (r: Outcome<string>)
    ensures r.Ok? <==> forall j :: 0 <= j < |vs| ==> vs[j].VStr?
    ensures r.Ok? && |vs| == 0 ==> r.value == ""
    ensures (r.Ok? && |vs| > 0 && forall j :: 0 <= j < |vs| ==> vs[j].VStr? && '\n' !in vs[j].s) ==>
              Split(r.value, '\n') == Strings(vs)
    ensures r.Fail? ==> exists i :: 0 <= i < |vs| && !vs[i].VStr? &&
                                    r.msg == "sequence item " + NatToString(i) + ": expected str instance, " +
                                             TypeName(vs[i]) + " found"
  {
    match FirstNonString(vs)
    case Some(i) =>
      Fail("sequence item " + NatToString(i) + ": expected str instance, " + TypeName(vs[i]) + " found")
    case None =>
      var parts := Strings(vs);
      assert (|vs| > 0 && forall j :: 0 <= j < |vs| ==> vs[j].VStr? && '\n' !in vs[j].s) ==>
               Split(Join(parts, '\n'), '\n') == parts by {
        if |vs| > 0 && forall j :: 0 <= j < |vs| ==> vs[j].VStr? && '\n' !in vs[j].s {
          assert forall j :: 0 <= j < |parts| ==> parts[j] == vs[j].s;
          SplitJoin(parts, '\n');
        }
      }
      Ok(Join(parts, '\n'))
  }

  /** The strings of a sequence of values that are all strings. */
  function Strings(vs: seq<Value>): (r: seq<string>)
    ensures |r| == |vs|
  {
    seq(|vs|, j requires 0 <= j < |vs| => if vs[j].VStr? then vs[j].s else "")
  }

  // ---------------------------------------------------------------------
  // Folding the agents' results into the sections
  // ---------------------------------------------------------------------

  /** `agent_result[key]`, when the agent's result is a dict holding it. */
  function Carried(ar: Value, key: string): Option<Value> {
    if ar.VDict? then Get(ar.entries, key) else None
  }

  /** An agent result whose "generated_code" is a dict of files. */
  predicate CarriesCode(ar: Value) {
    Carried(ar, "generated_code").Some? && Carried(ar, "generated_code").value.VDict?
  }

  function CodeOf(ar: Value): Dict<Value>
    requires CarriesCode(ar)
  {
    Carried(ar, "generated_code").value.entries
  }

  /** The file `name` of an agent result's generated code. */
  function Provided(ar: Value, name: string): Option<Value> {
    if CarriesCode(ar) then Get(CodeOf(ar), name) else None
  }

  /** The reference for last-writer-wins: what `pick` finds in the last
      agent result where it finds anything. */
  function LastOf(items: Dict<Value>, pick: Value -> Option<Value>): (r: Option<Value>)
    ensures r.None? <==> forall i :: 0 <= i < |items| ==> pick(items[i].1).None?
    ensures r.Some? ==> exists i :: 0 <= i < |items| && pick(items[i].1) == r &&
                                    forall j :: i < j < |items| ==> pick(items[j].1).None?
    decreases |items|
  {
    if |items| == 0 then None
    else
      var last := items[|items| - 1].1;
      if pick(last).Some? then
        assert pick(items[|items| - 1].1) == pick(last);
        pick(last)
      else
        var init := items[..|items| - 1];
        var r := LastOf(init, pick);
        assert forall i :: 0 <= i < |init| ==> init[i] == items[i];
        r
  }

  /** The picker for a section key of an agent result. */
  function CarriedBy(key: string): Value -> Option<Value> {
    ar => Carried(ar, key)
  }

  /** The picker for a file name of an agent result's generated code. */
  function ProvidedBy(name: string): Value -> Option<Value> {
    ar => Provided(ar, name)
  }

  /** A section replaced when the agent result carries its key. */
  function Override(carried: Option<Value>, previous: Option<Value>): (r: Option<Value>)
    ensures r.Some? <==> carried.Some? || previous.Some?
    ensures carried.Some? ==> r == carried
  {
    if carried.Some? then carried else previous
  }

  /** One iteration of the loop over `result.items()`: the agent result's
      files are merged over the earlier ones, it replaces each section it
      carries, and only the "python_coder" entry sets the code section. */
  function Absorb(acc: Sections, name: string, ar: Value): (r: Outcome<Sections>)
    ensures r.Fail? <==> name == "python_coder" && CarriesCode(ar) && JoinValues(Dicts.Values(CodeOf(ar))).Fail?
    ensures r.Ok? ==>
              r.value.documentation == Override(Carried(ar, "documentation"), acc.documentation) &&
              r.value.tests == Override(Carried(ar, "test_code"), acc.tests) &&
              r.value.deployment == Override(Carried(ar, "deployment_config"), acc.deployment) &&
              r.value.ui == Override(Carried(ar, "ui_code"), acc.ui)
    ensures r.Ok? && (CarriesCode(ar) ==> UniqueKeys(CodeOf(ar))) ==>
              forall file :: Get(r.value.generatedFiles, file) ==
                             (if Provided(ar, file).Some? then Provided(ar, file) else Get(acc.generatedFiles, file))
    ensures r.Ok? && name == "python_coder" && CarriesCode(ar) ==>
              r.value.code.Some? && r.value.code.value.files == CodeOf(ar)
    ensures r.Ok? && !(name == "python_coder" && CarriesCode(ar)) ==> r.value.code == acc.code
  {
    var withCode :=
      if !CarriesCode(ar) then Ok(acc)
      else
        var gc := CodeOf(ar);
        var files := Update(acc.generatedFiles, gc);
        if name != "python_coder" then Ok(acc.(generatedFiles := files))
        else
          match JoinValues(Dicts.Values(gc))
          case Fail(e) => Fail(e)
          case Ok(text) =>
            Ok(acc.(generatedFiles := files, code := Some(CodeSection(if |gc| > 0 then text else "", gc))));
    match withCode
    case Fail(e) => Fail(e)
    case Ok(s) =>
      Ok(s.(documentation := Override(Carried(ar, "documentation"), s.documentation),
            tests := Override(Carried(ar, "test_code"), s.tests),
            deployment := Override(Carried(ar, "deployment_config"), s.deployment),
            ui := Override(Carried(ar, "ui_code"), s.ui)))
  }

  /** Whether every dict of generated files has distinct names, as every
      Python dict does. */
  predicate DistinctFiles(items: Dict<Value>) {
    forall i :: 0 <= i < |items| && CarriesCode(items[i].1) ==> UniqueKeys(CodeOf(items[i].1))
  }

  /** An agent named "python_coder" with a dict of generated code. */
  predicate CoderAt(items: Dict<Value>, i: int) {
    0 <= i < |items| && items[i].0 == "python_coder" && CarriesCode(items[i].1)
  }

  /** Each section is the one the last agent result carrying its key gave. */
  predicate SectionsFrom(items: Dict<Value>, s: Sections) {
    s.documentation == LastOf(items, CarriedBy("documentation")) &&
    s.tests == LastOf(items, CarriedBy("test_code")) &&
    s.deployment == LastOf(items, CarriedBy("deployment_config")) &&
    s.ui == LastOf(items, CarriedBy("ui_code"))
  }

  /** Each file is the one the last agent result providing it gave. */
  ghost predicate FilesFrom(items: Dict<Value>, s: Sections) {
    forall file :: Get(s.generatedFiles, file) == LastOf(items, ProvidedBy(file))
  }

  /** The code section exists exactly when a coder entry does, and holds
      its files. */
  ghost predicate CodeFrom(items: Dict<Value>, s: Sections) {
    (s.code.Some? <==> exists i :: CoderAt(items, i)) &&
    (s.code.Some? ==> exists i :: CoderAt(items, i) && s.code.value.files == CodeOf(items[i].1))
  }

  /** Every coder entry's files can be joined. */
  ghost predicate CoderJoins(items: Dict<Value>) {
    forall i :: CoderAt(items, i) ==> JoinValues(Dicts.Values(CodeOf(items[i].1))).Ok?
  }

  /** The loop over `result.items()`: each section comes from the last
      agent result carrying its key, the files are the union of every
      agent's files with later agents overriding earlier ones, and the
      code section comes from the "python_coder" entry alone; it raises
      exactly when that entry's files cannot be joined. */
  function Extract(items: Dict<Value>): (r: Outcome<Sections>)
    ensures r.Ok? ==> SectionsFrom(items, r.value) && CodeFrom(items, r.value)
    ensures r.Ok? && DistinctFiles(items) ==> FilesFrom(items, r.value)
    ensures r.Ok? <==> CoderJoins(items)
    decreases |items|
  {
    if |items| == 0 then Ok(NoSections)
    else
      var init := items[..|items| - 1];
      var (name, ar) := items[|items| - 1];
      InitOf(items);
      match Extract(init)
      case Fail(e) =>
        CoderJoinsStep(items);
        Fail(e)
      case Ok(acc) =>
        var r := Absorb(acc, name, ar);
        CoderJoinsStep(items);
        if r.Ok? then
          SectionsStep(items, acc, r.value);
          CodeStep(items, acc, r.value);
          FilesStep(items, acc, r.value);
          r
        else r
  }

  lemma InitOf(items: Dict<Value>)
    requires |items| > 0
    ensures forall i :: 0 <= i < |items| - 1 ==> items[..|items| - 1][i] == items[i]
  {
  }

  /** `LastOf` looks at the last agent result first. */
  lemma LastOfStep(items: Dict<Value>, pick: Value -> Option<Value>)
    requires |items| > 0
    ensures LastOf(items, pick) ==
            (if pick(items[|items| - 1].1).Some? then pick(items[|items| - 1].1)
             else LastOf(items[..|items| - 1], pick))
  {
  }

  lemma CoderJoinsStep(items: Dict<Value>)
    requires |items| > 0
    ensures CoderJoins(items) <==>
              CoderJoins(items[..|items| - 1]) &&
              (CoderAt(items, |items| - 1) ==> JoinValues(Dicts.Values(CodeOf(items[|items| - 1].1))).Ok?)
  {
    var init := items[..|items| - 1];
    assert forall i :: CoderAt(init, i) <==> CoderAt(items, i) && i < |items| - 1;
  }

  lemma SectionsStep(items: Dict<Value>, acc: Sections, s: Sections)
    requires |items| > 0 && SectionsFrom(items[..|items| - 1], acc)
    requires Absorb(acc, items[|items| - 1].0, items[|items| - 1].1) == Ok(s)
    ensures SectionsFrom(items, s)
  {
    LastOfStep(items, CarriedBy("documentation"));
    LastOfStep(items, CarriedBy("test_code"));
    LastOfStep(items, CarriedBy("deployment_config"));
    LastOfStep(items, CarriedBy("ui_code"));
  }

  lemma CodeStep(items: Dict<Value>, acc: Sections, s: Sections)
    requires |items| > 0 && CodeFrom(items[..|items| - 1], acc)
    requires Absorb(acc, items[|items| - 1].0, items[|items| - 1].1) == Ok(s)
    ensures CodeFrom(items, s)
  {
    var init := items[..|items| - 1];
    var last := |items| - 1;
    assert forall i :: CoderAt(init, i) <==> CoderAt(items, i) && i < last;
    if CoderAt(items, last) {
      assert s.code.Some? && s.code.value.files == CodeOf(items[last].1);
    } else {
      assert s.code == acc.code;
      if s.code.Some? {
        var i :| CoderAt(init, i) && acc.code.value.files == CodeOf(init[i].1);
        assert CoderAt(items, i);
      }
    }
  }

  lemma FilesStep(items: Dict<Value>, acc: Sections, s: Sections)
    requires |items| > 0
    requires DistinctFiles(items[..|items| - 1]) ==> FilesFrom(items[..|items| - 1], acc)
    requires Absorb(acc, items[|items| - 1].0, items[|items| - 1].1) == Ok(s)
    ensures DistinctFiles(items) ==> FilesFrom(items, s)
  {
    var init := items[..|items| - 1];
    var last := items[|items| - 1].1;
    if DistinctFiles(items) {
      assert DistinctFiles(init) by {
        forall i | 0 <= i < |init| && CarriesCode(init[i].1)
          ensures UniqueKeys(CodeOf(init[i].1))
        {
          assert init[i] == items[i];
        }
      }
      assert CarriesCode(last) ==> UniqueKeys(CodeOf(last));
      forall file
        ensures Get(s.generatedFiles, file) == LastOf(items, ProvidedBy(file))
      {
        LastOfStep(items, ProvidedBy(file));
        assert ProvidedBy(file)(last) == Provided(last, file);
      }
    }
  }

  // ---------------------------------------------------------------------
  // save_generated_project
  // ---------------------------------------------------------------------

  /** `save_generated_project` up to the call that stores the record. */
  function SaveGeneratedProject(data: Dict<Value>, render: Renderer): (r: SaveOutcome)
    ensures r == Refused(400, MissingId) <==>
              !Truthy(GetOr(data, "execution_id", VNone)) && !Truthy(GetOr(data, "project_id", VNone))
    ensures r.Refused? ==> r.status == 400 || (r.status == 500 && StartsWith(r.detail, SaveFailed))
    ensures var id := Or(GetOr(data, "execution_id", VNone), GetOr(data, "project_id", VNone));
            var result := GetOr(data, "result", VDict([]));
            r.Saved? <==>
              && Truthy(id)
              && Timestamp(GetOr(data, "completed_at", VNone), GetOr(data, "started_at", VNone)).Ok?
              && DefaultName(id, render).Ok?
              && (result.VDict? ==> CoderJoins(result.entries))
    ensures r.Saved? ==>
              r.project.projectId == Or(GetOr(data, "execution_id", VNone), GetOr(data, "project_id", VNone)) &&
              Truthy(r.project.projectId)
    ensures r.Saved? ==> (r.project.success <==> GetOr(data, "status", VNone) == VStr("completed"))
    ensures r.Saved? ==>
              r.project.executionTime == 0 &&
              r.project.userInput == GetOr(data, "input_data", VStr("")) &&
              r.project.pipelineMetadata == GetOr(data, "result", VDict([]))
    ensures r.Saved? && HasKey(data, "pipeline_name") ==> Some(r.project.projectName) == Get(data, "pipeline_name")
    ensures r.Saved? && !HasKey(data, "pipeline_name") && r.project.projectId.VStr? ==>
              r.project.projectName.VStr? && StartsWith(r.project.projectName.s, "project-") &&
              |r.project.projectName.s| <= 16 &&
              StartsWith(r.project.projectId.s, r.project.projectName.s[8..])
    ensures r.Saved? ==>
              Timestamp(GetOr(data, "completed_at", VNone), GetOr(data, "started_at", VNone)) ==
              Ok(r.project.timestamp)
    ensures r.Saved? && GetOr(data, "result", VDict([])).VDict? ==>
              Extract(GetOr(data, "result", VDict([])).entries) == Ok(r.project.sections)
    ensures r.Saved? && !GetOr(data, "result", VDict([])).VDict? ==> r.project.sections == NoSections
  {
    var id := Or(GetOr(data, "execution_id", VNone), GetOr(data, "project_id", VNone));
    if !Truthy(id) then Refused(400, MissingId)
    else
      match Timestamp(GetOr(data, "completed_at", VNone), GetOr(data, "started_at", VNone))
      case Fail(e) => Refused(500, SaveFailed + e)
      case Ok(ts) =>
        match DefaultName(id, render)
        case Fail(e) => Refused(500, SaveFailed + e)
        case Ok(defaultName) =>
          var name := GetOr(data, "pipeline_name", VStr(defaultName));
          var result := GetOr(data, "result", VDict([]));
          var sections := if result.VDict? then Extract(result.entries) else Ok(NoSections);
          match sections
          case Fail(e) => Refused(500, SaveFailed + e)
          case Ok(s) =>
            Saved(Project(id, name, GetOr(data, "input_data", VStr("")), ts,
                          GetOr(data, "status", VNone) == VStr("completed"), 0, s, result))
  }
}

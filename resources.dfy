/**
 * What the facade methods compute for themselves: namespaced form fields, request paths
 * built from plain and compound identifiers, the ids they manufacture from replies, the
 * download-type check, and the rewrite of an upload ticket.
 *
 * Compound identifiers are Python tuples, `seq<Json>` here: `(dataroom_id, datafile_uuid)`
 * for a datafile and that pair extended with the stage id for a stage.
 */
module Resources {
  import opened Wrappers
  import opened Dicts
  import opened Values
  import opened Strings

  // ---------------------------------------------------------------- form namespacing

  /** The name a field gets inside a form: the form name, then the field name in square brackets. */
  function Namespaced(formname: string, field: string): string {
    formname + "[" + field + "]"
  }

  /** The form helper: every field renamed into the form's namespace, in order, values kept. */
  function Form<V>(formname: string, fields: Dict<V>): Dict<V> {
    if fields == [] then []
    else [(Namespaced(formname, fields[0].0), fields[0].1)] + Form(formname, fields[1..])
  }

  /** Within one form, different fields get different names. */
  lemma NamespacedInjective(formname: string, a: string, b: string)
    requires Namespaced(formname, a) == Namespaced(formname, b)
    ensures a == b
  {
    var s := Namespaced(formname, a);
    assert a == s[|formname| + 1..|s| - 1];
  }

  /** One entry per field, in the fields' order, each under its namespaced name with its value unchanged. */
  lemma {:induction false} FormEntries<V>(formname: string, fields: Dict<V>)
    ensures |Form(formname, fields)| == |fields|
    ensures forall i :: 0 <= i < |fields| ==>
      Form(formname, fields)[i] == (Namespaced(formname, fields[i].0), fields[i].1)
  {
    if fields != [] {
      FormEntries(formname, fields[1..]);
      var r := Form(formname, fields);
      assert forall i :: 1 <= i < |fields| ==> r[i] == Form(formname, fields[1..])[i - 1];
    }
  }

  /** Looking up `formname[field]` in the form finds exactly what `field` held in the fields. */
  lemma {:induction false} FormLookup<V>(formname: string, fields: Dict<V>, field: string)
    ensures Lookup(Form(formname, fields), Namespaced(formname, field)) == Lookup(fields, field)
  {
    if fields != [] {
      if fields[0].0 != field {
        if Namespaced(formname, fields[0].0) == Namespaced(formname, field) {
          NamespacedInjective(formname, fields[0].0, field);
        }
      }
      FormLookup(formname, fields[1..], field);
    }
  }

  /** The form's keys are exactly the namespaced field names; zero fields give an empty dict. */
  lemma {:induction false} FormKeys<V>(formname: string, fields: Dict<V>)
    ensures Keys(Form(formname, fields)) == set k | k in Keys(fields) :: Namespaced(formname, k)
    ensures fields == [] <==> Form(formname, fields) == []
  {
    if fields != [] {
      FormKeys(formname, fields[1..]);
    }
  }

  /** Distinct field names stay distinct in the form, so no field overwrites another. */
  lemma FormKeepsUnique<V>(formname: string, fields: Dict<V>)
    requires Unique(fields)
    ensures Unique(Form(formname, fields))
  {
    FormEntries(formname, fields);
    var r := Form(formname, fields);
    forall i, j | 0 <= i < j < |r| ensures r[i].0 != r[j].0 {
      if r[i].0 == r[j].0 {
        NamespacedInjective(formname, fields[i].0, fields[j].0);
      }
    }
  }

  /** The fields `create_user` sends: user name, e-mail address and password, in the `user` namespace. */
  function UserForm(username: string, email: string, password: string): (r: Dict<Json>)
    ensures |r| == 3 && Unique(r)
    ensures Lookup(r, Namespaced("user", "username")) == Some(JStr(username))
    ensures Lookup(r, Namespaced("user", "email")) == Some(JStr(email))
    ensures Lookup(r, Namespaced("user", "password")) == Some(JStr(password))
  {
    var fields := [("username", JStr(username)), ("email", JStr(email)), ("password", JStr(password))];
    assert "username"[0] != "password"[0];
    FormEntries("user", fields);
    FormKeepsUnique("user", fields);
    var r := Form("user", fields);
    LookupEntry(r, 0);
    LookupEntry(r, 1);
    LookupEntry(r, 2);
    r
  }

  /**
   * The fields `create_dataroom` sends in the `dataset` namespace: name, readme, license, the
   * topics copied into a list, and the public flag.
   */
  function DataroomForm(name: string, readme: string, license: string, topics: seq<string>, public: bool): (r: Dict<Json>)
    ensures |r| == 5 && Unique(r)
    ensures Lookup(r, Namespaced("dataset", "name")) == Some(JStr(name))
    ensures Lookup(r, Namespaced("dataset", "readme")) == Some(JStr(readme))
    ensures Lookup(r, Namespaced("dataset", "license")) == Some(JStr(license))
    ensures Lookup(r, Namespaced("dataset", "topics")) == Some(JArr(TopicList(topics)))
    ensures Lookup(r, Namespaced("dataset", "public")) == Some(JBool(public))
  {
    var fields := [
      ("name", JStr(name)), ("readme", JStr(readme)), ("license", JStr(license)),
      ("topics", JArr(TopicList(topics))), ("public", JBool(public))];
    assert "readme"[0] != "topics"[0] && "readme"[0] != "public"[0] && "topics"[0] != "public"[0];
    FormEntries("dataset", fields);
    FormKeepsUnique("dataset", fields);
    var r := Form("dataset", fields);
    LookupEntry(r, 0);
    LookupEntry(r, 1);
    LookupEntry(r, 2);
    LookupEntry(r, 3);
    LookupEntry(r, 4);
    r
  }

  /** `list(topics)`: the topics, in order, as JSON strings. */
  function TopicList(topics: seq<string>): (r: seq<Json>)
    ensures |r| == |topics| && forall i :: 0 <= i < |r| ==> r[i] == JStr(topics[i])
  {
    seq(|topics|, i requires 0 <= i < |topics| => JStr(topics[i]))
  }

  // ---------------------------------------------------------------- paths

  /** The history path names the datafile by its second component; a tuple shorter than two raises IndexError. */
  function HistoryPath(datafileId: seq<Json>): (r: Result<string, Failure>)
    ensures r.Success? <==> |datafileId| >= 2
    ensures r.Success? ==> r.value == "data_files/" + Display(datafileId[1]) + "/history"
    ensures r.Failure? ==> r.error == IndexError
  {
    if |datafileId| < 2 then Failure(IndexError)
    else Success("data_files/" + Display(datafileId[1]) + "/history")
  }

  /**
   * A path formatted from a datafile pair: the two components with `sep` between them and
   * `tail` after them. Any other number of components raises TypeError.
   */
  function PairPath(datafileId: seq<Json>, sep: string, tail: string): (r: Result<string, Failure>)
    ensures r.Success? <==> |datafileId| == 2
    ensures r.Success? ==> r.value == Display(datafileId[0]) + sep + Display(datafileId[1]) + tail
    ensures r.Failure? ==> r.error == TypeError
  {
    var lits, args := ["", sep, tail], Displays(datafileId);
    if |args| == 2 then
      InterleaveTwo(lits, args);
      assert lits[0] + args[0] == args[0];
      Format(lits, args)
    else
      Format(lits, args)
  }

  /** The path that asks for an upload ticket: the dataroom, then the datafile's uuid as a query parameter. */
  function UploadRequestPath(datafileId: seq<Json>): (r: Result<string, Failure>)
    ensures r.Success? <==> |datafileId| == 2
    ensures r.Success? ==>
      r.value == Display(datafileId[0]) + "/upload_request?datafile_uuid=" + Display(datafileId[1])
    ensures r.Failure? ==> r.error == TypeError
  {
    var r := PairPath(datafileId, "/upload_request?datafile_uuid=", "");
    assert r.Success? ==> r.value + "" == r.value;
    r
  }

  /** The path `get_download_url` would post to: both components, then `download_request`. */
  function DownloadRequestPath(datafileId: seq<Json>): (r: Result<string, Failure>)
    ensures r.Success? <==> |datafileId| == 2
    ensures r.Success? ==>
      r.value == Display(datafileId[0]) + "/" + Display(datafileId[1]) + "/download_request"
    ensures r.Failure? ==> r.error == TypeError
  {
    PairPath(datafileId, "/", "/download_request")
  }

  /** The path that opens a stage on a datafile: both components, then `stage`. */
  function StagePath(datafileId: seq<Json>): (r: Result<string, Failure>)
    ensures r.Success? <==> |datafileId| == 2
    ensures r.Success? ==> r.value == Display(datafileId[0]) + "/" + Display(datafileId[1]) + "/stage"
    ensures r.Failure? ==> r.error == TypeError
  {
    PairPath(datafileId, "/", "/stage")
  }

  /** The rows path of a stage triple, with its three components in order, followed by a fixed suffix `tail`. */
  function StageRowsPath(stageId: seq<Json>, tail: string): (r: Result<string, Failure>)
    ensures r.Success? <==> |stageId| == 3
    ensures r.Success? ==> (r.value ==
      Display(stageId[0]) + "/" + Display(stageId[1]) + "/stage/" + Display(stageId[2]) + "/rows" + tail)
    ensures r.Failure? ==> r.error == TypeError
  {
    var lits, args := ["", "/", "/stage/", "/rows" + tail], Displays(stageId);
    if |args| == 3 then
      InterleaveThree(lits, args);
      assert lits[0] + args[0] == args[0];
      Format(lits, args)
    else
      Format(lits, args)
  }

  /** The path of one row: the stage triple extended by the row number, which is formatted as a decimal integer. */
  function RowPath(stageId: seq<Json>, rowNumber: int): (r: Result<string, Failure>)
    ensures r.Success? <==> |stageId| == 3
    ensures r.Success? ==> (r.value ==
      Display(stageId[0]) + "/" + Display(stageId[1]) + "/stage/" + Display(stageId[2]) +
      "/rows/" + IntToString(rowNumber))
    ensures r.Failure? ==> r.error == TypeError
  {
    var lits, args := ["", "/", "/stage/", "/rows/", ""], Displays(stageId) + [IntToString(rowNumber)];
    if |args| == 4 then
      InterleaveFour(lits, args);
      assert lits[0] + args[0] == args[0];
      Format(lits, args)
    else
      Format(lits, args)
  }

  // ---------------------------------------------------------------- visualizations

  /** The id the client gives a visualization: the dataroom id, `visualizations`, then the item's uuid. */
  function VisualizationId(dataroomId: string, uuid: Json): string {
    dataroomId + "/visualizations/" + Display(uuid)
  }

  /** One listed item, copied with its `id` set from its uuid; the uuid is read first, so an item without one raises. */
  function TagVisualization(dataroomId: string, vis: Json): (r: Result<Json, Failure>)
    ensures r.Success? <==> vis.JObj? && "uuid" in Keys(vis.fields)
    ensures r.Success? ==> (r.value.JObj? &&
      r.value.fields == Put(vis.fields, "id", JStr(VisualizationId(dataroomId, Lookup(vis.fields, "uuid").value))))
  {
    var uuid :- Subscript(Some(vis), "uuid");
    Success(JObj(Put(vis.fields, "id", JStr(VisualizationId(dataroomId, uuid)))))
  }

  /** The list comprehension `[f(x) for x in xs]`: each item in turn, the first exception ending it. */
  function Collect<T, U>(f: T -> Result<U, Failure>, xs: seq<T>): Result<seq<U>, Failure> {
    if xs == [] then Success([])
    else
      match f(xs[0])
      case Failure(e) => Failure(e)
      case Success(first) =>
        match Collect(f, xs[1..])
        case Failure(e) => Failure(e)
        case Success(rest) => Success([first] + rest)
  }

  /** When every item succeeds, the comprehension has one result per item, in the same order. */
  lemma {:induction false} CollectSucceeds<T, U>(f: T -> Result<U, Failure>, xs: seq<T>)
    requires forall i :: 0 <= i < |xs| ==> f(xs[i]).Success?
    ensures Collect(f, xs).Success?
    ensures |Collect(f, xs).value| == |xs|
    ensures forall i :: 0 <= i < |xs| ==> f(xs[i]) == Success(Collect(f, xs).value[i])
  {
    if xs != [] {
      var tail := xs[1..];
      forall i | 0 <= i < |tail| ensures f(tail[i]).Success? {
        assert tail[i] == xs[i + 1];
      }
      CollectSucceeds(f, tail);
      var first, rest := f(xs[0]).value, Collect(f, tail).value;
      assert Collect(f, xs) == Success([first] + rest);
      forall i | 0 <= i < |xs| ensures f(xs[i]) == Success(([first] + rest)[i]) {
        if i > 0 {
          assert xs[i] == tail[i - 1];
        }
      }
    }
  }

  /** When item `i` is the first that fails, the whole comprehension raises that item's exception. */
  lemma {:induction false} CollectStopsAtFirstFailure<T, U>(f: T -> Result<U, Failure>, xs: seq<T>, i: nat)
    requires i < |xs| && f(xs[i]).Failure?
    requires forall j :: 0 <= j < i ==> f(xs[j]).Success?
    ensures Collect(f, xs) == Failure(f(xs[i]).error)
  {
    if i > 0 {
      var tail := xs[1..];
      assert tail[i - 1] == xs[i];
      forall j | 0 <= j < i - 1 ensures f(tail[j]).Success? {
        assert tail[j] == xs[j + 1];
      }
      CollectStopsAtFirstFailure(f, tail, i - 1);
    }
  }

  /** What `list_visualizations` does with its reply: iterate the decoded body and tag every item. */
  function Visualizations(dataroomId: string, reply: Result<Option<Json>, Failure>): (r: Result<seq<Json>, Failure>)
    ensures reply.Failure? ==> r == Failure(reply.error)
    ensures reply.Success? && Iterate(reply.value).Failure? ==> r == Failure(TypeError)
  {
    var body :- reply;
    var items :- Iterate(body);
    Collect(vis => TagVisualization(dataroomId, vis), items)
  }

  /**
   * A listed list of dicts, each with a `uuid`, comes back as a list of the same length and order;
   * item i is item i of the server's list with `id` set to `<dataroom_id>/visualizations/<uuid>`,
   * overriding an `id` it had, every other key keeping its value.
   */
  lemma VisualizationsTagged(dataroomId: string, items: seq<Json>)
    requires forall j :: 0 <= j < |items| ==> items[j].JObj? && "uuid" in Keys(items[j].fields)
    ensures var r := Visualizations(dataroomId, Success(Some(JArr(items))));
      r.Success? && |r.value| == |items|
    ensures var r := Visualizations(dataroomId, Success(Some(JArr(items)))).value;
      forall i :: 0 <= i < |items| ==>
        r[i].JObj? &&
        Lookup(r[i].fields, "id") ==
          Some(JStr(VisualizationId(dataroomId, Lookup(items[i].fields, "uuid").value))) &&
        Keys(r[i].fields) == Keys(items[i].fields) + {"id"} &&
        forall k :: k != "id" ==> Lookup(r[i].fields, k) == Lookup(items[i].fields, k)
  {
    var f := vis => TagVisualization(dataroomId, vis);
    CollectSucceeds(f, items);
    var r := Collect(f, items).value;
    forall i | 0 <= i < |items|
      ensures r[i].JObj? &&
        Lookup(r[i].fields, "id") ==
          Some(JStr(VisualizationId(dataroomId, Lookup(items[i].fields, "uuid").value))) &&
        Keys(r[i].fields) == Keys(items[i].fields) + {"id"} &&
        forall k :: k != "id" ==> Lookup(r[i].fields, k) == Lookup(items[i].fields, k)
    {
      assert f(items[i]) == Success(r[i]);
      PutLookup(items[i].fields, "id", JStr(VisualizationId(dataroomId, Lookup(items[i].fields, "uuid").value)));
    }
  }

  /** The server's list is rejected, by the first item that is not a dict with a `uuid`. */
  lemma VisualizationsRejected(dataroomId: string, items: seq<Json>, i: nat)
    requires i < |items| && !(items[i].JObj? && "uuid" in Keys(items[i].fields))
    requires forall j :: 0 <= j < i ==> items[j].JObj? && "uuid" in Keys(items[j].fields)
    ensures Visualizations(dataroomId, Success(Some(JArr(items)))) ==
      Failure(if items[i].JObj? then KeyError("uuid") else TypeError)
  {
    CollectStopsAtFirstFailure(vis => TagVisualization(dataroomId, vis), items, i);
  }

  // ---------------------------------------------------------------- compound identifiers

  /** The id `create_datafile` makes from its reply: the dataroom id paired with the reply's `datafile_uuid`. */
  function NewDatafileId(dataroomId: string, reply: Result<Option<Json>, Failure>): (r: Result<seq<Json>, Failure>)
    ensures reply.Failure? ==> r == Failure(reply.error)
    ensures reply.Success? ==> r.Success? == Subscript(reply.value, "datafile_uuid").Success?
    ensures reply.Success? && r.Failure? ==> r.error == Subscript(reply.value, "datafile_uuid").error
    ensures r.Success? ==> (|r.value| == 2 && r.value[0] == JStr(dataroomId) &&
      Subscript(reply.value, "datafile_uuid") == Success(r.value[1]))
  {
    var body :- reply;
    var uuid :- Subscript(body, "datafile_uuid");
    Success([JStr(dataroomId), uuid])
  }

  /** The id `create_stage` makes from its reply: the datafile tuple extended by the reply's `id`. */
  function NewStageId(datafileId: seq<Json>, reply: Result<Option<Json>, Failure>): (r: Result<seq<Json>, Failure>)
    ensures reply.Failure? ==> r == Failure(reply.error)
    ensures reply.Success? ==> r.Success? == Subscript(reply.value, "id").Success?
    ensures reply.Success? && r.Failure? ==> r.error == Subscript(reply.value, "id").error
    ensures r.Success? ==> (|r.value| == |datafileId| + 1 && r.value[..|datafileId|] == datafileId &&
      Subscript(reply.value, "id") == Success(r.value[|datafileId|]))
  {
    var body :- reply;
    var stage :- Subscript(body, "id");
    Success(datafileId + [stage])
  }

  /**
   * The methods taking a datafile id, given the id `create_datafile` returns, place the caller's
   * dataroom id and the server's `datafile_uuid` in that order.
   */
  lemma NewDatafileIdIsPair(dataroomId: string, body: Option<Json>)
    requires Subscript(body, "datafile_uuid").Success?
    ensures var uuid := Subscript(body, "datafile_uuid").value;
      var r := NewDatafileId(dataroomId, Success(body));
      r.Success? &&
      StagePath(r.value) == Success(dataroomId + "/" + Display(uuid) + "/stage") &&
      UploadRequestPath(r.value) == Success(dataroomId + "/upload_request?datafile_uuid=" + Display(uuid)) &&
      HistoryPath(r.value) == Success("data_files/" + Display(uuid) + "/history")
  {
  }

  /**
   * The id `create_stage` returns has one component more than the datafile tuple, so the staging
   * methods accept it exactly when that tuple was a pair, and then the methods taking a datafile
   * pair reject it with TypeError.
   */
  lemma NewStageIdExtends(datafileId: seq<Json>, body: Option<Json>)
    requires Subscript(body, "id").Success?
    ensures var r := NewStageId(datafileId, Success(body));
      r.Success? &&
      StageRowsPath(r.value, "").Success? == (|datafileId| == 2) &&
      (|datafileId| == 2 ==>
        StagePath(r.value) == Failure(TypeError) && UploadRequestPath(r.value) == Failure(TypeError))
  {
  }

  /**
   * A stage made from a datafile made by `create_datafile` addresses its rows as
   * `<dataroom>/<uuid>/stage/<stage>/rows`, then `/<row_number>`, `/commit` or `/rollback`.
   */
  lemma StagePathsFromIds(dataroomId: string, fileBody: Option<Json>, stageBody: Option<Json>, rowNumber: int)
    requires Subscript(fileBody, "datafile_uuid").Success? && Subscript(stageBody, "id").Success?
    ensures NewStageId(NewDatafileId(dataroomId, Success(fileBody)).value, Success(stageBody)) ==
      Success([JStr(dataroomId), Subscript(fileBody, "datafile_uuid").value, Subscript(stageBody, "id").value])
    ensures var s := [JStr(dataroomId), Subscript(fileBody, "datafile_uuid").value, Subscript(stageBody, "id").value];
      var rows := dataroomId + "/" + Display(s[1]) + "/stage/" + Display(s[2]) + "/rows";
      StageRowsPath(s, "") == Success(rows) &&
      StageRowsPath(s, "/commit") == Success(rows + "/commit") &&
      StageRowsPath(s, "/rollback") == Success(rows + "/rollback") &&
      RowPath(s, rowNumber) == Success(rows + "/" + IntToString(rowNumber))
  {
    var uuid := Subscript(fileBody, "datafile_uuid").value;
    var stage := Subscript(stageBody, "id").value;
    var s := [JStr(dataroomId), uuid, stage];
    assert NewDatafileId(dataroomId, Success(fileBody)) == Success([JStr(dataroomId), uuid]);
    assert [JStr(dataroomId), uuid] + [stage] == s;
    assert NewStageId([JStr(dataroomId), uuid], Success(stageBody)) == Success(s);
    var prefix := Display(s[0]) + "/" + Display(s[1]) + "/stage/" + Display(s[2]);
    assert prefix == dataroomId + "/" + Display(uuid) + "/stage/" + Display(stage);
    assert StageRowsPath(s, "") == Success(prefix + "/rows" + "");
    assert StageRowsPath(s, "/commit") == Success(prefix + "/rows" + "/commit");
    assert StageRowsPath(s, "/rollback") == Success(prefix + "/rows" + "/rollback");
    assert RowPath(s, rowNumber) == Success(prefix + "/rows/" + IntToString(rowNumber));
    assert prefix + "/rows/" + IntToString(rowNumber) == prefix + "/rows" + "/" + IntToString(rowNumber);
    var rows := dataroomId + "/" + Display(s[1]) + "/stage/" + Display(s[2]) + "/rows";
    assert rows == prefix + "/rows";
    assert rows + "" == rows;
  }

  // ---------------------------------------------------------------- download type

  /** The types `get_download_url` accepts, once upper-cased. */
  predicate IsDownloadType(t: string) {
    t == "CSV" || t == "XLS" || t == "XLSX"
  }

  /** The check `get_download_url` makes: the upper-cased type must be CSV, XLS or XLSX, or ValueError names it. */
  function CheckDownloadType(fileType: string): (r: Result<string, Failure>)
    ensures r.Success? ==> IsDownloadType(r.value)
    ensures r.Failure? ==> r.error == ValueError("Unknown file type '" + Upper(fileType) + "'")
  {
    var t := Upper(fileType);
    if IsDownloadType(t) then Success(t) else Failure(ValueError("Unknown file type '" + t + "'"))
  }

  /** `t` spells the capitals `u` letter by letter, each letter in either case. */
  predicate SpellsIgnoringCase(t: string, u: string) {
    |t| == |u| && forall i :: 0 <= i < |t| ==> t[i] == u[i] || t[i] as int == u[i] as int + 32
  }

  /** A type is accepted exactly when it spells CSV, XLS or XLSX in any mixture of cases; it is then upper-cased. */
  lemma DownloadTypeIgnoresCase(fileType: string)
    ensures CheckDownloadType(fileType).Success? <==>
      SpellsIgnoringCase(fileType, "CSV") || SpellsIgnoringCase(fileType, "XLS") ||
      SpellsIgnoringCase(fileType, "XLSX")
    ensures CheckDownloadType(fileType).Success? ==> CheckDownloadType(fileType).value == Upper(fileType)
  {
    UpperMatches(fileType, "CSV");
    UpperMatches(fileType, "XLS");
    UpperMatches(fileType, "XLSX");
  }

  // ---------------------------------------------------------------- upload ticket

  /**
   * The ticket rewrite of `upload_datafile`: the `url` field is popped out, then `release_notes` is set;
   * every other ticket field is kept with its value and position.
   * A dict without `url` raises KeyError; a list's `pop` raises TypeError; other values have no `pop`.
   */
  function RewriteTicket(ticket: Json, releaseNotes: string): (r: Result<(Json, Dict<Json>), Failure>)
    ensures r.Success? <==> ticket.JObj? && "url" in Keys(ticket.fields)
    ensures r.Success? ==> Lookup(ticket.fields, "url") == Some(r.value.0)
    ensures r.Success? ==> var form := r.value.1;
      Keys(form) == Keys(ticket.fields) - {"url"} + {"release_notes"} &&
      Lookup(form, "url") == None &&
      Lookup(form, "release_notes") == Some(JStr(releaseNotes)) &&
      forall k :: k != "url" && k != "release_notes" ==> Lookup(form, k) == Lookup(ticket.fields, k)
    ensures r.Failure? ==> (r.error ==
      if ticket.JObj? then KeyError("url") else if ticket.JArr? then TypeError else AttributeError("pop"))
  {
    match ticket
    case JObj(fields) =>
      (match Lookup(fields, "url")
       case Some(url) =>
         RemoveLookup(fields, "url");
         PutLookup(Remove(fields, "url"), "release_notes", JStr(releaseNotes));
         Success((url, Put(Remove(fields, "url"), "release_notes", JStr(releaseNotes))))
       case None => Failure(KeyError("url")))
    case JArr(_) => Failure(TypeError)
    case _ => Failure(AttributeError("pop"))
  }

  /** The ticket's other fields stay in their order: with distinct keys the form is the ticket without its `url` entry, notes set. */
  lemma RewriteTicketOrder(fields: Dict<Json>, i: nat, releaseNotes: string)
    requires Unique(fields) && i < |fields| && fields[i].0 == "url"
    ensures RewriteTicket(JObj(fields), releaseNotes) ==
      Success((fields[i].1, Put(fields[..i] + fields[i + 1..], "release_notes", JStr(releaseNotes))))
    ensures Unique(RewriteTicket(JObj(fields), releaseNotes).value.1)
  {
    LookupEntry(fields, i);
    RemoveEntry(fields, i);
    RemoveKeepsUnique(fields, "url");
    PutKeepsUnique(Remove(fields, "url"), "release_notes", JStr(releaseNotes));
  }
}

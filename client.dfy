/**
 * The `Buzzdata` client object: its API key and base URL, the transport it calls, and the
 * log of every request it has issued. Each facade method builds its path and arguments,
 * issues its request or requests through `_request` (or directly, for the upload), and
 * unwraps the reply; the log shows how many requests each method issues and which.
 */
module Buzzdata {
  import opened Wrappers
  import opened Dicts
  import opened Values
  import opened Http
  import opened Resources

  const DefaultBaseUrl := "https://buzzdata.com/api"

  class Client {
    const apiKey: Option<string>
    const baseUrl: string
    /** The server and the network, which the client only calls. */
    const transport: Transport
    /** `json.dumps`, used for row payloads. */
    const dumps: Json -> string
    /** Every request issued so far, oldest first. */
    var log: seq<HttpRequest>

    constructor(transport: Transport, dumps: Json -> string,
                apiKey: Option<string> := None, baseUrl: string := DefaultBaseUrl)
      ensures this.transport == transport && this.dumps == dumps
      ensures this.apiKey == apiKey && this.baseUrl == baseUrl
      ensures log == []
    {
      this.transport := transport;
      this.dumps := dumps;
      this.apiKey := apiKey;
      this.baseUrl := baseUrl;
      log := [];
    }

    /** What `_request` reports for `req` issued after the requests `history`. */
    function Reply(history: seq<HttpRequest>, req: HttpRequest): Result<Option<Json>, Failure> {
      Handle(transport(history, req))
    }

    /** One call into the transport. */
    method Send(req: HttpRequest) returns (resp: Response)
      modifies this
      ensures log == old(log) + [req] && resp == transport(old(log), req)
    {
      resp := transport(log, req);
      log := log + [req];
    }

    // ------------------------------------------------------------ private

    /** `_request`: assemble the call, send it, and apply the status rule. */
    method Request(verb: Verb, path: string, params: Dict<Option<string>>,
                   data: Option<Dict<Json>> := None, files: Option<Dict<FilePart>> := None)
      returns (r: Result<Option<Json>, Failure>)
      modifies this
      ensures var req := BuildRequest(verb, baseUrl, apiKey, path, params, data, files);
        log == old(log) + [req] && r == Reply(old(log), req)
    {
      var url := baseUrl + "/" + path;
      var req := HttpRequest(verb, url, Put(params, ApiKeyParam, apiKey), None, None);
      if data.Some? {
        req := req.(data := data);
      }
      if files.Some? {
        req := req.(files := files);
      }
      var response := Send(req);
      if response.status > 400 {
        r := Failure(NewError(response));
      } else {
        r := Success(response.json);
      }
    }

    /** `_get`: a GET of the path with the caller's query parameters. */
    method Get(path: string, params: Dict<Option<string>> := []) returns (r: Result<Option<Json>, Failure>)
      modifies this
      ensures var req := QueryRequest(GET, baseUrl, apiKey, path, params);
        log == old(log) + [req] && r == Reply(old(log), req)
    {
      r := Request(GET, path, params);
    }

    /** `_delete`: a DELETE of the path with the caller's query parameters. */
    method Delete(path: string, params: Dict<Option<string>> := []) returns (r: Result<Option<Json>, Failure>)
      modifies this
      ensures var req := QueryRequest(DELETE, baseUrl, apiKey, path, params);
        log == old(log) + [req] && r == Reply(old(log), req)
    {
      r := Request(DELETE, path, params);
    }

    /** `_post`: a POST of the path with the keyword arguments as form data, and files when given. */
    method Post(path: string, data: Dict<Json> := [], files: Option<Dict<FilePart>> := None)
      returns (r: Result<Option<Json>, Failure>)
      modifies this
      ensures var req := PostRequest(baseUrl, apiKey, path, data, files);
        log == old(log) + [req] && r == Reply(old(log), req)
    {
      r := Request(POST, path, [], Some(data), files);
    }

    // ------------------------------------------------------------ general info

    method Licenses() returns (r: Result<Option<Json>, Failure>)
      modifies this
      ensures var req := QueryRequest(GET, baseUrl, apiKey, "licenses", []);
        log == old(log) + [req] && r == Reply(old(log), req)
    {
      r := Get("licenses");
    }

    method Topics() returns (r: Result<Option<Json>, Failure>)
      modifies this
      ensures var req := QueryRequest(GET, baseUrl, apiKey, "topics", []);
        log == old(log) + [req] && r == Reply(old(log), req)
    {
      r := Get("topics");
    }

    method Search(query: string) returns (r: Result<Option<Json>, Failure>)
      modifies this
      ensures var req := QueryRequest(GET, baseUrl, apiKey, "search", [("term", Some(query))]);
        log == old(log) + [req] && r == Reply(old(log), req)
    {
      r := Get("search", [("term", Some(query))]);
    }

    // ------------------------------------------------------------ users

    method UserInfo(username: string) returns (r: Result<Json, Failure>)
      modifies this
      ensures var req := QueryRequest(GET, baseUrl, apiKey, username, []);
        log == old(log) + [req] && r == Field(Reply(old(log), req), "user")
    {
      var reply := Get(username);
      r := Field(reply, "user");
    }

    method CreateUser(username: string, email: string, password: string) returns (r: Result<Option<Json>, Failure>)
      modifies this
      ensures var req := PostRequest(baseUrl, apiKey, "users", UserForm(username, email, password), None);
        log == old(log) + [req] && r == Reply(old(log), req)
    {
      r := Post("users", UserForm(username, email, password));
    }

    // ------------------------------------------------------------ datarooms

    method ListDatarooms(username: string) returns (r: Result<Option<Json>, Failure>)
      modifies this
      ensures var req := QueryRequest(GET, baseUrl, apiKey, username + "/datasets/list", []);
        log == old(log) + [req] && r == Reply(old(log), req)
    {
      r := Get(username + "/datasets/list");
    }

    method CreateDataroom(username: string, name: string, readme: string := "", license: string := "cc0",
                          topics: seq<string> := [], public: bool := false)
      returns (r: Result<Json, Failure>)
      modifies this
      ensures var req := PostRequest(baseUrl, apiKey, username + "/datasets",
                                     DataroomForm(name, readme, license, topics, public), None);
        log == old(log) + [req] && r == Field(Reply(old(log), req), "dataset")
    {
      var reply := Post(username + "/datasets", DataroomForm(name, readme, license, topics, public));
      r := Field(reply, "dataset");
    }

    method DataroomOverview(dataroomId: string) returns (r: Result<Json, Failure>)
      modifies this
      ensures var req := QueryRequest(GET, baseUrl, apiKey, dataroomId, []);
        log == old(log) + [req] && r == Field(Reply(old(log), req), "dataset")
    {
      var reply := Get(dataroomId);
      r := Field(reply, "dataset");
    }

    method DeleteDataroom(dataroomId: string) returns (r: Result<Option<Json>, Failure>)
      modifies this
      ensures var req := QueryRequest(DELETE, baseUrl, apiKey, dataroomId, []);
        log == old(log) + [req] && r == Reply(old(log), req)
    {
      r := Delete(dataroomId);
    }

    // ------------------------------------------------------------ visualizations

    method ListVisualizations(dataroomId: string) returns (r: Result<seq<Json>, Failure>)
      modifies this
      ensures var req := QueryRequest(GET, baseUrl, apiKey, dataroomId + "/visualizations", []);
        log == old(log) + [req] && r == Visualizations(dataroomId, Reply(old(log), req))
    {
      var reply := Get(dataroomId + "/visualizations");
      r := Visualizations(dataroomId, reply);
    }

    method CreateVisualizationFromUrl(dataroomId: string, url: string, title: string := "")
      returns (r: Result<Option<Json>, Failure>)
      modifies this
      ensures var req := PostRequest(baseUrl, apiKey, dataroomId + "/visualizations/url",
                                     [("url", JStr(url)), ("title", JStr(title))], None);
        log == old(log) + [req] && r == Reply(old(log), req)
    {
      r := Post(dataroomId + "/visualizations/url", [("url", JStr(url)), ("title", JStr(title))]);
    }

    method CreateVisualizationFromImage(dataroomId: string, imageFile: FileHandle, fileName: string,
                                        title: string := "")
      returns (r: Result<Option<Json>, Failure>)
      modifies this
      ensures var req := PostRequest(baseUrl, apiKey, dataroomId + "/visualizations/image",
                                     [("title", JStr(title))], Some([("image", FilePart(fileName, imageFile))]));
        log == old(log) + [req] && r == Reply(old(log), req)
    {
      r := Post(dataroomId + "/visualizations/image", [("title", JStr(title))],
                Some([("image", FilePart(fileName, imageFile))]));
    }

    method DeleteVisualization(visualizationId: string) returns (r: Result<Option<Json>, Failure>)
      modifies this
      ensures var req := QueryRequest(DELETE, baseUrl, apiKey, visualizationId, []);
        log == old(log) + [req] && r == Reply(old(log), req)
    {
      r := Delete(visualizationId);
    }

    // ------------------------------------------------------------ datafiles

    method ListDatafiles(dataroomId: string) returns (r: Result<Option<Json>, Failure>)
      modifies this
      ensures var req := QueryRequest(GET, baseUrl, apiKey, dataroomId + "/list_datafiles", []);
        log == old(log) + [req] && r == Reply(old(log), req)
    {
      r := Get(dataroomId + "/list_datafiles");
    }

    method CreateDatafile(dataroomId: string, datafileName: string) returns (r: Result<seq<Json>, Failure>)
      modifies this
      ensures var req := PostRequest(baseUrl, apiKey, dataroomId + "/create_datafile",
                                     [("data_file_name", JStr(datafileName))], None);
        log == old(log) + [req] && r == NewDatafileId(dataroomId, Reply(old(log), req))
    {
      var reply := Post(dataroomId + "/create_datafile", [("data_file_name", JStr(datafileName))]);
      r := NewDatafileId(dataroomId, reply);
    }

    /** Only the second component of the datafile tuple addresses the history. */
    method DatafileHistory(datafileId: seq<Json>) returns (r: Result<Option<Json>, Failure>)
      modifies this
      ensures HistoryPath(datafileId).Failure? ==> (log == old(log) && r == Failure(IndexError))
      ensures HistoryPath(datafileId).Success? ==>
        (var req := QueryRequest(GET, baseUrl, apiKey, HistoryPath(datafileId).value, []);
         log == old(log) + [req] && r == Reply(old(log), req))
    {
      var path :- HistoryPath(datafileId);
      r := Get(path);
    }

    /**
     * The outcome of `new_upload_request` after the requests `history`, and the requests it issues:
     * one POST for a datafile pair, none for any other tuple.
     */
    function UploadTicket(history: seq<HttpRequest>, datafileId: seq<Json>): (r: (Result<Json, Failure>, seq<HttpRequest>))
      ensures |datafileId| != 2 ==> r == (Failure(TypeError), [])
      ensures |datafileId| == 2 ==> (|r.1| == 1 && r.1[0].verb == POST &&
        r.1[0].url == baseUrl + "/" + UploadRequestPath(datafileId).value &&
        r.1[0].params == [(ApiKeyParam, apiKey)] && r.1[0].data == Some([]) && r.1[0].files == None &&
        r.0 == Field(Reply(history, r.1[0]), "upload_request"))
    {
      match UploadRequestPath(datafileId)
      case Failure(e) => (Failure(e), [])
      case Success(path) =>
        var req := PostRequest(baseUrl, apiKey, path, [], None);
        (Field(Reply(history, req), "upload_request"), [req])
    }

    method NewUploadRequest(datafileId: seq<Json>) returns (r: Result<Json, Failure>)
      modifies this
      ensures log == old(log) + UploadTicket(old(log), datafileId).1
      ensures r == UploadTicket(old(log), datafileId).0
    {
      var path :- UploadRequestPath(datafileId);
      var reply := Post(path);
      r := Field(reply, "upload_request");
    }

    /**
     * `upload_datafile`: obtain a ticket through `new_upload_request`, take its `url` out, add the
     * release notes, and post the file straight to that URL with the rest of the ticket as form
     * data. The raw response of that second request is what the caller gets; no status rule and
     * no API key apply to it.
     */
    method UploadDatafile(datafileId: seq<Json>, file: FileHandle, fileName: string, releaseNotes: string := "")
      returns (r: Result<Response, Failure>)
      modifies this
      ensures var (ticket, sent) := UploadTicket(old(log), datafileId);
        ticket.Failure? ==> (log == old(log) + sent && r == Failure(ticket.error))
      ensures var (ticket, sent) := UploadTicket(old(log), datafileId);
        ticket.Success? && RewriteTicket(ticket.value, releaseNotes).Failure? ==>
        (log == old(log) + sent && r == Failure(RewriteTicket(ticket.value, releaseNotes).error))
      ensures var (ticket, sent) := UploadTicket(old(log), datafileId);
        ticket.Success? && RewriteTicket(ticket.value, releaseNotes).Success? ==>
        (var (url, form) := RewriteTicket(ticket.value, releaseNotes).value;
         var upload := HttpRequest(POST, Display(url), [], Some(form), Some([("file", FilePart(fileName, file))]));
         log == old(log) + sent + [upload] && r == Success(transport(old(log) + sent, upload)))
    {
      var ticket :- NewUploadRequest(datafileId);
      if !ticket.JObj? {
        return Failure(if ticket.JArr? then TypeError else AttributeError("pop"));
      }
      var fields := ticket.fields;
      var postUrl := Lookup(fields, "url");
      if postUrl.None? {
        return Failure(KeyError("url"));
      }
      fields := Remove(fields, "url");
      fields := Put(fields, "release_notes", JStr(releaseNotes));
      var response := Send(HttpRequest(POST, Display(postUrl.value), [], Some(fields),
                                       Some([("file", FilePart(fileName, file))])));
      r := Success(response);
    }

    /**
     * `get_download_url` as written never returns: a type outside CSV, XLS and XLSX raises
     * ValueError, and any other call raises AttributeError, because the class has no `post_json`
     * and looking it up happens before its arguments are evaluated. It issues no request.
     */
    method GetDownloadUrl(datafileId: seq<Json>, version: Option<Json> := None, fileType: string := "CSV")
      returns (r: Result<Json, Failure>)
      ensures r.Failure?
      ensures CheckDownloadType(fileType).Failure? ==> r == Failure(CheckDownloadType(fileType).error)
      ensures CheckDownloadType(fileType).Success? ==> r == Failure(AttributeError("post_json"))
    {
      var fileTypeName :- CheckDownloadType(fileType);
      r := Failure(AttributeError("post_json"));
    }

    /** `download_data` fails with `get_download_url`, before its own `requests.get`: it issues no request. */
    method DownloadData(datafileId: seq<Json>) returns (r: Result<Response, Failure>)
      ensures r == Failure(AttributeError("post_json"))
    {
      DownloadTypeIgnoresCase("CSV");
      var attempt := GetDownloadUrl(datafileId);
      if attempt.Failure? {
        return Failure(attempt.error);
      }
      // the download URL never comes back, so `requests.get(url)` is never reached
      assert false;
    }

    // ------------------------------------------------------------ staging

    method CreateStage(datafileId: seq<Json>) returns (r: Result<seq<Json>, Failure>)
      modifies this
      ensures StagePath(datafileId).Failure? ==> (log == old(log) && r == Failure(TypeError))
      ensures StagePath(datafileId).Success? ==>
        (var req := PostRequest(baseUrl, apiKey, StagePath(datafileId).value, [], None);
         log == old(log) + [req] && r == NewStageId(datafileId, Reply(old(log), req)))
    {
      var path :- StagePath(datafileId);
      var reply := Post(path);
      r := NewStageId(datafileId, reply);
    }

    method InsertRows(stageId: seq<Json>, rows: Json) returns (r: Result<Option<Json>, Failure>)
      modifies this
      ensures StageRowsPath(stageId, "").Failure? ==> (log == old(log) && r == Failure(TypeError))
      ensures StageRowsPath(stageId, "").Success? ==>
        (var req := PostRequest(baseUrl, apiKey, StageRowsPath(stageId, "").value,
                                [("rows", JStr(dumps(rows)))], None);
         log == old(log) + [req] && r == Reply(old(log), req))
    {
      var path :- StageRowsPath(stageId, "");
      r := Post(path, [("rows", JStr(dumps(rows)))]);
    }

    /** The row is posted, not put, to its numbered address. */
    method UpdateRow(stageId: seq<Json>, rowNumber: int, row: Json) returns (r: Result<Option<Json>, Failure>)
      modifies this
      ensures RowPath(stageId, rowNumber).Failure? ==> (log == old(log) && r == Failure(TypeError))
      ensures RowPath(stageId, rowNumber).Success? ==>
        (var req := PostRequest(baseUrl, apiKey, RowPath(stageId, rowNumber).value,
                                [("row", JStr(dumps(row)))], None);
         log == old(log) + [req] && r == Reply(old(log), req))
    {
      var path :- RowPath(stageId, rowNumber);
      r := Post(path, [("row", JStr(dumps(row)))]);
    }

    /**
     * `delete_row` formats its path and then evaluates `json.dumps(row)`, where `row` names no
     * variable: it raises NameError and issues no request.
     */
    method DeleteRow(stageId: seq<Json>, rowNumber: int) returns (r: Result<Option<Json>, Failure>)
      ensures r == Failure(if RowPath(stageId, rowNumber).Success? then NameError("row") else TypeError)
    {
      var path :- RowPath(stageId, rowNumber);
      r := Failure(NameError("row"));
    }

    method CommitStage(stageId: seq<Json>) returns (r: Result<Option<Json>, Failure>)
      modifies this
      ensures StageRowsPath(stageId, "/commit").Failure? ==> (log == old(log) && r == Failure(TypeError))
      ensures StageRowsPath(stageId, "/commit").Success? ==>
        (var req := PostRequest(baseUrl, apiKey, StageRowsPath(stageId, "/commit").value, [], None);
         log == old(log) + [req] && r == Reply(old(log), req))
    {
      var path :- StageRowsPath(stageId, "/commit");
      r := Post(path);
    }

    method RollbackStage(stageId: seq<Json>) returns (r: Result<Option<Json>, Failure>)
      modifies this
      ensures StageRowsPath(stageId, "/rollback").Failure? ==> (log == old(log) && r == Failure(TypeError))
      ensures StageRowsPath(stageId, "/rollback").Success? ==>
        (var req := PostRequest(baseUrl, apiKey, StageRowsPath(stageId, "/rollback").value, [], None);
         log == old(log) + [req] && r == Reply(old(log), req))
    {
      var path :- StageRowsPath(stageId, "/rollback");
      r := Post(path);
    }
  }
}

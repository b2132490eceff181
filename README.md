# A verified model of the Buzzdata Python client

`buzzdata.py` is a thin client for the Buzzdata REST API. A `Buzzdata` object holds an
API key and a base URL. Each facade method (licenses, users, datarooms, visualizations,
datafiles, uploads, staging) builds a path, and sometimes form fields or files. Most of them
then issue one request through `_request` and unwrap the decoded JSON reply;
`upload_datafile` issues two, the second one directly through `requests.post`, and returns
that second raw response. This project models what
the client decides for itself and proves properties of it:

- how `form` namespaces fields;
- how `_request` assembles a call;
- the status rule that raises `Buzzdata.Error`, and that error's code, message and text;
- the paths built from plain and compound (tuple) identifiers;
- the ids that `create_datafile`, `create_stage` and `list_visualizations` build on the client side;
- the download-type check;
- the upload ticket rewrite.

The server and the network are a transport function. It gives the response to a request,
given every request issued before it. The client object keeps a log of every request it has
issued, so each method's contract says exactly which requests it sends (none, one or two)
and what it returns.

Files, one module each:

- `wrappers.dfy` (`Wrappers`): `Option` and `Result`.
- `dicts.dfy` (`Dicts`): Python dicts as ordered association lists.
  - `Lookup` finds the first entry under a key.
  - `Put` is `d[k] = v`: it replaces the entry in place, or appends one.
  - `Remove` is `pop` without the value.
- `strings.dfy` (`Strings`): decimal rendering and parsing of integers, ASCII `upper()`, and the
  interleaving underlying `%`-formatting.
- `values.dfy` (`Values`): decoded JSON and the exceptions a call can end in. It also holds the
  Python semantics the client relies on: truthiness, `x[key]`, iteration, `str()`/`%s`, and `%`
  with a tuple, which raises TypeError when the tuple's length does not match.
- `http.dfy` (`Http`): the request and response records, `Buzzdata.Error`, the status rule, and
  the request builders behind `_request`, `_get`, `_post` and `_delete`.
- `resources.dfy` (`Resources`): `form`, every path, visualization ids, compound ids, the
  download-type check and the ticket rewrite.
- `client.dfy` (`Buzzdata`): the class `Client`, with its constant configuration, its request
  log and one method per facade method.

Four methods behave in ways their names do not suggest, and the model states what the code does:

- `get_download_url` always raises, because the class defines no `post_json`, so it issues no request.
- `download_data` issues no request: the call to `get_download_url` inside it always raises.
- `update_row` sends its row with POST, not PUT.
- `delete_row` raises NameError before any request: its payload names an undefined `row`.

## Model

| member | source | states |
|---|---|---|
| Dicts.Lookup | buzzdata.py:16 | a key is found exactly when some entry carries it, and what is found is an entry's value |
| Dicts.Put | buzzdata.py:113 | definition of `d[k] = v`; see Dicts.PutLookup, Dicts.PutExisting and Dicts.PutNew |
| Dicts.Remove | buzzdata.py:112 | definition of popping a key; see Dicts.RemoveLookup and Dicts.RemoveEntry |
| Dicts.PutLookup | buzzdata.py:113 | setting a key adds it to the keys, makes it map to the new value and leaves every other key's value alone |
| Dicts.RemoveLookup | buzzdata.py:112 | removing a key drops it from the keys and leaves every other key's value alone |
| Dicts.PutExisting | buzzdata.py:113 | setting a key already present rewrites its first entry in place, keeping the order |
| Dicts.PutNew | buzzdata.py:113 | setting a new key appends one entry at the end |
| Dicts.RemoveEntry | buzzdata.py:112 | with distinct keys, popping a key deletes exactly its entry and keeps the rest in order |
| Dicts.PutKeepsUnique | buzzdata.py:158 | setting a key keeps the keys distinct |
| Dicts.RemoveKeepsUnique | buzzdata.py:112 | popping a key keeps the keys distinct |
| Dicts.LookupEntry | buzzdata.py:16 | with distinct keys, each entry is what its key looks up |
| Strings.IntToString | buzzdata.py:21 | definition of the `%r`/`%d` of an integer: a non-empty string of digits, with an optional leading minus; see Strings.IntToStringRoundTrip |
| Strings.NatToString | buzzdata.py:21 | decimal rendering is non-empty, all digits and has no leading zero |
| Strings.IntToStringRoundTrip | buzzdata.py:21 | the rendering of an integer parses back to that integer |
| Strings.ParseNatToString | buzzdata.py:21 | the rendering of a natural number parses back to it |
| Strings.Upper | buzzdata.py:119 | `upper()` keeps the length and upper-cases each character independently |
| Strings.UpperCharMatches | buzzdata.py:119 | a character upper-cases to a capital exactly when it is that capital or its small letter |
| Strings.UpperMatches | buzzdata.py:119 | a string upper-cases to a word of capitals exactly when it spells that word in any mixture of cases |
| Strings.UpperIdempotent | buzzdata.py:119 | upper-casing twice is upper-casing once |
| Strings.Interleave | buzzdata.py:105 | definition of the text `%` produces: literals and arguments alternating; see Strings.InterleaveExtends and Strings.InterleavePlacesArgument |
| Strings.InterleaveExtends | buzzdata.py:137 | formatting the first pieces of a template gives a prefix of formatting all of it |
| Strings.InterleavePlacesArgument | buzzdata.py:137 | formatting puts each argument, unchanged and in order, right after the text before it and before the next literal |
| Values.Truthy | buzzdata.py:15 | definition of `bool()` of a decoded body: false for None, null, false, 0, "", [] and {}; see Http.NewError |
| Values.Repr | buzzdata.py:21 | definition of `repr()`: strings quoted without escaping, containers by their items; see Values.Display |
| Values.Subscript | buzzdata.py:16 | `x[key]` succeeds exactly on a dict holding the key, with its value; a dict without it raises KeyError, anything else TypeError |
| Values.Iterate | buzzdata.py:75 | iteration visits a list's items, a dict's keys or a string's characters; anything else raises TypeError |
| Values.Display | buzzdata.py:74 | `%s` of a string is the string and of a number its decimal rendering |
| Values.Format | buzzdata.py:105 | `%` with a tuple succeeds exactly when the tuple fills every placeholder, and otherwise raises TypeError |
| Http.NewError | buzzdata.py:12-18 | the error's code is the status; its message is the body's `message` when the body is truthy and the text otherwise, and a truthy body without `message` raises that lookup's exception instead |
| Http.ErrorText | buzzdata.py:20-21 | the error text is the prefix, the message, then the code's decimal text in parentheses |
| Http.ErrorTextCode | buzzdata.py:20-21 | the code between the parentheses parses back to the error's code |
| Http.Handle | buzzdata.py:164-166 | a response fails exactly when its status is above 400, with the error built from it; otherwise the decoded body comes back unchanged |
| Http.Field | buzzdata.py:41 | subscripting a reply passes an exception through and otherwise subscripts the body |
| Http.BuildRequest | buzzdata.py:156-162 | the URL is base URL, slash, path; the query is the caller's params with `api_key` set to the client's key, overriding, other keys unchanged; data and files go along exactly as given |
| Http.QueryRequest | buzzdata.py:168-172 | GET and DELETE carry no data and no files, and their params are the caller's with the key set |
| Http.PostRequest | buzzdata.py:174-175 | a POST always carries a data dict and has `api_key` as its only query parameter |
| Resources.Form | buzzdata.py:5-7 | definition of `form`; see Resources.FormEntries, Resources.FormLookup and Resources.FormKeys |
| Resources.UserForm | buzzdata.py:44-47 | the user form has three distinct keys, `user[username]`, `user[email]` and `user[password]`, holding the three arguments |
| Resources.DataroomForm | buzzdata.py:57-62 | the dataroom form has five distinct keys `dataset[...]` holding the name, readme, license, topics list and public flag |
| Resources.TopicList | buzzdata.py:61 | `list(topics)` keeps the topics in order, one JSON string each |
| Resources.Namespaced | buzzdata.py:6 | definition of `'%s[%s]' % (formname, fieldname)`; see Resources.NamespacedInjective and Resources.FormEntries |
| Resources.NamespacedInjective | buzzdata.py:6 | different field names get different namespaced names |
| Resources.FormEntries | buzzdata.py:5-7 | the form has one entry per field, in order, each named `formname[field]` with its value unchanged |
| Resources.FormLookup | buzzdata.py:5-7 | `formname[field]` looks up in the form what `field` looks up in the fields |
| Resources.FormKeys | buzzdata.py:5-7 | the form's keys are exactly the namespaced field names, and zero fields give an empty form |
| Resources.FormKeepsUnique | buzzdata.py:5-7 | distinct fields give distinct form keys, so no field is lost |
| Resources.HistoryPath | buzzdata.py:101-102 | for any tuple of two or more components the path is `data_files/<component 1>/history`, and a shorter tuple raises IndexError |
| Resources.PairPath | buzzdata.py:105 | a path formatted from a datafile tuple exists exactly for a pair, with both components in order between the literal pieces; any other tuple raises TypeError |
| Resources.UploadRequestPath | buzzdata.py:104-105 | the upload-request path exists exactly for a pair, with both components in order |
| Resources.DownloadRequestPath | buzzdata.py:122 | the download-request path exists exactly for a pair, with both components in order |
| Resources.StagePath | buzzdata.py:133 | the stage path exists exactly for a pair, with both components in order |
| Resources.StageRowsPath | buzzdata.py:136-152 | the rows, commit and rollback paths exist exactly for a triple, with its components in order |
| Resources.RowPath | buzzdata.py:140-146 | the row path exists exactly for a triple, with its components in order and then the row number |
| Resources.VisualizationId | buzzdata.py:74 | definition of `"%s/visualizations/%s" % (dataroom_id, vis['uuid'])`; see Resources.VisualizationsTagged |
| Resources.TagVisualization | buzzdata.py:74 | an item is tagged exactly when it is a dict with a `uuid`, and becomes that dict with `id` set to `<dataroom>/visualizations/<uuid>` |
| Resources.Collect | buzzdata.py:74-75 | definition of the list comprehension, which stops at the first item that raises; see Resources.CollectSucceeds and Resources.CollectStopsAtFirstFailure |
| Resources.CollectSucceeds | buzzdata.py:74-75 | when every item of a comprehension succeeds, the list keeps its length and order, item by item |
| Resources.CollectStopsAtFirstFailure | buzzdata.py:74-75 | the first item that fails decides the comprehension's exception |
| Resources.Visualizations | buzzdata.py:73-75 | an exception from the request passes through, and a body that cannot be iterated raises TypeError |
| Resources.VisualizationsTagged | buzzdata.py:73-75 | a list of dicts with uuids, empty or not, comes back with the same length; each item keeps its position, gets `id` set with any old `id` overridden, and every other key unchanged |
| Resources.VisualizationsRejected | buzzdata.py:73-75 | a list whose first bad item is a dict without `uuid` raises KeyError, and any other bad item raises TypeError |
| Resources.NewDatafileId | buzzdata.py:99 | the new id succeeds exactly when the reply carries `datafile_uuid`, and is then the dataroom id followed by it; otherwise the request's or the lookup's exception |
| Resources.NewStageId | buzzdata.py:134 | the new id succeeds exactly when the reply carries `id`, and is then the datafile tuple, as a prefix, extended by it; otherwise the request's or the lookup's exception |
| Resources.NewDatafileIdIsPair | buzzdata.py:96-105 | the stage, upload and history paths built from the id `create_datafile` returns use the dataroom id and the `datafile_uuid` in that order |
| Resources.NewStageIdExtends | buzzdata.py:132-152 | the id `create_stage` returns is accepted by the staging paths exactly when the datafile id was a pair, and the paths taking a datafile pair then reject it with TypeError |
| Resources.StagePathsFromIds | buzzdata.py:132-152 | the rows, row, commit and rollback paths of a stage made this way are `<dataroom>/<uuid>/stage/<stage>/rows...` |
| Resources.CheckDownloadType | buzzdata.py:118-121 | only CSV, XLS and XLSX are accepted, and a rejection is a ValueError naming the upper-cased type |
| Resources.DownloadTypeIgnoresCase | buzzdata.py:118-121 | a type is accepted exactly when it spells CSV, XLS or XLSX ignoring case, and it is then upper-cased |
| Resources.RewriteTicket | buzzdata.py:112-113 | the ticket's `url` comes out and `release_notes` goes in, and every other field keeps its value; the error depends on the ticket's kind |
| Resources.RewriteTicketOrder | buzzdata.py:112-113 | with distinct keys, the form is the ticket minus its `url` entry, in order, with the notes set, and its keys stay distinct |
| Buzzdata.Client.constructor | buzzdata.py:23-25 | the client keeps the key and base URL, by default no key and the public API URL, and starts with no requests issued |
| Buzzdata.Client.Send | buzzdata.py:163 | one call into the transport is logged and answered given the earlier requests |
| Buzzdata.Client.Request | buzzdata.py:156-166 | `_request` issues exactly the built request and returns what the status rule makes of its response |
| Buzzdata.Client.Get | buzzdata.py:168-169 | `_get` issues one GET with the given params |
| Buzzdata.Client.Delete | buzzdata.py:171-172 | `_delete` issues one DELETE with the given params |
| Buzzdata.Client.Post | buzzdata.py:174-175 | `_post` issues one POST with the data dict and files |
| Buzzdata.Client.Licenses | buzzdata.py:29-30 | one GET of `licenses` |
| Buzzdata.Client.Topics | buzzdata.py:32-33 | one GET of `topics` |
| Buzzdata.Client.Search | buzzdata.py:35-36 | one GET of `search` with `term` set to the query |
| Buzzdata.Client.UserInfo | buzzdata.py:40-41 | one GET of the user, returning its `user` field |
| Buzzdata.Client.CreateUser | buzzdata.py:43-47 | one POST to `users` of the `user[...]` form |
| Buzzdata.Client.ListDatarooms | buzzdata.py:51-52 | one GET of `<user>/datasets/list` |
| Buzzdata.Client.CreateDataroom | buzzdata.py:54-63 | one POST of the `dataset[...]` form with the defaults, returning its `dataset` field |
| Buzzdata.Client.DataroomOverview | buzzdata.py:65-66 | one GET of the dataroom, returning its `dataset` field |
| Buzzdata.Client.DeleteDataroom | buzzdata.py:68-69 | one DELETE of the dataroom |
| Buzzdata.Client.ListVisualizations | buzzdata.py:73-75 | one GET, whose reply is tagged item by item |
| Buzzdata.Client.CreateVisualizationFromUrl | buzzdata.py:77-80 | one POST of `url` and `title` |
| Buzzdata.Client.CreateVisualizationFromImage | buzzdata.py:82-86 | one POST of `title` with the image as file `image` |
| Buzzdata.Client.DeleteVisualization | buzzdata.py:88-89 | one DELETE of the visualization |
| Buzzdata.Client.ListDatafiles | buzzdata.py:93-94 | one GET of `<dataroom>/list_datafiles` |
| Buzzdata.Client.CreateDatafile | buzzdata.py:96-99 | one POST of `data_file_name`, returning the new datafile pair |
| Buzzdata.Client.DatafileHistory | buzzdata.py:101-102 | a tuple too short raises IndexError with no request; otherwise one GET of the history |
| Buzzdata.Client.UploadTicket | buzzdata.py:104-106 | a datafile pair costs exactly one POST to the upload-request path with an empty form, whose reply's `upload_request` is the ticket; any other tuple raises TypeError and costs no request |
| Buzzdata.Client.NewUploadRequest | buzzdata.py:104-106 | a tuple that is not a pair raises TypeError with no request; otherwise one POST, returning `upload_request` |
| Buzzdata.Client.UploadDatafile | buzzdata.py:108-116 | the ticket is requested first; the file is posted to the ticket's `url` only when the ticket was obtained and rewritten; that raw response is returned |
| Buzzdata.Client.GetDownloadUrl | buzzdata.py:118-125 | always raises and issues nothing: ValueError for a wrong type, AttributeError for `post_json` otherwise |
| Buzzdata.Client.DownloadData | buzzdata.py:127-128 | raises AttributeError for `post_json` and issues nothing |
| Buzzdata.Client.CreateStage | buzzdata.py:132-134 | one POST to the stage path, returning the extended tuple, or TypeError with no request |
| Buzzdata.Client.InsertRows | buzzdata.py:136-138 | one POST of the encoded rows to the rows path, or TypeError with no request |
| Buzzdata.Client.UpdateRow | buzzdata.py:140-142 | one POST of the encoded row to the row path, or TypeError with no request |
| Buzzdata.Client.DeleteRow | buzzdata.py:144-146 | raises NameError once the path is formatted, TypeError before that, and issues nothing |
| Buzzdata.Client.CommitStage | buzzdata.py:148-149 | one POST to the commit path, or TypeError with no request |
| Buzzdata.Client.RollbackStage | buzzdata.py:151-152 | one POST to the rollback path, or TypeError with no request |

## Left out

- The real HTTP calls through `requests` are a transport function supplied to the client. No network, timeouts or connection errors are modelled.
- `json.dumps` of rows is an encoding function supplied to the client. Its output is not modelled.
- Multipart bodies are not modelled. A file object is an opaque handle.
- The `response.json` attribute of old versions of `requests` is the transport's `Option<Json>`: None when the body does not decode.
- JSON numbers are integers. Floats are not modelled.
- Decoded JSON objects are assumed to have distinct keys. Python's `json` keeps the last value of a repeated key, while `Dicts.Lookup` returns the first, so a `JObj` with a repeated key does not stand for any decoded reply.
- Values.Display: `%s` of a dict or list renders strings in quotes without Python's escaping rules, so only strings and numbers are stated exactly.
- Values.Repr: strings are always quoted with `'` and never escaped. Python's `repr` switches to `"` when the string holds a `'`, and escapes backslashes and control characters.
- Strings.Upper: case mapping covers ASCII only. Python's `upper()` also maps other letters, and some of them upper-case to ASCII capitals.
- Keyword arguments arrive in call order, as in Python 3.6 and later. Older Pythons ordered `**kwargs` arbitrarily.
- Buzzdata.Client.GetDownloadUrl: the class defines no `post_json`, so the request it would make, its `type` and `version` arguments, and the `download_request.url` extraction are not modelled. Only the type check and the path (`Resources.DownloadRequestPath`) are.
- Buzzdata.Client.DownloadData: its `requests.get` is never reached, so that request is not modelled.
- Buzzdata.Client.DeleteRow: the payload refers to an undefined name, so no working payload is modelled.
- The server-side stage lifecycle (open, committed, rolled back) is not modelled. The client does not track it.
- Authentication other than the `api_key` query parameter is not modelled. That includes how `requests` drops a `None` parameter: a missing key is sent as `None` in the model.
- `Buzzdata.Error` is a value (`Values.Failure.ApiError`) rather than an object, because nothing updates it after construction.
- Exceptions raised by the transport itself are not modelled.

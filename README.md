# Camera dashboard: a Dafny model

The system is a small camera-monitoring web application. A Flask backend stores two SQLite tables:

- `camera`: model name, serial number, installation date, location, storage used in GB, incidents captured and status.
- `camera_model`: name, description, image file name and creation time.

It serves them as JSON, and two pages read them:

- **The overview page** (`static/js/main.js`) shows four statistics. It draws one bar per camera model for storage and for incidents. Its administration panel deletes models and cameras, feeds counters and adds cameras.
- **The per-model page** (`static/js/camera_model.js`) reads the model name from its URL. It shows that model's totals and one bar per camera.

The project models:

- **The overview statistics** (`Dashboard.Summarize`) and the two grouping loops. Each grouping loop is a `method` whose `while` loop fills a `map` the way the `forEach` fills the dictionary.
- **The key order of `Object.keys`** (`ObjectKeys`): array-index keys first, in ascending numeric order, then the other keys in creation order (section 10.1.11.1 of ECMA-262). The proofs show that the bars appear in first-seen model order unless a model name is numeric, and that the bars add up to the totals.
- **The four send guards of the administration panel** (`Admin`). The dialogs are parameters, and the request that would be sent is the result.
- **The model name taken from the path**, the per-model totals and the per-camera series (`ModelPage`).
- **The five routes that change the database** (`CameraStore`). Each route is a function from the tables before to the response and the tables after. The class `Store` holds the tables as `seq` fields and implements each route as a method proved equal to that function.

The modules:

- `CameraRecords` (records.dfy): the API record, the sums and the filter by model.
- `Sequences` (seqs.dfy): an order-keeping filter.
- `ObjectKeys` (object_keys.dfy): the key order.
- `Partition` (partition.dfy): sums over groups.
- `Dashboard` (dashboard.dfy)
- `Admin` (admin.dfy)
- `ModelPage` (model_page.dfy)
- `CameraStore` (store.dfy)

How the code behaves where it matters:

- **Missing form keys give 500, not 400.** The application runs with `DEBUG = True` (app.py:10). In debug mode Flask treats a missing form key as an unhandled exception, so `create_model` answers 500 for a missing field.
- **Other 500s.** A value that does not convert and a failed unique constraint also give 500.
- **Among the requests modelled, the only 400** is the missing image. The only 404 comes from `get_or_404`.
- **`create_model` commits twice** (app.py:121 and 133). If building or inserting the first camera fails, the model stays in the table.
- **Ids.** New rows get SQLite's next rowid, one more than the largest id.

## Model

| member | source | states |
|---|---|---|
| Dashboard.Summarize | static/js/main.js:21-25 | The count is the number of records, the storage and incident totals are the sums, the active count is the number of records with status "active" (at most the count), and an empty list gives all zeros. |
| Dashboard.ActiveOnly | static/js/main.js:25 | The filtered list is never longer than the data. Which records it holds is stated by `ActiveOnlyMembers`. |
| Dashboard.ActiveOnlyMembers | static/js/main.js:25 | A record passes the status filter exactly when it is in the data and its status is "active". |
| Dashboard.ActiveCount | static/js/main.js:25 | The length of the filtered list is the number of positions holding an active record. |
| Dashboard.FirstSeenFacts | static/js/main.js:64-69 | The models in the order the loop first meets them are distinct, include every record's model, and each occurs in the data. |
| Dashboard.FirstSeenOrder | static/js/main.js:64-69 | A model listed before another first occurs earlier in the data. |
| Dashboard.FirstSeenSnoc | static/js/main.js:65-67 | One more record adds its model at the end exactly when the model was not yet seen. |
| Dashboard.ModelKeysAreTheModels | static/js/main.js:70 | The chart categories are distinct, every record's model is among them, and each is some record's model. |
| Dashboard.ModelKeysInFirstSeenOrder | static/js/main.js:70 | When no model name is an array index, the categories are the models in first-seen order. |
| Dashboard.PartitionTotals | static/js/main.js:64-69 | The per-model totals over the distinct models add up to the totals of all records. |
| Dashboard.ModelKeysCarryTotals | static/js/main.js:70-71 | The same holds in the order `Object.keys` lists the models. |
| Dashboard.StorageBarsSum | static/js/main.js:71 | Bars that carry each listed model's storage sum up to the sum of those models' totals. |
| Dashboard.IncidentBarsSum | static/js/main.js:97 | Bars that carry each listed model's incident sum up to the sum of those models' totals. |
| Dashboard.AddStorage | static/js/main.js:65-68 | One pass of the loop body. The key is new exactly when it was absent. Afterwards its keys are the old keys plus the entered one, and every other entry is unchanged. The entered key holds its old value (0 when it was absent) plus the amount. |
| Dashboard.GroupStorage | static/js/main.js:63-69 | After the loop, the dictionary's keys are exactly the models met, in creation order, and each value is the storage sum of that model's records (the reset to 0 of a key holding 0 included). |
| Dashboard.AddIncidents | static/js/main.js:91-94 | The same loop body over the incident counts. |
| Dashboard.GroupIncidents | static/js/main.js:89-95 | The same for the incident counts. |
| Dashboard.UpdateStorageChart | static/js/main.js:61-84 | The x values are the dictionary keys in `Object.keys` order, each y is its model's storage sum, and the bars add up to the total storage. |
| Dashboard.UpdateIncidentsChart | static/js/main.js:87-97 | The x values are the keys in `Object.keys` order, each y is its model's incident sum, and the bars add up to the total incidents. |
| Dashboard.UpdateDashboard | static/js/main.js:21-36 | The statistics are the summary, both charts share their categories, and each chart's bars add up to the total shown beside it. |
| Dashboard.TwoCamerasSummary | static/js/main.js:21-25 | Two cameras with 2.5 and 1.5 GB, 3 and 1 incidents, one of them active, give 2 / 4.0 / 4 / 1. |
| Dashboard.TwoCamerasChartKeys | static/js/main.js:70 | Two cameras of model "X" give the single category "X". |
| Dashboard.TwoCamerasChartTotals | static/js/main.js:63-69 | That category's group carries 4.0 GB and 4 incidents. |
| ObjectKeys.OwnKeys | static/js/main.js:70 | The listed keys are a permutation of the created keys. |
| ObjectKeys.OwnKeysMembers | static/js/main.js:70 | A key is listed exactly when it was created. |
| ObjectKeys.OwnKeysLayout | static/js/main.js:70 | The list is the array-index keys in ascending numeric value, followed by the other keys in creation order. |
| ObjectKeys.CreationOrderKept | static/js/main.js:96 | Without array-index keys, keys are listed in creation order. |
| ObjectKeys.SortBy | static/js/main.js:70 | The sort used for index keys gives an ascending permutation of its input. |
| CameraRecords.OfModelMembers | app.py:58-60 | A record is in a model's list exactly when it is in the data and has that model. |
| CameraRecords.SumsAppend | static/js/main.js:23-24 | The storage and incident sums of a concatenation are the sums of its parts. |
| Admin.OrZero | static/js/main.js:320 | `answer \|\| 0` is the number 0 exactly when the answer is cancelled or empty, and otherwise the typed text (whitespace included). |
| Admin.DeleteModel | static/js/main.js:296-303 | The model DELETE is sent exactly when the user confirms, for that id. |
| Admin.DeleteCamera | static/js/main.js:304-310 | The camera DELETE is sent exactly when the user confirms, for that id. |
| Admin.FeedCameraData | static/js/main.js:313-325 | The feed is sent exactly when at least one answer is non-empty; each cancelled or empty answer goes as 0, each non-empty one as typed. |
| Admin.SubmitAddCamera | static/js/main.js:336-363 | The POST is sent exactly when all seven inputs are non-empty, with the inputs as typed. |
| ModelPage.SplitJoin | static/js/camera_model.js:8 | Joining the pieces of the path with '/' gives back the path. |
| ModelPage.SplitPiecesHaveNoSlash | static/js/camera_model.js:8 | No piece of the split contains '/'. |
| ModelPage.ModelFromPath | static/js/camera_model.js:8 | The last piece of the split path, which never contains '/'. Where it sits in the path is stated by `ModelFromPathIsLastSegment`. |
| ModelPage.ModelFromPathIsLastSegment | static/js/camera_model.js:8 | The model name is a suffix of the path with no '/', preceded by '/' unless it is the whole path. |
| ModelPage.LastSegmentUnique | static/js/camera_model.js:8 | Any such suffix is the model name. |
| ModelPage.ModelPathRoundTrip | static/js/camera_model.js:8 | The page URL "/camera/" + m reads back m whenever m has no '/'. |
| ModelPage.TrailingSlashGivesEmpty | static/js/camera_model.js:8 | A path ending in '/' names the empty model. |
| ModelPage.UpdateModelInfo | static/js/camera_model.js:24-28 | The installed count is the number of records, and an empty list gives all zeros. |
| ModelPage.Serials | static/js/camera_model.js:74 | One x value per camera, its serial number, in fetch order. |
| ModelPage.UpdateCharts | static/js/camera_model.js:71-103 | Both charts share the serials as x, and each y is that camera's incidents or storage. |
| ModelPage.ChartsMatchInfo | static/js/camera_model.js:71-103 | Each chart's bars add up to the matching total of the model information. |
| CameraStore.Find | app.py:181 | The lookup returns the first position whose row matches, and returns nothing exactly when no row matches. |
| CameraStore.NextId | app.py:16 | The new id is larger than every existing id. It is 1 in an empty table, and otherwise, when the ids are non-negative, one more than the largest. |
| CameraStore.GbDelta | app.py:190 | A missing `gb` adds 0.0, and a given one adds its value. |
| CameraStore.CountDelta | app.py:191 | A missing `ocorr` adds 0, and a given one adds its value. |
| CameraStore.FedRow | app.py:192-193 | Storage grows by the sent gigabytes, incidents grow by the sent count, and every other column of the row is unchanged. |
| CameraStore.Feed | app.py:186-195 | The only answers are 404, 500 and the new counters. 404 exactly when no camera has the id; 500 exactly when one does and a value does not convert; a failure changes nothing; otherwise (so whenever the camera exists and both values convert) only that camera's storage and incidents change, by the sent amounts; the models and every other camera are unchanged; the response carries the new counters; the table invariants hold. |
| CameraStore.RemoveCamera | app.py:179-184 | The only answers are 404 and success. 404 exactly when no camera has the id, with nothing changed; otherwise (so whenever a camera has the id) exactly that camera goes, the others keep their order, and the models are unchanged. |
| CameraStore.RemoveModel | app.py:170-177 | The only answers are 404 and success. 404 exactly when no model has the id, with nothing changed; otherwise exactly that model goes, along with exactly the cameras carrying its name. |
| CameraStore.InsertCamera | app.py:142-163 | One new camera is added exactly when every field is present and converts and the serial number is not taken. It comes last, with a fresh id, the given fields, no location and status "active", and the response echoes it. Otherwise the answer is 500 and nothing changes. Serials stay unique. |
| CameraStore.FirstCamera | app.py:124-131 | The first camera can be built exactly when its four fields are present and convert. |
| CameraStore.InsertModel | app.py:98-140 | No image gives 400, and a missing name or description or a taken name gives 500, both with nothing added. Otherwise the model is appended with a fresh id and the file name name_stamp.jpg. A camera that cannot be built or whose serial is taken gives 500, with the model kept and no camera added. Otherwise one camera is appended with a fresh id, the model's name, the form's serial, installation date, storage and incidents, no location and status "active", and the response describes the model. Names and serials stay unique. |
| CameraStore.ApiCamera | app.py:47-56 | The serialised record carries the row's id, model, serial, storage, incidents and status. |
| CameraStore.ApiCameras | app.py:44-56 | One record per row, in table order. |
| CameraStore.ApiCamerasOfModel | app.py:58-70 | The per-model route returns at most as many records as there are rows, each of them of the requested model. |
| CameraStore.ApiByModel | app.py:58-70 | The per-model route returns exactly the overview's records of that model, in order. |
| CameraStore.DeleteModelCascade | app.py:170-177 | After a model is deleted, the per-model route `get_cameras_by_model` answers no camera for its name, and answers what it did before for every other name. |
| CameraStore.KeptCamerasValid | app.py:174 | Deleting any subset of the cameras keeps ids ascending and serials unique. |
| CameraStore.Store.FeedCamera | app.py:186-195 | Updates the one row in place, and the response and new tables are those of `Feed`. |
| CameraStore.Store.DeleteCamera | app.py:179-184 | The response and new tables are those of `RemoveCamera`. |
| CameraStore.Store.DeleteModel | app.py:170-177 | The bulk delete then the model delete; the response and new tables are those of `RemoveModel`. |
| CameraStore.Store.CreateCamera | app.py:142-163 | Checks the fields, builds the row with the next id, checks the serial and appends. The response and new tables are those of `InsertCamera`. |
| CameraStore.Store.CreateModel | app.py:98-140 | Commits the model, then the camera; the response and new tables are those of `InsertModel`. |

## Left out

- Dashboard.GroupStorage, Dashboard.GroupIncidents, Dashboard.UpdateStorageChart, Dashboard.UpdateIncidentsChart, Dashboard.UpdateDashboard: each requires that no model name is one of the twelve names every JavaScript object inherits from `Object.prototype` ("constructor", "toString", "`__proto__`" and so on). For most of these names, `!dict[m]` reads an inherited function, which is truthy, so there is no reset. `+=` then stores the function's source text joined with the number, as an own string property. For `__proto__`, it reads `Object.prototype`. The `__proto__` setter ignores the string that `+=` assigns, so no key is created.
- The map markers (Leaflet), the Plotly calls, the Bootstrap modals, the DOM writes, `addCameraToModel` and the details modal: these are UI. Only the data they receive is modelled.
- `fetch`, `await` and the polling timers: these are I/O and timing. A stale response overtaking a newer one is a concurrency effect that is not modelled.
- `toFixed(2)` and date formatting are display formatting.
- Storage amounts are `real` and incident counts `int`, not IEEE doubles, so rounding in the page's sums is not modelled. This covers the storage sums and also the incident sums (static/js/main.js:24 and 94, static/js/camera_model.js:28). Above 2^53 an incident sum in JavaScript rounds, while the backend stores counts up to 2^63-1, so `Dashboard.PartitionTotals` and the sums in the incident bars hold exactly only in the model.
- A model named "all": the per-model page fetches `/api/cameras/` + its name (static/js/camera_model.js:13), and Flask matches the fixed rule `/api/cameras/all` (app.py:44) before the rule with a variable (app.py:58). So that page shows every camera, from `get_all_cameras`. `create_model` accepts the name "all". The model's lemmas `CameraStore.ApiByModel` and `CameraStore.DeleteModelCascade` are about the route `get_cameras_by_model`, and URL routing is not modelled.
- ModelPage.ModelFromPath works on the path as a string of characters. Percent-decoding of the URL is not modelled.
- CameraStore.InsertCamera and CameraStore.InsertModel: the new camera's location is left empty, as the code leaves it (app.py:124-131 and 146-154). For these inserts the model does not enforce the columns' NOT NULL constraint (app.py:20-21). On SQLite that constraint would make every such insert fail with a 500.
- CameraStore.ApiCamera: the location and the date format are not part of the record. The API nests the location as `location: {x, y}` (app.py:52), while the overview reads `location_x` (static/js/main.js:49). Both belong to the map, which is left out.
- CameraStore.Feed, CameraStore.InsertCamera, CameraStore.InsertModel: incident counts are unbounded `int`. The `incidents_captured` column (app.py:23) is stored through Python's sqlite3 driver as a 64-bit integer. A count outside -2^63 .. 2^63-1, whether a converted value or the sum `+=` produces, makes the commit raise `OverflowError`. The route then answers 500. `feed_camera` and `create_camera` then write nothing. `create_model` has already committed the model (app.py:121) before the camera's commit (app.py:133) fails, so it keeps the model and adds no camera. The model instead accepts the value.
- The conversions `float`, `int` and `datetime.fromisoformat` are abstracted: a field is missing, present but not convertible, or converted (`Field`). The JSON strings of the feed body and their parsing are not modelled, so the admin panel's `Admin.FeedValue` is not connected to `CameraStore.Feed`'s fields.
- Requests to `create_camera` or `feed_camera` whose JSON body is missing or malformed are not modelled. A body that is not valid JSON makes `request.json` raise `BadRequest`, which answers 400 even in debug mode. A request that is not sent as JSON has two outcomes, depending on the Werkzeug version. Either `request.json` is `None`, and the key lookup on it then answers 500, or the request answers 415.
- Saving the image file and the upload directory are file I/O. The timestamp in the file name and `created_at` are parameters (`stamp`, `now`) of `CameraStore.InsertModel`.
- The read routes `get_camera_details` (app.py:72-84), `get_models` (app.py:87-96), the page routes and the image route only read or serve, and change nothing. No page fetches `get_camera_details`. `get_models` is fetched only by the overview's model list and admin panel listing (`updateModelList`, static/js/main.js:127, and `loadAdminContent`, static/js/main.js:272). Those render HTML and are not modelled.
- SQLAlchemy sessions, commits and rollbacks are not modelled; each route is one step on the tables. The `String(100)` length limits have no effect: SQLite does not enforce VARCHAR lengths, and neither does the model.
- `streamlit_app.py` is not part of this model. It is a separate Streamlit UI over raw SQL.

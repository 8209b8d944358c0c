# A verified model of the bot_artificiall download pipeline

The system takes a link to a stock asset on Freepik or Envato Elements and
downloads the file with a headless browser. It then delivers the file: it
sends the file back in the Telegram chat the link came from, or else uploads
it to Google Drive, or else keeps it on disk. A desktop front end queues links
typed into a form and feeds them one by one to a background worker.

The model is split into these modules:

- `Downloader` (downloader.dfy) covers `Downloader.download_file` and its two
  site flows. The browser is an oracle (`Page`): for each locator it says
  which matched elements are visible, which file name the browser suggests,
  and at which positions of the session's action log an action raises.
  `Session` is the live browser and records every action it is asked for.
  The pure functions `FreepikSpec`, `EnvatoSpec` and `DownloadSpec` give each
  operation's behaviour as a value: its ending and the actions it issued. The
  methods of the `Downloader` class are proved to do exactly what those
  functions say. Routing, the first-visible-trigger rule, the
  first/last-button rule of Envato, the saved path and the browser's
  lifetime are then proved as lemmas about the functions.
- `Storage` (storage.dfy) is the host as the delivery step sees it. The local
  file system is a set of paths. The outside effects (a document sent to a
  chat, a Drive upload, a removal) are an ordered log. The replies of the
  outside services are oracles.
- `Backend` (backend.dfy) covers `AutomationApp` of backend/main.py. It holds
  the delivery fallback of `process_download_and_upload` as the function
  `Deliver`, the method that performs it on a `Host`, and `test_logins` with
  its three-state health entries.
- `LegacyApp` (legacy.dfy) is the older Drive-only `process_download_and_upload`
  of main.py. It also relates this pipeline to the newer one.
- `PyStr` (pystr.dfy) models Python's `str.strip()` and `str.splitlines()`
  over Python's own whitespace and line-boundary characters.
- `Frontend` (frontend.dfy) covers frontend/app.py: `process_job`,
  `worker_loop` over a FIFO queue with a `None` sentinel, the "Enviar" form
  that turns text into jobs, and the guard that lets only one worker run.
  The worker thread is modelled sequentially: `RunWorker` is the thread
  running until it takes the sentinel or finds the queue empty.
- `Common` (common.dfy) holds Python's `None` (`Option`), the outcome of a
  call that may raise (`Call`), and Python truthiness of optional strings.

An exception is a `Raised` outcome. A `fill` with a missing credential raises,
as Playwright does when it is given `None`.

The launch, `new_context` and `new_page` (modules/downloader.py:16-20) sit
before the `try` of `download_file`, so a failure there is not caught by its
`except`: it propagates to the caller, and `DownloadSpec` returns `Raised` for
it. The caller, `process_download_and_upload`, then turns it into `None`
through its outer `except`.

## Model

| member | source | states |
|---|---|---|
| Downloader.ContainsIffOccurs | modules/downloader.py:23-25 | The scanning substring test holds exactly when the substring occurs at some offset (Python's `in`). |
| Downloader.Route | modules/downloader.py:23-29 | A link goes to Freepik iff it contains "freepik.com"; to Envato iff it does not but contains "elements.envato.com"; otherwise it is unsupported. |
| Downloader.FreepikBeforeEnvato | modules/downloader.py:23-26 | Every link that contains both "freepik.com" and "elements.envato.com" is routed to Freepik, because the Freepik test comes first. |
| Downloader.MixedLinkExample | modules/downloader.py:23-26 | A Freepik asset link whose query names Envato's domain is routed to Freepik. |
| Downloader.JoinShape | modules/downloader.py:71 | POSIX `os.path.join(dir, name)` ends with the name. An absolute name replaces the directory. Otherwise the result starts with the directory, and a `/` is inserted only when the directory does not end with one. |
| Downloader.CssInjective | modules/downloader.py:44-107 | Two distinct locators of the model never stand for the same selector string of the source. |
| Downloader.Session.Launch | modules/downloader.py:16-20 | Launching logs the launch; the session is open exactly when the launch did not raise. |
| Downloader.Session.Perform | modules/downloader.py:41-54 | A page action is appended to the log and reports whether it raised at its log position. |
| Downloader.Session.IsVisible | modules/downloader.py:66-67 | A probe is logged and reports the oracle's visibility of the target and whether it raised. |
| Downloader.Session.Close | modules/downloader.py:35-36 | Closing logs the close and ends the session. |
| Downloader.FreepikLoginFacts | modules/downloader.py:40-54 | The Freepik login issues a prefix of its seven intended actions and stops right after the first action that raised: no earlier action raised, apart from the cookie-banner click. It finishes exactly when the sign-in page, both fills (so both credentials are present), the submit, the wait and the asset page do not raise. A raise of the cookie-banner click is swallowed. |
| Downloader.FreepikLoginPrefix | modules/downloader.py:40-54 | The login's actions are a prefix of the intended ones, all of them on success. A failed login ends with the action that raised, and no earlier action raised except the swallowed cookie-banner click. |
| Downloader.FreepikLoginOk | modules/downloader.py:43-54 | The login succeeds iff no awaited step outside the cookie click raises and both credentials are present. |
| Downloader.FreepikLoginActs | modules/downloader.py:41-54 | The intended login actions neither launch nor close the browser, and they type only Freepik's credentials. |
| Downloader.FirstVisible | modules/downloader.py:65-67 | Reference definition of the probe: the index of the first visible trigger. Every earlier trigger is invisible. The index is the list length when none is visible. |
| Downloader.IdealProbeStep | modules/downloader.py:65-74 | The fault-free probe probes the first trigger, then either fetches through it (if visible) or goes on with the rest. |
| Downloader.IdealProbeActs | modules/downloader.py:65-74 | The fault-free probe issues only page actions, never a `fill`, and at most two actions more than there are triggers. |
| Downloader.FetchSettles | modules/downloader.py:68-74 | Clicking a trigger and saving the download is the two intended actions cut short at the first one that raises. |
| Downloader.ProbeSettles | modules/downloader.py:58-77 | The selector loop performs exactly the fault-free probe defined by `FirstVisible`, cut short right after the first action that raises. Triggers are tried in list order, and only the first visible one is clicked. |
| Downloader.ProbeFaultExit | modules/downloader.py:66-67 | A probe that raises ends the loop with a fault after that probe. |
| Downloader.ProbeHitExit | modules/downloader.py:67-74 | A visible trigger ends the loop with the fetch through it. |
| Downloader.ProbeMissStep | modules/downloader.py:65-67 | An invisible trigger moves the loop on to the next selector. |
| Downloader.ProbeEndExit | modules/downloader.py:76-77 | Going past the last selector ends the loop with `None`. |
| Downloader.ProbeActs | modules/downloader.py:65-77 | The selector loop issues only page actions and never types anything. |
| Downloader.ProbeFaultFree | modules/downloader.py:65-77 | When nothing in its window raises, the loop returns the path under the suggested name if some trigger is visible, and `None` otherwise. |
| Downloader.FreepikActs | modules/downloader.py:38-77 | The Freepik flow never launches or closes the browser and fills only Freepik's credentials. |
| Downloader.FreepikOutcome | modules/downloader.py:38-77 | The Freepik flow raises only because its last action raised. A saved path is the suggested name in the download directory and needs a visible trigger. `None` means no trigger was visible. |
| Downloader.FreepikFaultFree | modules/downloader.py:38-77 | With both credentials and no fault, the Freepik flow ends with the fault-free probe's result. |
| Downloader.EnvatoLoginFacts | modules/downloader.py:82-89 | The Envato login issues a prefix of its six intended actions. It finishes exactly when none raises and both credentials are present; otherwise it stops right after the first action that raised, no earlier action having raised. |
| Downloader.EnvatoLoginPrefix | modules/downloader.py:82-89 | The login's actions are a prefix of the intended ones, all of them on success. A failed login ends with the action that raised, and no earlier action raised. |
| Downloader.EnvatoLoginOk | modules/downloader.py:82-89 | The login succeeds iff none of its six steps raises and both credentials are present. |
| Downloader.EnvatoLoginActs | modules/downloader.py:82-89 | The intended login actions neither launch nor close the browser, and they type only Envato's credentials. |
| Downloader.EnvatoTriggerFacts | modules/downloader.py:92-110 | After the login, a path is saved iff the first "Download" button and the last confirm button are both visible and none of the five steps raises. The path is the suggested name in the directory. `None` means one of the buttons was invisible. |
| Downloader.EnvatoFacts | modules/downloader.py:79-110 | The Envato flow fills only Envato's credentials and raises only because of its last action. It saves a file iff both credentials are present, its eleven steps do not raise and both buttons are visible, and the file is saved under the suggested name. |
| Downloader.RoutedActs | modules/downloader.py:22-29 | The dispatched flow issues only page actions and types only the routed marketplace's credentials. |
| Downloader.DownloadLifetime | modules/downloader.py:13-36 | `download_file` raises iff the launch raises, and then only the launch is logged. Otherwise the browser is launched first and closed last, and neither happens in between. |
| Downloader.DownloadFaultIsNone | modules/downloader.py:22-34 | Once the browser is up, `download_file` returns and never raises. It returns a path exactly when the routed flow saved one, and `None` when the flow raised or found no trigger. |
| Downloader.DownloadCredentials | modules/downloader.py:22-31 | Only the routed marketplace's credentials are typed. A link of neither marketplace opens and closes the browser and returns `None`, running no site flow. |
| Downloader.DownloadSavedPath | modules/downloader.py:13-36 | A returned path is the suggested file name joined to the download directory, and a trigger of the routed marketplace was visible. |
| Downloader.FreepikHappyPath | modules/downloader.py:13-77 | A Freepik link with both credentials and no fault yields the suggested file when a trigger is visible, and `None` when none is. |
| Downloader.Downloader.constructor | modules/downloader.py:6-9 | The downloader keeps both credential sets and the download directory. |
| Downloader.Downloader.DownloadFile | modules/downloader.py:13-36 | The method's result and session log are exactly `DownloadSpec`, and the browser is closed afterwards. |
| Downloader.Downloader.SignInFreepik | modules/downloader.py:40-54 | The method's outcome and log are exactly `FreepikLogin`. |
| Downloader.Downloader.DownloadFreepik | modules/downloader.py:38-77 | The method's outcome and log are exactly `FreepikSpec`. |
| Downloader.Downloader.ProbeFreepik | modules/downloader.py:58-77 | The selector loop's outcome and log are exactly `FreepikProbe`, proved with the loop invariant `Resumes`. |
| Downloader.Downloader.SignInEnvato | modules/downloader.py:82-89 | The method's outcome and log are exactly `EnvatoLogin`. |
| Downloader.Downloader.DownloadEnvato | modules/downloader.py:79-110 | The method's outcome and log are exactly `EnvatoSpec`. |
| Downloader.Downloader.ClickThroughEnvato | modules/downloader.py:92-110 | The method's outcome and log are exactly `EnvatoTrigger`. |
| Downloader.Downloader.SaveDownload | modules/downloader.py:68-74 | The method's outcome and log are exactly `Fetch`: the click inside `expect_download`, then `save_as` under the suggested name. |
| Storage.Host.Exists | backend/main.py:57 | `os.path.exists` is true iff the path is on disk. |
| Storage.Host.Remove | backend/main.py:58 | `os.remove` takes exactly that path off the disk and logs the removal. |
| Storage.Host.Upload | backend/main.py:68 | The upload returns the Drive oracle's reply, logs the upload and leaves the disk unchanged. |
| Storage.Host.Reply | backend/main.py:50-53 | Sending the file succeeds iff it exists and the chat reply does not raise. Only a success is logged, and the disk is unchanged. |
| Backend.Deliver | backend/main.py:40-83 | No path means `None` and no effects. A chat send is followed by the removal of the file and nothing else: the effects are exactly the send, then the removal; Drive is not contacted and the path is returned. After a failed send, control falls through to Drive. Drive is used iff the gate holds. Without Drive the file is kept and its path returned. After an upload the result is the link (`None` if the upload raised), and the file is removed iff the link is truthy and the file exists. The effects are then exactly the upload, followed by the removal when the file was removed. |
| Backend.ChatFailureFallsThrough | backend/main.py:49-67 | A chat send that fails (missing file or a raising reply) delivers exactly as if no chat had been given. |
| Backend.Health | backend/main.py:94-121 | A service entry is `None` iff the service is not configured. It is `False` if the test raised, and the test's value otherwise. |
| Backend.AutomationApp.constructor | backend/main.py:19-32 | The downloader gets the configured credentials and directory, and the Drive service object is always created. |
| Backend.AutomationApp.ProcessDownloadAndUpload | backend/main.py:34-83 | The session log is exactly `download_file`'s. The result, the files left on disk and the effects are exactly `Deliver` of the download's outcome, so no exception propagates. |
| Backend.AutomationApp.Dispatch | backend/main.py:44-83 | After the download, the result, the files and the effects are exactly `Deliver`. |
| Backend.AutomationApp.TestLogins | backend/main.py:85-123 | The map has exactly the keys freepik, envato and google_drive. Each entry is `Health` of its configuration (email and password truthy, or the Drive object present) and its test's outcome. Drive's test is `test_connection` (backend/modules/drive_service.py:74-90), which never raises: it reports `True` only with an authenticated client whose API call does not raise. |
| LegacyApp.DeliverToDrive | main.py:38-58 | No path means `None` and no upload. Otherwise the upload is always attempted first. The result is exactly the upload's value (`None` if it raised), and the file is removed iff the link is truthy and the file exists. The effects are exactly the upload, followed by the removal when the file was removed. |
| LegacyApp.NewerPipelineExtendsDriveOnly | main.py:38-58 | Without a chat and with Drive configured, the newer pipeline delivers exactly as the Drive-only one. Without Drive it keeps the file, where the Drive-only one still uploads. |
| LegacyApp.AutomationApp.constructor | main.py:19-32 | The downloader gets the configured credentials and directory. |
| LegacyApp.AutomationApp.ProcessDownloadAndUpload | main.py:34-58 | The session log is exactly `download_file`'s. The result, the files and the effects are exactly `DeliverToDrive` of the download's outcome. |
| PyStr.TrimStartFacts | frontend/app.py:65-67 | `lstrip()` leaves a suffix that does not start with whitespace, after removing only whitespace. |
| PyStr.TrimEndFacts | frontend/app.py:65-67 | `rstrip()` leaves a prefix that does not end with whitespace, after removing only whitespace. |
| PyStr.StripTrimmed | frontend/app.py:65-67 | `strip()` is no longer than its input and neither starts nor ends with whitespace. |
| PyStr.StripInfix | frontend/app.py:65-67 | `strip()` is a contiguous piece of the input with only whitespace before and after it. |
| PyStr.StripBlank | frontend/app.py:67 | A line is blank (`not l.strip()`) iff all its characters are whitespace. |
| PyStr.StripIdempotent | frontend/app.py:67-69 | Stripping twice is stripping once. |
| PyStr.TrimStartFixed | frontend/app.py:65 | `lstrip()` leaves a string that does not start with whitespace unchanged. |
| PyStr.TrimEndFixed | frontend/app.py:65 | `rstrip()` leaves a string that does not end with whitespace unchanged. |
| PyStr.LineEnd | frontend/app.py:65 | The first line boundary is found, with no boundary before it. |
| PyStr.SplitLines | frontend/app.py:65 | `splitlines()` yields lines without boundaries, and yields none exactly for the empty string. |
| PyStr.SplitFirstLine | frontend/app.py:65 | A line followed by `"\n"` is split off as the first line. |
| PyStr.SplitTerminated | frontend/app.py:65 | `splitlines()` undoes writing lines out with a newline after each. |
| Frontend.ProcessJob | frontend/app.py:18-28 | The status is "error" iff the backend is unavailable or the pipeline raised. The message is then "Backend not available: …" or the exception's text. With "done", the result is the pipeline's return value. |
| Frontend.Pending | frontend/app.py:31-34 | The jobs ahead of the first sentinel are the queue's leading entries, and the entry after them is the sentinel. |
| Frontend.DrainEvents | frontend/app.py:30-41 | The worker writes exactly the expected events of the jobs ahead of the first sentinel. The sentinel itself writes nothing. |
| Frontend.ExpectedAt | frontend/app.py:35-38 | There are two events per job: the i-th job's STARTED, then its DONE with the record of its own outcome. |
| Frontend.DrainStops | frontend/app.py:31-34 | The worker ends iff the queue holds a sentinel, and then leaves what follows it on the queue. Otherwise it empties the queue and blocks. |
| Frontend.JobsStartInQueueOrder | frontend/app.py:30-41 | Jobs start in the order they were enqueued, each once. No ERROR event is ever written. |
| Frontend.JobsStripped | frontend/app.py:66-69 | Every job is a non-blank, already stripped line, and there are no more jobs than lines. |
| Frontend.JobsInOrder | frontend/app.py:66-69 | The jobs are the non-blank stripped lines in input order, one per line: the k-th job is the stripped line at the k-th of an increasing list of line indices, and that list holds every non-blank line. |
| Frontend.JobsFromLines | frontend/app.py:66-69 | A non-blank line yields its stripped text as a job, and every job comes from some line. |
| Frontend.EnqueueStep | frontend/app.py:66-69 | One more line adds its stripped text as a job unless it is blank. |
| Frontend.Labels | frontend/app.py:71-72 | There is one "Queued: <link>" label per job, in order. |
| Frontend.AsEntries | frontend/app.py:69 | There is one queue entry per job, in order. |
| Frontend.AtMostOneWorker | frontend/app.py:76-80 | With only the newest thread possibly alive, at most one worker runs, and one runs iff the newest is alive. |
| Frontend.Window.constructor | frontend/app.py:16 | The window starts with an empty queue, no events, an empty job list and log, and no worker. |
| Frontend.Window.Put | frontend/app.py:69 | `job_queue.put` appends to the queue and changes nothing else. |
| Frontend.Window.Enqueue | frontend/app.py:66-69 | The loop puts every non-blank line, stripped, on the queue, in input order. |
| Frontend.Window.Submit | frontend/app.py:64-73 | "Enviar" appends the jobs of the stripped, split text to the queue. It extends the job list with their labels, keeping the existing entries, and logs "Links enfileirados". |
| Frontend.Window.StartWorker | frontend/app.py:76-80 | A new worker starts, and "Worker iniciado" is logged, only when none is alive. Afterwards exactly one is alive. |
| Frontend.Window.StopWorker | frontend/app.py:82-86 | With a live worker, the sentinel is queued and "Worker parado" logged. Otherwise nothing changes. |
| Frontend.Window.RunWorker | frontend/app.py:30-41 | The worker's events and the queue it leaves are exactly `Drain`. The thread ends iff it took the sentinel. |
| Frontend.Window.Quit | frontend/app.py:59-63 | Closing with a live worker queues the sentinel and waits: the worker drains the queue up to it and ends. Without a live worker nothing changes. The job list and the log are never touched. |

## Left out

- Playwright internals: locators, navigation, `expect_download`, `save_as` and the 5000 ms timeout of the cookie-banner click. The browser is the `Page` oracle: visibility per locator, a suggested file name, and the log positions whose action raises. The user agent string is not modelled.
- Downloader.DownloadLifetime: does not describe a failure of `new_context` or `new_page`, which the model folds into the launch action (modules/downloader.py:16-20), so that the session counts as never opened. In the source the browser has been launched by then, and `browser.close()` is not called on that path, because the `finally` of lines 35-36 covers only the `try` of lines 22-34. The browser then stays open until leaving `async_playwright()` stops the driver.
- `browser.close()` is taken never to raise.
- Downloader.JoinShape: `os.path.join` is taken to be POSIX `posixpath.join`. On Windows, `ntpath.join` inserts a backslash and handles drive letters; that variant is not modelled.
- Downloader.Downloader.constructor: does not model `os.makedirs` of the download directory (modules/downloader.py:10-11), a file-system side effect with no bearing on the flows.
- The file set a delivery sees is the one that stands after the download. `save_as` is not tied to it, because the browser's writes to disk are outside the model.
- `os.remove` is only called on a path that `os.path.exists` just reported, so its own failures (and races with other processes) are not modelled.
- `DriveService.upload_file` (backend/modules/drive_service.py) is an oracle, the Host's `driveReply`. The oracle does not depend on whether the file exists, although `upload_file` returns `None` for a missing file (backend/modules/drive_service.py:33-35). So when a chat send fails because the file is missing and Drive is ready, `Deliver` may return a link where the source returns `None`. Of `test_connection`, only its API call is an oracle: the `driveProbeRaises` argument of `TestLogins`.
- backend/main.py:9 imports the downloader of the backend package (backend/modules/downloader.py), which is not part of this model. The model takes the backend's `download_file` to be the one in modules/downloader.py.
- `test_freepik_login` and `test_envato_login` are not defined in modules/downloader.py; they evidently live in backend/modules/downloader.py, which is not part of this model. `TestLogins` takes their outcomes as arguments.
- The Telegram bot of backend/modules/bot.py, the `run` methods and the `__main__` blocks (backend/main.py:125-139, main.py:60-74) are not part of this model.
- Configuration values (backend/config.py) are constructor inputs.
- Logging calls are left out everywhere.
- The front end's threading is modelled sequentially. Threads, `daemon`, the five-second `join` timeout of "Parar Worker" and interleaving between the GUI and the worker are left out. `RunWorker` is the worker running until it takes the sentinel or blocks on an empty queue. `Quit` waits for it, as `join()` without a timeout does.
- The PySimpleGUI layout, the window's event reading and the log lines written for the STARTED, DONE and ERROR events (frontend/app.py:43-57, 88-98) are left out. The window keeps the events themselves.
- `job_queue.task_done` has no observable effect without a `join` on the queue.
- The ERROR branch of `worker_loop` (frontend/app.py:39-40) is unreachable in the model. `process_job` catches every exception, and the window is a plain event log, so `write_event_value` (line 38, also inside that `try`) never raises here. In the source a failing `write_event_value` would reach that branch. `JobsStartInQueueOrder` states that no ERROR event is written in the model.
- The backend import at start-up is the `BackendState` input of `Frontend.Window.constructor`, and the pipeline's outcome for each job is an oracle indexed by the job's position in the worker run. The front end calls the pipeline without a chat message.

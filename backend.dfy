/** The delivery pipeline of backend/main.py: download a link, then hand the
    file to the chat it came from, or else upload it to Google Drive, or else
    keep it on disk; delete the local copy only once it has been delivered;
    and report the health of the three outside services. */
module Backend {
  import opened Common
  import opened Storage
  import Downloader

  /** A `DriveService` object; `serviceReady` says whether its `service`
      attribute (the authenticated API client) is set. */
  datatype DriveHandle = DriveHandle(serviceReady: bool)

  /** The gate of the Drive branch: a Drive service object, an authenticated
      client and a truthy `DRIVE_FOLDER_ID`. */
  predicate DriveReady(drive: Option<DriveHandle>, folderId: Option<string>)
  {
    drive.Some? && drive.value.serviceReady && Truthy(folderId)
  }

  /** `download_file` returned a truthy path (and did not raise). */
  predicate HasPath(download: Call<Option<string>>)
  {
    download.Returned? && Truthy(download.value)
  }

  /** The path a successful download returned. */
  function PathOf(download: Call<Option<string>>): string
    requires HasPath(download)
  {
    download.value.value
  }

  /** The delivery chosen by `process_download_and_upload` once the download is
      over: `ready` is the Drive gate, `reply` what the Drive upload gives back,
      `files` the files on disk. */
  function Deliver(download: Call<Option<string>>, chat: Option<Chat>, ready: bool,
                   reply: Call<Option<string>>, files: set<string>): (r: Delivery)
    // no path (or a raising download): `None`, and nothing is sent, uploaded or removed
    ensures !HasPath(download) ==> r == Delivery(None, files, [])
    // at most the downloaded file is removed, and only after it was delivered
    ensures r.files == files || (HasPath(download) && PathOf(download) in files
                                 && r.files == files - {PathOf(download)})
    ensures r.files != files ==>
      Sent(PathOf(download)) in r.effects
      || (Uploaded(PathOf(download)) in r.effects && reply.Returned? && Truthy(reply.value))
    // a file sent to the chat is never uploaded, and the sent path is returned
    ensures HasPath(download) && Sent(PathOf(download)) in r.effects ==>
      Uploaded(PathOf(download)) !in r.effects && r.result == Some(PathOf(download))
    // a chat send removes the local file, and the removal follows the send
    ensures HasPath(download) && Sent(PathOf(download)) in r.effects ==>
      && r.files == files - {PathOf(download)}
      && r.effects == [Sent(PathOf(download)), Removed(PathOf(download))]
    ensures HasPath(download) ==>
      (Sent(PathOf(download)) in r.effects <==>
         chat.Some? && PathOf(download) in files && !chat.value.replyRaises)
    // Drive is contacted exactly when the chat did not take the file and the gate holds
    ensures HasPath(download) ==>
      (Uploaded(PathOf(download)) in r.effects <==>
         ready && !(chat.Some? && PathOf(download) in files && !chat.value.replyRaises))
    // without a chat delivery and without Drive, the file stays and its path is returned
    ensures HasPath(download) && Sent(PathOf(download)) !in r.effects && !ready ==>
      r == Delivery(Some(PathOf(download)), files, [])
    // after an upload the result is the returned link (`None` if it raised), and the
    // file is removed exactly when the link is truthy and the file exists
    ensures HasPath(download) && Uploaded(PathOf(download)) in r.effects ==>
      && r.result == (if reply.Returned? then reply.value else None)
      && (r.files != files <==> reply.Returned? && Truthy(reply.value) && PathOf(download) in files)
    // after an upload the log is the upload, followed by the removal exactly when the file was removed
    ensures HasPath(download) && Uploaded(PathOf(download)) in r.effects ==>
      r.effects == [Uploaded(PathOf(download))] + (if r.files != files then [Removed(PathOf(download))] else [])
  {
    if !HasPath(download) then Delivery(None, files, [])
    else
      var path := PathOf(download);
      if chat.Some? && path in files && !chat.value.replyRaises then
        Delivery(Some(path), files - {path}, [Sent(path), Removed(path)])
      else if !ready then
        Delivery(Some(path), files, [])
      else
        match reply
        case Raised(_) => Delivery(None, files, [Uploaded(path)])
        case Returned(link) =>
          if Truthy(link) && path in files then
            Delivery(link, files - {path}, [Uploaded(path), Removed(path)])
          else
            Delivery(link, files, [Uploaded(path)])
  }

  /** A chat reply that fails (the file cannot be opened or the reply raises)
      does not end the job: the delivery is the one made without a chat. */
  lemma ChatFailureFallsThrough(download: Call<Option<string>>, chat: Chat, ready: bool,
                                reply: Call<Option<string>>, files: set<string>)
    requires HasPath(download)
    requires PathOf(download) !in files || chat.replyRaises
    ensures Deliver(download, Some(chat), ready, reply, files) == Deliver(download, None, ready, reply, files)
  {
  }

  /** The state of one service in `test_logins`: `None` when it is not
      configured, `False` when its test raised, the test's answer otherwise. */
  function Health(configured: bool, test: Call<bool>): (h: Option<bool>)
    ensures h.None? <==> !configured
    ensures configured && test.Raised? ==> h == Some(false)
    ensures configured && test.Returned? ==> h == Some(test.value)
  {
    if !configured then None
    else match test
      case Returned(v) => Some(v)
      case Raised(_) => Some(false)
  }

  /** `DriveService.test_connection`: `False` without an authenticated client;
      otherwise `True` unless reading the folder (or listing files, when no
      folder is set) raises, which it catches itself.  It never raises. */
  predicate TestConnection(handle: DriveHandle, probeRaises: bool)
  {
    handle.serviceReady && !probeRaises
  }

  const FreepikKey: string := "freepik"
  const EnvatoKey: string := "envato"
  const DriveKey: string := "google_drive"

  class AutomationApp {
    const downloader: Downloader.Downloader
    const driveService: Option<DriveHandle>
    const driveFolderId: Option<string>

    /** The configuration values become the downloader's credentials and
        directory; the Drive service object is always created, and
        `driveAuthenticated` says whether its authentication succeeded. */
    constructor (freepik: Downloader.Credentials, envato: Downloader.Credentials, downloadPath: string,
                 driveFolderId: Option<string>, driveAuthenticated: bool)
      ensures downloader.freepikCreds == freepik && downloader.envatoCreds == envato
      ensures downloader.downloadPath == downloadPath
      ensures driveService == Some(DriveHandle(driveAuthenticated)) && this.driveFolderId == driveFolderId
    {
      downloader := new Downloader.Downloader(freepik, envato, downloadPath);
      driveService := Some(DriveHandle(driveAuthenticated));
      this.driveFolderId := driveFolderId;
    }

    /** `process_download_and_upload(url, telegram_message)`, with the browser
        session `s` for the download and the host `host` for the delivery. */
    method ProcessDownloadAndUpload(url: string, chat: Option<Chat>, s: Downloader.Session, host: Host)
      returns (r: Option<string>)
      requires !s.open && s.log == []
      modifies s, host
      ensures !s.open
      ensures var download := Downloader.DownloadSpec(downloader.freepikCreds, downloader.envatoCreds,
                                                      downloader.downloadPath, url, s.page);
        var d := Deliver(download.result, chat, DriveReady(driveService, driveFolderId),
                         host.driveReply, old(host.files));
        s.log == download.log && r == d.result && host.files == d.files
        && host.effects == old(host.effects) + d.effects
    {
      var download := downloader.DownloadFile(url, s);
      r := Dispatch(download, chat, host);
    }

    /** The rest of the `try` once `download_file` is over: reply in the chat,
        else upload to Drive, else keep the file; an exception of the download
        or of the upload becomes `None`. */
    method Dispatch(download: Call<Option<string>>, chat: Option<Chat>, host: Host)
      returns (r: Option<string>)
      modifies host
      ensures var d := Deliver(download, chat, DriveReady(driveService, driveFolderId),
                               host.driveReply, old(host.files));
        r == d.result && host.files == d.files && host.effects == old(host.effects) + d.effects
    {
      var filePath: Option<string>;
      match download {
        case Raised(_) =>
          return None;  // caught by the outer `except`
        case Returned(p) =>
          filePath := p;
      }
      if !Truthy(filePath) {
        return None;
      }
      var path := filePath.value;
      if chat.Some? {
        var sent := host.Reply(chat.value, path);
        if sent {
          var present := host.Exists(path);
          if present {
            host.Remove(path);
          }
          return Some(path);
        }
      }
      if DriveReady(driveService, driveFolderId) {
        var upload := host.Upload(path);
        match upload {
          case Raised(_) =>
            return None;  // caught by the outer `except`
          case Returned(driveLink) =>
            if Truthy(driveLink) {
              var present := host.Exists(path);
              if present {
                host.Remove(path);
              }
            }
            return driveLink;
        }
      }
      return Some(path);
    }

    /** `test_logins`: the health entry of each service, given the outcome of
        its login or connection test. */
    method TestLogins(freepikTest: Call<bool>, envatoTest: Call<bool>, driveProbeRaises: bool)
      returns (results: map<string, Option<bool>>)
      ensures results.Keys == {FreepikKey, EnvatoKey, DriveKey}
      ensures results[FreepikKey] ==
        Health(Truthy(downloader.freepikCreds.email) && Truthy(downloader.freepikCreds.password), freepikTest)
      ensures results[EnvatoKey] ==
        Health(Truthy(downloader.envatoCreds.email) && Truthy(downloader.envatoCreds.password), envatoTest)
      ensures results[DriveKey] ==
        Health(driveService.Some?, Returned(driveService.Some? && TestConnection(driveService.value, driveProbeRaises)))
      // Drive reports healthy only with an authenticated client whose API call succeeds
      ensures results[DriveKey] == Some(true) <==>
        driveService.Some? && driveService.value.serviceReady && !driveProbeRaises
    {
      results := map[FreepikKey := None, EnvatoKey := None, DriveKey := None];
      if Truthy(downloader.freepikCreds.email) && Truthy(downloader.freepikCreds.password) {
        match freepikTest {
          case Returned(v) => results := results[FreepikKey := Some(v)];
          case Raised(_) => results := results[FreepikKey := Some(false)];
        }
      } else {
        results := results[FreepikKey := None];
      }
      if Truthy(downloader.envatoCreds.email) && Truthy(downloader.envatoCreds.password) {
        match envatoTest {
          case Returned(v) => results := results[EnvatoKey := Some(v)];
          case Raised(_) => results := results[EnvatoKey := Some(false)];
        }
      } else {
        results := results[EnvatoKey := None];
      }
      if driveService.Some? {
        // `test_connection` never raises, so the `except` around it is never taken
        var connected := TestConnection(driveService.value, driveProbeRaises);
        results := results[DriveKey := Some(connected)];
      } else {
        results := results[DriveKey := None];
      }
    }
  }
}

/** The older, Drive-only delivery of main.py: download a link, always upload
    the file to Google Drive, and delete the local copy when the upload gave a
    link. */
module LegacyApp {
  import opened Common
  import opened Storage
  import Downloader
  import Backend

  /** The delivery of the Drive-only `process_download_and_upload` once the
      download is over: `reply` is what the upload gives back, `files` the
      files on disk. */
  function DeliverToDrive(download: Call<Option<string>>, reply: Call<Option<string>>, files: set<string>)
    : (r: Delivery)
    // no path (or a raising download): `None` and no upload
    ensures !Backend.HasPath(download) ==> r == Delivery(None, files, [])
    // with a path, the upload is always attempted, before any removal
    ensures Backend.HasPath(download) ==>
      |r.effects| >= 1 && r.effects[0] == Uploaded(Backend.PathOf(download))
    // the result is exactly the upload's value, `None` when the upload raised
    ensures Backend.HasPath(download) ==> r.result == (if reply.Returned? then reply.value else None)
    // the file is removed exactly when the link is truthy and the file exists
    ensures r.files == files || (Backend.HasPath(download) && r.files == files - {Backend.PathOf(download)})
    ensures r.files != files <==>
      Backend.HasPath(download) && reply.Returned? && Truthy(reply.value) && Backend.PathOf(download) in files
    // the log is the upload, followed by the removal exactly when the file was removed
    ensures Backend.HasPath(download) ==>
      r.effects == [Uploaded(Backend.PathOf(download))]
                   + (if r.files != files then [Removed(Backend.PathOf(download))] else [])
  {
    if !Backend.HasPath(download) then Delivery(None, files, [])
    else
      var path := Backend.PathOf(download);
      match reply
      case Raised(_) => Delivery(None, files, [Uploaded(path)])
      case Returned(link) =>
        if Truthy(link) && path in files then
          Delivery(link, files - {path}, [Uploaded(path), Removed(path)])
        else
          Delivery(link, files, [Uploaded(path)])
  }

  /** When no chat is involved and Drive is configured, the newer pipeline
      delivers exactly as the Drive-only one; when Drive is not configured it
      keeps the file, where the Drive-only one still uploads it. */
  lemma NewerPipelineExtendsDriveOnly(download: Call<Option<string>>, ready: bool,
                                      reply: Call<Option<string>>, files: set<string>)
    ensures ready ==> Backend.Deliver(download, None, ready, reply, files) == DeliverToDrive(download, reply, files)
    ensures !ready && Backend.HasPath(download) ==>
      && Backend.Deliver(download, None, ready, reply, files) == Delivery(Some(Backend.PathOf(download)), files, [])
      && DeliverToDrive(download, reply, files).effects != []
  {
  }

  class AutomationApp {
    const downloader: Downloader.Downloader

    constructor (freepik: Downloader.Credentials, envato: Downloader.Credentials, downloadPath: string)
      ensures downloader.freepikCreds == freepik && downloader.envatoCreds == envato
      ensures downloader.downloadPath == downloadPath
    {
      downloader := new Downloader.Downloader(freepik, envato, downloadPath);
    }

    /** `process_download_and_upload(url)` of main.py. */
    method ProcessDownloadAndUpload(url: string, s: Downloader.Session, host: Host) returns (r: Option<string>)
      requires !s.open && s.log == []
      modifies s, host
      ensures !s.open
      ensures var download := Downloader.DownloadSpec(downloader.freepikCreds, downloader.envatoCreds,
                                                      downloader.downloadPath, url, s.page);
        var d := DeliverToDrive(download.result, host.driveReply, old(host.files));
        s.log == download.log && r == d.result && host.files == d.files
        && host.effects == old(host.effects) + d.effects
    {
      var download := downloader.DownloadFile(url, s);
      var filePath: Option<string>;
      match download {
        case Raised(_) =>
          return None;  // caught by the outer `except`
        case Returned(p) =>
          filePath := p;
      }
      if !Truthy(filePath) {
        return None;
      }
      var path := filePath.value;
      var upload := host.Upload(path);
      match upload {
        case Raised(_) =>
          return None;  // caught by the outer `except`
        case Returned(driveLink) =>
          if Truthy(driveLink) {
            var present := host.Exists(path);
            if present {
              host.Remove(path);
            }
          }
          return driveLink;
      }
    }
  }
}

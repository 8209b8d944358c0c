/** The world outside the process as the delivery step sees it: the local file
    system as a set of existing paths, and the log of external effects (a
    document sent to a chat, a file uploaded to Google Drive, a local file
    removed).  The outcomes of the outside services are oracles. */
module Storage {
  import opened Common

  /** One external effect of a delivery. */
  datatype Effect = Sent(path: string) | Uploaded(path: string) | Removed(path: string)

  /** The chat message a job came from; `replyRaises` says whether
      `reply_document` raises on it. */
  datatype Chat = Chat(replyRaises: bool)

  /** The outcome of a delivery: the value returned to the caller, the files
      left on disk and the effects it caused, in order. */
  datatype Delivery = Delivery(result: Option<string>, files: set<string>, effects: seq<Effect>)

  /** The host machine with its file system and the outside services.
      `driveReply` is what `DriveService.upload_file` gives back: a link, `None`,
      or an exception. */
  class Host {
    const driveReply: Call<Option<string>>
    var files: set<string>
    var effects: seq<Effect>

    constructor (driveReply: Call<Option<string>>, files: set<string>)
      ensures this.driveReply == driveReply && this.files == files && effects == []
    {
      this.driveReply := driveReply;
      this.files := files;
      effects := [];
    }

    /** `os.path.exists(path)`. */
    method Exists(path: string) returns (b: bool)
      ensures b <==> path in files
    {
      b := path in files;
    }

    /** `os.remove(path)` on an existing file. */
    method Remove(path: string)
      requires path in files
      modifies this
      ensures files == old(files) - {path}
      ensures effects == old(effects) + [Removed(path)]
    {
      files := files - {path};
      effects := effects + [Removed(path)];
    }

    /** `upload_file(path)` on Google Drive. */
    method Upload(path: string) returns (r: Call<Option<string>>)
      modifies this
      ensures r == driveReply
      ensures files == old(files) && effects == old(effects) + [Uploaded(path)]
    {
      r := driveReply;
      effects := effects + [Uploaded(path)];
    }

    /** Opening `path` for reading and replying to `chat` with it: `ok` is false
        when the file is missing (`open` raises) or the reply raises. */
    method Reply(chat: Chat, path: string) returns (ok: bool)
      modifies this
      ensures ok <==> path in files && !chat.replyRaises
      ensures files == old(files)
      ensures effects == old(effects) + (if ok then [Sent(path)] else [])
    {
      ok := path in files && !chat.replyRaises;
      if ok {
        effects := effects + [Sent(path)];
      }
    }
  }
}

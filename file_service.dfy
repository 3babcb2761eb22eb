/**
 * The file store (service/FileService.kt) reduced to what the bookkeeping sees: the queue directory
 * and the result directory as sets of the ids whose files they hold (each file is named by its
 * video id), and the recovery directory as a listing of named files with their lengths.
 */
module FileService {
  import opened Wrappers
  import opened HttpExceptions
  import opened Model

  /** One file of the recovery directory. */
  datatype RecoveryFile = RecoveryFile(name: string, length: int)

  /** The recovery listing without the file called `name`. */
  function WithoutFile(fs: seq<RecoveryFile>, name: string): (r: seq<RecoveryFile>)
    ensures forall f :: f in r <==> f in fs && f.name != name
    ensures |r| <= |fs|
  {
    if fs == [] then []
    else if fs[0].name == name then WithoutFile(fs[1..], name)
    else [fs[0]] + WithoutFile(fs[1..], name)
  }

  /** An I/O failure while copying a stream. */
  const IOError := Other("IOException")

  class FileService {
    var queueFiles: set<VideoId>
    var resultFiles: set<VideoId>
    var recoveryFiles: seq<RecoveryFile>

    constructor (recovery: seq<RecoveryFile>)
      ensures queueFiles == {} && resultFiles == {} && recoveryFiles == recovery
    {
      queueFiles, resultFiles, recoveryFiles := {}, {}, recovery;
    }

    /**
     * `saveVideoToQueue`: the upload is copied into the queue file of the id; `received` is the
     * length of the written file, or None when the stream fails (the exception propagates). The
     * file is opened for writing before the copy starts, so a failed copy leaves a partial file.
     */
    method SaveVideoToQueue(id: VideoId, received: Option<int>) returns (r: Result<int, Exception>)
      modifies `queueFiles
      ensures received.Some? ==> r == Success(received.value) && queueFiles == old(queueFiles) + {id}
      ensures received.None? ==> r == Failure(IOError) && queueFiles == old(queueFiles) + {id}
    {
      queueFiles := queueFiles + {id};
      if received.None? {
        return Failure(IOError);
      }
      r := Success(received.value);
    }

    /** `saveVideoToResults`: the same for the result directory, partial file included. */
    method SaveVideoToResults(id: VideoId, received: Option<int>) returns (r: Result<int, Exception>)
      modifies `resultFiles
      ensures received.Some? ==> r == Success(received.value) && resultFiles == old(resultFiles) + {id}
      ensures received.None? ==> r == Failure(IOError) && resultFiles == old(resultFiles) + {id}
    {
      resultFiles := resultFiles + {id};
      if received.None? {
        return Failure(IOError);
      }
      r := Success(received.value);
    }

    /** `deleteQueueVideo`: a file that is not there only gets logged. */
    method DeleteQueueVideo(id: VideoId)
      modifies `queueFiles
      ensures queueFiles == old(queueFiles) - {id}
    {
      queueFiles := queueFiles - {id};
    }

    /** `deleteResultVideo`. */
    method DeleteResultVideo(id: VideoId)
      modifies `resultFiles
      ensures resultFiles == old(resultFiles) - {id}
    {
      resultFiles := resultFiles - {id};
    }

    /** Deleting a file of the recovery directory. */
    method DeleteRecoveryFile(name: string)
      modifies `recoveryFiles
      ensures recoveryFiles == WithoutFile(old(recoveryFiles), name)
    {
      recoveryFiles := WithoutFile(recoveryFiles, name);
    }
  }
}

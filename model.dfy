/**
 * The persisted entities (model/Video.kt, model/Worker.kt, model/AuditModel.kt).
 * Times are whole minutes since an arbitrary epoch; `createdAt` and `updatedAt` are the audit
 * timestamps the persistence layer stamps on every save.
 */
module Model {
  import opened Wrappers

  /** A video id: the canonical text of its UUID. */
  type VideoId = string

  /** The union of the statuses the enum declares and the ones the data-access code uses. */
  datatype VideoStatus =
    | UPLOADING
    | UPLOADED
    | IN_QUEUE
    | PROCESSING
    | PROCESSED
    | EMAIL_PENDING
    | READY
    | DOWNLOADED
    | DELETED
    | DELETED_WITHOUT_DOWNLOADING
    | ERROR
    | REJECTED

  /** The enum constant's name, as `toString` prints it. */
  function StatusName(s: VideoStatus): string {
    match s
    case UPLOADING => "UPLOADING"
    case UPLOADED => "UPLOADED"
    case IN_QUEUE => "IN_QUEUE"
    case PROCESSING => "PROCESSING"
    case PROCESSED => "PROCESSED"
    case EMAIL_PENDING => "EMAIL_PENDING"
    case READY => "READY"
    case DOWNLOADED => "DOWNLOADED"
    case DELETED => "DELETED"
    case DELETED_WITHOUT_DOWNLOADING => "DELETED_WITHOUT_DOWNLOADING"
    case ERROR => "ERROR"
    case REJECTED => "REJECTED"
  }

  /** One job record. `node` is where it is processed, `origin` the requesting master ("" or a local node name), `originId` the master's id. */
  datatype Video = Video(
    id: VideoId,
    name: string,
    email: string,
    originalSize: int,
    compressedSize: int,
    transcodingProgress: int,
    transcodingSpeed: real,
    status: VideoStatus,
    node: string,
    origin: string,
    originId: Option<VideoId>,
    createdAt: int,
    updatedAt: int)

  datatype WorkerStatus = UP | DOWN

  /** One remote worker as the master remembers it. */
  datatype Worker = Worker(host: string, status: WorkerStatus, queueSize: int, downPings: int)
}

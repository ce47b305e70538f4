// What the cloud and an agent tell each other (proto/control.proto).
module Messages {
  import opened Options
  import opened JobModel

  // A presigned URL is determined by the operation and the object key it was made for.
  datatype Url = Download(key: string) | Upload(key: string)

  datatype Access = NoAccess | Presigned(url: Url) | Sts | OtherAuth

  datatype ForwardMode = UnspecifiedMode | UrlMode | LocalFileMode

  datatype Forward = Forward(url: string, verb: string, headers: string, body: string, timeout: int)

  datatype JobAssigned = JobAssigned(
    id: JobId, attempt: int, lease: string, outputUpload: Access, outputPrefix: string, outputKey: string,
    command: string, forwardHttp: bool, mode: ForwardMode, forward: Option<Forward>,
    inputDownload: Access, inputKey: string)

  datatype JobStatus = JobStatus(
    id: JobId, attempt: int, status: int, message: string, outputKey: string, stdout: string, stderr: string)

  const STATUS_RUNNING := 2
  const STATUS_SUCCEEDED := 3
  const STATUS_FAILED := 4

  // Enum values outside the table are read as PENDING.
  function StatusFromProto(status: int): Status {
    match status
    case 1 => Assigned
    case 2 => Running
    case 3 => Succeeded
    case 4 => Failed
    case 5 => Canceled
    case 6 => Lost
    case _ => Pending
  }

  function ModeToProto(mode: string): (r: ForwardMode)
    ensures r.LocalFileMode? <==> mode == "LOCAL_FILE"
    ensures r.UrlMode? <==> mode == "URL"
  {
    if mode == MODE_LOCAL_FILE then LocalFileMode else if mode == MODE_URL then UrlMode else UnspecifiedMode
  }

  // Conversion to a 32-bit signed integer keeps the low 32 bits.
  function Int32(n: int): (r: int)
    ensures -0x8000_0000 <= r < 0x8000_0000 && (r - n) % 0x1_0000_0000 == 0
  {
    (n + 0x8000_0000) % 0x1_0000_0000 - 0x8000_0000
  }

  lemma Int32Exact(n: int)
    ensures Int32(n) == n <==> -0x8000_0000 <= n < 0x8000_0000
  {}
}

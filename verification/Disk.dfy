/** The values the agent keeps on disk and the file system that holds them. */
module Disk {

  datatype Option<+T> = None | Some(value: T)

  /** Credentials issued at enrolment. Whether tls.X509KeyPair accepts the
      certificate and private key depends only on their bytes; keyPairLoads is that verdict. */
  datatype Credentials = Credentials(mqttURL: string, mqttPort: string, keyPairLoads: bool)

  /** The deviceData string of an enrolment: empty, base64 text of some bytes, or other text. */
  datatype DeviceData = NoDeviceData | Base64(bytes: seq<bv8>) | NotBase64(text: string)

  datatype Enrollment = Enrollment(id: string, orgID: string, credentials: Credentials, deviceData: DeviceData)

  /** The enrolment that decoding a JSON object without enrolment fields yields. */
  const BlankEnrollment := Enrollment("", "", Credentials("", "", false), NoDeviceData)

  /** A member of a JSON object that Go decodes into a string field. */
  datatype Field = Missing | Null | WrongType | Str(s: string)

  datatype Contents =
    | ParamsDoc(url: Field, path: Field)     // a JSON object with these params members
    | EnrollmentDoc(enrollment: Enrollment)  // a serialised enrolment
    | Blob(bytes: seq<bv8>)                  // raw device data
    | Torn                                   // empty or cut off: no JSON value

  type Files = map<string, Contents>

  /** Both are without the file, or have it with the same contents. */
  predicate SameFile(files: Files, files': Files, path: string) {
    (path in files <==> path in files') && (path in files ==> files[path] == files'[path])
  }

  /** json.Unmarshal into an enrolment; unknown members are ignored. */
  function DecodeEnrollment(c: Contents): Option<Enrollment> {
    match c
    case EnrollmentDoc(e) => Some(e)
    case ParamsDoc(_, _) => Some(BlankEnrollment)
    case Blob(_) => None
    case Torn => None
  }

  /** The enrolment a readable file at path decodes to. */
  function Cached(files: Files, path: string): Option<Enrollment> {
    if path in files then DecodeEnrollment(files[path]) else None
  }

  /** What creating and writing a file can come to. An interrupted write, a crash
      in the middle of one included, leaves a torn file. */
  datatype WriteOutcome =
    | Written        // complete, no error
    | Unconfirmed    // complete, but an error was reported afterwards
    | CutShort       // opened and truncated, then failed
    | NotOpened      // failed before touching the file

  function AfterWrite(files: Files, path: string, c: Contents, w: WriteOutcome): Files {
    match w
    case Written => files[path := c]
    case Unconfirmed => files[path := c]
    case CutShort => files[path := Torn]
    case NotOpened => files
  }

  class FileSystem {
    var files: Files

    constructor (files: Files)
      ensures this.files == files
    {
      this.files := files;
    }

    method WriteFile(path: string, c: Contents, w: WriteOutcome) returns (ok: bool)
      modifies this
      ensures files == AfterWrite(old(files), path, c, w)
      ensures ok <==> w == Written
    {
      match w {
        case Written => files := files[path := c];
        case Unconfirmed => files := files[path := c];
        case CutShort => files := files[path := Torn];
        case NotOpened =>
      }
      ok := w == Written;
    }

    method ReadFile(path: string, readable: bool) returns (c: Option<Contents>)
      ensures c == if readable && path in files then Some(files[path]) else None
    {
      if readable && path in files {
        return Some(files[path]);
      }
      return None;
    }

    method Remove(path: string, removes: bool) returns (ok: bool)
      modifies this
      ensures ok <==> removes && path in old(files)
      ensures files == if ok then old(files) - {path} else old(files)
    {
      ok := removes && path in files;
      if ok {
        files := files - {path};
      }
    }
  }
}

/** identity/identity.go and identity/store.go: the credential cache and the enrolment
    that fills it. Locking is the subject of module Locks. */
module Identity {
  import opened Disk
  import opened Paths
  import opened Config

  /** What snapd answers to a query for assertions of one type. */
  datatype Known = KnownFailed | Known(assertions: seq<string>)

  /** What a POST to the identity service comes to; a reply that cannot be decoded counts as none. */
  datatype Reply = NoReply | Reply(code: string, enrollment: Enrollment)

  /** The outcomes of the outside calls one CheckEnrollment may make. */
  datatype EnrollIO = EnrollIO(
    readable: bool,                  // an existing credentials file can be read
    model: Known,
    serial: Known,
    urlParses: bool,
    reply: Reply,
    marshals: bool,                  // json.Marshal of the enrolment succeeds
    credentialsWrite: WriteOutcome,
    dataWrite: WriteOutcome)

  /** posted lists the bodies of the requests sent: none or one. */
  datatype Checked = Checked(result: Option<Enrollment>, files: Files, posted: seq<string>)

  /** getEncodedAssertions: an empty list of assertions ends the gathering without an error
      and with nothing gathered. */
  function EncodedAssertions(io: EnrollIO): Option<string> {
    if io.model.KnownFailed? then None
    else if io.model.assertions == [] then Some("")
    else if io.serial.KnownFailed? then None
    else if io.serial.assertions == [] then Some("")
    else Some(io.model.assertions[0] + "\n" + io.serial.assertions[0])
  }

  datatype Write = Write(files: Files, ok: bool)

  /** storeCredentials: an enrolment that cannot be serialised is dropped without an error. */
  function CredentialsStored(files: Files, path: string, e: Enrollment, io: EnrollIO): Write {
    if io.marshals then
      Write(AfterWrite(files, path, EnrollmentDoc(e), io.credentialsWrite), io.credentialsWrite == Written)
    else Write(files, true)
  }

  /** storeDeviceData, with the caller's test that there is any. */
  function DataStored(files: Files, at: Places, d: DeviceData, io: EnrollIO): Write {
    match d
    case NoDeviceData => Write(files, true)
    case NotBase64(_) => Write(files, false)
    case Base64(bytes) => Write(AfterWrite(files, at.data, Blob(bytes), io.dataWrite), io.dataWrite == Written)
  }

  function Enrolled(files: Files, settings: Settings, at: Places, io: EnrollIO): Checked {
    var body := EncodedAssertions(io);
    if body.None? || !io.urlParses then Checked(None, files, [])
    else if io.reply.NoReply? || io.reply.code != "" then Checked(None, files, [body.value])
    else
      var e := io.reply.enrollment;
      var creds := CredentialsStored(files, settings.credentialsPath, e, io);
      if !creds.ok then Checked(None, creds.files, [body.value])
      else
        var data := DataStored(creds.files, at, e.deviceData, io);
        Checked(if data.ok then Some(e) else None, data.files, [body.value])
  }

  function Check(files: Files, settings: Settings, at: Places, io: EnrollIO): Checked {
    var cached := Cached(files, settings.credentialsPath);
    if io.readable && cached.Some? then Checked(cached, files, [])
    else Enrolled(files, settings, at, io)
  }

  /** A write of contents to a file came to w. */
  predicate CameTo(before: Files, after: Files, path: string, c: Contents, w: WriteOutcome) {
    match w
    case Written => path in after && after[path] == c
    case Unconfirmed => path in after && after[path] == c
    case CutShort => path in after && after[path] == Torn
    case NotOpened => SameFile(before, after, path)
  }

  class Service {
    const fs: FileSystem
    const at: Places          // fixed by the environment of the process
    const settings: Settings
    var posted: seq<string>   // bodies of all requests sent so far

    constructor (fs: FileSystem, at: Places, settings: Settings)
      ensures this.fs == fs && this.at == at && this.settings == settings && posted == []
    {
      this.fs, this.at, this.settings := fs, at, settings;
      posted := [];
    }

    method GetCredentials(io: EnrollIO) returns (e: Option<Enrollment>)
      ensures e == if io.readable then Cached(fs.files, settings.credentialsPath) else None
    {
      var data := fs.ReadFile(settings.credentialsPath, io.readable);
      if data.None? {
        return None;
      }
      e := DecodeEnrollment(data.value);
    }

    method GetEncodedAssertions(io: EnrollIO) returns (data: Option<string>)
      ensures data == EncodedAssertions(io)
    {
      if io.model.KnownFailed? {
        return None;
      }
      if |io.model.assertions| == 0 {
        return Some("");
      }
      if io.serial.KnownFailed? {
        return None;
      }
      if |io.serial.assertions| == 0 {
        return Some("");
      }
      data := Some(io.model.assertions[0] + "\n" + io.serial.assertions[0]);
    }

    method SendEnrollmentRequest(body: string, io: EnrollIO) returns (e: Option<Enrollment>)
      modifies this
      ensures posted == old(posted) + if io.urlParses then [body] else []
      ensures e.Some? <==> io.urlParses && io.reply.Reply? && io.reply.code == ""
      ensures e.Some? ==> e.value == io.reply.enrollment
    {
      if !io.urlParses {
        return None;
      }
      posted := posted + [body];
      if io.reply.NoReply? || |io.reply.code| > 0 {
        return None;
      }
      e := Some(io.reply.enrollment);
    }

    method StoreCredentials(e: Enrollment, io: EnrollIO) returns (ok: bool)
      modifies fs
      ensures Write(fs.files, ok) == CredentialsStored(old(fs.files), settings.credentialsPath, e, io)
      ensures io.marshals ==>
                CameTo(old(fs.files), fs.files, settings.credentialsPath, EnrollmentDoc(e), io.credentialsWrite)
    {
      if !io.marshals {
        return true;
      }
      ok := fs.WriteFile(settings.credentialsPath, EnrollmentDoc(e), io.credentialsWrite);
    }

    method StoreDeviceData(d: DeviceData, io: EnrollIO) returns (ok: bool)
      requires !d.NoDeviceData?
      modifies fs
      ensures Write(fs.files, ok) == DataStored(old(fs.files), at, d, io)
      ensures d.Base64? ==> CameTo(old(fs.files), fs.files, at.data, Blob(d.bytes), io.dataWrite)
    {
      if d.NotBase64? {
        return false;
      }
      ok := fs.WriteFile(at.data, Blob(d.bytes), io.dataWrite);
    }

    method EnrollDevice(io: EnrollIO) returns (r: Option<Enrollment>)
      modifies fs, this
      ensures Checked(r, fs.files, posted) == Enrolled(old(fs.files), settings, at, io).(posted := posted)
      ensures posted == old(posted) + Enrolled(old(fs.files), settings, at, io).posted
      ensures r.Some? && r.value.deviceData.Base64? ==>
                at.data in fs.files && fs.files[at.data] == Blob(r.value.deviceData.bytes)
      ensures r.Some? && io.marshals && settings.credentialsPath != at.data ==>
                Cached(fs.files, settings.credentialsPath) == r
    {
      var data := GetEncodedAssertions(io);
      if data.None? {
        return None;
      }
      var e := SendEnrollmentRequest(data.value, io);
      if e.None? {
        return None;
      }
      var ok := StoreCredentials(e.value, io);
      if !ok {
        return None;
      }
      if !e.value.deviceData.NoDeviceData? {
        ok := StoreDeviceData(e.value.deviceData, io);
        if !ok {
          return None;
        }
      }
      r := e;
    }

    method CheckEnrollment(io: EnrollIO) returns (r: Option<Enrollment>)
      modifies fs, this
      ensures r == Check(old(fs.files), settings, at, io).result
      ensures fs.files == Check(old(fs.files), settings, at, io).files
      ensures posted == old(posted) + Check(old(fs.files), settings, at, io).posted
    {
      r := GetCredentials(io);
      if r.Some? {
        return;
      }
      r := EnrollDevice(io);
    }
  }

  /** A request with an empty body is sent exactly when snapd, without failing, has no model
      assertion or has one but no serial assertion; any other request carries the first of each. */
  lemma EmptyRequestExact(files: Files, settings: Settings, at: Places, io: EnrollIO)
    ensures Check(files, settings, at, io).posted == [""]
       <==> && io.urlParses
            && !(io.readable && Cached(files, settings.credentialsPath).Some?)
            && (io.model == Known([]) || (io.model.Known? && io.model.assertions != [] && io.serial == Known([])))
    ensures var posted := Check(files, settings, at, io).posted;
            posted != [] && posted != [""] ==>
              && io.model.Known? && io.model.assertions != [] && io.serial.Known? && io.serial.assertions != []
              && posted == [io.model.assertions[0] + "\n" + io.serial.assertions[0]]
  {
    if io.model.Known? && io.model.assertions != [] && io.serial.Known? && io.serial.assertions != [] {
      assert |EncodedAssertions(io).value| > 0;
    }
  }

  /** Where credentials go never is where device data goes, so the cache survives the second write. */
  lemma CacheSurvivesData(files: Files, path: string, at: Places, d: DeviceData, io: EnrollIO)
    requires path != at.data
    ensures Cached(DataStored(files, at, d, io).files, path) == Cached(files, path)
  {
  }

  /** Which files decode, and to what: a stored enrolment to itself, and any other JSON object to the enrolment
      without members; device data and a file that breaks off do not decode. */
  lemma CachedExact(files: Files, path: string)
    ensures var c := Cached(files, path);
            && (c.Some? <==> path in files && !files[path].Blob? && !files[path].Torn?)
            && (forall e :: path in files && files[path] == EnrollmentDoc(e) ==> c == Some(e))
            && (path in files && files[path].ParamsDoc? ==>
                  c.Some? && c.value.id == c.value.orgID == "" && c.value.deviceData.NoDeviceData?
                  && !c.value.credentials.keyPairLoads)
  {
  }

  /** After any check at all that left a decodable credentials file, every later check with a
      readable file returns that enrolment, sends nothing and changes nothing on disk. */
  lemma CacheAnswers(files: Files, settings: Settings, at: Places, io: EnrollIO, later: EnrollIO)
    requires later.readable
    ensures var after := Check(files, settings, at, io).files;
            Cached(after, settings.credentialsPath).Some?
            ==> Check(after, settings, at, later)
                == Checked(Cached(after, settings.credentialsPath), after, [])
  {
  }

  /** A successful enrolment over a file that did not decode answers every later readable check
      with the same enrolment and no request exactly when the enrolment could be serialised. */
  lemma EnrolmentCachedExact(files: Files, settings: Settings, at: Places, io: EnrollIO, later: EnrollIO)
    requires settings.credentialsPath != at.data
    requires Cached(files, settings.credentialsPath).None?
    requires Check(files, settings, at, io).result.Some?
    requires later.readable
    ensures var first := Check(files, settings, at, io);
            && first.result == Some(io.reply.enrollment)
            && |first.posted| == 1
            && (Check(first.files, settings, at, later) == Checked(first.result, first.files, [])
                <==> io.marshals)
  {
    var e := io.reply.enrollment;
    var creds := CredentialsStored(files, settings.credentialsPath, e, io);
    CacheSurvivesData(creds.files, settings.credentialsPath, at, e.deviceData, io);
    var first := Check(files, settings, at, io);
    var again := Check(first.files, settings, at, later);
    if !io.marshals {
      assert Cached(first.files, settings.credentialsPath).None?;
      if again.result.Some? {
        assert |again.posted| == 1;
      }
    }
  }

  /** The reply that ends a gathering and a request that both went well. */
  predicate Answered(files: Files, settings: Settings, io: EnrollIO) {
    && !(io.readable && Cached(files, settings.credentialsPath).Some?)
    && EncodedAssertions(io).Some? && io.urlParses && io.reply.Reply? && io.reply.code == ""
  }

  /** The device data file is touched only when a reply came back, and then the credentials
      file already holds the enrolment of that very reply if it could be serialised. */
  lemma DataOnlyAfterCredentials(files: Files, settings: Settings, at: Places, io: EnrollIO)
    requires settings.credentialsPath != at.data
    ensures var after := Check(files, settings, at, io).files;
            (at.data in files) != (at.data in after)
            || (at.data in files && files[at.data] != after[at.data])
            ==> && Answered(files, settings, io)
                && io.reply.enrollment.deviceData.Base64?
                && (io.marshals ==> io.credentialsWrite == Written
                                    && Cached(after, settings.credentialsPath) == Some(io.reply.enrollment))
  {
    if io.reply.Reply? {
      var e := io.reply.enrollment;
      var creds := CredentialsStored(files, settings.credentialsPath, e, io);
      CacheSurvivesData(creds.files, settings.credentialsPath, at, e.deviceData, io);
    }
  }

  /** The credentials file is written if and only if an enrolment was answered and can be serialised: then it holds that
      enrolment, or what the write came to; and it is as before otherwise. */
  lemma CredentialsExact(files: Files, settings: Settings, at: Places, io: EnrollIO)
    requires settings.credentialsPath != at.data
    ensures var after := Check(files, settings, at, io).files;
            if Answered(files, settings, io) && io.marshals
            then CameTo(files, after, settings.credentialsPath, EnrollmentDoc(io.reply.enrollment), io.credentialsWrite)
            else SameFile(files, after, settings.credentialsPath)
  {
  }

  /** The device data file is written if and only if, besides, the credentials were stored without an error
      and the device data is base64: then it holds the decoded bytes, or what the write came
      to; it is as before otherwise, and so is every file but these two. */
  lemma DeviceDataExact(files: Files, settings: Settings, at: Places, io: EnrollIO)
    requires settings.credentialsPath != at.data
    ensures var after := Check(files, settings, at, io).files;
            && (if Answered(files, settings, io) && (io.marshals ==> io.credentialsWrite == Written)
                   && io.reply.enrollment.deviceData.Base64?
                then CameTo(files, after, at.data, Blob(io.reply.enrollment.deviceData.bytes), io.dataWrite)
                else SameFile(files, after, at.data))
            && forall p :: p != at.data && p != settings.credentialsPath ==> SameFile(files, after, p)
  {
  }

  /** A check succeeds with the cached enrolment; or with the answered one, if and only if it was stored or dropped
      without an error and its device data, if any, decoded and was written; a request is sent exactly
      when there is no readable cached enrolment, the assertions could be had and the URL parses. */
  lemma CheckExact(files: Files, settings: Settings, at: Places, io: EnrollIO)
    ensures var c := Check(files, settings, at, io);
            var cached := Cached(files, settings.credentialsPath);
            if io.readable && cached.Some? then c.result == cached && c.posted == []
            else
              && (c.result.Some? <==>
                    && Answered(files, settings, io) && (io.marshals ==> io.credentialsWrite == Written)
                    && var d := io.reply.enrollment.deviceData;
                       !d.NotBase64? && (d.Base64? ==> io.dataWrite == Written))
              && (c.result.Some? ==> c.result.value == io.reply.enrollment)
              && |c.posted| <= 1
              && (c.posted != [] <==>
                    io.model.Known? && (io.model.assertions == [] || io.serial.Known?) && io.urlParses)
  {
  }

  /** A check that stored the credentials and then failed on the device data is absorbed: the
      next readable check returns that enrolment from the cache, with no request, and
      does not make up for the device data. */
  lemma DeviceDataFailureAbsorbed(files: Files, settings: Settings, at: Places, io: EnrollIO, later: EnrollIO)
    requires settings.credentialsPath != at.data
    requires Answered(files, settings, io) && io.marshals && io.credentialsWrite == Written
    requires later.readable
    ensures var d := io.reply.enrollment.deviceData;
            var first := Check(files, settings, at, io);
            && (first.result.None? <==> d.NotBase64? || (d.Base64? && io.dataWrite != Written))
            && Check(first.files, settings, at, later)
               == Checked(Some(io.reply.enrollment), first.files, [])
  {
    var e := io.reply.enrollment;
    var creds := CredentialsStored(files, settings.credentialsPath, e, io);
    CacheSurvivesData(creds.files, settings.credentialsPath, at, e.deviceData, io);
  }
}

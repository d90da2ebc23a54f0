/** config/config.go: the stored parameters, their defaults and their removal. */
module Config {
  import opened Disk
  import opened Paths

  const DefaultIdentityURL := "http://localhost:8030"
  const DefaultCredentialsPath := ".secret"
  const ParamsFilename := "params"

  datatype Settings = Settings(identityURL: string, credentialsPath: string)

  function Defaults(at: Places): Settings {
    Settings(DefaultIdentityURL, at.secret)
  }

  /** Empty parameters replaced by their defaults. */
  function Normalise(at: Places, c: Settings): Settings {
    Settings(if c.identityURL == "" then DefaultIdentityURL else c.identityURL,
             if c.credentialsPath == "" then at.secret else c.credentialsPath)
  }

  function Serialised(c: Settings): Contents {
    ParamsDoc(Str(c.identityURL), Str(c.credentialsPath))
  }

  /** json.Unmarshal over a struct that already holds defaults: only string members overwrite. */
  function Overlay(c: Settings, doc: Contents): Settings {
    if doc.ParamsDoc? then
      Settings(if doc.url.Str? then doc.url.s else c.identityURL,
               if doc.path.Str? then doc.path.s else c.credentialsPath)
    else c
  }

  /** What reading the params file comes to; write matters only when the read fails. */
  datatype ReadIO = ReadIO(readable: bool, write: WriteOutcome)

  function Stored(files: Files, at: Places, c: Settings, w: WriteOutcome): Files {
    AfterWrite(files, at.params, Serialised(Normalise(at, c)), w)
  }

  function SettingsRead(files: Files, at: Places, readable: bool): Settings {
    if readable && at.params in files then Overlay(Defaults(at), files[at.params]) else Defaults(at)
  }

  function FilesAfterRead(files: Files, at: Places, io: ReadIO): Files {
    if io.readable && at.params in files then files else Stored(files, at, Defaults(at), io.write)
  }

  /** osutil.FileExists reports a file it cannot stat as absent; os.Remove may fail. */
  datatype RemoveIO = RemoveIO(paramsStat: bool, paramsGoes: bool, secretStat: bool, secretGoes: bool)

  datatype Removal = Removal(files: Files, ok: bool)

  function RemoveOne(files: Files, path: string, stat: bool, goes: bool): Removal {
    if path in files && stat then
      if goes then Removal(files - {path}, true) else Removal(files, false)
    else Removal(files, true)
  }

  function Removed(files: Files, at: Places, io: RemoveIO): Removal {
    var first := RemoveOne(files, at.params, io.paramsStat, io.paramsGoes);
    if !first.ok then first else RemoveOne(first.files, at.secret, io.secretStat, io.secretGoes)
  }

  /** Every file that is there and can be seen can be removed. */
  predicate Removable(files: Files, at: Places, io: RemoveIO) {
    && (at.params in files && io.paramsStat ==> io.paramsGoes)
    && (at.secret in files && io.secretStat ==> io.secretGoes)
  }

  method StoreParameters(fs: FileSystem, env: Env, c: Settings, w: WriteOutcome) returns (ok: bool)
    modifies fs
    ensures fs.files == Stored(old(fs.files), PlacesOf(env), c, w)
    ensures ok <==> w == Written
  {
    var url, path := c.identityURL, c.credentialsPath;
    if |url| == 0 {
      url := DefaultIdentityURL;
    }
    if |path| == 0 {
      path := GetPath(env, DefaultCredentialsPath);
    }
    ok := fs.WriteFile(GetPath(env, ParamsFilename), ParamsDoc(Str(url), Str(path)), w);
  }

  method ReadParameters(fs: FileSystem, env: Env, io: ReadIO) returns (c: Settings)
    modifies fs
    ensures c == SettingsRead(old(fs.files), PlacesOf(env), io.readable)
    ensures fs.files == FilesAfterRead(old(fs.files), PlacesOf(env), io)
  {
    c := Settings(DefaultIdentityURL, GetPath(env, DefaultCredentialsPath));
    var dat := fs.ReadFile(GetPath(env, ParamsFilename), io.readable);
    if dat.None? {
      var _ := StoreParameters(fs, env, c, io.write);
      return;
    }
    c := Overlay(c, dat.value);
  }

  method RemoveParameters(fs: FileSystem, env: Env, io: RemoveIO) returns (ok: bool)
    modifies fs
    ensures Removal(fs.files, ok) == Removed(old(fs.files), PlacesOf(env), io)
    ensures ok <==> Removable(old(fs.files), PlacesOf(env), io)
    ensures var at := PlacesOf(env);
            ok ==> && (at.params in fs.files <==> at.params in old(fs.files) && !io.paramsStat)
                   && (at.secret in fs.files <==> at.secret in old(fs.files) && !io.secretStat)
  {
    RemovalExact(fs.files, PlacesOf(env), io);
    ok := true;
    if GetPath(env, ParamsFilename) in fs.files && io.paramsStat {
      ok := fs.Remove(GetPath(env, ParamsFilename), io.paramsGoes);
      if !ok {
        return;
      }
    }
    if GetPath(env, DefaultCredentialsPath) in fs.files && io.secretStat {
      ok := fs.Remove(GetPath(env, DefaultCredentialsPath), io.secretGoes);
    }
  }

  /** What a successful StoreParameters wrote is what a readable ReadParameters returns,
      with the empty members defaulted and nothing else on disk touched. */
  lemma SettingsRoundTrip(files: Files, at: Places, c: Settings)
    ensures var after := Stored(files, at, c, Written);
            && SettingsRead(after, at, true) == Normalise(at, c)
            && FilesAfterRead(after, at, ReadIO(true, NotOpened)) == after
            && after - {at.params} == files - {at.params}
            && Stored(after, at, SettingsRead(after, at, true), Written) == after
  {
    var after := Stored(files, at, c, Written);
    assert |DefaultIdentityURL| > 0;
    assert after - {at.params} == files - {at.params};
  }

  /** Normalising twice is normalising once, and changes exactly the settings with an empty member. */
  lemma NormaliseIdempotent(at: Places, c: Settings)
    ensures Normalise(at, Normalise(at, c)) == Normalise(at, c)
    ensures Normalise(at, c) == c <==> c.identityURL != "" && c.credentialsPath != ""
  {
    assert |DefaultIdentityURL| > 0;
  }

  /** Starting up leaves the stored document alone exactly when it was readable or could not be
      opened for writing, or already held the defaults: a params file that cannot be read
      is overwritten, and the configured identity URL is lost. */
  lemma UnreadableParamsOverwritten(files: Files, at: Places, io: ReadIO)
    requires at.params in files
    ensures FilesAfterRead(files, at, io) == files
       <==> (io.readable || io.write == NotOpened
             || files[at.params] == (if io.write == CutShort then Torn else Serialised(Defaults(at))))
  {
    assert |DefaultIdentityURL| > 0;
    assert Normalise(at, Defaults(at)) == Defaults(at);
    var after := FilesAfterRead(files, at, io);
    if after[at.params] == files[at.params] {
      assert after == files;
    }
  }

  /** Each setting is the file's own member if the file can be read, holds a JSON object and the member is a
      string there, and the default otherwise. */
  lemma SettingsReadExact(files: Files, at: Places, readable: bool)
    ensures var c := SettingsRead(files, at, readable);
            var doc := readable && at.params in files && files[at.params].ParamsDoc?;
            && (doc && files[at.params].url.Str? ==> Str(c.identityURL) == files[at.params].url)
            && (!(doc && files[at.params].url.Str?) ==> c.identityURL == "http://localhost:8030")
            && (doc && files[at.params].path.Str? ==> Str(c.credentialsPath) == files[at.params].path)
            && (!(doc && files[at.params].path.Str?) ==> c.credentialsPath == at.secret)
  {
  }

  /** What storing leaves: the parameters with no empty member, a torn file, or the old one; nothing else changes. */
  lemma ParamsStoredExact(files: Files, at: Places, c: Settings, w: WriteOutcome)
    ensures var after := Stored(files, at, c, w);
            && (w == Written || w == Unconfirmed ==>
                  && at.params in after && after[at.params].ParamsDoc?
                  && after[at.params].url == Str(if c.identityURL != "" then c.identityURL else "http://localhost:8030")
                  && after[at.params].path == Str(if c.credentialsPath != "" then c.credentialsPath else at.secret))
            && (w == CutShort ==> at.params in after && after[at.params] == Torn)
            && (w == NotOpened ==> SameFile(files, after, at.params))
            && forall p :: p != at.params ==> SameFile(files, after, p)
  {
  }

  /** A removal succeeds if and only if every file that is there and can be seen can be removed; then exactly those are
      gone. When it fails, the credentials are still there, and params is gone exactly
      if it could be removed itself. */
  lemma RemovalExact(files: Files, at: Places, io: RemoveIO)
    ensures var r := Removed(files, at, io);
            && (r.ok <==> Removable(files, at, io))
            && (r.ok ==>
                  && (at.params in r.files <==> at.params in files && !io.paramsStat)
                  && (at.secret in r.files <==> at.secret in files && !io.secretStat))
            && (!r.ok ==>
                  && SameFile(files, r.files, at.secret)
                  && (at.params in r.files <==> at.params in files && !(io.paramsStat && io.paramsGoes)))
            && (forall p :: p in r.files ==> SameFile(files, r.files, p))
            && (forall p :: p != at.params && p != at.secret ==> SameFile(files, r.files, p))
  {
  }

  /** A removal that reports success left neither file behind exactly when every file that was
      there could be seen; one that reports failure left one of the two files in place. */
  lemma RemovalComplete(files: Files, at: Places, io: RemoveIO)
    ensures var r := Removed(files, at, io);
            && (r.ok ==> ((at.params !in r.files && at.secret !in r.files)
                         <==> ((at.params in files ==> io.paramsStat)
                               && (at.secret in files ==> io.secretStat))))
            && (!r.ok ==> (at.params in r.files && r.files == files) || at.secret in r.files)
            && (forall p :: p in files && p != at.params && p != at.secret
                 ==> p in r.files && r.files[p] == files[p])
  {
  }
}

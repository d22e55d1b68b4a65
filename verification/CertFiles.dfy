/** internal/tools/certs/certs.go: replacing the certificate and key files. */
module CertFiles {
  import opened Wrappers

  /** A file is whole, or torn by a write that has not finished. */
  datatype Content = Whole(bytes: string) | Torn

  type Files = map<string, Content>

  const CERT := "tls.crt"
  const KEY := "tls.key"
  const CERT_TMP := "tls.crt.tmp"
  const KEY_TMP := "tls.key.tmp"

  /** A directory; `history` holds every state it went through. */
  class Directory {
    var files: Files
    ghost var history: seq<Files>

    constructor (files: Files)
      ensures this.files == files && history == [files]
    {
      this.files, history := files, [files];
    }

    method Create(name: string, ok: bool)
      modifies this
      ensures files == if ok then old(files)[name := Torn] else old(files)
      ensures history == old(history) + [files]
    {
      if ok {
        files := files[name := Torn];
      }
      history := history + [files];
    }

    method Write(name: string, bytes: string, ok: bool)
      modifies this
      ensures files == old(files)[name := if ok then Whole(bytes) else Torn]
      ensures history == old(history) + [files]
    {
      files := files[name := if ok then Whole(bytes) else Torn];
      history := history + [files];
    }

    method Remove(name: string)
      modifies this
      ensures files == old(files) - {name}
      ensures history == old(history) + [files]
    {
      files := files - {name};
      history := history + [files];
    }

    /** Atomic: readers see the old or the new file, never a mixture. */
    method Rename(from: string, to: string, ok: bool)
      requires from in files
      modifies this
      ensures files == if ok then (old(files) - {from})[to := old(files)[from]] else old(files)
      ensures history == old(history) + [files]
    {
      if ok {
        files := (files - {from})[to := files[from]];
      }
      history := history + [files];
    }
  }

  /** Which of the steps of an update succeed; the decoded contents are absent when base64 is invalid. */
  datatype Steps = Steps(cert: Option<string>, key: Option<string>, mkdir: bool, createCert: bool, writeCert: bool,
                         createKey: bool, writeKey: bool, renameCert: bool, renameKey: bool)
  {
    /** Everything up to the first rename. */
    predicate Prepared()
    {
      cert.Some? && key.Some? && mkdir && createCert && writeCert && createKey && writeKey
    }

    predicate Succeeds()
    {
      Prepared() && renameCert && renameKey
    }
  }

  /** The served file `name` is untouched, or wholly the new one. */
  ghost predicate OldOrNew(before: Files, now: Files, name: string, new_: Option<string>)
  {
    || Same(before, now, name)
    || (new_.Some? && name in now && now[name] == Whole(new_.value))
  }

  ghost predicate Intact(before: Files, now: Files, s: Steps)
  {
    OldOrNew(before, now, CERT, s.cert) && OldOrNew(before, now, KEY, s.key)
  }

  ghost predicate Same(before: Files, now: Files, name: string)
  {
    (name in now <==> name in before) && (name in now ==> now[name] == before[name])
  }

  /** Every state a directory went through since its history had `from` entries is intact. */
  ghost predicate AlwaysIntact(before: Files, history: seq<Files>, from: nat, s: Steps)
  {
    forall i :: from <= i < |history| ==> Intact(before, history[i], s)
  }

  /** No state since `from` touched a served file. */
  ghost predicate Untouched(before: Files, history: seq<Files>, from: nat)
  {
    forall i :: from <= i < |history| ==> Same(before, history[i], CERT) && Same(before, history[i], KEY)
  }

  method WriteCertTemporary(dir: Directory, s: Steps) returns (ok: bool)
    requires s.cert.Some? && s.key.Some? && s.mkdir
    modifies dir
    ensures ok <==> s.createCert && s.writeCert
    ensures old(dir.history) <= dir.history && Untouched(old(dir.files), dir.history, |old(dir.history)|)
    ensures Same(old(dir.files), dir.files, CERT) && Same(old(dir.files), dir.files, KEY)
    ensures ok ==> CERT_TMP in dir.files && dir.files[CERT_TMP] == Whole(s.cert.value)
    ensures !ok && s.createCert ==> CERT_TMP !in dir.files
  {
    dir.Create(CERT_TMP, s.createCert);
    if !s.createCert {
      return false;
    }
    dir.Write(CERT_TMP, s.cert.value, s.writeCert);
    if !s.writeCert {
      dir.Remove(CERT_TMP);
      return false;
    }
    ok := true;
  }

  method WriteKeyTemporary(dir: Directory, s: Steps) returns (ok: bool)
    requires s.key.Some? && CERT_TMP in dir.files
    modifies dir
    ensures ok <==> s.createKey && s.writeKey
    ensures old(dir.history) <= dir.history && Untouched(old(dir.files), dir.history, |old(dir.history)|)
    ensures Same(old(dir.files), dir.files, CERT) && Same(old(dir.files), dir.files, KEY)
    ensures ok ==> CERT_TMP in dir.files && dir.files[CERT_TMP] == old(dir.files)[CERT_TMP]
                   && KEY_TMP in dir.files && dir.files[KEY_TMP] == Whole(s.key.value)
    ensures !ok ==> CERT_TMP !in dir.files
  {
    dir.Create(KEY_TMP, s.createKey);
    if !s.createKey {
      dir.Remove(CERT_TMP);
      return false;
    }
    dir.Write(KEY_TMP, s.key.value, s.writeKey);
    if !s.writeKey {
      dir.Remove(CERT_TMP);
      dir.Remove(KEY_TMP);
      return false;
    }
    ok := true;
  }

  /** Then each is renamed over the file it replaces. */
  method PublishFiles(dir: Directory, s: Steps) returns (ok: bool)
    requires s.Prepared()
    requires CERT_TMP in dir.files && dir.files[CERT_TMP] == Whole(s.cert.value)
    requires KEY_TMP in dir.files && dir.files[KEY_TMP] == Whole(s.key.value)
    modifies dir
    ensures ok <==> s.Succeeds()
    ensures old(dir.history) <= dir.history
    ensures AlwaysIntact(old(dir.files), dir.history, |old(dir.history)|, s)
    ensures if s.renameCert then CERT in dir.files && dir.files[CERT] == Whole(s.cert.value)
            else Same(old(dir.files), dir.files, CERT)
    ensures if ok then KEY in dir.files && dir.files[KEY] == Whole(s.key.value)
            else Same(old(dir.files), dir.files, KEY)
    ensures CERT_TMP !in dir.files && KEY_TMP !in dir.files
  {
    dir.Rename(CERT_TMP, CERT, s.renameCert);
    if !s.renameCert {
      dir.Remove(CERT_TMP);
      dir.Remove(KEY_TMP);
      return false;
    }
    dir.Rename(KEY_TMP, KEY, s.renameKey);
    if !s.renameKey {
      dir.Remove(KEY_TMP);
      return false;
    }
    ok := true;
  }

  lemma IntactThrough(before: Files, middle: Files, now: Files, s: Steps)
    requires Same(before, middle, CERT) && Same(before, middle, KEY) && Intact(middle, now, s)
    ensures Intact(before, now, s)
  {
  }

  /**
   * Whichever step fails, a reader finds each served file wholly old or wholly new at every moment.
   * A failure before the first rename leaves both as they were; a failure between the renames leaves
   * a new certificate beside the old key. No temporary file is left behind once one was created.
   */
  method UpdateCerts(dir: Directory, s: Steps) returns (ok: bool)
    modifies dir
    ensures ok <==> s.Succeeds()
    ensures old(dir.history) <= dir.history
    ensures AlwaysIntact(old(dir.files), dir.history, |old(dir.history)|, s)
    ensures if s.Prepared() && s.renameCert then CERT in dir.files && dir.files[CERT] == Whole(s.cert.value)
            else Same(old(dir.files), dir.files, CERT)
    ensures if ok then KEY in dir.files && dir.files[KEY] == Whole(s.key.value)
            else Same(old(dir.files), dir.files, KEY)
    ensures s.cert.Some? && s.key.Some? && s.mkdir && s.createCert ==> CERT_TMP !in dir.files
  {
    if s.cert.None? || s.key.None? || !s.mkdir {
      return false;
    }
    ghost var before, start := dir.files, |dir.history|;
    ok := WriteCertTemporary(dir, s);
    if !ok {
      return;
    }
    ghost var first := dir.history;
    ok := WriteKeyTemporary(dir, s);
    ghost var middle, second := dir.files, dir.history;
    forall i | start <= i < |second| ensures Same(before, second[i], CERT) && Same(before, second[i], KEY) {
      assert i < |first| ==> second[i] == first[i];
    }
    if !ok {
      return;
    }
    ok := PublishFiles(dir, s);
    forall i | start <= i < |dir.history| ensures Intact(before, dir.history[i], s) {
      if i < |second| {
        assert dir.history[i] == second[i];
      } else {
        IntactThrough(before, middle, dir.history[i], s);
      }
    }
  }
}

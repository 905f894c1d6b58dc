/** Worker settings, and the event the watcher builds for a file (worker/src/config.py, worker/src/watcher.py). */
module Detection {
  import opened Common
  import opened Schema
  import Decimal
  import KeyEncoding
  import Utf8

  /** RETRY_BACKOFF_BASE; a negative base has no meaning as a delay. */
  type Base = b: real | b >= 0.0

  datatype Config = Config(
    watchDir: string,
    s3Bucket: string,
    s3Region: string,
    gcsBucket: string,
    maxAttempts: int,
    backoffBase: Base,
    concurrency: nat,
    fileLimit: int,
    hashes: KeyEncoding.Hashes,
    validators: Validators)

  /** basic_qos(prefetch_count=max(1, upload_max_concurrency)) */
  function Prefetch(cfg: Config): nat {
    if cfg.concurrency > 1 then cfg.concurrency else 1
  }

  /** The observer reports normalised paths below the watched directory. */
  predicate InWatchDir(cfg: Config, path: string) {
    cfg.watchDir + "/" <= path
  }

  /** os.path.relpath(path, watch_dir) for a path below the watched directory. */
  function RelativeKey(cfg: Config, path: string): string {
    if InWatchDir(cfg, path) then path[|cfg.watchDir| + 1..] else path
  }

  /** The relative path is what follows the watched directory and one slash. */
  lemma RelativeKeyExact(cfg: Config, path: string)
    ensures InWatchDir(cfg, path) ==> cfg.watchDir + "/" + RelativeKey(cfg, path) == path
    ensures forall key :: cfg.watchDir + "/" + key == path ==> InWatchDir(cfg, path) && RelativeKey(cfg, path) == key
  {
    forall key | cfg.watchDir + "/" + key == path ensures InWatchDir(cfg, path) && RelativeKey(cfg, path) == key {
      assert path[..|cfg.watchDir| + 1] == cfg.watchDir + "/" && path[|cfg.watchDir| + 1..] == key;
    }
  }

  lemma RelativeKeyInjective(cfg: Config, path: string, path': string)
    requires InWatchDir(cfg, path) && InWatchDir(cfg, path')
    requires RelativeKey(cfg, path) == RelativeKey(cfg, path')
    ensures path == path'
  {
    var prefix := cfg.watchDir + "/";
    assert path == prefix + path[|prefix|..] && path' == prefix + path'[|prefix|..];
  }

  /** The part after the last `c`, or everything when there is none. */
  function AfterLast(s: string, c: char): (r: string)
    ensures |r| <= |s|
  {
    if s == [] || s[|s| - 1] == c then [] else AfterLast(s[..|s| - 1], c) + [s[|s| - 1]]
  }

  function Lower(s: string): string {
    seq(|s|, i requires 0 <= i < |s| => if 'A' <= s[i] <= 'Z' then (s[i] as int + 32) as char else s[i])
  }

  /** guess_content_type: by the extension; leading dots of a name do not start an extension. */
  function ContentType(path: string): string {
    var name := AfterLast(path, '/');
    var extension := AfterLast(name, '.');
    TypeFor(name[..|name| - |extension|], extension)
  }

  function TypeFor(stem: string, extension: string): string {
    if !exists c :: c in stem && c != '.' then "application/octet-stream"
    else if Lower(extension) == "csv" then "text/csv"
    else if Lower(extension) == "json" then "application/json"
    else if Lower(extension) == "txt" then "text/plain"
    else "application/octet-stream"
  }

  /** The name of a file is what follows the last slash. */
  lemma {:induction false} AfterLastExact(before: string, c: char, after: string)
    requires c !in after && (before == [] || before[|before| - 1] == c)
    ensures AfterLast(before + after, c) == after
  {
    var s := before + after;
    if after == [] {
      assert s == before;
    } else {
      var n := |after| - 1;
      assert s[|s| - 1] == after[n] && s[..|s| - 1] == before + after[..n];
      AfterLastExact(before, c, after[..n]);
      assert after[..n] + [after[n]] == after;
    }
  }

  /** Letter by letter one of two spellings. */
  predicate Spelled(s: string, small: string, capital: string)
    requires |small| == |capital|
  {
    |s| == |small| && forall i :: 0 <= i < |s| ==> s[i] == small[i] || s[i] == capital[i]
  }

  lemma LowerIs(s: string, small: string, capital: string)
    requires |small| == |capital|
    requires forall i :: 0 <= i < |small| ==> 'a' <= small[i] <= 'z' && capital[i] as int + 32 == small[i] as int
    ensures Lower(s) == small <==> Spelled(s, small, capital)
  {
    assert |Lower(s)| == |s|;
    assert forall i :: 0 <= i < |s| ==> Lower(s)[i] == if 'A' <= s[i] <= 'Z' then (s[i] as int + 32) as char else s[i];
    if Lower(s) == small {
      assert forall i :: 0 <= i < |s| ==> Lower(s)[i] == small[i];
    }
  }

  lemma PathParts(dir: string, stem: string, ext: string)
    requires '/' !in stem && '/' !in ext && '.' !in ext && (dir == "" || dir[|dir| - 1] == '/')
    requires stem == [] || stem[|stem| - 1] == '.'
    ensures ContentType(dir + (stem + ext)) == TypeFor(stem, ext)
  {
    hide AfterLast, TypeFor;
    assert '/' !in stem + ext;
    AfterLastExact(dir, '/', stem + ext);
    AfterLastExact(stem, '.', ext);
    assert (stem + ext)[..|stem + ext| - |ext|] == stem;
  }

  /** The extension counts in any mixture of capital and small letters. */
  lemma ContentTypeExact(dir: string, stem: string, ext: string)
    requires '/' !in stem && '/' !in ext && '.' !in ext && (dir == "" || dir[|dir| - 1] == '/')
    requires exists c :: c in stem && c != '.'
    ensures ContentType(dir + (stem + "." + ext)) ==
            if Spelled(ext, "csv", "CSV") then "text/csv"
            else if Spelled(ext, "json", "JSON") then "application/json"
            else if Spelled(ext, "txt", "TXT") then "text/plain"
            else "application/octet-stream"
  {
    hide ContentType, Lower, Spelled;
    PathParts(dir, stem + ".", ext);
    var c :| c in stem && c != '.';
    assert c in stem + ".";
    LowerIs(ext, "csv", "CSV");
    LowerIs(ext, "json", "JSON");
    LowerIs(ext, "txt", "TXT");
  }

  /** A name without a dot, or with leading dots only, has no extension. */
  lemma NoExtension(dir: string, dots: string, rest: string)
    requires (forall c :: c in dots ==> c == '.') && '/' !in rest && '.' !in rest && (dir == "" || dir[|dir| - 1] == '/')
    ensures ContentType(dir + (dots + rest)) == "application/octet-stream"
  {
    hide ContentType, Lower;
    assert dots != [] ==> dots[|dots| - 1] in dots;
    PathParts(dir, dots, rest);
  }

  function Destinations(cfg: Config, path: string): seq<Destination> {
    [ Destination("aws-s3", cfg.s3Bucket, RelativeKey(cfg, path), Some(cfg.s3Region)),
      Destination("gcp-gcs", cfg.gcsBucket, RelativeKey(cfg, path), None) ]
  }

  function Key(cfg: Config, path: string, content: Content): string {
    KeyEncoding.KeyOf(cfg.hashes, path, content)
  }

  /** build_event; size and checksum are taken of one reading of the file. */
  function BuildEvent(cfg: Config, path: string, content: Content,
                      eventId: string, correlationId: string, occurredAt: string): TransferEvent {
    TransferEvent(
      "1.0",
      "file.transfer.requested",
      eventId,
      correlationId,
      Key(cfg, path, content),
      occurredAt,
      Source("sftp", path),
      FileMeta(AfterLast(path, '/'), |content|, cfg.hashes.sha256(content), Some(ContentType(path))),
      Destinations(cfg, path),
      None)
  }

  /** Everything the event of a file says, for a file called `name` that lies `key` below the watched directory. */
  lemma EventSays(cfg: Config, path: string, dir: string, name: string, key: string, content: Content,
                  eventId: string, correlationId: string, occurredAt: string)
    requires path == dir + name && '/' !in name && (dir == "" || dir[|dir| - 1] == '/')
    requires path == cfg.watchDir + "/" + key
    ensures var checksum := cfg.hashes.sha256(content);
            BuildEvent(cfg, path, content, eventId, correlationId, occurredAt) == TransferEvent(
              "1.0",
              "file.transfer.requested",
              eventId,
              correlationId,
              "sha256:" + cfg.hashes.hmac(Utf8.Encode(path + "|" + Decimal.Print(|content|) + "|" + checksum)),
              occurredAt,
              Source("sftp", path),
              FileMeta(name, |content|, checksum, Some(ContentType(path))),
              [ Destination("aws-s3", cfg.s3Bucket, key, Some(cfg.s3Region)),
                Destination("gcp-gcs", cfg.gcsBucket, key, None) ],
              None)
  {
    hide ContentType, AfterLast, Utf8.Encode, Decimal.Print, RelativeKey;
    AfterLastExact(dir, '/', name);
    RelativeKeyExact(cfg, path);
  }

  /** Hypothesis: both digests print as 64 hexadecimal characters. */
  ghost predicate HexDigests(h: KeyEncoding.Hashes) {
    (forall c :: KeyEncoding.IsChecksum(h.sha256(c))) && (forall c :: KeyEncoding.IsChecksum(h.hmac(c)))
  }

  lemma VersionOneDotZero()
    ensures IsVersion("1.0") && forall e: TransferEvent :: e.schemaVersion == "1.0" ==> Supported(e)
  {
    var v := "1.0";
    assert v == "1" + ".0";
    Decimal.SpanExact("1", ".0");
    assert v[2..] == "0" && v[..1] == "1" && "1"[..0] == "";
  }

  /** With well-formed identifiers every event the watcher builds is valid and supported. */
  lemma BuiltEventIsValid(cfg: Config, path: string, content: Content,
                          eventId: string, correlationId: string, occurredAt: string)
    requires HexDigests(cfg.hashes)
    requires cfg.validators.isUuid(eventId) && cfg.validators.isUuid(correlationId)
    requires cfg.validators.isTimestamp(occurredAt)
    ensures var e := BuildEvent(cfg, path, content, eventId, correlationId, occurredAt);
            WellFormed(cfg.validators, e) && Supported(e)
  {
    VersionOneDotZero();
    var key := Key(cfg, path, content);
    var digest := key[7..];
    assert KeyEncoding.IsChecksum(digest);
    assert KeyEncoding.IsHex(digest[63]) && Chomp(digest) == digest by {
      assert digest[63] in digest;
    }
    var sum := cfg.hashes.sha256(content);
    assert KeyEncoding.IsChecksum(sum) && sum[63] in sum;
  }
}

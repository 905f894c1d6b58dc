/** The transfer event and its validation (worker/src/schema.py). */
module Schema {
  import opened Common
  import Decimal
  import KeyEncoding

  const SUPPORTED_SCHEMA_MAJOR: nat := 1

  datatype Source = Source(provider: string, path: string)

  datatype FileMeta = FileMeta(name: string, sizeBytes: int, checksumSha256: string, contentType: Option<string>)

  datatype Destination = Destination(provider: string, bucket: string, key: string, region: Option<string>)

  datatype RetryInfo = RetryInfo(attempt: int, maxAttempts: int, lastError: Option<string>)

  datatype TransferEvent = TransferEvent(
    schemaVersion: string,
    eventType: string,
    eventId: string,
    correlationId: string,
    idempotencyKey: string,
    occurredAt: string,
    source: Source,
    file: FileMeta,
    destinations: seq<Destination>,
    retry: Option<RetryInfo>)

  /** What uuid.UUID and datetime.fromisoformat accept; their own grammars are not modelled. */
  datatype Validators = Validators(isUuid: string -> bool, isTimestamp: string -> bool)

  /** `$` in the patterns also matches before one final line feed. */
  function Chomp(s: string): string {
    if s != "" && s[|s| - 1] == '\n' then s[..|s| - 1] else s
  }

  predicate IsVersion(v: string) {
    var k := Decimal.Span(v);
    && 0 < k < |v|
    && v[k] == '.'
    && var minor := Chomp(v[k + 1..]);
       minor != "" && forall c :: c in minor ==> Decimal.IsDigit(c)
  }

  predicate IsSha256(s: string) {
    KeyEncoding.IsChecksum(Chomp(s))
  }

  predicate IsIdempotencyKey(s: string) {
    "sha256:" <= s && IsSha256(s[7..])
  }

  predicate ValidDestination(d: Destination) {
    d.provider == "aws-s3" || d.provider == "gcp-gcs"
  }

  predicate ValidRetry(r: RetryInfo) {
    r.attempt >= 1 && r.maxAttempts >= 1
  }

  /** What the model accepts on construction and on reading. */
  predicate WellFormed(v: Validators, e: TransferEvent) {
    && IsVersion(e.schemaVersion)
    && e.eventType == "file.transfer.requested"
    && v.isUuid(e.eventId)
    && v.isUuid(e.correlationId)
    && IsIdempotencyKey(e.idempotencyKey)
    && v.isTimestamp(e.occurredAt)
    && e.source.provider == "sftp"
    && e.file.sizeBytes >= 0
    && IsSha256(e.file.checksumSha256)
    && e.destinations != []
    && (forall d :: d in e.destinations ==> ValidDestination(d))
    && (e.retry.Some? ==> ValidRetry(e.retry.value))
  }

  function SchemaMajor(e: TransferEvent): nat
    requires IsVersion(e.schemaVersion)
  {
    Decimal.Read(e.schemaVersion[..Decimal.Span(e.schemaVersion)])
  }

  /** assert_supported returns normally. */
  predicate Supported(e: TransferEvent) {
    IsVersion(e.schemaVersion) && SchemaMajor(e) == SUPPORTED_SCHEMA_MAJOR
  }

  /** The attempts already recorded on an event. */
  function Attempt(e: TransferEvent): int {
    if e.retry.Some? then e.retry.value.attempt else 0
  }

  /** with_retry: a copy with a new retry block, or None where RetryInfo refuses it. */
  function WithRetry(e: TransferEvent, attempt: int, maxAttempts: int, lastError: string): Option<TransferEvent> {
    var retry := RetryInfo(attempt, maxAttempts, Some(lastError));
    if ValidRetry(retry) then Some(e.(retry := Some(retry))) else None
  }

  /** Two copies of one event: they differ at most in the retry block. */
  predicate SameButRetry(a: TransferEvent, b: TransferEvent) {
    a.(retry := None) == b.(retry := None)
  }

  // What the patterns and limits accept, in plain words

  predicate Digits(s: string) {
    s != "" && forall c :: c in s ==> '0' <= c <= '9'
  }

  predicate Digest(s: string) {
    |s| == 64 && forall c :: c in s ==> '0' <= c <= '9' || 'a' <= c <= 'f'
  }

  /** Two numbers with a dot between them, and perhaps one line feed. */
  predicate Dotted(v: string, major: string, minor: string) {
    Digits(major) && Digits(minor) && (v == major + "." + minor || v == major + "." + minor + "\n")
  }

  lemma VersionExactly(v: string)
    ensures IsVersion(v) <==> exists major: string, minor: string :: Dotted(v, major, minor)
  {
    if IsVersion(v) {
      HasParts(v);
    }
    if major: string, minor: string :| Dotted(v, major, minor) {
      DottedIsVersion(v, major, minor);
    }
  }

  lemma HasParts(v: string)
    requires IsVersion(v)
    ensures exists minor: string :: Dotted(v, v[..Decimal.Span(v)], minor)
  {
    var k := Decimal.Span(v);
    var minor := Chomp(v[k + 1..]);
    assert v == v[..k] + "." + v[k + 1..];
    assert v[k + 1..] == minor || v[k + 1..] == minor + "\n";
    assert v == v[..k] + "." + minor || v == v[..k] + "." + minor + "\n";
    assert Dotted(v, v[..k], minor);
  }

  lemma Chomped(s: string)
    requires Digits(s)
    ensures Chomp(s) == s && Chomp(s + "\n") == s
  {
    assert s[|s| - 1] in s;
  }

  lemma DottedIsVersion(v: string, major: string, minor: string)
    requires Dotted(v, major, minor)
    ensures IsVersion(v) && Decimal.Span(v) == |major| && v[..|major|] == major
  {
    hide Decimal.Span, Chomp;
    Chomped(minor);
    var tail := if v == major + "." + minor then minor else minor + "\n";
    assert v == major + ("." + tail);
    Decimal.SpanExact(major, "." + tail);
    assert v[|major| + 1..] == tail;
  }

  /** The prefix and then a digest. */
  lemma KeyExactly(s: string)
    ensures IsIdempotencyKey(s) <==> exists h: string :: Digest(h) && (s == "sha256:" + h || s == "sha256:" + h + "\n")
  {
    hide IsSha256, Digest;
    if IsIdempotencyKey(s) {
      ChecksumExactly(s[7..]);
      assert s == "sha256:" + s[7..];
      var h: string :| Digest(h) && (s[7..] == h || s[7..] == h + "\n");
      assert s == "sha256:" + h || s == "sha256:" + h + "\n";
    }
    if h: string :| Digest(h) && (s == "sha256:" + h || s == "sha256:" + h + "\n") {
      ChecksumExactly(s[7..]);
      assert s[7..] == h || s[7..] == h + "\n";
    }
  }

  /** Sixty-four hexadecimal digits in small letters, and perhaps one line feed. */
  lemma ChecksumExactly(s: string)
    ensures IsSha256(s) <==> exists h: string :: Digest(h) && (s == h || s == h + "\n")
  {
    if IsSha256(s) {
      assert Digest(Chomp(s)) && (s == Chomp(s) || s == Chomp(s) + "\n");
    }
    if h: string :| Digest(h) && (s == h || s == h + "\n") {
      assert h[63] in h;
      assert Chomp(s) == h;
    }
  }

  /** The first number is 1, with zeros in front or without. */
  lemma SupportedExactly(e: TransferEvent)
    ensures Supported(e) <==> exists zeros: string, minor: string ::
                                (forall c :: c in zeros ==> c == '0') && Dotted(e.schemaVersion, zeros + "1", minor)
  {
    var v := e.schemaVersion;
    hide IsVersion, Dotted, Decimal.Read, Decimal.Span;
    if Supported(e) {
      HasParts(v);
      var major := v[..Decimal.Span(v)];
      var minor: string :| Dotted(v, major, minor);
      MajorDigits(v, major, minor);
      ReadsAsOne(major);
      assert major == major[..|major| - 1] + "1";
    }
    if zeros: string, minor: string :| (forall c :: c in zeros ==> c == '0') && Dotted(v, zeros + "1", minor) {
      DottedIsVersion(v, zeros + "1", minor);
      MajorDigits(v, zeros + "1", minor);
      ReadsAsOne(zeros + "1");
      assert (zeros + "1")[..|zeros|] == zeros;
    }
  }

  lemma MajorDigits(v: string, major: string, minor: string)
    requires Dotted(v, major, minor)
    ensures Digits(major)
  {
  }

  lemma ReadsAsOne(major: string)
    requires Digits(major)
    ensures var n := |major| - 1;
            Decimal.Read(major) == 1 <==> major[n] == '1' && forall c :: c in major[..n] ==> c == '0'
  {
    var n := |major| - 1;
    hide Decimal.Read;
    assert major == major[..n] + [major[n]] && major[n] in major;
    LastDigit(major);
    ReadsAsZero(major[..n]);
  }

  lemma LastDigit(s: string)
    requires s != "" && forall c :: c in s ==> Decimal.IsDigit(c)
    ensures forall c :: c in s[..|s| - 1] ==> Decimal.IsDigit(c)
    ensures Decimal.IsDigit(s[|s| - 1])
    ensures Decimal.Read(s) == Decimal.Read(s[..|s| - 1]) * 10 + (s[|s| - 1] as int - '0' as int)
  {
    assert s[|s| - 1] in s;
  }

  lemma {:induction false} ReadsAsZero(s: string)
    requires forall c :: c in s ==> Decimal.IsDigit(c)
    ensures Decimal.Read(s) == 0 <==> forall c :: c in s ==> c == '0'
  {
    if s != [] {
      hide Decimal.Read;
      var n := |s| - 1;
      LastDigit(s);
      ReadsAsZero(s[..n]);
      assert s == s[..n] + [s[n]];
      assert s[n] in s && forall c :: c in s[..n] ==> c in s;
      assert forall c :: c in s ==> c in s[..n] || c == s[n];
    } else {
      assert Decimal.Read(s) == 0;
    }
  }

  /** The events that the model accepts on construction and on reading, field by field. */
  lemma AcceptedExactly(v: Validators, e: TransferEvent)
    ensures WellFormed(v, e) <==>
            && (exists major: string, minor: string :: Dotted(e.schemaVersion, major, minor))
            && e.eventType == "file.transfer.requested"
            && v.isUuid(e.eventId) && v.isUuid(e.correlationId) && v.isTimestamp(e.occurredAt)
            && (exists h: string :: Digest(h)
                  && (e.idempotencyKey == "sha256:" + h || e.idempotencyKey == "sha256:" + h + "\n"))
            && e.source.provider == "sftp"
            && e.file.sizeBytes >= 0
            && (exists h: string :: Digest(h) && (e.file.checksumSha256 == h || e.file.checksumSha256 == h + "\n"))
            && |e.destinations| >= 1
            && (forall i :: 0 <= i < |e.destinations| ==>
                  e.destinations[i].provider == "aws-s3" || e.destinations[i].provider == "gcp-gcs")
            && (e.retry.Some? ==> e.retry.value.attempt >= 1 && e.retry.value.maxAttempts >= 1)
  {
    hide IsVersion, IsSha256, IsIdempotencyKey, Dotted, Digest;
    VersionExactly(e.schemaVersion);
    KeyExactly(e.idempotencyKey);
    ChecksumExactly(e.file.checksumSha256);
    assert forall i :: 0 <= i < |e.destinations| ==> e.destinations[i] in e.destinations;
  }
}

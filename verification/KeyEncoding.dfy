/** The idempotency key and the streamed checksum (worker/src/utils.py). */
module KeyEncoding {
  import opened Common
  import Decimal
  import Utf8

  const CHUNK_SIZE: nat := 1024 * 1024

  predicate IsHex(c: char) {
    '0' <= c <= '9' || 'a' <= c <= 'f'
  }

  /** What hexdigest() of SHA-256 returns. */
  predicate IsChecksum(s: string) {
    |s| == 64 && forall c :: c in s ==> IsHex(c)
  }

  /** The text that is authenticated: path, size and checksum joined by bars. */
  function Message(path: string, size: nat, checksum: string): string {
    path + "|" + Decimal.Print(size) + "|" + checksum
  }

  /** The number of digits at the end of `s`. */
  function TrailingDigits(s: string): (k: nat)
    ensures k <= |s|
    ensures forall c :: c in s[|s| - k..] ==> Decimal.IsDigit(c)
  {
    if s == [] || !Decimal.IsDigit(s[|s| - 1]) then
      0
    else
      var init := s[..|s| - 1];
      var k := 1 + TrailingDigits(init);
      assert s[|s| - k..] == init[|init| - (k - 1)..] + [s[|s| - 1]];
      k
  }

  lemma OneMoreDigit(s: string, c: char)
    requires Decimal.IsDigit(c)
    ensures TrailingDigits(s + [c]) == TrailingDigits(s) + 1
  {
    assert (s + [c])[..|s|] == s;
  }

  lemma {:induction false} TrailingDigitsExact(rest: string, digits: string)
    requires forall c :: c in digits ==> Decimal.IsDigit(c)
    requires rest == [] || !Decimal.IsDigit(rest[|rest| - 1])
    ensures TrailingDigits(rest + digits) == |digits|
  {
    if digits == [] {
      assert rest + digits == rest;
    } else {
      hide TrailingDigits, Decimal.IsDigit;
      var n := |digits| - 1;
      assert digits[n] in digits && forall c :: c in digits[..n] ==> c in digits;
      TrailingDigitsExact(rest, digits[..n]);
      OneMoreDigit(rest + digits[..n], digits[n]);
      AllButLast(rest, digits);
    }
  }

  lemma AllButLast(a: string, b: string)
    requires b != []
    ensures a + b == a + b[..|b| - 1] + [b[|b| - 1]]
  {
  }

  /** Reads a message from the right: 64 characters of checksum, a bar, digits, a bar, and the path is the rest. */
  function Parse(message: string): Option<(string, nat, string)> {
    if |message| < 65 || message[|message| - 65] != '|' then
      None
    else
      var sized := message[..|message| - 65];
      var k := TrailingDigits(sized);
      if k == 0 || k == |sized| || sized[|sized| - k - 1] != '|' then
        None
      else
        Some((sized[..|sized| - k - 1], Decimal.Read(sized[|sized| - k..]), message[|message| - 64..]))
  }

  /** Reading from the right recovers the triple, whatever bars the path contains. */
  lemma ParseMessage(path: string, size: nat, checksum: string)
    requires |checksum| == 64
    ensures Parse(Message(path, size, checksum)) == Some((path, size, checksum))
  {
    hide Message, TrailingDigits, Decimal.Print, Decimal.Read;
    var m, digits := Message(path, size, checksum), Decimal.Print(size);
    var sized := path + "|" + digits;
    MessageSlices(path, size, checksum);
    TrailingDigitsExact(path + "|", digits);
    SizedSlices(path, digits);
    Decimal.ReadPrint(size);
  }

  lemma MessageSlices(path: string, size: nat, checksum: string)
    requires |checksum| == 64
    ensures var m := Message(path, size, checksum);
            && |m| >= 65
            && m[..|m| - 65] == path + "|" + Decimal.Print(size)
            && m[|m| - 65] == '|'
            && m[|m| - 64..] == checksum
  {
    hide Decimal.Print;
    var sized := path + "|" + Decimal.Print(size);
    assert Message(path, size, checksum) == sized + "|" + checksum;
  }

  lemma SizedSlices(path: string, digits: string)
    ensures var sized := path + "|" + digits;
            && sized[|sized| - |digits|..] == digits
            && sized[..|sized| - |digits| - 1] == path
            && sized[|sized| - |digits| - 1] == '|'
  {
  }

  /** The keyed digest and the plain digest are opaque; what the theorems need of them is named below. */
  datatype Hashes = Hashes(hmac: Content -> string, sha256: Content -> string)

  /** compute_idempotency_key, under the worker's secret. */
  function IdempotencyKey(h: Hashes, path: string, size: nat, checksum: string): string {
    "sha256:" + h.hmac(Utf8.Encode(Message(path, size, checksum)))
  }

  /** The key of a file: its path, its size and the checksum of its bytes. */
  function KeyOf(h: Hashes, path: string, content: Content): string {
    IdempotencyKey(h, path, |content|, h.sha256(content))
  }

  datatype File = File(path: string, content: Content)

  /** What the HMAC of a file is taken of. */
  function Authenticated(h: Hashes, f: File): Content {
    Utf8.Encode(Message(f.path, |f.content|, h.sha256(f.content)))
  }

  /** Hypothesis: on the given files neither digest collides, and SHA-256 prints as 64 hexadecimal characters. */
  ghost predicate CollisionFree(h: Hashes, files: set<File>) {
    && (forall f :: f in files ==> IsChecksum(h.sha256(f.content)))
    && (forall f, g :: f in files && g in files && h.sha256(f.content) == h.sha256(g.content) ==> f.content == g.content)
    && (forall f, g :: f in files && g in files && h.hmac(Authenticated(h, f)) == h.hmac(Authenticated(h, g)) ==>
          Authenticated(h, f) == Authenticated(h, g))
  }

  /** Equal authenticated bytes come from equal triples, so equal keys do unless the HMAC collides on them. */
  lemma KeyDeterminesTriple(h: Hashes, path: string, size: nat, checksum: string,
                            path': string, size': nat, checksum': string)
    requires IsChecksum(checksum) && IsChecksum(checksum')
    requires var a, b := Utf8.Encode(Message(path, size, checksum)), Utf8.Encode(Message(path', size', checksum'));
             h.hmac(a) == h.hmac(b) ==> a == b
    requires IdempotencyKey(h, path, size, checksum) == IdempotencyKey(h, path', size', checksum')
    ensures path == path' && size == size' && checksum == checksum'
  {
    var m, m' := Message(path, size, checksum), Message(path', size', checksum');
    assert ("sha256:" + h.hmac(Utf8.Encode(m)))[7..] == h.hmac(Utf8.Encode(m));
    assert ("sha256:" + h.hmac(Utf8.Encode(m')))[7..] == h.hmac(Utf8.Encode(m'));
    Utf8.EncodeInjective(m, m');
    ParseMessage(path, size, checksum);
    ParseMessage(path', size', checksum');
  }

  /** Two files share a key exactly when they have the same path and the same bytes. */
  lemma KeyDeterminesFile(h: Hashes, files: set<File>, f: File, g: File)
    requires CollisionFree(h, files) && f in files && g in files
    ensures KeyOf(h, f.path, f.content) == KeyOf(h, g.path, g.content) <==> f == g
  {
    if KeyOf(h, f.path, f.content) == KeyOf(h, g.path, g.content) {
      KeyDeterminesTriple(h, f.path, |f.content|, h.sha256(f.content), g.path, |g.content|, h.sha256(g.content));
    }
  }

  /** sha256_file: the digest of the chunks read one after the other is the digest of the file. */
  method Sha256File(h: Hashes, file: Content) returns (checksum: string)
    ensures checksum == h.sha256(file)
  {
    var absorbed: Content := [];
    var position := 0;
    while position < |file|
      invariant position <= |file|
      invariant absorbed == file[..position]
    {
      var end := if position + CHUNK_SIZE < |file| then position + CHUNK_SIZE else |file|;
      var chunk := file[position..end];
      absorbed := absorbed + chunk;
      position := end;
    }
    assert file[..position] == file;
    checksum := h.sha256(absorbed);
  }
}
